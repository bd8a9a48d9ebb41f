/** Deterministic vault spending rules: credence/vault/rules.py.  Times are in microseconds. */
module Rules {
  import opened Tables
  import opened Statuses

  const SECOND := 1_000_000
  const VELOCITY_WINDOW := 600 * SECOND
  const VELOCITY_MAX := 5
  const DAY := 86_400 * SECOND

  datatype AgentStatus = AgentActive | AgentFrozen | AgentRevoked

  datatype Reason =
    | IdempotencyKeyRequired | AgentIsFrozen | PassportIsRevoked
    | VaultIsFrozen | VaultIsClosed | VaultIsExpired | CurrencyMismatch
    | TransactionLimitExceeded | TaskLimitExceeded | DailyLimitExceeded
    | VendorNotAllowed | PurposeMismatch | TxnCountExceeded | VelocityExceeded | SplitPatternDetected

  datatype VaultLimits = VaultLimits(
    status: VaultStatus, agentStatus: AgentStatus, currency: string,
    totalLimit: int, spent: int, perTransactionLimit: int, dailyLimit: int, spentToday: int,
    allowedVendors: set<string>, vendorPurposes: map<string, set<string>>,
    expiresAt: Option<int>, transactionCount: int, maxTransactions: int,
    velocityWindow: int, velocityMax: int)

  datatype RecentSpend = RecentSpend(vendor: string, amount: int, at: int)

  datatype SpendProposal = SpendProposal(
    vendor: string, amount: int, currency: string, purpose: string, idempotencyKey: string)

  function SpendAmount(r: RecentSpend): int { r.amount }

  function InWindow(recent: seq<RecentSpend>, start: int): seq<RecentSpend> {
    if recent == [] then []
    else
      var r := recent[|recent| - 1];
      InWindow(recent[..|recent| - 1], start) + if r.at >= start then [r] else []
  }

  function ToVendor(recent: seq<RecentSpend>, vendor: string): seq<RecentSpend> {
    if recent == [] then []
    else
      var r := recent[|recent| - 1];
      ToVendor(recent[..|recent| - 1], vendor) + if r.vendor == vendor then [r] else []
  }

  /** The recent activity the velocity and anti-splitting controls look at: spends in the
      window, those of them to the proposal's vendor, and what the latter add up to. */
  datatype Pace = Pace(count: nat, sameVendor: nat, sameVendorTotal: int)

  function PaceOf(v: VaultLimits, vendor: string, recent: seq<RecentSpend>, now: int): Pace {
    var inWindow := InWindow(recent, now - v.velocityWindow);
    var same := ToVendor(inWindow, vendor);
    Pace(|inWindow|, |same|, Sum(same, SpendAmount))
  }

  /** When a control is violated. */
  predicate Violated(r: Reason, v: VaultLimits, p: SpendProposal, pace: Pace, now: int) {
    match r
    case IdempotencyKeyRequired => p.idempotencyKey == ""
    case AgentIsFrozen => v.agentStatus == AgentFrozen
    case PassportIsRevoked => v.agentStatus == AgentRevoked
    case VaultIsFrozen => v.status == Frozen
    case VaultIsClosed => v.status !in {Active, Spending, Frozen, Expired}
    case VaultIsExpired => v.status == Expired || (v.expiresAt.Some? && v.expiresAt.value <= now)
    case CurrencyMismatch => p.currency != v.currency
    case TransactionLimitExceeded => p.amount <= 0 || p.amount > v.perTransactionLimit
    case TaskLimitExceeded => p.amount > 0 && v.spent + p.amount > v.totalLimit
    case DailyLimitExceeded => p.amount > 0 && v.spentToday + p.amount > v.dailyLimit
    case VendorNotAllowed => p.vendor !in v.allowedVendors
    case PurposeMismatch =>
      p.vendor in v.allowedVendors && p.vendor in v.vendorPurposes && p.purpose !in v.vendorPurposes[p.vendor]
    case TxnCountExceeded => v.transactionCount + 1 > v.maxTransactions
    case VelocityExceeded => pace.count + 1 > v.velocityMax
    case SplitPatternDetected =>
      pace.sameVendor >= 2 && pace.sameVendorTotal + Max(p.amount, 0) > v.perTransactionLimit
  }

  ghost function Violations(v: VaultLimits, p: SpendProposal, pace: Pace, now: int): set<Reason> {
    set r: Reason | Violated(r, v, p, pace, now)
  }

  /** What an allowed proposal may rely on. */
  predicate Permitted(v: VaultLimits, p: SpendProposal, pace: Pace, now: int) {
    && p.idempotencyKey != ""
    && v.agentStatus == AgentActive
    && Spendable(v.status)
    && (v.expiresAt.Some? ==> now < v.expiresAt.value)
    && p.currency == v.currency
    && 0 < p.amount <= v.perTransactionLimit
    && v.spent + p.amount <= v.totalLimit
    && v.spentToday + p.amount <= v.dailyLimit
    && p.vendor in v.allowedVendors
    && (p.vendor in v.vendorPurposes ==> p.purpose in v.vendorPurposes[p.vendor])
    && v.transactionCount < v.maxTransactions
    && pace.count < v.velocityMax
    && (pace.sameVendor >= 2 ==> pace.sameVendorTotal + p.amount <= v.perTransactionLimit)
  }

  lemma UnopposedStanding(v: VaultLimits, p: SpendProposal, pace: Pace, now: int)
    requires Violations(v, p, pace, now) == {}
    ensures p.idempotencyKey != "" && v.agentStatus == AgentActive && Spendable(v.status)
    ensures (v.expiresAt.Some? ==> now < v.expiresAt.value) && p.currency == v.currency
  {
    assert IdempotencyKeyRequired !in Violations(v, p, pace, now);
    assert AgentIsFrozen !in Violations(v, p, pace, now);
    assert PassportIsRevoked !in Violations(v, p, pace, now);
    assert VaultIsFrozen !in Violations(v, p, pace, now);
    assert VaultIsClosed !in Violations(v, p, pace, now);
    assert VaultIsExpired !in Violations(v, p, pace, now);
    assert CurrencyMismatch !in Violations(v, p, pace, now);
  }

  lemma UnopposedSpend(v: VaultLimits, p: SpendProposal, pace: Pace, now: int)
    requires Violations(v, p, pace, now) == {}
    ensures 0 < p.amount <= v.perTransactionLimit && v.spent + p.amount <= v.totalLimit
    ensures v.spentToday + p.amount <= v.dailyLimit && p.vendor in v.allowedVendors
    ensures p.vendor in v.vendorPurposes ==> p.purpose in v.vendorPurposes[p.vendor]
    ensures v.transactionCount < v.maxTransactions && pace.count < v.velocityMax
    ensures pace.sameVendor >= 2 ==> pace.sameVendorTotal + p.amount <= v.perTransactionLimit
  {
    assert TransactionLimitExceeded !in Violations(v, p, pace, now);
    assert TaskLimitExceeded !in Violations(v, p, pace, now);
    assert DailyLimitExceeded !in Violations(v, p, pace, now);
    assert VendorNotAllowed !in Violations(v, p, pace, now);
    assert PurposeMismatch !in Violations(v, p, pace, now);
    assert TxnCountExceeded !in Violations(v, p, pace, now);
    assert VelocityExceeded !in Violations(v, p, pace, now);
    assert SplitPatternDetected !in Violations(v, p, pace, now);
  }

  lemma NoViolationMeansPermitted(v: VaultLimits, p: SpendProposal, pace: Pace, now: int)
    ensures Violations(v, p, pace, now) == {} <==> Permitted(v, p, pace, now)
  {
    if Violations(v, p, pace, now) == {} {
      UnopposedStanding(v, p, pace, now);
      UnopposedSpend(v, p, pace, now);
    }
    if Permitted(v, p, pace, now) {
      forall r: Reason ensures !Violated(r, v, p, pace, now) {
      }
    }
  }

  /** The four stretches of the evaluation, in order. */
  datatype Stretch = Caller | Standing | Budget | Tempo

  function StretchOf(r: Reason): Stretch {
    match r
    case IdempotencyKeyRequired => Caller
    case AgentIsFrozen => Caller
    case PassportIsRevoked => Caller
    case TransactionLimitExceeded => Budget
    case TaskLimitExceeded => Budget
    case DailyLimitExceeded => Budget
    case VendorNotAllowed => Budget
    case PurposeMismatch => Budget
    case TxnCountExceeded => Tempo
    case VelocityExceeded => Tempo
    case SplitPatternDetected => Tempo
    case _ => Standing
  }

  /** `reasons` lists the violated controls of one stretch, each once. */
  ghost predicate Exact(reasons: seq<Reason>, stretch: Stretch, v: VaultLimits, p: SpendProposal, pace: Pace,
                        now: int) {
    && (forall r :: r in reasons <==> StretchOf(r) == stretch && Violated(r, v, p, pace, now))
    && (forall i, k :: 0 <= i < k < |reasons| ==> reasons[i] != reasons[k])
  }

  method CallerReasons(v: VaultLimits, p: SpendProposal, ghost now: int, ghost pace: Pace)
    returns (reasons: seq<Reason>)
    ensures Exact(reasons, Caller, v, p, pace, now)
  {
    reasons := [];
    if p.idempotencyKey == "" {
      reasons := reasons + [IdempotencyKeyRequired];
    }

    if v.agentStatus == AgentFrozen {
      reasons := reasons + [AgentIsFrozen];
    } else if v.agentStatus == AgentRevoked {
      reasons := reasons + [PassportIsRevoked];
    }
  }

  method StandingReasons(v: VaultLimits, p: SpendProposal, now: int, ghost pace: Pace) returns (reasons: seq<Reason>)
    ensures Exact(reasons, Standing, v, p, pace, now)
  {
    reasons := [];
    if v.status == Frozen {
      reasons := reasons + [VaultIsFrozen];
    } else if v.status in {Closed, Repaid, Defaulted} {
      reasons := reasons + [VaultIsClosed];
    } else if v.status == Expired {
      reasons := reasons + [VaultIsExpired];
    } else if !Spendable(v.status) {
      reasons := reasons + [VaultIsClosed];
    }

    if v.expiresAt.Some? && v.expiresAt.value <= now {
      if VaultIsExpired !in reasons {
        reasons := reasons + [VaultIsExpired];
      }
    }

    if p.currency != v.currency {
      reasons := reasons + [CurrencyMismatch];
    }
  }

  method BudgetReasons(v: VaultLimits, p: SpendProposal, ghost now: int, ghost pace: Pace)
    returns (reasons: seq<Reason>)
    ensures Exact(reasons, Budget, v, p, pace, now)
  {
    reasons := [];
    if p.amount <= 0 {
      reasons := reasons + [TransactionLimitExceeded];
    } else {
      if p.amount > v.perTransactionLimit {
        reasons := reasons + [TransactionLimitExceeded];
      }
      if v.spent + p.amount > v.totalLimit {
        reasons := reasons + [TaskLimitExceeded];
      }
      if v.spentToday + p.amount > v.dailyLimit {
        reasons := reasons + [DailyLimitExceeded];
      }
    }

    if p.vendor !in v.allowedVendors {
      reasons := reasons + [VendorNotAllowed];
    } else if p.vendor in v.vendorPurposes && p.purpose !in v.vendorPurposes[p.vendor] {
      reasons := reasons + [PurposeMismatch];
    }
  }

  method TempoReasons(v: VaultLimits, p: SpendProposal, recent: seq<RecentSpend>, now: int)
    returns (reasons: seq<Reason>)
    ensures Exact(reasons, Tempo, v, p, PaceOf(v, p.vendor, recent, now), now)
  {
    var inWindow := InWindow(recent, now - v.velocityWindow);
    var sameVendor := ToVendor(inWindow, p.vendor);
    reasons := PaceReasons(v, p, Pace(|inWindow|, |sameVendor|, Sum(sameVendor, SpendAmount)), now);
  }

  method PaceReasons(v: VaultLimits, p: SpendProposal, pace: Pace, ghost now: int) returns (reasons: seq<Reason>)
    ensures Exact(reasons, Tempo, v, p, pace, now)
  {
    reasons := [];
    if v.transactionCount + 1 > v.maxTransactions {
      reasons := reasons + [TxnCountExceeded];
    }
    if pace.count + 1 > v.velocityMax {
      reasons := reasons + [VelocityExceeded];
    }
    if pace.sameVendor >= 2 && pace.sameVendorTotal + Max(p.amount, 0) > v.perTransactionLimit {
      reasons := reasons + [SplitPatternDetected];
    }
  }

  /** `evaluate_proposal`: collects every violated control, each once, in evaluation order. */
  method EvaluateProposal(v: VaultLimits, p: SpendProposal, recent: seq<RecentSpend>, now: int)
    returns (reasons: seq<Reason>)
    ensures var pace := PaceOf(v, p.vendor, recent, now);
      && (forall r :: r in reasons <==> Violated(r, v, p, pace, now))
      && (reasons == [] <==> Permitted(v, p, pace, now))
    ensures forall i, k :: 0 <= i < k < |reasons| ==> reasons[i] != reasons[k]
  {
    ghost var pace := PaceOf(v, p.vendor, recent, now);
    var caller := CallerReasons(v, p, now, pace);
    var standing := StandingReasons(v, p, now, pace);
    var budget := BudgetReasons(v, p, now, pace);
    var tempo := TempoReasons(v, p, recent, now);
    reasons := caller + standing + budget + tempo;
    AllStretches(caller, standing, budget, tempo, v, p, pace, now);
  }

  lemma AllStretches(caller: seq<Reason>, standing: seq<Reason>, budget: seq<Reason>, tempo: seq<Reason>,
                     v: VaultLimits, p: SpendProposal, pace: Pace, now: int)
    requires Exact(caller, Caller, v, p, pace, now)
    requires Exact(standing, Standing, v, p, pace, now)
    requires Exact(budget, Budget, v, p, pace, now)
    requires Exact(tempo, Tempo, v, p, pace, now)
    ensures var reasons := caller + standing + budget + tempo;
      && (forall r :: r in reasons <==> Violated(r, v, p, pace, now))
      && (reasons == [] <==> Permitted(v, p, pace, now))
      && (forall i, k :: 0 <= i < k < |reasons| ==> reasons[i] != reasons[k])
  {
    var reasons := caller + standing + budget + tempo;
    forall r ensures r in reasons <==> Violated(r, v, p, pace, now) {
      assert r in reasons <==> r in caller || r in standing || r in budget || r in tempo;
    }
    NoneMeansPermitted(reasons, v, p, pace, now);
    Joined(caller, standing, Caller, Standing);
    Joined(budget, tempo, Budget, Tempo);
    Apart(caller, budget, Caller, Budget);
    Apart(caller, tempo, Caller, Tempo);
    Apart(standing, budget, Standing, Budget);
    Apart(standing, tempo, Standing, Tempo);
    assert reasons == (caller + standing) + (budget + tempo);
  }

  lemma NoneMeansPermitted(reasons: seq<Reason>, v: VaultLimits, p: SpendProposal, pace: Pace, now: int)
    requires forall r :: r in reasons <==> Violated(r, v, p, pace, now)
    ensures reasons == [] <==> Permitted(v, p, pace, now)
  {
    NoViolationMeansPermitted(v, p, pace, now);
    if reasons == [] {
      assert Violations(v, p, pace, now) == {};
    } else {
      assert reasons[0] in Violations(v, p, pace, now);
    }
  }

  predicate Once(reasons: seq<Reason>) { forall i, k :: 0 <= i < k < |reasons| ==> reasons[i] != reasons[k] }

  lemma Joined(a: seq<Reason>, b: seq<Reason>, x: Stretch, y: Stretch)
    requires x != y && Once(a) && Once(b)
    requires (forall r :: r in a ==> StretchOf(r) == x) && (forall r :: r in b ==> StretchOf(r) == y)
    ensures Once(a + b)
  {
    Apart(a, b, x, y);
  }

  lemma Apart(a: seq<Reason>, b: seq<Reason>, x: Stretch, y: Stretch)
    requires x != y
    requires (forall r :: r in a ==> StretchOf(r) == x) && (forall r :: r in b ==> StretchOf(r) == y)
    ensures forall i, k :: 0 <= i < |a| && 0 <= k < |b| ==> a[i] != b[k]
  {
    forall i, k | 0 <= i < |a| && 0 <= k < |b| ensures a[i] != b[k] {
      assert a[i] in a && b[k] in b;
    }
  }
}
