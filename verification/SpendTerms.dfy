/** What the two spend controls ask, read off the rows: statuses, columns and payment rows with
    the program's own figures, apart from the records and documents the services build from them. */
module SpendTerms {
  import opened Tables
  import opened Statuses
  import opened Records
  import opened Operations
  import opened CreditTerms
  import opened Controls
  import R = Rules
  import P = Policy

  // ----- Payment rows -----

  function PaidSince(vault: nat, since: int): Payment -> int {
    (p: Payment) => if p.vault == vault && p.at >= since then p.amount else 0
  }

  function OneSince(vault: nat, since: int): Payment -> int {
    (p: Payment) => if p.vault == vault && p.at >= since then 1 else 0
  }

  function PaidToSince(vault: nat, vendor: string, since: int): Payment -> int {
    (p: Payment) => if p.vault == vault && p.vendor == vendor && p.at >= since then p.amount else 0
  }

  function OneToSince(vault: nat, vendor: string, since: int): Payment -> int {
    (p: Payment) => if p.vault == vault && p.vendor == vendor && p.at >= since then 1 else 0
  }

  /** The rules see a payment exactly when it belongs to the vault and falls into the period. */
  function Seen(p: Payment, vault: nat, since: int): seq<R.RecentSpend> {
    if p.vault == vault && p.at >= since then [R.RecentSpend(p.vendor, p.amount, p.at)] else []
  }

  lemma SpendStep(earlier: seq<R.RecentSpend>, p: Payment, vault: nat, since: int)
    ensures Sum(earlier + Seen(p, vault, since), R.SpendAmount)
         == Sum(earlier, R.SpendAmount) + PaidSince(vault, since)(p)
  {
    var r := R.RecentSpend(p.vendor, p.amount, p.at);
    if p.vault == vault && p.at >= since {
      SumAppend(earlier, r, R.SpendAmount);
      assert R.SpendAmount(r) == p.amount;
    } else {
      assert earlier + [] == earlier;
    }
  }

  lemma {:induction false} SpendsOnRows(rows: seq<Payment>, vault: nat, since: int)
    ensures Sum(Spends(rows, vault, since), R.SpendAmount) == Sum(rows, PaidSince(vault, since))
    ensures |Spends(rows, vault, since)| == Sum(rows, OneSince(vault, since))
    ensures forall r :: r in Spends(rows, vault, since) ==> r.at >= since
  {
    if rows != [] {
      var n := |rows| - 1;
      SpendsOnRows(rows[..n], vault, since);
      SpendStep(Spends(rows[..n], vault, since), rows[n], vault, since);
    }
  }

  lemma {:induction false} AllInWindow(recent: seq<R.RecentSpend>, start: int)
    requires forall r :: r in recent ==> r.at >= start
    ensures R.InWindow(recent, start) == recent
  {
    if |recent| > 0 {
      var n := |recent| - 1;
      assert recent[n] in recent && recent == recent[..n] + [recent[n]];
      AllInWindow(recent[..n], start);
    }
  }

  lemma ToVendorAppend(recent: seq<R.RecentSpend>, r: R.RecentSpend, vendor: string)
    ensures R.ToVendor(recent + [r], vendor) == R.ToVendor(recent, vendor) + if r.vendor == vendor then [r] else []
  {
    assert (recent + [r])[..|recent|] == recent;
  }

  lemma VendorStep(earlier: seq<R.RecentSpend>, p: Payment, vault: nat, vendor: string, since: int)
    ensures var recent := earlier + Seen(p, vault, since);
      && |R.ToVendor(recent, vendor)| == |R.ToVendor(earlier, vendor)| + OneToSince(vault, vendor, since)(p)
      && Sum(R.ToVendor(recent, vendor), R.SpendAmount)
         == Sum(R.ToVendor(earlier, vendor), R.SpendAmount) + PaidToSince(vault, vendor, since)(p)
  {
    var r := R.RecentSpend(p.vendor, p.amount, p.at);
    if p.vault == vault && p.at >= since {
      ToVendorAppend(earlier, r, vendor);
      assert R.ToVendor(earlier, vendor) + [] == R.ToVendor(earlier, vendor);
      SumAppend(R.ToVendor(earlier, vendor), r, R.SpendAmount);
      assert R.SpendAmount(r) == p.amount;
    } else {
      assert earlier + [] == earlier;
    }
  }

  lemma {:induction false} VendorOnRows(rows: seq<Payment>, vault: nat, vendor: string, since: int)
    ensures var same := R.ToVendor(Spends(rows, vault, since), vendor);
      |same| == Sum(rows, OneToSince(vault, vendor, since))
      && Sum(same, R.SpendAmount) == Sum(rows, PaidToSince(vault, vendor, since))
  {
    if rows != [] {
      var n := |rows| - 1;
      VendorOnRows(rows[..n], vault, vendor, since);
      VendorStep(Spends(rows[..n], vault, since), rows[n], vault, vendor, since);
    }
  }

  // ----- Allowlist rows -----

  /** Row k is the last one of the vendor that names a purpose. */
  ghost predicate LastPurpose(allow: seq<AllowRow>, k: nat, vendor: string) {
    && k < |allow| && allow[k].vendor == vendor && allow[k].purpose.Some?
    && forall m :: k < m < |allow| && allow[m].vendor == vendor ==> allow[m].purpose.None?
  }

  ghost predicate Listed(allow: seq<AllowRow>, vendor: string) {
    exists k :: 0 <= k < |allow| && allow[k].vendor == vendor
  }

  lemma ListedIsInSet(allow: seq<AllowRow>, vendor: string)
    ensures vendor in VendorSet(allow) <==> Listed(allow, vendor)
    ensures vendor in Vendors(allow) <==> Listed(allow, vendor)
  {
    if Listed(allow, vendor) {
      var k :| 0 <= k < |allow| && allow[k].vendor == vendor;
      assert Vendors(allow)[k] == vendor;
    }
  }

  lemma {:induction false} PurposeOnRows(allow: seq<AllowRow>, k: nat, vendor: string)
    requires LastPurpose(allow, k, vendor)
    ensures vendor in VendorPurposes(allow) && VendorPurposes(allow)[vendor] == {allow[k].purpose.value}
  {
    var n := |allow| - 1;
    if k < n {
      assert allow[n].vendor != vendor || allow[n].purpose.None?;
      PurposeOnRows(allow[..n], k, vendor);
    }
  }

  lemma {:induction false} PurposeHasRow(allow: seq<AllowRow>, vendor: string) returns (k: nat)
    requires vendor in VendorPurposes(allow)
    ensures LastPurpose(allow, k, vendor)
  {
    var n := |allow| - 1;
    if allow[n].vendor == vendor && allow[n].purpose.Some? {
      k := n;
    } else {
      k := PurposeHasRow(allow[..n], vendor);
    }
  }

  /** The purpose may be named: no row of the vendor names one, or the last that does names this. */
  ghost predicate PurposeFits(allow: seq<AllowRow>, vendor: string, purpose: string) {
    forall k: nat :: LastPurpose(allow, k, vendor) ==> allow[k].purpose == Some(purpose)
  }

  lemma PurposeFitsMap(allow: seq<AllowRow>, vendor: string, purpose: string)
    ensures PurposeFits(allow, vendor, purpose)
      <==> (vendor in VendorPurposes(allow) ==> purpose in VendorPurposes(allow)[vendor])
  {
    if vendor in VendorPurposes(allow) {
      var k := PurposeHasRow(allow, vendor);
      PurposeOnRows(allow, k, vendor);
    }
    forall k: nat | LastPurpose(allow, k, vendor)
      ensures vendor in VendorPurposes(allow) && VendorPurposes(allow)[vendor] == {allow[k].purpose.value}
    {
      PurposeOnRows(allow, k, vendor);
    }
  }

  // ----- The rules -----

  /** When a rule objects to a spend, on the rows of the vault, its agent and its payments. */
  ghost predicate Objects(r: R.Reason, s: State, q: SpendRequest, now: int)
    requires q.vault < |s.book.vaults|
  {
    var v, a, paid := s.book.vaults[q.vault], s.desk.agents, s.book.payments;
    var day, window := now - now % 86_400_000_000, now - 600_000_000;
    match r
    case IdempotencyKeyRequired => q.key == ""
    case AgentIsFrozen => v.agent < |a| && a[v.agent].status == R.AgentFrozen
    case PassportIsRevoked => v.agent >= |a| || a[v.agent].status == R.AgentRevoked
    case VaultIsFrozen => v.status == Frozen
    case VaultIsClosed => v.status != Active && v.status != Spending && v.status != Frozen && v.status != Expired
    case VaultIsExpired => v.status == Expired || v.expiresAt <= now
    case CurrencyMismatch => q.currency != v.currency
    case TransactionLimitExceeded => q.amount <= 0 || q.amount > v.perTransactionLimit
    case TaskLimitExceeded => q.amount > 0 && v.spent + q.amount > v.totalLimit
    case DailyLimitExceeded => q.amount > 0 && Sum(paid, PaidSince(q.vault, day)) + q.amount > v.dailyLimit
    case VendorNotAllowed => !Listed(v.allow, q.vendor)
    case PurposeMismatch => Listed(v.allow, q.vendor) && !PurposeFits(v.allow, q.vendor, q.purpose)
    case TxnCountExceeded => v.transactionCount >= v.maxTransactions
    case VelocityExceeded => Sum(paid, OneSince(q.vault, window)) >= 5
    case SplitPatternDetected =>
      && Sum(paid, OneToSince(q.vault, q.vendor, window)) >= 2
      && Sum(paid, PaidToSince(q.vault, q.vendor, window)) + Max(q.amount, 0) > v.perTransactionLimit
  }

  /** The pace the rules look at, as sums over payment rows. */
  lemma PaceOnRows(s: State, q: SpendRequest, now: int)
    requires q.vault < |s.book.vaults|
    ensures var paid, window := s.book.payments, now - 600_000_000;
      var pace := PaceNow(s, q, now);
      && pace.count == Sum(paid, OneSince(q.vault, window))
      && pace.sameVendor == Sum(paid, OneToSince(q.vault, q.vendor, window))
      && pace.sameVendorTotal == Sum(paid, PaidToSince(q.vault, q.vendor, window))
  {
    var recent := Spends(s.book.payments, q.vault, now - R.VELOCITY_WINDOW);
    SpendsOnRows(s.book.payments, q.vault, now - R.VELOCITY_WINDOW);
    AllInWindow(recent, now - R.VELOCITY_WINDOW);
    VendorOnRows(s.book.payments, q.vault, q.vendor, now - R.VELOCITY_WINDOW);
  }

  lemma StandingOnRows(r: R.Reason, s: State, q: SpendRequest, now: int)
    requires q.vault < |s.book.vaults| && (R.StretchOf(r) == R.Caller || R.StretchOf(r) == R.Standing)
    ensures Objects(r, s, q, now)
      <==> R.Violated(r, LimitsOf(s, q.vault, now), ProposalOf(q), PaceNow(s, q, now), now)
  {
  }

  lemma DailyOnRows(s: State, q: SpendRequest, now: int)
    requires q.vault < |s.book.vaults|
    ensures LimitsOf(s, q.vault, now).spentToday
         == Sum(s.book.payments, PaidSince(q.vault, now - now % 86_400_000_000))
  {
    SpendsOnRows(s.book.payments, q.vault, now - now % R.DAY);
  }

  lemma AllowlistOnRows(s: State, q: SpendRequest, now: int)
    requires q.vault < |s.book.vaults|
    ensures var limits, allow := LimitsOf(s, q.vault, now), s.book.vaults[q.vault].allow;
      && (q.vendor in limits.allowedVendors <==> Listed(allow, q.vendor))
      && (PurposeFits(allow, q.vendor, q.purpose)
          <==> (q.vendor in limits.vendorPurposes ==> q.purpose in limits.vendorPurposes[q.vendor]))
  {
    ListedIsInSet(s.book.vaults[q.vault].allow, q.vendor);
    PurposeFitsMap(s.book.vaults[q.vault].allow, q.vendor, q.purpose);
  }

  lemma BudgetOnRows(r: R.Reason, s: State, q: SpendRequest, now: int)
    requires q.vault < |s.book.vaults| && R.StretchOf(r) == R.Budget
    ensures Objects(r, s, q, now)
      <==> R.Violated(r, LimitsOf(s, q.vault, now), ProposalOf(q), PaceNow(s, q, now), now)
  {
    if r.DailyLimitExceeded? {
      DailyOnRows(s, q, now);
    } else if r.VendorNotAllowed? || r.PurposeMismatch? {
      AllowlistOnRows(s, q, now);
    }
  }

  lemma TempoOnRows(r: R.Reason, s: State, q: SpendRequest, now: int)
    requires q.vault < |s.book.vaults| && R.StretchOf(r) == R.Tempo
    ensures Objects(r, s, q, now)
      <==> R.Violated(r, LimitsOf(s, q.vault, now), ProposalOf(q), PaceNow(s, q, now), now)
  {
    PaceOnRows(s, q, now);
  }

  /** The reasons the rules give are exactly the objections on the rows. */
  lemma ReasonsOnRows(s: State, q: SpendRequest, now: int)
    requires q.vault < |s.book.vaults|
    ensures forall r :: r in RuleReasons(s, q, now) <==> Objects(r, s, q, now)
  {
    forall r ensures r in RuleReasons(s, q, now) <==> Objects(r, s, q, now) {
      match R.StretchOf(r)
      case Caller => StandingOnRows(r, s, q, now);
      case Standing => StandingOnRows(r, s, q, now);
      case Budget => BudgetOnRows(r, s, q, now);
      case Tempo => TempoOnRows(r, s, q, now);
    }
  }

  // ----- The policy -----

  /** Whole seconds, toward zero. */
  function WholeSecond(t: int): int { if t < 0 then -((-t) / 1_000_000) else t / 1_000_000 }

  /** When the policy denies a spend, on the rows its document is built from. */
  ghost predicate Denies(d: P.Deny, s: State, q: SpendRequest, now: int)
    requires q.vault < |s.book.vaults|
  {
    var v := s.book.vaults[q.vault];
    match d
    case IdentityInvalid => !Identified(s.desk, v.agent, now)
    case WindowUnknown => false
    case AuthorizationExpired => WholeSecond(v.expiresAt) <= WholeSecond(now)
    case AgentNotActive => v.agent >= |s.desk.agents| || s.desk.agents[v.agent].status != R.AgentActive
    case VaultNotSpendable => v.status != Active && v.status != Spending
    case VendorDenied => !Listed(v.allow, q.vendor)
    case AmountsUnknown => q.amount <= 0
    case OverTransactionLimit => 0 < q.amount && v.perTransactionLimit < q.amount
    case OverTaskLimit => 0 < q.amount && v.totalLimit < v.spent + q.amount
    case RiskNotPass => exists r :: Objects(r, s, q, now)
  }

  lemma TextIsActive(a: R.AgentStatus)
    ensures AgentText(a) == P.ACTIVE <==> a == R.AgentActive
  {
    assert "FROZEN"[0] == 'F' && "REVOKED"[0] == 'R' && "ACTIVE"[0] == 'A';
  }

  lemma TextIsSpendable(v: VaultStatus)
    ensures VaultText(v) == P.ACTIVE || VaultText(v) == P.SPENDING <==> v == Active || v == Spending
  {
    if v != Active && v != Spending {
      var text := VaultText(v).s;
      assert text == "CREATED" || text == "FROZEN" || text == "EXPIRED" || text == "TASK_COMPLETED"
          || text == "TASK_FAILED" || text == "REVENUE_RECEIVED" || text == "REPAID" || text == "PARTIALLY_REPAID"
          || text == "DEFAULTED" || text == "CLOSED";
      assert text[0] != 'A' && text[0] != 'S';
      assert "ACTIVE"[0] == 'A' && "SPENDING"[0] == 'S';
    }
  }

  function Reads(v: Vault, status: R.AgentStatus, valid: bool, q: SpendRequest, rulesAllow: bool, now: int): P.Reading {
    P.Reading(P.Bool(valid), P.Int(Seconds(v.expiresAt)), P.Int(Seconds(now)), AgentText(status), VaultText(v.status),
              P.Str(q.vendor), P.List(P.Texts(Vendors(v.allow))), P.Int(q.amount), P.Int(v.perTransactionLimit),
              P.Int(v.spent), P.Int(v.totalLimit), if rulesAllow then P.PASS else P.Str("FAIL"))
  }

  lemma ReadingStanding(d: P.Deny, v: Vault, status: R.AgentStatus, valid: bool, q: SpendRequest, allow: bool, now: int)
    requires P.AboutStanding(d)
    ensures Reads(v, status, valid, q, allow, now).Denied(d) <==>
      match d
      case IdentityInvalid => !valid
      case WindowUnknown => false
      case AuthorizationExpired => WholeSecond(v.expiresAt) <= WholeSecond(now)
      case AgentNotActive => status != R.AgentActive
      case _ => v.status != Active && v.status != Spending
  {
    SecondsOrder(Seconds(now), Seconds(v.expiresAt));
    TextIsActive(status);
    TextIsSpendable(v.status);
  }

  lemma ReadingSpend(d: P.Deny, v: Vault, status: R.AgentStatus, valid: bool, q: SpendRequest, allow: bool, now: int)
    requires !P.AboutStanding(d)
    ensures Reads(v, status, valid, q, allow, now).Denied(d) <==>
      match d
      case VendorDenied => !Listed(v.allow, q.vendor)
      case AmountsUnknown => q.amount <= 0
      case OverTransactionLimit => 0 < q.amount && v.perTransactionLimit < q.amount
      case OverTaskLimit => 0 < q.amount && v.totalLimit < v.spent + q.amount
      case _ => !allow
  {
    TextsMember(Vendors(v.allow), q.vendor);
    ListedIsInSet(v.allow, q.vendor);
    assert "PASS"[0] == 'P' && "FAIL"[0] == 'F';
  }

  lemma PolicyReads(s: State, q: SpendRequest, now: int)
    requires q.vault < |s.book.vaults|
    ensures var v := s.book.vaults[q.vault];
      PolicyDenials(s, q, now)
      == Reads(v, StatusOf(s.desk, v.agent), PassportValid(s.desk, v.agent, now), q, RuleReasons(s, q, now) == {},
               now).Denials()
  {
    var v := s.book.vaults[q.vault];
    ReadDocument(v, StatusOf(s.desk, v.agent), PassportValid(s.desk, v.agent, now), q, RuleReasons(s, q, now) == {},
                 now);
  }

  lemma DenialOnRows(d: P.Deny, s: State, q: SpendRequest, now: int)
    requires q.vault < |s.book.vaults|
    ensures d in PolicyDenials(s, q, now) <==> Denies(d, s, q, now)
  {
    var v := s.book.vaults[q.vault];
    var status, valid := StatusOf(s.desk, v.agent), PassportValid(s.desk, v.agent, now);
    PolicyReads(s, q, now);
    ValidOnRows(s.desk, v.agent, now);
    ReasonsOnRows(s, q, now);
    if P.AboutStanding(d) {
      ReadingStanding(d, v, status, valid, q, RuleReasons(s, q, now) == {}, now);
    } else {
      ReadingSpend(d, v, status, valid, q, RuleReasons(s, q, now) == {}, now);
    }
  }

  /** A spend is allowed: neither control has anything against it. */
  ghost predicate SpendAllowed(s: State, q: SpendRequest, now: int)
    requires q.vault < |s.book.vaults|
  {
    (forall r :: !Objects(r, s, q, now)) && forall d :: !Denies(d, s, q, now)
  }

  lemma AllowedOnRows(s: State, q: SpendRequest, now: int)
    requires q.vault < |s.book.vaults|
    ensures RuleReasons(s, q, now) == {} <==> forall r :: !Objects(r, s, q, now)
    ensures PolicyDenials(s, q, now) == {} <==> forall d :: !Denies(d, s, q, now)
    ensures SpendAllowed(s, q, now) <==>
      && (forall r :: !Objects(r, s, q, now)) && Identified(s.desk, s.book.vaults[q.vault].agent, now)
      && WholeSecond(now) < WholeSecond(s.book.vaults[q.vault].expiresAt)
  {
    ReasonsOnRows(s, q, now);
    forall d ensures d in PolicyDenials(s, q, now) <==> Denies(d, s, q, now) {
      DenialOnRows(d, s, q, now);
    }
    TwoControlsAgree(s, q, now);
    ValidOnRows(s.desk, s.book.vaults[q.vault].agent, now);
  }
}
