/** What underwriting looks at, read off the rows: the passport, the agent's history and what it
    still owes, with the program's own figures, apart from the records the services build. */
module CreditTerms {
  import opened Tables
  import opened Statuses
  import opened Records
  import opened Operations
  import R = Rules
  import U = Underwriting

  // ----- Passports -----

  /** Row k is the agent's latest passport. */
  ghost predicate LatestRow(rows: seq<Passport>, agent: nat, k: nat) {
    k < |rows| && rows[k].agent == agent && forall m :: k < m < |rows| ==> rows[m].agent != agent
  }

  /** What is wrong with the agent's latest passport. */
  ghost predicate Wrong(f: PassportFault, d: Desk, agent: nat, now: int) {
    match f
    case IdentityInvalid => forall k: nat :: LatestRow(d.passports, agent, k) ==> d.passports[k].key != d.signer
    case NotYetValid => exists k: nat :: LatestRow(d.passports, agent, k) && now < d.passports[k].validFrom
    case PassportExpired => exists k: nat :: LatestRow(d.passports, agent, k) && d.passports[k].expiresAt <= now
    case PassportRevoked =>
      exists k: nat :: LatestRow(d.passports, agent, k)
        && (agent >= |d.agents| || d.agents[agent].status == R.AgentRevoked
            || Revocation(agent, None) in d.revocations || Revocation(agent, Some(k)) in d.revocations)
  }

  lemma {:induction false} LatestIsLast(rows: seq<Passport>, agent: nat, k: nat)
    ensures LatestPassport(rows, agent) == Some(k) <==> LatestRow(rows, agent, k)
  {
    if |rows| > 0 {
      var n := |rows| - 1;
      LatestIsLast(rows[..n], agent, k);
      assert LatestRow(rows, agent, k) && k < n ==> LatestRow(rows[..n], agent, k);
      assert rows[n].agent != agent && LatestRow(rows[..n], agent, k) ==> LatestRow(rows, agent, k);
    }
  }

  lemma FaultsOnRows(d: Desk, agent: nat, now: int, f: PassportFault)
    ensures Faulty(f, d, agent, now) <==> Wrong(f, d, agent, now)
  {
    forall k: nat ensures LatestPassport(d.passports, agent) == Some(k) <==> LatestRow(d.passports, agent, k) {
      LatestIsLast(d.passports, agent, k);
    }
  }

  ghost predicate Identified(d: Desk, agent: nat, now: int) { forall f :: !Wrong(f, d, agent, now) }

  lemma ValidOnRows(d: Desk, agent: nat, now: int)
    ensures PassportValid(d, agent, now) <==> Identified(d, agent, now)
  {
    forall f ensures f in PassportFaults(d, agent, now) <==> Wrong(f, d, agent, now) {
      FaultsOnRows(d, agent, now, f);
    }
  }

  // ----- History -----

  function Owed(agent: nat): Vault -> int {
    (v: Vault) => if v.agent == agent && v.status != Repaid && v.status != Closed && v.status != Defaulted
                  then v.principal else 0
  }

  function Finished(agent: nat): Vault -> int {
    (v: Vault) => if v.agent == agent && (v.status == Repaid || v.status == PartiallyRepaid || v.status == Defaulted
                                          || v.status == Closed) then 1 else 0
  }

  function Succeeded(agent: nat): Vault -> int {
    (v: Vault) => if v.agent == agent && (v.status == Repaid || v.status == Closed) then 1 else 0
  }

  predicate Whose(r: Repayment, vaults: seq<Vault>, agent: nat) {
    r.vault < |vaults| && vaults[r.vault].agent == agent
  }

  function Settlement(vaults: seq<Vault>, agent: nat): Repayment -> int {
    (r: Repayment) => if Whose(r, vaults, agent) then 1 else 0
  }

  function SettledInFull(vaults: seq<Vault>, agent: nat): Repayment -> int {
    (r: Repayment) => if Whose(r, vaults, agent) && r.kind == WaterfallRun && r.loss == 0 then 1 else 0
  }

  function Lost(vaults: seq<Vault>, agent: nat): Repayment -> int {
    (r: Repayment) => if Whose(r, vaults, agent) then r.loss else 0
  }

  function Noted(kind: RiskKind, agent: nat): RiskEvent -> int {
    (e: RiskEvent) => if e.kind == kind && e.agent == agent then 1 else 0
  }

  /** Whole days since registration. */
  function AgeInDays(s: State, agent: nat, now: int): int {
    if agent < |s.desk.agents| && now > s.desk.agents[agent].createdAt
    then (now - s.desk.agents[agent].createdAt) / 86_400_000_000 else 0
  }

  /** Parts per million, rounded down. */
  function Share(part: int, whole: int): int { if whole <= 0 then 0 else (part * 1_000_000) / whole }

  lemma {:induction false} VaultsOnRows(vaults: seq<Vault>, agent: nat)
    ensures var own := Where(vaults, VaultAgent, agent);
      && Sum(own, OutstandingRow) == Sum(vaults, Owed(agent))
      && Sum(own, TerminalRow) == Sum(vaults, Finished(agent))
      && Sum(own, SucceededRow) == Sum(vaults, Succeeded(agent))
      && (|own| == 0 <==> forall v :: v in vaults ==> v.agent != agent)
  {
    if |vaults| > 0 {
      var n := |vaults| - 1;
      VaultsOnRows(vaults[..n], agent);
      VaultStep(Where(vaults[..n], VaultAgent, agent), vaults[n], agent);
      assert forall v :: v in vaults <==> v in vaults[..n] || v == vaults[n];
    }
  }

  lemma VaultStep(earlier: seq<Vault>, v: Vault, agent: nat)
    ensures var own := earlier + if v.agent == agent then [v] else [];
      && Sum(own, OutstandingRow) == Sum(earlier, OutstandingRow) + Owed(agent)(v)
      && Sum(own, TerminalRow) == Sum(earlier, TerminalRow) + Finished(agent)(v)
      && Sum(own, SucceededRow) == Sum(earlier, SucceededRow) + Succeeded(agent)(v)
  {
    assert earlier + [] == earlier;
    SumAppend(earlier, v, OutstandingRow);
    SumAppend(earlier, v, TerminalRow);
    SumAppend(earlier, v, SucceededRow);
  }

  lemma {:induction false} RepaymentsOnRows(rows: seq<Repayment>, vaults: seq<Vault>, agent: nat)
    ensures var own := RepaymentsOf(rows, vaults, agent);
      && |own| == Sum(rows, Settlement(vaults, agent))
      && Sum(own, RepaidFullRow) == Sum(rows, SettledInFull(vaults, agent))
      && Sum(own, LossTaken) == Sum(rows, Lost(vaults, agent))
  {
    if |rows| > 0 {
      var n := |rows| - 1;
      RepaymentsOnRows(rows[..n], vaults, agent);
      RepaymentStep(RepaymentsOf(rows[..n], vaults, agent), rows[n], vaults, agent);
    }
  }

  lemma RepaymentStep(earlier: seq<Repayment>, r: Repayment, vaults: seq<Vault>, agent: nat)
    ensures var own := earlier + if r.vault < |vaults| && vaults[r.vault].agent == agent then [r] else [];
      && |own| == |earlier| + Settlement(vaults, agent)(r)
      && Sum(own, RepaidFullRow) == Sum(earlier, RepaidFullRow) + SettledInFull(vaults, agent)(r)
      && Sum(own, LossTaken) == Sum(earlier, LossTaken) + Lost(vaults, agent)(r)
  {
    assert earlier + [] == earlier;
    SumAppend(earlier, r, RepaidFullRow);
    SumAppend(earlier, r, LossTaken);
  }

  lemma {:induction false} RisksOnRows(rows: seq<RiskEvent>, kind: RiskKind, agent: nat)
    ensures RiskCount(rows, kind, agent) == Sum(rows, Noted(kind, agent))
  {
    if |rows| > 0 {
      RisksOnRows(rows[..|rows| - 1], kind, agent);
    }
  }

  /** The features the score reads, as counts and sums over the rows of the agent. */
  lemma FeaturesOnRows(s: State, agent: nat, now: int)
    ensures var f, b := FeaturesOf(s, agent, now), s.book;
      && f.outstanding == Sum(b.vaults, Owed(agent))
      && f.tasksTotal == Sum(b.vaults, Finished(agent)) && f.tasksSucceeded == Sum(b.vaults, Succeeded(agent))
      && f.successRate == Share(Sum(b.vaults, Succeeded(agent)), Sum(b.vaults, Finished(agent)))
      && (f.firstCredit <==> forall v :: v in b.vaults ==> v.agent != agent)
  {
    VaultsOnRows(s.book.vaults, agent);
  }

  lemma RepaymentFeaturesOnRows(s: State, agent: nat, now: int)
    ensures var f, rows, vaults := FeaturesOf(s, agent, now), s.book.repayments, s.book.vaults;
      && f.repaymentsTotal == Sum(rows, Settlement(vaults, agent))
      && f.repaidInFull == Sum(rows, SettledInFull(vaults, agent))
      && f.repaymentRate == Share(Sum(rows, SettledInFull(vaults, agent)), Sum(rows, Settlement(vaults, agent)))
      && f.defaulted == Sum(rows, Lost(vaults, agent))
  {
    RepaymentsOnRows(s.book.repayments, s.book.vaults, agent);
  }

  lemma ConductFeaturesOnRows(s: State, agent: nat, now: int)
    ensures var f := FeaturesOf(s, agent, now);
      && f.blocked == Sum(s.desk.riskEvents, Noted(SpendBlocked, agent))
      && f.violations == Sum(s.desk.riskEvents, Noted(PolicyViolation, agent))
      && f.ageDays == AgeInDays(s, agent, now)
  {
    RisksOnRows(s.desk.riskEvents, SpendBlocked, agent);
    RisksOnRows(s.desk.riskEvents, PolicyViolation, agent);
  }

  // ----- The score -----

  /** The scorecard: base, history or its lack, losses, conduct, age in days and coverage. */
  function Score(first: bool, success: int, repaid: int, lost: int, violations: int, blocked: int, days: int,
                 coverage: int): int {
    var history := if first then 80_000 else -((60_000 * success) / 1_000_000) - (50_000 * repaid) / 1_000_000;
    var conduct := 30_000 * (if violations > 5 then 5 else violations) + 20_000 * (if blocked > 5 then 5 else blocked);
    var raw := 120_000 + history + (if lost > 0 then 150_000 else 0) + conduct + (if days < 7 then 40_000 else 0)
               + if coverage >= 1_500_000 then -40_000 else if coverage < 1_000_000 then 120_000 else 0;
    if raw < 5_000 then 5_000 else if raw > 950_000 then 950_000 else raw
  }

  lemma PdIsScore(f: U.Features, coverage: int)
    ensures U.Pd(f, coverage)
         == Score(f.firstCredit, f.successRate, f.repaymentRate, f.defaulted, f.violations, f.blocked, f.ageDays,
                  coverage)
  {
  }

  /** The probability of default of an application, in parts per million, from the rows. */
  function RiskOnRows(s: State, a: Application, now: int): int {
    var vaults, rows, events := s.book.vaults, s.book.repayments, s.desk.riskEvents;
    Score(forall v :: v in vaults ==> v.agent != a.agent,
          Share(Sum(vaults, Succeeded(a.agent)), Sum(vaults, Finished(a.agent))),
          Share(Sum(rows, SettledInFull(vaults, a.agent)), Sum(rows, Settlement(vaults, a.agent))),
          Sum(rows, Lost(vaults, a.agent)),
          Sum(events, Noted(PolicyViolation, a.agent)), Sum(events, Noted(SpendBlocked, a.agent)),
          AgeInDays(s, a.agent, now),
          if a.requested > 0 then (a.revenue * 1_000_000) / a.requested else 0)
  }

  lemma ScoreOnRows(s: State, a: Application, gateway: Option<Gateway>, matched: bool, now: int)
    ensures U.PdOf(InputsOf(s, a, gateway, matched, now)) == RiskOnRows(s, a, now)
  {
    var f := FeaturesOf(s, a.agent, now);
    FeaturesOnRows(s, a.agent, now);
    RepaymentFeaturesOnRows(s, a.agent, now);
    ConductFeaturesOnRows(s, a.agent, now);
    PdIsScore(f, U.Coverage(InputsOf(s, a, gateway, matched, now)));
  }

  /** When a factor of the score is named, from the rows. */
  ghost predicate Named(x: U.Factor, s: State, a: Application, now: int) {
    var vaults, rows, events := s.book.vaults, s.book.repayments, s.desk.riskEvents;
    var first := forall v :: v in vaults ==> v.agent != a.agent;
    match x
    case FirstCreditNoHistory => first
    case StrongTaskSuccess =>
      !first && Share(Sum(vaults, Succeeded(a.agent)), Sum(vaults, Finished(a.agent))) >= 800_000
    case StrongRepaymentHistory =>
      !first && Share(Sum(rows, SettledInFull(vaults, a.agent)), Sum(rows, Settlement(vaults, a.agent))) >= 800_000
    case PriorDefaultLoss => Sum(rows, Lost(vaults, a.agent)) > 0
    case PolicyViolations => Sum(events, Noted(PolicyViolation, a.agent)) != 0
    case BlockedSpendAttempts => Sum(events, Noted(SpendBlocked, a.agent)) != 0
    case NewIdentity => AgeInDays(s, a.agent, now) < 7
    case StrongRevenueCoverage => a.requested > 0 && (a.revenue * 1_000_000) / a.requested >= 1_500_000
    case RevenueBelowPrincipal => a.requested <= 0 || (a.revenue * 1_000_000) / a.requested < 1_000_000
  }

  /** The factors named with the score are those of the rows. */
  lemma FactorsOnRows(x: U.Factor, s: State, a: Application, gateway: Option<Gateway>, matched: bool, now: int)
    ensures var i := InputsOf(s, a, gateway, matched, now);
      U.Applies(x, i.features, U.Coverage(i)) <==> Named(x, s, a, now)
  {
    FeaturesOnRows(s, a.agent, now);
    RepaymentFeaturesOnRows(s, a.agent, now);
    ConductFeaturesOnRows(s, a.agent, now);
  }

  // ----- The decision -----

  /** The five caps, from the application, the vaults of the agent and its latest passport. */
  ghost predicate CapsOnRows(caps: U.Caps, s: State, a: Application) {
    && caps.requested == a.requested
    && caps.exposure == Max(0, a.ownerCap - Sum(s.book.vaults, Owed(a.agent)))
    && caps.advance == (7 * a.revenue) / 10
    && caps.cost == a.cost
    && (forall k: nat :: LatestRow(s.desk.passports, a.agent, k) ==> caps.policy == s.desk.passports[k].maxBorrowing)
    && ((forall k: nat :: !LatestRow(s.desk.passports, a.agent, k)) ==> caps.policy == 0)
  }

  lemma InputCapsOnRows(s: State, a: Application, gateway: Option<Gateway>, matched: bool, now: int)
    ensures CapsOnRows(U.CapsOf(InputsOf(s, a, gateway, matched, now)), s, a)
  {
    FeaturesOnRows(s, a.agent, now);
    forall k: nat
      ensures LatestPassport(s.desk.passports, a.agent) == Some(k) <==> LatestRow(s.desk.passports, a.agent, k)
    {
      LatestIsLast(s.desk.passports, a.agent, k);
    }
  }

  /** The application may be scored: its agent has a usable passport and is active, and its task
      has evidence. */
  ghost predicate Admissible(s: State, a: Application, now: int) {
    && Identified(s.desk, a.agent, now)
    && a.agent < |s.desk.agents| && s.desk.agents[a.agent].status == R.AgentActive
    && a.task in s.desk.evidence
  }

  lemma AdmissibleIsGated(s: State, a: Application, now: int)
    ensures GatesPass(s, a, now) <==> Admissible(s, a, now)
  {
    ValidOnRows(s.desk, a.agent, now);
  }
}
