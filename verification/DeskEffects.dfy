/** What the calls about agents, applications and decisions do, row by row: when each succeeds,
    which rows and columns it writes and what it leaves alone, in the program's own statuses and
    figures. */
module DeskEffects {
  import opened Tables
  import opened Statuses
  import opened Records
  import opened Operations
  import opened CreditTerms
  import R = Rules
  import U = Underwriting

  // ----- Evaluation -----

  /** The model answered the analyst. */
  predicate Answered(g: Option<Gateway>) { g.Some? && g.value.analysis.Answer? }

  /** The analyst raises, or answers and then an adviser raises. */
  predicate Interrupted(g: Option<Gateway>) {
    g.Some? && (g.value.analysis == Raised
                || (g.value.analysis.Answer? && (g.value.underwriter == Raised || g.value.critic == Raised)))
  }

  /** When a reason is given for an application of a given risk and lendable amount. */
  ghost predicate Asked(r: U.ReasonCode, s: State, a: Application, g: Option<Gateway>, matched: bool, pd: int,
                        limit: int)
    requires limit > 0
  {
    match r
    case NoLendableAmount => false
    case MandateMissing => a.task !in s.desk.mandates
    case AiChecksUnavailable => !Answered(g)
    case InjectionSuspected => Answered(g) && matched && "instruction_in_evidence" in g.value.analysis.value
    case InjectionUncorroborated =>
      && Answered(g)
      && ("instruction_in_evidence_uncorroborated" in g.value.analysis.value
          || (!matched && "instruction_in_evidence" in g.value.analysis.value))
    case FirstCredit => forall v :: v in s.book.vaults ==> v.agent != a.agent
    case PdAboveThreshold => pd > 350_000
    case ExpectedLossAboveThreshold => (((pd * 550_000 * limit) / 1_000_000_000_000) * 1_000_000) / limit > 60_000
  }

  lemma FlagsOnRows(flags: seq<string>, matched: bool)
    ensures var out := U.Corroborate(flags, matched);
      && ("instruction_in_evidence" in out <==> matched && "instruction_in_evidence" in flags)
      && ("instruction_in_evidence_uncorroborated" in out
          <==> "instruction_in_evidence_uncorroborated" in flags || (!matched && "instruction_in_evidence" in flags))
  {
    U.FlagsDiffer();
    var out := U.Corroborate(flags, matched);
    if U.INJECTION_FLAG in flags && !matched {
      forall k | 0 <= k < |flags| ensures out[k] == U.Uncorroborated(flags[k]) {
      }
      var k :| 0 <= k < |flags| && flags[k] == U.INJECTION_FLAG;
      assert out[k] == U.UNCORROBORATED_INJECTION_FLAG;
      if U.UNCORROBORATED_INJECTION_FLAG in flags {
        var i :| 0 <= i < |flags| && flags[i] == U.UNCORROBORATED_INJECTION_FLAG;
        assert out[i] == U.UNCORROBORATED_INJECTION_FLAG;
      }
    }
  }

  lemma ReasonOnRows(r: U.ReasonCode, s: State, a: Application, g: Option<Gateway>, matched: bool, now: int)
    requires U.Limit(InputsOf(s, a, g, matched, now)) > 0
    ensures var i := InputsOf(s, a, g, matched, now);
      U.Holds(r, i) <==> Asked(r, s, a, g, matched, RiskOnRows(s, a, now), U.Limit(i))
  {
    ScoreOnRows(s, a, g, matched, now);
    if r.FirstCredit? {
      FeaturesOnRows(s, a.agent, now);
    } else if Answered(g) && (r.InjectionSuspected? || r.InjectionUncorroborated?) {
      FlagsOnRows(g.value.analysis.value, matched);
    }
  }

  /** The least cap, which is what the risk figures are about even when nothing can be lent. */
  function LeastCap(x: Decision): int
    requires x.caps.Some?
  {
    var c := x.caps.value;
    Min(c.requested, Min(c.exposure, Min(c.advance, Min(c.cost, c.policy))))
  }

  /** The decision on an application that may be scored: the least of the five caps, rejected when
      nothing can be lent, approved when no reason is given, and otherwise for a human. */
  ghost predicate DecidedOnRows(x: Decision, s: State, a: Application, g: Option<Gateway>, matched: bool, pd: int) {
    x.caps.Some? && CapsOnRows(x.caps.value, s, a)
    && var least := LeastCap(x);
       if least <= 0 then x.verdict == U.Reject && x.approvedLimit == 0 && x.reasons == {Engine(U.NoLendableAmount)}
       else
         && x.approvedLimit == least
         && (x.verdict == U.Approve <==> forall r :: !Asked(r, s, a, g, matched, pd, least))
         && (x.verdict == U.Review <==> exists r :: Asked(r, s, a, g, matched, pd, least))
         && (forall r :: r in x.reasons <==> r.Engine? && Asked(r.code, s, a, g, matched, pd, least))
  }

  lemma EngineOnRows(s: State, a: Application, g: Option<Gateway>, matched: bool, now: int)
    ensures DecidedOnRows(EngineDecision(InputsOf(s, a, g, matched, now)), s, a, g, matched, RiskOnRows(s, a, now))
  {
    var i := InputsOf(s, a, g, matched, now);
    InputCapsOnRows(s, a, g, matched, now);
    if U.Limit(i) > 0 {
      forall r ensures U.Holds(r, i) <==> Asked(r, s, a, g, matched, RiskOnRows(s, a, now), U.Limit(i)) {
        ReasonOnRows(r, s, a, g, matched, now);
      }
    }
  }

  /** Why an application is turned away before it is scored. */
  ghost predicate TurnedAway(reasons: set<DecisionReason>, s: State, a: Application, now: int) {
    forall r :: r in reasons <==>
      if !Identified(s.desk, a.agent, now) then r.Identity? && Wrong(r.fault, s.desk, a.agent, now)
      else if a.agent >= |s.desk.agents| || s.desk.agents[a.agent].status != R.AgentActive then r == AgentNotActive
      else r == InsufficientEvidence
  }

  lemma TurnedAwayOnRows(s: State, app: nat, now: int)
    requires app < |s.desk.apps| && !GatesPass(s, s.desk.apps[app], now)
    ensures var x := Assess(s, app, None, false, now).1;
      x.verdict == U.Reject && x.approvedLimit == 0 && x.caps == None && TurnedAway(x.reasons, s, s.desk.apps[app], now)
  {
    var a := s.desk.apps[app];
    ValidOnRows(s.desk, a.agent, now);
    forall f ensures Faulty(f, s.desk, a.agent, now) <==> Wrong(f, s.desk, a.agent, now) {
      FaultsOnRows(s.desk, a.agent, now, f);
    }
  }

  /** The application's status, its one decision row and the audit payload of a verdict. */
  ghost predicate Recorded(d: Desk, e: Desk, app: nat, x: Decision)
    requires app < |d.apps|
  {
    && |e.apps| == |d.apps| && app in e.decisions && e.decisions[app] == x
    && e == d.(apps := d.apps[app := d.apps[app].(status := e.apps[app].status)], decisions := d.decisions[app := x],
               verdicts := d.verdicts + [DecisionEvent(app, x.verdict)],
               modelRuns := e.modelRuns, riskRuns := e.riskRuns, appRecords := e.appRecords)
    && (x.verdict == U.Approve <==> e.apps[app].status == AppApproved)
    && (x.verdict == U.Review <==> e.apps[app].status == HumanReviewRequired)
    && (x.verdict == U.Reject <==> e.apps[app].status == AppRejected)
  }

  /** The rows a scored application leaves beside its decision: one per role asked, the risk
      figures, and whether the policy allowed it. */
  ghost predicate Scored(d: Desk, e: Desk, app: nat, g: Option<Gateway>, pd: int, limit: int, approved: bool) {
    && e.riskRuns == d.riskRuns + [RiskRun(app, pd, limit, (pd * 550_000 * limit) / 1_000_000_000_000)]
    && e.appRecords == d.appRecords + [ApplicationRecord(app, approved)]
    && e.modelRuns == d.modelRuns
       + (if g.None? then [] else [ModelRun(app, Analyst, Answered(g))])
       + (if !Answered(g) then []
          else [ModelRun(app, Underwriter, g.value.underwriter.Answer?), ModelRun(app, Critic, g.value.critic.Answer?)])
  }

  /** Evaluating a draft that may not be scored: rejected, with every reason. */
  lemma EvaluateTurnsAway(s: State, app: nat, g: Option<Gateway>, matched: bool, now: int)
    requires app < |s.desk.apps| && s.desk.apps[app].status == Draft && !Admissible(s, s.desk.apps[app], now)
    ensures var r := Evaluate(s, app, g, matched, now);
      && r.result == Ok(app) && app in r.state.desk.decisions
      && var x := r.state.desk.decisions[app];
         && x.verdict == U.Reject && x.approvedLimit == 0 && TurnedAway(x.reasons, s, s.desk.apps[app], now)
         && Recorded(s.desk, r.state.desk, app, x)
         && r.state == s.(desk := r.state.desk.(modelRuns := s.desk.modelRuns, riskRuns := s.desk.riskRuns,
                                                appRecords := s.desk.appRecords))
  {
    AdmissibleIsGated(s, s.desk.apps[app], now);
    TurnedAwayOnRows(s, app, now);
  }

  /** Evaluating a draft that may be scored: undone when the model interrupts it, otherwise decided
      on the rows as they are. */
  lemma EvaluateDecides(s: State, app: nat, g: Option<Gateway>, matched: bool, now: int)
    requires app < |s.desk.apps| && s.desk.apps[app].status == Draft && Admissible(s, s.desk.apps[app], now)
    ensures var r, a, pd := Evaluate(s, app, g, matched, now), s.desk.apps[app], RiskOnRows(s, s.desk.apps[app], now);
      if Interrupted(g) then r == Reply(s, Err(ModelRaised))
      else
        && r.result == Ok(app) && app in r.state.desk.decisions && r.state == s.(desk := r.state.desk)
        && var x := r.state.desk.decisions[app];
           && DecidedOnRows(x, s, a, g, matched, pd) && Recorded(s.desk, r.state.desk, app, x)
           && Scored(s.desk, r.state.desk, app, g, pd, LeastCap(x), x.verdict == U.Approve)
  {
    AdmissibleIsGated(s, s.desk.apps[app], now);
    var (e, x) := Assess(s, app, g, matched, now);
    AssessOnRows(s, app, g, matched, now);
    StoreRecords(s.desk, e, app, x);
  }

  lemma AssessOnRows(s: State, app: nat, g: Option<Gateway>, matched: bool, now: int)
    requires app < |s.desk.apps| && Admissible(s, s.desk.apps[app], now)
    ensures var (e, x) := Assess(s, app, g, matched, now);
      var pd := RiskOnRows(s, s.desk.apps[app], now);
      && DecidedOnRows(x, s, s.desk.apps[app], g, matched, pd)
      && Scored(s.desk, e, app, g, pd, LeastCap(x), x.verdict == U.Approve)
      && e == s.desk.(modelRuns := e.modelRuns, riskRuns := e.riskRuns, appRecords := e.appRecords)
  {
    var a := s.desk.apps[app];
    AdmissibleIsGated(s, a, now);
    EngineOnRows(s, a, g, matched, now);
    ScoreOnRows(s, a, g, matched, now);
  }

  lemma StoreRecords(d: Desk, e: Desk, app: nat, x: Decision)
    requires app < |d.apps| && e == d.(modelRuns := e.modelRuns, riskRuns := e.riskRuns, appRecords := e.appRecords)
    ensures Recorded(d, StoreDecision(e, app, x), app, x)
  {
  }

  /** What is granted never takes the agent over its owner's cap, counting all it owes then. */
  lemma ExposureBounded(s: State, app: nat, g: Option<Gateway>, matched: bool, now: int)
    requires app < |s.desk.apps| && s.desk.apps[app].status == Draft
    ensures var e, a := Evaluate(s, app, g, matched, now).state.desk, s.desk.apps[app];
      app in e.decisions && app !in s.desk.decisions && e.decisions[app].approvedLimit > 0 ==>
        e.decisions[app].approvedLimit + Sum(s.book.vaults, Owed(a.agent)) <= a.ownerCap
  {
    if Admissible(s, s.desk.apps[app], now) {
      EvaluateDecides(s, app, g, matched, now);
    } else {
      EvaluateTurnsAway(s, app, g, matched, now);
    }
  }

  /** An application that is not a draft is not evaluated again. */
  lemma EvaluateReplays(s: State, app: nat, g: Option<Gateway>, matched: bool, now: int)
    requires app >= |s.desk.apps| || s.desk.apps[app].status != Draft
    ensures var r := Evaluate(s, app, g, matched, now);
      r.state == s
      && r.result == if app < |s.desk.apps| && app in s.desk.decisions then Ok(app) else Err(PolicyDenied)
  {
  }

  // ----- Review -----

  /** A review succeeds exactly for an application waiting for one, with an amount that can be
      granted; it then settles the application, the decision and a review row. */
  lemma ReviewSettles(s: State, app: nat, action: ReviewAction, amount: int)
    requires app < |s.desk.apps| && app in s.desk.decisions
    ensures var d, r, x := s.desk, ReviewApplication(s, app, action, amount), s.desk.decisions[app];
      var granted := if action == Decline then 0 else if action == ApproveFull then x.approvedLimit else amount;
      && (r.result == Ok(app) <==> r.result.Ok?)
      && (r.result.Ok? <==>
            d.apps[app].status == HumanReviewRequired
            && (action == Decline || (action != UnknownAction && 0 < granted <= x.approvedLimit)))
      && r.state == if r.result.Err? then s
                    else s.(desk := d.(
                      apps := d.apps[app := d.apps[app].(
                        status := if action == Decline then AppRejected else AppApproved)],
                      decisions := if action == Decline then d.decisions
                                   else d.decisions[app := x.(approvedLimit := granted, verdict := U.Approve)],
                      reviews := d.reviews + [HumanReview(app, action, granted)]))
  {
  }

  /** There is nothing to review before a decision. */
  lemma ReviewNeedsDecision(s: State, app: nat, action: ReviewAction, amount: int)
    requires app >= |s.desk.apps| || app !in s.desk.decisions
    ensures ReviewApplication(s, app, action, amount) == Reply(s, Err(PolicyDenied))
  {
  }

  // ----- Registration and identity -----

  lemma VendorRegisters(s: State, vendor: string, category: string)
    ensures RegisterVendor(s, vendor, category).result.Ok? <==> vendor !in s.vendors
    ensures RegisterVendor(s, vendor, category).state
         == if vendor in s.vendors then s else s.(vendors := s.vendors[vendor := category])
  {
  }

  lemma MandateIsCreated(s: State, task: nat, cap: int)
    ensures CreateMandate(s, task, cap).result.Ok? <==> task !in s.desk.mandates
    ensures CreateMandate(s, task, cap).state
         == if task in s.desk.mandates then s
            else s.(desk := s.desk.(mandates := s.desk.mandates[task := Mandate(cap, false)]))
  {
  }

  /** An application is filed exactly for a positive amount, as a draft naming each vendor once. */
  lemma ApplicationIsFiled(s: State, a: Application)
    ensures var r, n := CreateApplication(s, a), |s.desk.apps|;
      && (r.result == Ok(n) <==> a.requested > 0)
      && (r.result.Ok? <==> a.requested > 0)
      && (if a.requested <= 0 then r.state == s
          else
            |r.state.desk.apps| == n + 1
            && var row := r.state.desk.apps[n];
               && r.state == s.(desk := s.desk.(apps := s.desk.apps + [row]))
               && row == a.(status := Draft, vendors := row.vendors)
               && (forall v :: v in row.vendors <==> v in a.vendors)
               && (forall i, k :: 0 <= i < k < |row.vendors| ==> row.vendors[i] != row.vendors[k]))
  {
  }

  /** A passport is issued exactly for a known active agent, a lifetime of at most a day and
      amounts that are not negative; it runs from now for the hours asked, under the current key. */
  lemma PassportIsIssued(s: State, agent: nat, maxBorrowing: int, maxTransaction: int, hours: int, now: int)
    ensures var r := IssuePassport(s, agent, maxBorrowing, maxTransaction, hours, now);
      && (r.result.Ok? <==>
            && agent < |s.desk.agents| && s.desk.agents[agent].status == R.AgentActive
            && hours <= 24 && maxBorrowing >= 0 && maxTransaction >= 0)
      && r.state == if r.result.Err? then s
                    else s.(desk := s.desk.(passports := s.desk.passports + [
                              Passport(agent, now, now + hours * 3_600_000_000, maxBorrowing, s.desk.signer)]))
  {
  }

  /** The kill switch: each action's effect on the agent, on revocations and on its vaults. */
  lemma KillSwitchActs(s: State, agent: nat, action: KillAction)
    ensures var d, b, r := s.desk, s.book, KillSwitch(s, agent, action);
      && (r.result.Ok? <==>
            agent < |d.agents| && action != KillOther
            && !(action == KillUnfreeze && d.agents[agent].status == R.AgentRevoked))
      && (r.result.Err? ==> r.state == s)
      && (r.result.Ok? ==>
            var e, c := r.state.desk, r.state.book;
            && |e.agents| == |d.agents| && |c.vaults| == |b.vaults|
            && r.state == s.(desk := d.(agents := d.agents[agent := d.agents[agent].(status := e.agents[agent].status)],
                                        revocations := e.revocations),
                             book := b.(vaults := c.vaults))
            && e.agents[agent].status == (if action == KillFreeze then R.AgentFrozen
                                          else if action == KillUnfreeze then R.AgentActive else R.AgentRevoked)
            && e.revocations == d.revocations + (if action == KillRevoke then [Revocation(agent, None)] else [])
            && forall i :: 0 <= i < |b.vaults| ==>
                 c.vaults[i] == if action == KillRevoke && b.vaults[i].agent == agent
                                   && (b.vaults[i].status == Created || b.vaults[i].status == Active
                                       || b.vaults[i].status == Spending)
                                then b.vaults[i].(status := Frozen) else b.vaults[i])
  {
  }
}
