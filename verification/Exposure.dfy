/** The owner's exposure cap over runs.  It is compared with what the agent owes when an application
    is decided, and never again: it holds when the vault is opened if the agent opened none in
    between. */
module Exposure {
  import opened Tables
  import opened Statuses
  import opened Records
  import opened Operations
  import opened Growth
  import opened VaultFile
  import opened Invariants
  import opened Provenance
  import opened CreditTerms
  import opened DeskEffects
  import opened MoneyEffects
  import opened Standing
  import W = Waterfall
  import U = Underwriting

  // ----- What is owed never grows by itself -----

  /** What the agent owes on one vault does not grow. */
  predicate Eases(v: Vault, w: Vault, a: nat) { Owed(a)(w) <= Owed(a)(v) }

  lemma {:induction false} SumEases(before: seq<Vault>, after: seq<Vault>, a: nat)
    requires |before| == |after| && forall i :: 0 <= i < |before| ==> Eases(before[i], after[i], a)
    ensures Sum(after, Owed(a)) <= Sum(before, Owed(a))
  {
    if |before| > 0 {
      SumEases(before[..|before| - 1], after[..|before| - 1], a);
    }
  }

  ghost predicate AllEase(b: Book, c: Book, a: nat) {
    |c.vaults| == |b.vaults| && forall i :: 0 <= i < |b.vaults| ==> Eases(b.vaults[i], c.vaults[i], a)
  }

  lemma PrincipalNotNegative(b: Book, i: nat)
    requires Kept(b) && i < |b.vaults|
    ensures b.vaults[i].principal >= 0
  {
    var f := FileOf(b, i);
    assert Sound(f);
    FeeNonNegative(f.vault.totalLimit);
    W.RepaymentConserves(Received(f), f.vault.totalLimit, U.Fee(f.vault.totalLimit), 0);
  }

  lemma ProposeEases(s: State, op: Op, now: int, a: nat)
    requires op.OpPropose?
    ensures AllEase(s.book, Propose(s, op.request, now).state.book, a)
  {
    var q := op.request;
    if q.vault >= |s.book.vaults| || exists p :: p in s.book.proposals && p.key == q.key {
      ProposeReplays(s, q, now);
    } else {
      ProposeFiles(s, q, now);
      FilingEases(s, q, now, Propose(s, q, now).state, a);
    }
  }

  lemma FilingEases(s: State, q: SpendRequest, now: int, t: State, a: nat)
    requires q.vault < |s.book.vaults| && ProposalFiled(s, q, now, t)
    ensures AllEase(s.book, t.book, a)
  {
  }

  lemma ExecuteEases(s: State, op: Op, now: int, a: nat)
    requires Kept(s.book) && op.OpExecute?
    ensures AllEase(s.book, Execute(s, op.proposal, op.caught, now).state.book, a)
  {
    if Pending(s.book, op.proposal) {
      PayingEases(s, op.proposal, op.caught, now, a);
    } else {
      ExecuteChangesNothing(s, op.proposal, op.caught, now);
    }
  }

  /** Only a vault that can spend pays, and it owes the same afterwards. */
  lemma PayingEases(s: State, pid: nat, caught: bool, now: int, a: nat)
    requires Kept(s.book) && Pending(s.book, pid)
    ensures AllEase(s.book, Execute(s, pid, caught, now).state.book, a)
  {
    PendingExecutes(s, pid, caught, now);
    var vid, q := s.book.proposals[pid].vault, AskedBy(s.book.proposals[pid]);
    if s.book.vaults[vid].status != Active && s.book.vaults[vid].status != Spending {
      UnableObjected(s, q, now);
    }
  }

  lemma RevenueEases(s: State, op: Op, a: nat)
    requires Kept(s.book) && op.OpRevenue?
    ensures var t := ReceiveRevenue(s, op.vault, op.amount, op.external, op.currency, op.completed).state;
      AllEase(s.book, t.book, a)
  {
    if exists r :: r in s.book.revenues && r.external == op.external {
      RevenueReplays(s, op);
    } else {
      RevenueCollects(s, op.vault, op.amount, op.external, op.currency, op.completed);
      if op.vault < |s.book.vaults| {
        PrincipalNotNegative(s.book, op.vault);
      }
    }
  }

  lemma RevenueReplays(s: State, op: Op)
    requires op.OpRevenue? && exists r :: r in s.book.revenues && r.external == op.external
    ensures ReceiveRevenue(s, op.vault, op.amount, op.external, op.currency, op.completed).state == s
  {
    var r :| r in s.book.revenues && r.external == op.external;
    var i :| 0 <= i < |s.book.revenues| && s.book.revenues[i] == r;
  }

  lemma FailEases(s: State, op: Op, a: nat)
    requires Kept(s.book) && op.OpFail?
    ensures AllEase(s.book, SimulateFailure(s, op.vault).state.book, a)
  {
    FailureRecovers(s, op.vault);
    if op.vault < |s.book.vaults| {
      PrincipalNotNegative(s.book, op.vault);
    }
  }

  lemma MoveEases(s: State, vid: nat, target: VaultStatus, a: nat)
    requires Kept(s.book) && (target == Frozen || target == Closed)
    ensures AllEase(s.book, MoveVault(s, vid, target).state.book, a)
  {
    VaultMoves(s, vid, target);
    if vid < |s.book.vaults| {
      PrincipalNotNegative(s.book, vid);
    }
  }

  lemma KillEases(s: State, agent: nat, action: KillAction, a: nat)
    ensures AllEase(s.book, KillSwitch(s, agent, action).state.book, a)
  {
    KillSwitchActs(s, agent, action);
  }

  lemma PerformEases(s: State, op: Op, now: int, a: nat)
    requires Kept(s.book) && !op.OpVault?
    ensures AllEase(s.book, Perform(s, op, now).state.book, a)
  {
    match op
    case OpPropose(_) => ProposeEases(s, op, now, a);
    case OpExecute(_, _) => ExecuteEases(s, op, now, a);
    case OpRevenue(_, _, _, _, _) => RevenueEases(s, op, a);
    case OpFail(_) => FailEases(s, op, a);
    case OpFreeze(vid) => MoveEases(s, vid, Frozen, a);
    case OpClose(vid) => MoveEases(s, vid, Closed, a);
    case OpKill(agent, action) => KillEases(s, agent, action, a);
    case _ => DeskOnlyKeepsBook(s, op, now);
  }

  /** What an agent owes grows only by a vault opened for it, and then by its limit. */
  lemma OwedGrowsByVaults(s: State, op: Op, now: int, a: nat)
    requires Kept(s.book)
    ensures var t := Perform(s, op, now).state;
      Sum(t.book.vaults, Owed(a)) <= Sum(s.book.vaults, Owed(a))
      || (op.OpVault? && |t.book.vaults| == |s.book.vaults| + 1
          && t.book.vaults[|s.book.vaults|].agent == a
          && Sum(t.book.vaults, Owed(a))
             == Sum(s.book.vaults, Owed(a)) + t.book.vaults[|s.book.vaults|].totalLimit)
  {
    if op.OpVault? {
      VaultAddsLimit(s, op, now, a);
    } else {
      PerformEases(s, op, now, a);
      SumEases(s.book.vaults, Perform(s, op, now).state.book.vaults, a);
    }
  }

  lemma VaultAddsLimit(s: State, op: Op, now: int, a: nat)
    requires Kept(s.book) && op.OpVault?
    ensures var t := CreateVault(s, op.app, op.perTxn, now).state;
      t == s
      || (Ready(s, op.app) && |t.book.vaults| == |s.book.vaults| + 1
          && t.book.vaults[|s.book.vaults|].agent == s.desk.apps[op.app].agent
          && t.book.vaults[|s.book.vaults|].totalLimit == s.desk.decisions[op.app].approvedLimit
          && Sum(t.book.vaults, Owed(a))
             == Sum(s.book.vaults, Owed(a))
                + if s.desk.apps[op.app].agent == a then s.desk.decisions[op.app].approvedLimit else 0)
  {
    CreateVaultOpens(s, op.app, op.perTxn, now);
    var t := CreateVault(s, op.app, op.perTxn, now).state;
    if t != s {
      var v := t.book.vaults[|s.book.vaults|];
      SumAppend(s.book.vaults, v, Owed(a));
    }
  }

  // ----- A decided limit never grows -----

  /** The application of an agent is decided, for at most a given limit. */
  predicate Granted(d: Desk, app: nat, a: nat, limit: int) {
    && app < |d.apps| && d.apps[app].agent == a && d.apps[app].status != Draft
    && app in d.decisions && d.decisions[app].approvedLimit <= limit
  }

  lemma EvaluationLeavesGranted(s: State, op: Op, now: int, app: nat, a: nat, limit: int)
    requires op.OpEvaluate? && Granted(s.desk, app, a, limit)
    ensures Granted(Evaluate(s, op.app, op.gateway, op.matched, now).state.desk, app, a, limit)
  {
    var e := Evaluate(s, op.app, op.gateway, op.matched, now).state.desk;
    EvaluationShape(s, op, now);
    if e != s.desk {
      assert app != op.app;
    }
  }

  /** An evaluation touches one draft and its decision. */
  lemma EvaluationShape(s: State, op: Op, now: int)
    requires op.OpEvaluate?
    ensures var d, e := s.desk, Evaluate(s, op.app, op.gateway, op.matched, now).state.desk;
      e == d
      || (op.app < |d.apps| == |e.apps| && d.apps[op.app].status == Draft && op.app in e.decisions
          && e.apps == d.apps[op.app := e.apps[op.app]] && e.decisions == d.decisions[op.app := e.decisions[op.app]])
  {
    if op.app >= |s.desk.apps| || s.desk.apps[op.app].status != Draft {
      EvaluateReplays(s, op.app, op.gateway, op.matched, now);
    } else if Admissible(s, s.desk.apps[op.app], now) {
      EvaluateDecides(s, op.app, op.gateway, op.matched, now);
    } else {
      EvaluateTurnsAway(s, op.app, op.gateway, op.matched, now);
    }
  }

  lemma ReviewLeavesGranted(s: State, op: Op, app: nat, a: nat, limit: int)
    requires op.OpReview? && Granted(s.desk, app, a, limit)
    ensures Granted(ReviewApplication(s, op.app, op.decision, op.amount).state.desk, app, a, limit)
  {
    ReviewShape(s, op.app, op.decision, op.amount);
  }

  lemma VaultLeavesGranted(s: State, op: Op, now: int, app: nat, a: nat, limit: int)
    requires op.OpVault? && Granted(s.desk, app, a, limit)
    ensures Granted(CreateVault(s, op.app, op.perTxn, now).state.desk, app, a, limit)
  {
    FundShape(s, op.app, op.perTxn, now);
  }

  lemma GrantedStays(s: State, op: Op, now: int, app: nat, a: nat, limit: int)
    requires Granted(s.desk, app, a, limit)
    ensures Granted(Perform(s, op, now).state.desk, app, a, limit)
  {
    match op
    case OpEvaluate(_, _, _) => EvaluationLeavesGranted(s, op, now, app, a, limit);
    case OpReview(_, _, _) => ReviewLeavesGranted(s, op, app, a, limit);
    case OpVault(_, _) => VaultLeavesGranted(s, op, now, app, a, limit);
    case OpApply(_) =>
    case _ => OthersKeepCore(s, op, now);
  }

  // ----- The cap over runs -----

  /** No vault of the agent was opened. */
  ghost predicate NoNewVault(b: Book, c: Book, a: nat) {
    forall i :: |b.vaults| <= i < |c.vaults| ==> c.vaults[i].agent != a
  }

  ghost predicate Pursued(y: System, z: System, app: nat, a: nat, limit: int) {
    && StateKept(z.state) && Granted(z.state.desk, app, a, limit) && Grows(y.state.book, z.state.book)
    && (NoNewVault(y.state.book, z.state.book, a) ==>
          Sum(z.state.book.vaults, Owed(a)) <= Sum(y.state.book.vaults, Owed(a)))
  }

  lemma NoNewVaultBefore(b: Book, c: Book, d: Book, a: nat)
    requires NoNewVault(b, d, a) && Grows(b, c) && Grows(c, d)
    ensures NoNewVault(b, c, a)
  {
    forall i | |b.vaults| <= i < |c.vaults| ensures c.vaults[i].agent != a {
      assert VaultGrows(c.vaults[i], d.vaults[i]);
    }
  }

  lemma PursuedStep(y: System, z: System, e: Event, app: nat, a: nat, limit: int)
    requires Pursued(y, z, app, a, limit) && e.now >= z.clock
    ensures Pursued(y, Next(z, e), app, a, limit)
  {
    var s, t := z.state, Next(z, e).state;
    PerformKeepsState(s, e.op, e.now);
    GrantedStays(s, e.op, e.now, app, a, limit);
    PerformGrows(s, e.op, e.now);
    GrowsTransitive(y.state.book, s.book, t.book);
    OwedGrowsByVaults(s, e.op, e.now, a);
    if NoNewVault(y.state.book, t.book, a) {
      NoNewVaultBefore(y.state.book, s.book, t.book, a);
    }
  }

  lemma {:induction false} PursuedRun(y: System, events: seq<Event>, app: nat, a: nat, limit: int)
    requires Pursued(y, y, app, a, limit)
    ensures Pursued(y, Run(y, events), app, a, limit)
  {
    if events != [] {
      var n := |events| - 1;
      PursuedRun(y, events[..n], app, a, limit);
      if events[n].now >= Run(y, events[..n]).clock {
        PursuedStep(y, Run(y, events[..n]), events[n], app, a, limit);
      }
    }
  }

  /** A draft is decided at x by the call e, and y is the system after it. */
  ghost predicate DecidesDraft(x: System, e: Event) {
    && e.op.OpEvaluate? && e.now >= x.clock
    && e.op.app < |x.state.desk.apps| && x.state.desk.apps[e.op.app].status == Draft
    && Evaluate(x.state, e.op.app, e.op.gateway, e.op.matched, e.now).result.Ok?
  }

  /** The system right after an application was decided within its owner's cap. */
  ghost predicate JustDecided(y: System, app: nat, a: Application) {
    && app in y.state.desk.decisions
    && var limit := y.state.desk.decisions[app].approvedLimit;
       && Pursued(y, y, app, a.agent, limit)
       && (limit > 0 ==> limit + Sum(y.state.book.vaults, Owed(a.agent)) <= a.ownerCap)
  }

  lemma DecidingGrants(s: State, op: Op, now: int)
    requires StateKept(s) && op.OpEvaluate? && op.app < |s.desk.apps| && s.desk.apps[op.app].status == Draft
    requires Evaluate(s, op.app, op.gateway, op.matched, now).result.Ok?
    ensures var t, a := Evaluate(s, op.app, op.gateway, op.matched, now).state, s.desk.apps[op.app];
      && t.book == s.book && op.app in t.desk.decisions
      && Granted(t.desk, op.app, a.agent, t.desk.decisions[op.app].approvedLimit)
      && (t.desk.decisions[op.app].approvedLimit > 0 ==>
            t.desk.decisions[op.app].approvedLimit + Sum(s.book.vaults, Owed(a.agent)) <= a.ownerCap)
  {
    if Admissible(s, s.desk.apps[op.app], now) {
      EvaluateDecides(s, op.app, op.gateway, op.matched, now);
    } else {
      EvaluateTurnsAway(s, op.app, op.gateway, op.matched, now);
    }
    ExposureBounded(s, op.app, op.gateway, op.matched, now);
  }

  /** The exposure cap holds when a vault is opened, if no other vault of the agent was opened
      since its application was decided: whatever else happened, what the agent then owes on all its
      vaults is within the cap its owner set. */
  lemma ExposureHolds(before: seq<Event>, e: Event, between: seq<Event>, f: Event)
    requires DecidesDraft(Run(START, before), e) && f.op.OpVault? && f.op.app == e.op.app
    requires var y := Next(Run(START, before), e);
      f.now >= Run(y, between).clock
      && NoNewVault(y.state.book, Run(y, between).state.book, Run(START, before).state.desk.apps[e.op.app].agent)
    ensures var x := Run(START, before);
      var z := Run(Next(x, e), between);
      var a := x.state.desk.apps[e.op.app];
      CreateVault(z.state, f.op.app, f.op.perTxn, f.now).result.Ok? ==>
        Sum(Next(z, f).state.book.vaults, Owed(a.agent)) <= a.ownerCap
  {
    var x := Run(START, before);
    RunKeepsState(before);
    DecisionPursued(x, e);
    FundingHolds(Next(x, e), between, f, x.state.desk.apps[e.op.app]);
  }

  lemma DecisionPursued(x: System, e: Event)
    requires StateKept(x.state) && DecidesDraft(x, e)
    ensures JustDecided(Next(x, e), e.op.app, x.state.desk.apps[e.op.app])
  {
    var y := Next(x, e);
    PerformKeepsState(x.state, e.op, e.now);
    EvaluateIs(x.state, e.op, e.now);
    DecidingGrants(x.state, e.op, e.now);
    GrowsReflexive(y.state.book);
  }

  lemma FundingHolds(y: System, between: seq<Event>, f: Event, a: Application)
    requires f.op.OpVault? && JustDecided(y, f.op.app, a) && f.now >= Run(y, between).clock
    requires NoNewVault(y.state.book, Run(y, between).state.book, a.agent)
    ensures var z := Run(y, between);
      CreateVault(z.state, f.op.app, f.op.perTxn, f.now).result.Ok? ==>
        Sum(Next(z, f).state.book.vaults, Owed(a.agent)) <= a.ownerCap
  {
    var z, limit := Run(y, between), y.state.desk.decisions[f.op.app].approvedLimit;
    PursuedRun(y, between, f.op.app, a.agent, limit);
    assert Granted(z.state.desk, f.op.app, a.agent, limit);
    VaultIs(z.state, f.op, f.now);
    FundingWithin(z.state, f.op, f.now, a.agent, limit, a.ownerCap, Sum(y.state.book.vaults, Owed(a.agent)));
  }

  lemma EvaluateIs(s: State, op: Op, now: int)
    requires op.OpEvaluate?
    ensures Perform(s, op, now) == Evaluate(s, op.app, op.gateway, op.matched, now)
  {
  }

  lemma VaultIs(s: State, op: Op, now: int)
    requires op.OpVault?
    ensures Perform(s, op, now) == CreateVault(s, op.app, op.perTxn, now)
  {
  }

  lemma FundingWithin(s: State, op: Op, now: int, a: nat, limit: int, cap: int, owed: int)
    requires Kept(s.book) && op.OpVault? && Granted(s.desk, op.app, a, limit)
    requires Sum(s.book.vaults, Owed(a)) <= owed && (limit > 0 ==> limit + owed <= cap)
    ensures CreateVault(s, op.app, op.perTxn, now).result.Ok? ==>
      Sum(CreateVault(s, op.app, op.perTxn, now).state.book.vaults, Owed(a)) <= cap
  {
    CreateVaultOpens(s, op.app, op.perTxn, now);
    VaultAddsLimit(s, op, now, a);
  }

  /** In general the cap holds after a vault is opened if and only if what the agent owes and the
      decided limit fit in it at that moment; nothing in the program asks. */
  lemma FundingExposure(events: seq<Event>, op: Op, now: int)
    requires op.OpVault?
    ensures var s := Run(START, events).state;
      var x := CreateVault(s, op.app, op.perTxn, now);
      x.result.Ok? ==>
        && op.app < |s.desk.apps| && op.app in s.desk.decisions
        && var a := s.desk.apps[op.app];
           Sum(x.state.book.vaults, Owed(a.agent)) <= a.ownerCap
           <==> Sum(s.book.vaults, Owed(a.agent)) + s.desk.decisions[op.app].approvedLimit <= a.ownerCap
  {
    RunKeepsState(events);
    FundingAdds(Run(START, events).state, op, now);
  }

  lemma FundingAdds(s: State, op: Op, now: int)
    requires Kept(s.book) && op.OpVault?
    ensures var x := CreateVault(s, op.app, op.perTxn, now);
      x.result.Ok? ==>
        && Ready(s, op.app)
        && var agent := s.desk.apps[op.app].agent;
           Sum(x.state.book.vaults, Owed(agent))
           == Sum(s.book.vaults, Owed(agent)) + s.desk.decisions[op.app].approvedLimit
  {
    CreateVaultOpens(s, op.app, op.perTxn, now);
    if Ready(s, op.app) {
      VaultAddsLimit(s, op, now, s.desk.apps[op.app].agent);
    }
  }
}
