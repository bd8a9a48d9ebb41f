/** What lasts over runs: while an agent is not active nothing leaves its vaults, a vault frozen for
    a split payment pays nothing more, and a recovery draws what the task's mandate was signed for. */
module Standing {
  import opened Tables
  import opened Statuses
  import opened Records
  import opened Operations
  import opened Growth
  import opened Invariants
  import opened Provenance
  import opened RevocationSafety
  import opened SpendTerms
  import opened DeskEffects
  import opened MoneyEffects
  import R = Rules

  // ----- An agent that is not active -----

  predicate Inactive(d: Desk, a: nat) { a < |d.agents| && d.agents[a].status != R.AgentActive }

  lemma InactiveObjected(s: State, q: SpendRequest, now: int)
    requires q.vault < |s.book.vaults| && Inactive(s.desk, s.book.vaults[q.vault].agent)
    ensures exists r :: Objects(r, s, q, now)
  {
    var a := s.book.vaults[q.vault].agent;
    assert if s.desk.agents[a].status == R.AgentFrozen then Objects(R.AgentIsFrozen, s, q, now)
           else Objects(R.PassportIsRevoked, s, q, now);
  }

  /** No execution adds a payment to a vault of an agent that is not active. */
  lemma InactiveExecutes(s: State, pid: nat, caught: bool, now: int, a: nat)
    requires Kept(s.book) && Inactive(s.desk, a)
    ensures NothingPaid(s.book, Execute(s, pid, caught, now).state.book, a)
  {
    if Pending(s.book, pid) {
      PendingExecutes(s, pid, caught, now);
      if s.book.vaults[s.book.proposals[pid].vault].agent == a {
        InactiveObjected(s, AskedBy(s.book.proposals[pid]), now);
      }
    } else {
      ExecuteChangesNothing(s, pid, caught, now);
    }
  }

  /** No proposal for a vault of such an agent is approved. */
  lemma InactiveProposes(s: State, q: SpendRequest, now: int, a: nat)
    requires Inactive(s.desk, a)
    ensures LateDenied(Propose(s, q, now).state.book, |s.book.proposals|, a)
  {
    if q.vault >= |s.book.vaults| || exists p :: p in s.book.proposals && p.key == q.key {
      ProposeReplays(s, q, now);
    } else {
      ProposeFiles(s, q, now);
      InactiveFiled(s, q, now, Propose(s, q, now).state, a);
    }
  }

  lemma InactiveFiled(s: State, q: SpendRequest, now: int, t: State, a: nat)
    requires Inactive(s.desk, a) && q.vault < |s.book.vaults| && ProposalFiled(s, q, now, t)
    ensures LateDenied(t.book, |s.book.proposals|, a)
  {
    if s.book.vaults[q.vault].agent == a {
      InactiveObjected(s, q, now);
    }
  }

  /** Every draft of such an agent that is evaluated is rejected. */
  lemma InactiveEvaluates(s: State, app: nat, g: Option<Gateway>, matched: bool, now: int)
    requires app < |s.desk.apps| && s.desk.apps[app].status == Draft && Inactive(s.desk, s.desk.apps[app].agent)
    ensures var x := Evaluate(s, app, g, matched, now);
      && x.result == Ok(app) && |x.state.desk.apps| == |s.desk.apps|
      && x.state.desk.apps[app].status == AppRejected
      && app in x.state.desk.decisions && x.state.desk.decisions[app].approvedLimit == 0
  {
    EvaluateTurnsAway(s, app, g, matched, now);
  }

  lemma InactiveStays(s: State, op: Op, now: int, a: nat)
    requires Inactive(s.desk, a) && op != OpKill(a, KillUnfreeze)
    ensures Inactive(Perform(s, op, now).state.desk, a)
  {
    if !op.OpAgent? && !op.OpKill? {
      OthersSameIdentity(s, op, now);
    }
  }

  lemma InactivePaysNothing(s: State, op: Op, now: int, a: nat)
    requires Kept(s.book) && Inactive(s.desk, a)
    ensures NothingPaid(s.book, Perform(s, op, now).state.book, a)
  {
    if op.OpExecute? {
      InactiveExecuteOp(s, op, now, a);
    } else {
      OthersPayNothing(s, op, now, a);
    }
  }

  lemma InactiveExecuteOp(s: State, op: Op, now: int, a: nat)
    requires Kept(s.book) && Inactive(s.desk, a) && op.OpExecute?
    ensures NothingPaid(s.book, Perform(s, op, now).state.book, a)
  {
    InactiveExecutes(s, op.proposal, op.caught, now, a);
  }

  lemma InactiveNewOnesDenied(s: State, op: Op, now: int, a: nat)
    requires Kept(s.book) && Inactive(s.desk, a)
    ensures LateDenied(Perform(s, op, now).state.book, |s.book.proposals|, a)
  {
    if op.OpPropose? {
      InactiveProposes(s, op.request, now, a);
    } else {
      NoNewProposals(s, op, now);
    }
  }

  lemma InactiveEvaluation(s: State, op: Op, now: int, a: nat, past: seq<Application>)
    requires op.OpEvaluate? && Inactive(s.desk, a) && NoneGranted(s.desk, past, a)
    ensures NoneGranted(Evaluate(s, op.app, op.gateway, op.matched, now).state.desk, past, a)
  {
    if op.app >= |s.desk.apps| || s.desk.apps[op.app].status != Draft {
      EvaluateReplays(s, op.app, op.gateway, op.matched, now);
    } else if s.desk.apps[op.app].agent == a {
      EvaluateTurnsAway(s, op.app, op.gateway, op.matched, now);
    } else {
      AssessBounded(s, op.app, op.gateway, op.matched, now);
    }
  }

  lemma InactiveGrants(s: State, op: Op, now: int, a: nat, past: seq<Application>)
    requires Inactive(s.desk, a) && NoneGranted(s.desk, past, a)
    ensures NoneGranted(Perform(s, op, now).state.desk, past, a)
  {
    match op
    case OpEvaluate(app, gateway, matched) => InactiveEvaluation(s, op, now, a, past);
    case OpReview(app, action, amount) => ReviewsStayRefused(s, app, action, amount, a, past);
    case OpVault(app, perTxn) => FundingStaysRefused(s, app, perTxn, now, a, past);
    case OpApply(application) =>
    case _ => OthersKeepCore(s, op, now);
  }

  ghost predicate Paused(y: System, z: System, a: nat) {
    && StateKept(z.state) && Inactive(z.state.desk, a) && Grows(y.state.book, z.state.book)
    && NothingPaid(y.state.book, z.state.book, a)
    && NoneGranted(z.state.desk, y.state.desk.apps, a)
    && LateDenied(z.state.book, |y.state.book.proposals|, a)
  }

  lemma PausedStep(y: System, z: System, e: Event, a: nat)
    requires Paused(y, z, a) && e.now >= z.clock && e.op != OpKill(a, KillUnfreeze)
    ensures Paused(y, Next(z, e), a)
  {
    var s, t := z.state, Next(z, e).state;
    PerformKeepsState(s, e.op, e.now);
    InactiveStays(s, e.op, e.now, a);
    PerformGrows(s, e.op, e.now);
    GrowsTransitive(y.state.book, s.book, t.book);
    InactivePaysNothing(s, e.op, e.now, a);
    InactiveGrants(s, e.op, e.now, a, y.state.desk.apps);
    ShutPayments(y.state.book, s.book, t.book, a);
    InactiveNewOnesDenied(s, e.op, e.now, a);
    LateDeniedGrows(s.book, t.book, |y.state.book.proposals|, a);
  }

  /** No call that is performed unfreezes the agent. */
  ghost predicate NeverUnfrozen(y: System, events: seq<Event>, a: nat) {
    forall e :: e in Performed(y, events) ==> e.op != OpKill(a, KillUnfreeze)
  }

  lemma {:induction false} PausedRun(y: System, events: seq<Event>, a: nat)
    requires Paused(y, y, a) && NeverUnfrozen(y, events, a)
    ensures Paused(y, Run(y, events), a)
  {
    if events != [] {
      var n := |events| - 1;
      assert forall e :: e in Performed(y, events[..n]) ==> e in Performed(y, events);
      PausedRun(y, events[..n], a);
      if events[n].now >= Run(y, events[..n]).clock {
        assert events[n] in Performed(y, events);
        PausedStep(y, Run(y, events[..n]), events[n], a);
      }
    }
  }

  /** After a FREEZE, and until an UNFREEZE of the agent is performed: no payment leaves any of its
      vaults, no proposal for them is approved, nothing undecided is granted, and the agent is not
      active, whatever else is called (a REVOKE, new passports, reviews, new vaults). */
  lemma FrozenUntilUnfrozen(before: seq<Event>, a: nat, now: int, after: seq<Event>)
    requires a < |Run(START, before).state.desk.agents| && now >= Run(START, before).clock
    requires NeverUnfrozen(Next(Run(START, before), Event(now, OpKill(a, KillFreeze))), after, a)
    ensures var y := Next(Run(START, before), Event(now, OpKill(a, KillFreeze)));
      var z := Run(y, after);
      && y.state.desk.agents[a].status == R.AgentFrozen && Inactive(z.state.desk, a)
      && NothingPaid(y.state.book, z.state.book, a)
      && LateDenied(z.state.book, |y.state.book.proposals|, a)
      && NoneGranted(z.state.desk, y.state.desk.apps, a)
  {
    var x := Run(START, before);
    RunKeepsState(before);
    FreezePauses(x, a, now);
    PausedRun(Next(x, Event(now, OpKill(a, KillFreeze))), after, a);
  }

  lemma FreezeActs(s: State, a: nat, now: int)
    requires a < |s.desk.agents|
    ensures var d := Perform(s, OpKill(a, KillFreeze), now).state.desk;
      Inactive(d, a) && d.agents[a].status == R.AgentFrozen
  {
    KillSwitchActs(s, a, KillFreeze);
  }

  lemma PausedAtOnce(y: System, a: nat)
    requires StateKept(y.state) && Inactive(y.state.desk, a)
    ensures Paused(y, y, a)
  {
    GrowsReflexive(y.state.book);
  }

  lemma FreezePauses(x: System, a: nat, now: int)
    requires StateKept(x.state) && a < |x.state.desk.agents| && now >= x.clock
    ensures var y := System(now, Perform(x.state, OpKill(a, KillFreeze), now).state);
      Paused(y, y, a) && y.state.desk.agents[a].status == R.AgentFrozen
  {
    PerformKeepsState(x.state, OpKill(a, KillFreeze), now);
    FreezeActs(x.state, a, now);
    PausedAtOnce(System(now, Perform(x.state, OpKill(a, KillFreeze), now).state), a);
  }

  // ----- A vault that cannot spend -----

  /** No payment row was added for a vault. */
  ghost predicate VaultPaidNothing(b: Book, c: Book, vid: nat) {
    b.payments <= c.payments && forall k :: |b.payments| <= k < |c.payments| ==> c.payments[k].vault != vid
  }

  predicate Unable(b: Book, vid: nat) {
    vid < |b.vaults| && b.vaults[vid].status != Active && b.vaults[vid].status != Spending
  }

  lemma UnableExecutes(s: State, op: Op, now: int, vid: nat)
    requires Kept(s.book) && Unable(s.book, vid) && op.OpExecute?
    ensures VaultPaidNothing(s.book, Execute(s, op.proposal, op.caught, now).state.book, vid)
  {
    if Pending(s.book, op.proposal) {
      PendingExecutes(s, op.proposal, op.caught, now);
      if s.book.proposals[op.proposal].vault == vid {
        UnableObjected(s, AskedBy(s.book.proposals[op.proposal]), now);
      }
    } else {
      ExecuteChangesNothing(s, op.proposal, op.caught, now);
    }
  }

  lemma UnableObjected(s: State, q: SpendRequest, now: int)
    requires Unable(s.book, q.vault)
    ensures exists r :: Objects(r, s, q, now)
  {
    var status := s.book.vaults[q.vault].status;
    assert if status == Frozen then Objects(R.VaultIsFrozen, s, q, now)
           else if status == Expired then Objects(R.VaultIsExpired, s, q, now)
           else Objects(R.VaultIsClosed, s, q, now);
  }

  lemma UnablePaysNothing(s: State, op: Op, now: int, vid: nat)
    requires Kept(s.book) && Unable(s.book, vid)
    ensures VaultPaidNothing(s.book, Perform(s, op, now).state.book, vid)
  {
    if op.OpExecute? {
      UnableExecuteOp(s, op, now, vid);
    } else {
      OnlyExecutePays(s, op, now);
    }
  }

  lemma UnableExecuteOp(s: State, op: Op, now: int, vid: nat)
    requires Kept(s.book) && Unable(s.book, vid) && op.OpExecute?
    ensures VaultPaidNothing(s.book, Perform(s, op, now).state.book, vid)
  {
    UnableExecutes(s, op, now, vid);
  }

  ghost predicate Stopped(y: System, z: System, vid: nat) {
    && StateKept(z.state) && Unable(z.state.book, vid) && VaultPaidNothing(y.state.book, z.state.book, vid)
  }

  lemma UnableStays(b: Book, c: Book, vid: nat)
    requires Unable(b, vid) && Grows(b, c)
    ensures Unable(c, vid)
  {
    assert VaultGrows(b.vaults[vid], c.vaults[vid]);
  }

  lemma PaidNothingOn(b: Book, c: Book, d: Book, vid: nat)
    requires VaultPaidNothing(b, c, vid) && VaultPaidNothing(c, d, vid)
    ensures VaultPaidNothing(b, d, vid)
  {
    forall k | |b.payments| <= k < |c.payments| ensures d.payments[k] == c.payments[k] {
    }
  }

  lemma StoppedStep(y: System, z: System, e: Event, vid: nat)
    requires Stopped(y, z, vid) && e.now >= z.clock
    ensures Stopped(y, Next(z, e), vid)
  {
    var s, t := z.state, Next(z, e).state;
    PerformKeepsState(s, e.op, e.now);
    PerformGrows(s, e.op, e.now);
    UnablePaysNothing(s, e.op, e.now, vid);
    UnableStays(s.book, t.book, vid);
    PaidNothingOn(y.state.book, s.book, t.book, vid);
  }

  lemma {:induction false} StoppedRun(y: System, events: seq<Event>, vid: nat)
    requires Stopped(y, y, vid)
    ensures Stopped(y, Run(y, events), vid)
  {
    if events != [] {
      var n := |events| - 1;
      StoppedRun(y, events[..n], vid);
      if events[n].now >= Run(y, events[..n]).clock {
        StoppedStep(y, Run(y, events[..n]), events[n], vid);
      }
    }
  }

  /** A new request that would split a payment out of a vault that can spend. */
  predicate Splitting(s: State, q: SpendRequest, now: int) {
    && q.vault < |s.book.vaults| && !Unable(s.book, q.vault) && SplitsPayment(s, q, now)
    && forall p :: p in s.book.proposals ==> p.key != q.key
  }

  /** The vault is frozen and the latest proposal refused. */
  predicate SplitStopped(b: Book, vid: nat) {
    && vid < |b.vaults| && b.vaults[vid].status == Frozen
    && |b.proposals| > 0 && b.proposals[|b.proposals| - 1].status == ProposalDenied
  }

  lemma SplitFreezes(s: State, q: SpendRequest, now: int)
    requires Splitting(s, q, now)
    ensures SplitStopped(Propose(s, q, now).state.book, q.vault)
  {
    ProposeFiles(s, q, now);
    assert Objects(R.SplitPatternDetected, s, q, now);
  }

  lemma ProposeIs(s: State, op: Op, now: int)
    requires op.OpPropose?
    ensures Perform(s, op, now) == Propose(s, op.request, now)
  {
  }

  lemma SplitOpFreezes(s: State, op: Op, now: int)
    requires op.OpPropose? && Splitting(s, op.request, now)
    ensures SplitStopped(Perform(s, op, now).state.book, op.request.vault)
  {
    ProposeIs(s, op, now);
    SplitFreezes(s, op.request, now);
  }

  lemma SplitStops(x: System, e: Event)
    requires StateKept(x.state) && e.now >= x.clock && e.op.OpPropose? && Splitting(x.state, e.op.request, e.now)
    ensures Stopped(Next(x, e), Next(x, e), e.op.request.vault)
    ensures SplitStopped(Next(x, e).state.book, e.op.request.vault)
  {
    PerformKeepsState(x.state, e.op, e.now);
    SplitOpFreezes(x.state, e.op, e.now);
  }

  /** A split payment is stopped for good: the proposal that would split a payment is refused, its
      vault is frozen, and no payment is ever made from that vault afterwards. */
  lemma SplitStopsVault(before: seq<Event>, e: Event, after: seq<Event>)
    requires e.now >= Run(START, before).clock && e.op.OpPropose?
    requires Splitting(Run(START, before).state, e.op.request, e.now)
    ensures var y := Next(Run(START, before), e);
      && SplitStopped(y.state.book, e.op.request.vault)
      && VaultPaidNothing(y.state.book, Run(y, after).state.book, e.op.request.vault)
  {
    RunKeepsState(before);
    SplitStops(Run(START, before), e);
    StoppedRun(Next(Run(START, before), e), after, e.op.request.vault);
  }

  // ----- Mandates -----

  /** The cap signed for a task is on record. */
  predicate Signed(d: Desk, task: nat, cap: int) { task in d.mandates && d.mandates[task].reserveCap == cap }

  lemma EvaluateKeepsMandates(s: State, op: Op, now: int)
    requires op.OpEvaluate?
    ensures Evaluate(s, op.app, op.gateway, op.matched, now).state.desk.mandates == s.desk.mandates
  {
  }

  lemma ProposeKeepsMandates(s: State, op: Op, now: int)
    requires op.OpPropose?
    ensures Propose(s, op.request, now).state.desk.mandates == s.desk.mandates
  {
  }

  lemma ExecuteKeepsMandates(s: State, op: Op, now: int)
    requires op.OpExecute?
    ensures Execute(s, op.proposal, op.caught, now).state.desk.mandates == s.desk.mandates
  {
  }

  lemma RevenueKeepsMandates(s: State, op: Op)
    requires op.OpRevenue?
    ensures ReceiveRevenue(s, op.vault, op.amount, op.external, op.currency, op.completed).state.desk.mandates
         == s.desk.mandates
  {
  }

  lemma FailKeepsMandates(s: State, op: Op)
    requires op.OpFail?
    ensures SimulateFailure(s, op.vault).state.desk.mandates == s.desk.mandates
  {
  }

  /** Opening a vault locks the mandate of its task and nothing else. */
  lemma VaultKeepsCaps(s: State, op: Op, now: int, task: nat)
    requires op.OpVault?
    ensures var d, e := s.desk, CreateVault(s, op.app, op.perTxn, now).state.desk;
      (task in e.mandates <==> task in d.mandates)
      && (task in d.mandates ==> e.mandates[task].reserveCap == d.mandates[task].reserveCap)
  {
  }

  lemma OthersKeepMandates(s: State, op: Op, now: int)
    requires !op.OpMandate? && !op.OpVault?
    ensures Perform(s, op, now).state.desk.mandates == s.desk.mandates
  {
    if op.OpEvaluate? {
      EvaluateKeepsMandates(s, op, now);
    } else if op.OpPropose? {
      ProposeKeepsMandates(s, op, now);
    } else if op.OpExecute? {
      ExecuteKeepsMandates(s, op, now);
    } else if op.OpRevenue? {
      RevenueKeepsMandates(s, op);
    } else if op.OpFail? {
      FailKeepsMandates(s, op);
    }
  }

  /** A signed cap stays, and a task gets one only by a mandate of its own. */
  lemma CapStays(s: State, op: Op, now: int, task: nat, cap: int)
    ensures var e := Perform(s, op, now).state.desk;
      && (Signed(s.desk, task, cap) ==> Signed(e, task, cap))
      && (task !in s.desk.mandates && !(op.OpMandate? && op.task == task) ==> task !in e.mandates)
  {
    if op.OpVault? {
      VaultKeepsCaps(s, op, now, task);
    } else if !op.OpMandate? {
      OthersKeepMandates(s, op, now);
    }
  }

  lemma {:induction false} CapStaysRun(y: System, events: seq<Event>, task: nat, cap: int)
    requires Signed(y.state.desk, task, cap)
    ensures Signed(Run(y, events).state.desk, task, cap)
  {
    if events != [] {
      var n := |events| - 1;
      CapStaysRun(y, events[..n], task, cap);
      if events[n].now >= Run(y, events[..n]).clock {
        CapStays(Run(y, events[..n]).state, events[n].op, events[n].now, task, cap);
      }
    }
  }

  ghost predicate NeverMandated(events: seq<Event>, task: nat) {
    forall e :: e in Performed(START, events) ==> !(e.op.OpMandate? && e.op.task == task)
  }

  lemma {:induction false} NoMandateRun(events: seq<Event>, task: nat)
    requires NeverMandated(events, task)
    ensures task !in Run(START, events).state.desk.mandates
  {
    if |events| > 0 {
      var n := |events| - 1;
      assert forall e :: e in Performed(START, events[..n]) ==> e in Performed(START, events);
      NoMandateRun(events[..n], task);
      if events[n].now >= Run(START, events[..n]).clock {
        assert events[n] in Performed(START, events);
        CapStays(Run(START, events[..n]).state, events[n].op, events[n].now, task, 0);
      }
    }
  }

  /** What a recovery of a vault does with a cap: it draws the spent part up to the cap, loses the
      rest, and defaults exactly when there is a rest. */
  predicate RecoversUpTo(v: Vault, cap: int, c: Book, vid: nat) {
    && vid < |c.vaults| && |c.repayments| > 0
    && var row := c.repayments[|c.repayments| - 1];
       && row.vault == vid && row.kind == RecoveryRun && row.principal == v.totalLimit - v.spent
       && row.reserve == (if v.spent <= cap then v.spent else cap)
       && row.loss == (if v.spent <= cap then 0 else v.spent - cap)
       && c.vaults[vid].status == (if v.spent > cap then Defaulted else Repaid)
  }

  /** The reserve a mandate was signed for is what a recovery draws on, whatever happened between:
      once a mandate is created for a task, a recovery of any vault of that task succeeds exactly
      for the four open statuses and a cap that is not negative, and draws up to that cap. */
  lemma MandateBacksRecovery(before: seq<Event>, e: Event, after: seq<Event>, vid: nat)
    requires e.op.OpMandate? && e.now >= Run(START, before).clock
    requires CreateMandate(Run(START, before).state, e.op.task, e.op.reserveCap).result.Ok?
    ensures var s := Run(Next(Run(START, before), e), after).state;
      vid < |s.book.vaults| && s.book.vaults[vid].task == e.op.task ==>
        var x, status := SimulateFailure(s, vid), s.book.vaults[vid].status;
        && (x.result.Ok? <==>
              e.op.reserveCap >= 0 && (status == Active || status == Spending || status == Frozen || status == Expired))
        && (x.result.Ok? ==> RecoversUpTo(s.book.vaults[vid], e.op.reserveCap, x.state.book, vid))
  {
    RunKeepsState(before);
    var y := Next(Run(START, before), e);
    MandateSigns(Run(START, before), e);
    CapStaysRun(y, after, e.op.task, e.op.reserveCap);
    KeptAfter(before, e, after);
    RecoveryUnder(Run(y, after).state, vid, e.op.task, e.op.reserveCap);
  }

  lemma MandateSigns(x: System, e: Event)
    requires e.op.OpMandate? && e.now >= x.clock && CreateMandate(x.state, e.op.task, e.op.reserveCap).result.Ok?
    ensures Signed(Next(x, e).state.desk, e.op.task, e.op.reserveCap)
  {
    MandateIsCreated(x.state, e.op.task, e.op.reserveCap);
  }

  lemma {:induction false} RunAppend(y: System, before: seq<Event>, after: seq<Event>)
    ensures Run(y, before + after) == Run(Run(y, before), after)
  {
    if after == [] {
      assert before + after == before;
    } else {
      var n := |after| - 1;
      assert (before + after)[..|before + after| - 1] == before + after[..n];
      RunAppend(y, before, after[..n]);
    }
  }

  lemma KeptAfter(before: seq<Event>, e: Event, after: seq<Event>)
    ensures Kept(Run(Next(Run(START, before), e), after).state.book)
  {
    assert (before + [e])[..|before|] == before;
    RunAppend(START, before + [e], after);
    RunKeepsState(before + [e] + after);
  }

  lemma RecoveryUnder(s: State, vid: nat, task: nat, cap: int)
    requires Kept(s.book) && SignedCap(s.desk, task) == cap
    ensures vid < |s.book.vaults| && s.book.vaults[vid].task == task ==>
      var x, status := SimulateFailure(s, vid), s.book.vaults[vid].status;
      && (x.result.Ok? <==>
            cap >= 0 && (status == Active || status == Spending || status == Frozen || status == Expired))
      && (x.result.Ok? ==> RecoversUpTo(s.book.vaults[vid], cap, x.state.book, vid))
  {
    FailureRecovers(s, vid);
  }

  /** Without a mandate for the task, nothing is drawn and all that was spent is lost. */
  lemma NoMandateNoReserve(events: seq<Event>, vid: nat)
    ensures var s := Run(START, events).state;
      vid < |s.book.vaults| && NeverMandated(events, s.book.vaults[vid].task) ==>
        var x, status := SimulateFailure(s, vid), s.book.vaults[vid].status;
        && (x.result.Ok? <==> status == Active || status == Spending || status == Frozen || status == Expired)
        && (x.result.Ok? ==> RecoversUpTo(s.book.vaults[vid], 0, x.state.book, vid))
  {
    var s := Run(START, events).state;
    RunKeepsState(events);
    if vid < |s.book.vaults| && NeverMandated(events, s.book.vaults[vid].task) {
      NoMandateRun(events, s.book.vaults[vid].task);
      RecoveryUnder(s, vid, s.book.vaults[vid].task, 0);
    }
  }

  // ----- Revenue -----

  /** In every reachable state a new revenue is collected exactly for a positive amount and a vault
      that is active, spending, expired or partly repaid: never for a frozen one. */
  lemma RevenueReceivedWhen(events: seq<Event>, vid: nat, amount: int, external: string, currency: string,
                            completed: bool)
    requires forall r :: r in Run(START, events).state.book.revenues ==> r.external != external
    ensures var s := Run(START, events).state;
      ReceiveRevenue(s, vid, amount, external, currency, completed).result.Ok? <==>
        && vid < |s.book.vaults| && amount > 0
        && var status := s.book.vaults[vid].status;
           status == Active || status == Spending || status == Expired || status == PartiallyRepaid
  {
    RunKeepsState(events);
    RevenueCollects(Run(START, events).state, vid, amount, external, currency, completed);
  }
}
