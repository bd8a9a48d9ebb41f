/** Revocation is permanent.  The agent's own status column is not: a FREEZE after a REVOKE
    overwrites it and an UNFREEZE then makes it ACTIVE again.  What lasts is the revocation row,
    the frozen vaults and the refusal of every later proposal. */
module RevocationSafety {
  import opened Tables
  import opened Statuses
  import opened Records
  import opened Operations
  import opened Growth
  import opened Invariants
  import opened Preservation
  import opened Provenance
  import R = Rules
  import P = Policy

  predicate RevokedAgent(d: Desk, a: nat) { Revocation(a, None) in d.revocations }

  /** A revoked agent has no usable passport, whatever is issued later and whatever its status says. */
  lemma RevokedHasNoPassport(d: Desk, a: nat, now: int)
    requires RevokedAgent(d, a)
    ensures !PassportValid(d, a, now)
  {
    match LatestPassport(d.passports, a)
    case None => assert IdentityInvalid in PassportFaults(d, a, now);
    case Some(k) => assert PassportRevoked in PassportFaults(d, a, now);
  }

  /** From a vault of a locked agent nothing can be paid: it is not spendable, or all its
      proposals have been refused. */
  ghost predicate Locked(s: State, a: nat) {
    && RevokedAgent(s.desk, a)
    && forall i :: 0 <= i < |s.book.vaults| && s.book.vaults[i].agent == a ==>
         !Spendable(s.book.vaults[i].status) || AllDenied(s.book.proposals, i)
  }

  ghost predicate AllDenied(rows: seq<Proposal>, vault: nat) {
    forall p :: p in rows && p.vault == vault ==> p.status == ProposalDenied
  }

  /** Every proposal recorded from number `start` on for a vault of the agent is refused. */
  ghost predicate LateDenied(b: Book, start: nat, a: nat) {
    forall k :: start <= k < |b.proposals| ==>
      && b.proposals[k].vault < |b.vaults|
      && (b.vaults[b.proposals[k].vault].agent == a ==> b.proposals[k].status == ProposalDenied)
  }

  /** The agent's vaults of book b are not spendable in book c. */
  ghost predicate Unspendable(b: Book, c: Book, a: nat) {
    && |b.vaults| <= |c.vaults|
    && forall i :: 0 <= i < |b.vaults| && b.vaults[i].agent == a ==> !Spendable(c.vaults[i].status)
  }

  /** No payment row was added for a vault of the agent. */
  ghost predicate NothingPaid(b: Book, c: Book, a: nat) {
    && b.payments <= c.payments
    && forall k :: |b.payments| <= k < |c.payments| ==>
         c.payments[k].vault < |c.vaults| && c.vaults[c.payments[k].vault].agent != a
  }

  /** REVOKE locks the agent at once. */
  lemma RevokeLocks(s: State, a: nat)
    requires a < |s.desk.agents|
    ensures Locked(KillSwitch(s, a, KillRevoke).state, a)
    ensures var c := KillSwitch(s, a, KillRevoke).state.book;
      Unspendable(c, c, a)
  {
  }

  // ----- The lock holds -----

  predicate SameIdentity(d: Desk, e: Desk) { e.agents == d.agents && e.revocations == d.revocations }

  lemma EvaluateSameIdentity(s: State, app: nat, gateway: Option<Gateway>, matched: bool, now: int)
    ensures SameIdentity(s.desk, Evaluate(s, app, gateway, matched, now).state.desk)
  {
  }

  lemma VaultSameIdentity(s: State, app: nat, perTxn: Option<int>, now: int)
    ensures SameIdentity(s.desk, CreateVault(s, app, perTxn, now).state.desk)
  {
    FundShape(s, app, perTxn, now);
  }

  lemma ProposeSameIdentity(s: State, q: SpendRequest, now: int)
    ensures SameIdentity(s.desk, Propose(s, q, now).state.desk)
  {
  }

  lemma ExecuteSameIdentity(s: State, pid: nat, caught: bool, now: int)
    ensures SameIdentity(s.desk, Execute(s, pid, caught, now).state.desk)
  {
  }

  lemma RevenueSameIdentity(s: State, vid: nat, amount: int, external: string, currency: string, completed: bool)
    ensures SameIdentity(s.desk, ReceiveRevenue(s, vid, amount, external, currency, completed).state.desk)
  {
  }

  lemma FailSameIdentity(s: State, vid: nat)
    ensures SameIdentity(s.desk, SimulateFailure(s, vid).state.desk)
  {
  }

  /** Only registering an agent and the kill switch touch agents and revocations. */
  lemma OthersSameIdentity(s: State, op: Op, now: int)
    requires !op.OpAgent? && !op.OpKill?
    ensures SameIdentity(s.desk, Perform(s, op, now).state.desk)
  {
    if op.OpEvaluate? {
      EvaluateSameIdentity(s, op.app, op.gateway, op.matched, now);
    } else if op.OpVault? {
      VaultSameIdentity(s, op.app, op.perTxn, now);
    } else if op.OpPropose? {
      ProposeSameIdentity(s, op.request, now);
    } else if op.OpExecute? {
      ExecuteSameIdentity(s, op.proposal, op.caught, now);
    } else if op.OpRevenue? {
      RevenueSameIdentity(s, op.vault, op.amount, op.external, op.currency, op.completed);
    } else if op.OpFail? {
      FailSameIdentity(s, op.vault);
    }
  }

  lemma RevocationsStay(s: State, op: Op, now: int, a: nat)
    requires RevokedAgent(s.desk, a)
    ensures RevokedAgent(Perform(s, op, now).state.desk, a)
  {
    if !op.OpAgent? && !op.OpKill? {
      OthersSameIdentity(s, op, now);
    }
  }

  /** The policy engine refuses any proposal without a valid passport. */
  lemma NoPassportNoApproval(s: State, q: SpendRequest, now: int)
    requires q.vault < |s.book.vaults| && !PassportValid(s.desk, s.book.vaults[q.vault].agent, now)
    ensures PolicyDenials(s, q, now) != {}
  {
    var v := s.book.vaults[q.vault];
    var rulesAllow := RuleReasons(s, q, now) == {};
    P.DocumentReadsBack(false, Seconds(v.expiresAt), Seconds(now), AgentText(StatusOf(s.desk, v.agent)),
                        VaultText(v.status), Vendors(v.allow), v.perTransactionLimit, v.spent, v.totalLimit,
                        q.vendor, q.amount, rulesAllow);
    assert P.IdentityInvalid in PolicyDenials(s, q, now);
  }

  lemma ProposeDenied(s: State, q: SpendRequest, now: int, a: nat)
    requires RevokedAgent(s.desk, a)
    ensures LateDenied(Propose(s, q, now).state.book, |s.book.proposals|, a)
  {
    if q.vault < |s.book.vaults| && s.book.vaults[q.vault].agent == a {
      RevokedHasNoPassport(s.desk, a, now);
      NoPassportNoApproval(s, q, now);
    }
  }

  /** What a step must respect for the lock to hold: old proposals only grow, and new ones for
      vaults of the agent are refused. */
  lemma LockGrows(s: State, t: State, a: nat)
    requires Locked(s, a) && RevokedAgent(t.desk, a) && Steady(s.book, t.book) && InRange(s.book)
    requires LateDenied(t.book, |s.book.proposals|, a)
    ensures Locked(t, a)
  {
    forall i | 0 <= i < |t.book.vaults| && t.book.vaults[i].agent == a
      ensures !Spendable(t.book.vaults[i].status) || AllDenied(t.book.proposals, i)
    {
      assert VaultGrows(s.book.vaults[i], t.book.vaults[i]);
      if Spendable(t.book.vaults[i].status) {
        forall p | p in t.book.proposals && p.vault == i ensures p.status == ProposalDenied {
          var k :| 0 <= k < |t.book.proposals| && t.book.proposals[k] == p;
          if k < |s.book.proposals| {
            assert ProposalGrows(s.book.proposals[k], p);
            assert s.book.proposals[k] in s.book.proposals;
          }
        }
      }
    }
  }

  lemma NewVaultLocked(s: State, app: nat, perTxn: Option<int>, now: int, a: nat)
    requires Kept(s.book) && Locked(s, a)
    ensures Locked(CreateVault(s, app, perTxn, now).state, a)
  {
    CreateVaultPosts(s, app, perTxn, now);
    VaultSameIdentity(s, app, perTxn, now);
    var t := CreateVault(s, app, perTxn, now).state;
    if t != s {
      assert forall p :: p in s.book.proposals ==> p.vault < |s.book.vaults|;
    }
  }

  lemma NewOnesDenied(s: State, op: Op, now: int, a: nat)
    requires Kept(s.book) && RevokedAgent(s.desk, a)
    ensures LateDenied(Perform(s, op, now).state.book, |s.book.proposals|, a)
  {
    if op.OpPropose? {
      ProposeDenied(s, op.request, now, a);
    } else {
      NoNewProposals(s, op, now);
    }
  }

  lemma LockHolds(s: State, op: Op, now: int, a: nat)
    requires Kept(s.book) && Locked(s, a)
    ensures Locked(Perform(s, op, now).state, a)
  {
    if op.OpVault? {
      NewVaultLocked(s, op.app, op.perTxn, now, a);
    } else {
      PerformGrows(s, op, now);
      RevocationsStay(s, op, now, a);
      NewOnesDenied(s, op, now, a);
      LockGrows(s, Perform(s, op, now).state, a);
    }
  }

  /** Under the lock no operation pays. */
  lemma LockedExecutePaysNothing(s: State, pid: nat, caught: bool, now: int, a: nat)
    requires Kept(s.book) && Locked(s, a)
    ensures NothingPaid(s.book, Execute(s, pid, caught, now).state.book, a)
  {
    ExecutePosts(s, pid, caught, now);
    var c := Execute(s, pid, caught, now).state.book;
    if c.payments != s.book.payments {
      var p := s.book.proposals[pid];
      assert p in s.book.proposals;
      assert s.book.vaults[p.vault].agent != a;
    }
  }

  lemma LockedPaysNothing(s: State, op: Op, now: int, a: nat)
    requires Kept(s.book) && Locked(s, a)
    ensures NothingPaid(s.book, Perform(s, op, now).state.book, a)
  {
    if op.OpExecute? {
      PaymentPaysOthers(s, op, now, a);
    } else {
      OthersPayNothing(s, op, now, a);
    }
  }

  lemma OthersPayNothing(s: State, op: Op, now: int, a: nat)
    requires !op.OpExecute?
    ensures NothingPaid(s.book, Perform(s, op, now).state.book, a)
  {
    OnlyExecutePays(s, op, now);
  }

  lemma PaymentPaysOthers(s: State, op: Op, now: int, a: nat)
    requires Kept(s.book) && Locked(s, a) && op.OpExecute?
    ensures NothingPaid(s.book, Perform(s, op, now).state.book, a)
  {
    LockedExecutePaysNothing(s, op.proposal, op.caught, now, a);
  }

  // ----- No new credit -----

  /** Applications of the agent not decided at the time of revocation are never granted. */
  ghost predicate NoneGranted(d: Desk, past: seq<Application>, a: nat) {
    && |past| <= |d.apps|
    && forall i :: 0 <= i < |d.apps| && d.apps[i].agent == a && (i >= |past| || past[i].status == Draft) ==>
         d.apps[i].status == Draft || d.apps[i].status == AppRejected
  }

  lemma EvaluationsStayRefused(s: State, app: nat, gateway: Option<Gateway>, matched: bool, now: int, a: nat,
                               past: seq<Application>)
    requires RevokedAgent(s.desk, a) && NoneGranted(s.desk, past, a)
    ensures NoneGranted(Evaluate(s, app, gateway, matched, now).state.desk, past, a)
  {
    if app < |s.desk.apps| {
      AssessBounded(s, app, gateway, matched, now);
      if s.desk.apps[app].agent == a { RevokedHasNoPassport(s.desk, a, now); }
    }
  }

  lemma ReviewsStayRefused(s: State, app: nat, action: ReviewAction, amount: int, a: nat, past: seq<Application>)
    requires NoneGranted(s.desk, past, a)
    ensures NoneGranted(ReviewApplication(s, app, action, amount).state.desk, past, a)
  {
    ReviewShape(s, app, action, amount);
  }

  lemma FundingStaysRefused(s: State, app: nat, perTxn: Option<int>, now: int, a: nat, past: seq<Application>)
    requires NoneGranted(s.desk, past, a)
    ensures NoneGranted(CreateVault(s, app, perTxn, now).state.desk, past, a)
  {
    FundShape(s, app, perTxn, now);
  }

  lemma GrantsStayRefused(s: State, op: Op, now: int, a: nat, past: seq<Application>)
    requires RevokedAgent(s.desk, a) && NoneGranted(s.desk, past, a)
    ensures NoneGranted(Perform(s, op, now).state.desk, past, a)
  {
    match op
    case OpEvaluate(app, gateway, matched) => EvaluationsStayRefused(s, app, gateway, matched, now, a, past);
    case OpReview(app, action, amount) => ReviewsStayRefused(s, app, action, amount, a, past);
    case OpVault(app, perTxn) => FundingStaysRefused(s, app, perTxn, now, a, past);
    case OpApply(application) =>
    case _ => OthersKeepCore(s, op, now);
  }

  // ----- Over whole runs -----

  ghost predicate Shut(y: System, z: System, a: nat) {
    && StateKept(z.state) && Locked(z.state, a) && Grows(y.state.book, z.state.book)
    && NothingPaid(y.state.book, z.state.book, a)
    && NoneGranted(z.state.desk, y.state.desk.apps, a)
    && LateDenied(z.state.book, |y.state.book.proposals|, a)
  }

  lemma ShutStep(y: System, z: System, e: Event, a: nat)
    requires Shut(y, z, a) && e.now >= z.clock
    ensures Shut(y, Next(z, e), a)
  {
    var s, t := z.state, Next(z, e).state;
    PerformKeepsState(s, e.op, e.now);
    LockHolds(s, e.op, e.now, a);
    PerformGrows(s, e.op, e.now);
    GrowsTransitive(y.state.book, s.book, t.book);
    LockedPaysNothing(s, e.op, e.now, a);
    GrantsStayRefused(s, e.op, e.now, a, y.state.desk.apps);
    ShutPayments(y.state.book, s.book, t.book, a);
    NewOnesDenied(s, e.op, e.now, a);
    LateDeniedGrows(s.book, t.book, |y.state.book.proposals|, a);
  }

  lemma ShutPayments(b: Book, c: Book, d: Book, a: nat)
    requires NothingPaid(b, c, a) && NothingPaid(c, d, a) && Grows(c, d)
    ensures NothingPaid(b, d, a)
  {
    forall k | |b.payments| <= k < |d.payments|
      ensures d.payments[k].vault < |d.vaults| && d.vaults[d.payments[k].vault].agent != a
    {
      if k < |c.payments| {
        assert d.payments[k] == c.payments[k];
        assert VaultGrows(c.vaults[c.payments[k].vault], d.vaults[c.payments[k].vault]);
      }
    }
  }

  lemma LateDeniedGrows(b: Book, c: Book, start: nat, a: nat)
    requires LateDenied(b, start, a) && Grows(b, c) && LateDenied(c, |b.proposals|, a)
    ensures LateDenied(c, start, a)
  {
    forall k | start <= k < |b.proposals|
      ensures && c.proposals[k].vault < |c.vaults|
              && (c.vaults[c.proposals[k].vault].agent == a ==> c.proposals[k].status == ProposalDenied)
    {
      assert ProposalGrows(b.proposals[k], c.proposals[k]);
      assert VaultGrows(b.vaults[b.proposals[k].vault], c.vaults[b.proposals[k].vault]);
    }
  }

  lemma {:induction false} ShutRun(y: System, events: seq<Event>, a: nat)
    requires Shut(y, y, a)
    ensures Shut(y, Run(y, events), a)
  {
    if events != [] {
      var n := |events| - 1;
      ShutRun(y, events[..n], a);
      if events[n].now >= Run(y, events[..n]).clock {
        ShutStep(y, Run(y, events[..n]), events[n], a);
      }
    }
  }

  /** Revocation is permanent: whatever happened before the REVOKE and whatever service calls
      follow it (freezing and unfreezing the agent, new passports, human reviews, vaults opened
      from applications approved earlier), no payment is ever again made from a vault of the agent,
      no earlier vault becomes spendable, every later proposal is refused, and no application
      undecided at that moment is ever granted. */
  lemma RevocationIsPermanent(before: seq<Event>, a: nat, now: int, after: seq<Event>)
    requires a < |Run(START, before).state.desk.agents| && now >= Run(START, before).clock
    ensures var y := Next(Run(START, before), Event(now, OpKill(a, KillRevoke)));
      var z := Run(y, after);
      && NothingPaid(y.state.book, z.state.book, a)
      && Unspendable(y.state.book, z.state.book, a)
      && LateDenied(z.state.book, |y.state.book.proposals|, a)
      && NoneGranted(z.state.desk, y.state.desk.apps, a)
  {
    var x := Run(START, before);
    RunKeepsState(before);
    var y := Next(x, Event(now, OpKill(a, KillRevoke)));
    ShutStart(x, a, now);
    ShutRun(y, after, a);
    UnspendableStays(y.state.book, Run(y, after).state.book, a);
  }

  lemma RevokeLocksNow(s: State, a: nat, now: int)
    requires a < |s.desk.agents|
    ensures var t := Perform(s, OpKill(a, KillRevoke), now).state;
      Locked(t, a) && Unspendable(t.book, t.book, a)
  {
    RevokeLocks(s, a);
  }

  lemma ShutStart(x: System, a: nat, now: int)
    requires StateKept(x.state) && a < |x.state.desk.agents| && now >= x.clock
    ensures var y := System(now, Perform(x.state, OpKill(a, KillRevoke), now).state);
      Shut(y, y, a) && Unspendable(y.state.book, y.state.book, a)
  {
    PerformKeepsState(x.state, OpKill(a, KillRevoke), now);
    RevokeLocksNow(x.state, a, now);
    ShutAtOnce(System(now, Perform(x.state, OpKill(a, KillRevoke), now).state), a);
  }

  lemma ShutAtOnce(y: System, a: nat)
    requires StateKept(y.state) && Locked(y.state, a)
    ensures Shut(y, y, a)
  {
    GrowsReflexive(y.state.book);
  }

  lemma UnspendableStays(b: Book, c: Book, a: nat)
    requires Unspendable(b, b, a) && Grows(b, c)
    ensures Unspendable(b, c, a)
  {
    forall i | 0 <= i < |b.vaults| && b.vaults[i].agent == a ensures !Spendable(c.vaults[i].status) {
      assert VaultGrows(b.vaults[i], c.vaults[i]);
    }
  }

  // ----- The status column -----

  /** The agent's status column, by contrast, can read ACTIVE again after a REVOKE. */
  lemma StatusIsNotPermanent(s: State, a: nat)
    requires a < |s.desk.agents|
    ensures var t := KillSwitch(KillSwitch(KillSwitch(s, a, KillRevoke).state, a, KillFreeze).state, a, KillUnfreeze);
      t.result == Ok(a) && t.state.desk.agents[a].status == R.AgentActive
  {
  }

  predicate ReadsRevoked(d: Desk, a: nat) { a < |d.agents| && d.agents[a].status == R.AgentRevoked }

  /** Step by step: a column that reads REVOKED still does after a call if and only if the call
      is not a FREEZE of that agent, the one branch of the kill switch without a guard. */
  lemma StatusStep(s: State, op: Op, now: int, a: nat)
    requires ReadsRevoked(s.desk, a)
    ensures ReadsRevoked(Perform(s, op, now).state.desk, a) <==> op != OpKill(a, KillFreeze)
  {
    if !op.OpAgent? && !op.OpKill? {
      OthersSameIdentity(s, op, now);
    }
  }

  /** The column reads REVOKED at every moment of a run. */
  ghost predicate AlwaysRevoked(y: System, events: seq<Event>, a: nat) {
    forall n: nat :: n <= |events| ==> ReadsRevoked(Run(y, events[..n]).state.desk, a)
  }

  ghost predicate NeverFrozen(y: System, events: seq<Event>, a: nat) {
    forall e :: e in Performed(y, events) ==> e.op != OpKill(a, KillFreeze)
  }

  lemma AlwaysSplits(y: System, events: seq<Event>, a: nat)
    requires events != []
    ensures AlwaysRevoked(y, events, a) <==>
      AlwaysRevoked(y, events[..|events| - 1], a) && ReadsRevoked(Run(y, events).state.desk, a)
  {
    var earlier := events[..|events| - 1];
    assert forall n: nat :: n <= |earlier| ==> earlier[..n] == events[..n];
    assert events[..|events|] == events;
    if AlwaysRevoked(y, events, a) {
      forall n: nat | n <= |earlier| ensures ReadsRevoked(Run(y, earlier[..n]).state.desk, a) {
        assert ReadsRevoked(Run(y, events[..n]).state.desk, a);
      }
      assert ReadsRevoked(Run(y, events[..|events|]).state.desk, a);
    }
    if AlwaysRevoked(y, earlier, a) && ReadsRevoked(Run(y, events).state.desk, a) {
      forall n: nat | n <= |events| ensures ReadsRevoked(Run(y, events[..n]).state.desk, a) {
        if n < |events| {
          assert ReadsRevoked(Run(y, earlier[..n]).state.desk, a);
        }
      }
    }
  }

  lemma NeverSplits(y: System, events: seq<Event>, a: nat)
    requires events != []
    ensures var n := |events| - 1;
      NeverFrozen(y, events, a) <==>
        NeverFrozen(y, events[..n], a) && (events[n].now < Run(y, events[..n]).clock
                                           || events[n].op != OpKill(a, KillFreeze))
  {
  }

  lemma {:induction false} StatusRun(y: System, events: seq<Event>, a: nat)
    requires ReadsRevoked(y.state.desk, a)
    ensures AlwaysRevoked(y, events, a) <==> NeverFrozen(y, events, a)
  {
    if events != [] {
      var n := |events| - 1;
      StatusRun(y, events[..n], a);
      AlwaysSplits(y, events, a);
      NeverSplits(y, events, a);
      if AlwaysRevoked(y, events[..n], a) {
        assert events[..n][..n] == events[..n];
        var before := Run(y, events[..n]);
        assert ReadsRevoked(before.state.desk, a);
        StatusStep(before.state, events[n].op, events[n].now, a);
      }
    } else {
      assert events[..0] == [];
    }
  }

  /** Over runs: after a REVOKE the column reads REVOKED at every moment if and only if no call
      that is performed is a FREEZE of that agent. */
  lemma StatusStaysRevoked(x: System, a: nat, now: int, events: seq<Event>)
    requires a < |x.state.desk.agents| && now >= x.clock
    ensures var y := Next(x, Event(now, OpKill(a, KillRevoke)));
      AlwaysRevoked(y, events, a) <==> NeverFrozen(y, events, a)
  {
    StatusRun(Next(x, Event(now, OpKill(a, KillRevoke))), events, a);
  }
}
