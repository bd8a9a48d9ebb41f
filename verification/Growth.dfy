/** What no operation ever undoes: rows are only appended, fixed columns stay, and settled
    vaults, executed payments and refused proposals stay so. */
module Growth {
  import opened Tables
  import opened Statuses
  import opened Records
  import opened Operations
  import W = Waterfall
  import L = Ledger
  import R = Rules
  import P = Policy

  predicate SameTerms(v: Vault, w: Vault) {
    && v.agent == w.agent && v.task == w.task && v.application == w.application && v.currency == w.currency
    && v.totalLimit == w.totalLimit && v.perTransactionLimit == w.perTransactionLimit
    && v.dailyLimit == w.dailyLimit && v.maxTransactions == w.maxTransactions
    && v.expiresAt == w.expiresAt && v.allow == w.allow
  }

  /** A vault never becomes live again, nor spendable once it is not. */
  predicate VaultGrows(v: Vault, w: Vault) {
    && SameTerms(v, w)
    && (!Live(v.status) ==> !Live(w.status))
    && (!Spendable(v.status) ==> !Spendable(w.status))
  }

  predicate ProposalGrows(p: Proposal, q: Proposal) {
    && q.vault == p.vault && q.vendor == p.vendor && q.amount == p.amount && q.currency == p.currency
    && q.purpose == p.purpose && q.key == p.key
    && (p.status != ProposalApproved ==> q.status == p.status)
  }

  ghost predicate Grows(b: Book, c: Book) {
    && |b.vaults| <= |c.vaults|
    && (forall i :: 0 <= i < |b.vaults| ==> VaultGrows(b.vaults[i], c.vaults[i]))
    && |b.proposals| <= |c.proposals|
    && (forall i :: 0 <= i < |b.proposals| ==> ProposalGrows(b.proposals[i], c.proposals[i]))
    && b.payments <= c.payments && b.revenues <= c.revenues && b.repayments <= c.repayments
    && b.records <= c.records && b.ledger.journal <= c.ledger.journal
  }

  /** Growth without a new vault. */
  ghost predicate Steady(b: Book, c: Book) { Grows(b, c) && |c.vaults| == |b.vaults| }

  lemma GrowsTransitive(a: Book, b: Book, c: Book)
    requires Grows(a, b) && Grows(b, c)
    ensures Grows(a, c)
  {
    forall i | 0 <= i < |a.vaults| ensures VaultGrows(a.vaults[i], c.vaults[i]) {
      assert VaultGrows(a.vaults[i], b.vaults[i]) && VaultGrows(b.vaults[i], c.vaults[i]);
    }
    forall i | 0 <= i < |a.proposals| ensures ProposalGrows(a.proposals[i], c.proposals[i]) {
      assert ProposalGrows(a.proposals[i], b.proposals[i]) && ProposalGrows(b.proposals[i], c.proposals[i]);
    }
  }

  lemma GrowsReflexive(b: Book)
    ensures Steady(b, b)
  {
  }

  lemma CollectGrows(b: Book, vid: nat, amount: int, external: string, currency: string,
                     w: W.RepaymentResult, j: nat, k: nat, ledger: L.Books)
    requires vid < |b.vaults| && !Live(Settled(w)) && b.ledger.journal <= ledger.journal
    ensures Steady(b, Collect(b, vid, amount, external, currency, w, j, k).(ledger := ledger))
  {
  }

  lemma RevenueGrows(s: State, vid: nat, amount: int, external: string, currency: string, completed: bool)
    ensures Steady(s.book, ReceiveRevenue(s, vid, amount, external, currency, completed).state.book)
  {
    var b, c := s.book, ReceiveRevenue(s, vid, amount, external, currency, completed).state.book;
    GrowsReflexive(b);
    if c != b {
      var v := b.vaults[vid];
      var first := L.Post(L.Complete(b.ledger), RevenueKey(external), L.RevenueReceipt, vid,
                          RevenueEntries(amount, currency));
      var w := W.Repayment(amount, v.principal, v.feeDue, v.reserveDrawn);
      var second := L.Post(first.books, WaterfallKey(external), L.RepaymentWaterfall, vid,
                           WaterfallEntries(amount, w, currency));
      CollectGrows(b, vid, amount, external, currency, w, first.id, second.id, second.books);
    }
  }

  lemma RecoverGrows(b: Book, vid: nat, w: W.RecoveryResult, j: Option<nat>, ledger: L.Books)
    requires vid < |b.vaults| && b.ledger.journal <= ledger.journal
    ensures Steady(b, Recover(b, vid, w, j).(ledger := ledger))
  {
  }

  lemma FailGrows(s: State, vid: nat)
    ensures Steady(s.book, SimulateFailure(s, vid).state.book)
  {
    var b, c := s.book, SimulateFailure(s, vid).state.book;
    GrowsReflexive(b);
    if c != b {
      var v := b.vaults[vid];
      var cap := ReserveCap(s.desk, v.task);
      var w := W.Recovery(v.principal, v.totalLimit - v.spent, 0, cap, cap);
      RecoverGrows(b, vid, w, None, L.Complete(b.ledger));
      var posting := L.Post(L.Complete(b.ledger), RecoveryKey(vid), L.RecoveryWaterfall, vid,
                            RecoveryEntries(w, v.currency));
      if posting.Posted? {
        RecoverGrows(b, vid, w, Some(posting.id), posting.books);
      }
    }
  }

  lemma PayGrows(b: Book, pid: nat, jid: nat, now: int, ledger: L.Books)
    requires pid < |b.proposals| && b.proposals[pid].vault < |b.vaults|
    requires b.proposals[pid].status == ProposalApproved && b.ledger.journal <= ledger.journal
    ensures Steady(b, Pay(b, pid, jid, now).(ledger := ledger))
  {
  }

  lemma BlockedGrows(s: State, pid: nat, rules: set<R.Reason>)
    requires pid < |s.book.proposals| && s.book.proposals[pid].vault < |s.book.vaults|
    requires s.book.proposals[pid].status == ProposalApproved
    ensures Steady(s.book, Blocked(s, pid, rules).book)
  {
  }

  lemma ExecuteGrows(s: State, pid: nat, caught: bool, now: int)
    ensures Steady(s.book, Execute(s, pid, caught, now).state.book)
  {
    var b := s.book;
    GrowsReflexive(b);
    if pid < |b.proposals| && b.proposals[pid].status == ProposalApproved && b.proposals[pid].vault < |b.vaults| {
      var p := b.proposals[pid];
      BlockedGrows(s, pid, RuleReasons(s, RequestOf(p), now));
      var posting := L.Post(L.Complete(b.ledger), SpendKey(pid), L.VendorPayment, pid,
                            SpendEntries(p.amount, p.currency));
      if posting.Posted? {
        PayGrows(b, pid, posting.id, now, posting.books);
      }
    }
  }

  lemma RecordGrows(s: State, q: SpendRequest, rules: set<R.Reason>, denials: set<P.Deny>)
    requires q.vault < |s.book.vaults|
    ensures Steady(s.book, RecordProposal(s, q, rules, denials).book)
  {
  }

  lemma ProposeGrows(s: State, q: SpendRequest, now: int)
    ensures Steady(s.book, Propose(s, q, now).state.book)
  {
    GrowsReflexive(s.book);
    if q.vault < |s.book.vaults| {
      RecordGrows(s, q, RuleReasons(s, q, now), PolicyDenials(s, q, now));
    }
  }

  lemma VaultOpensGrows(s: State, app: nat, perTxn: Option<int>, now: int)
    ensures Grows(s.book, CreateVault(s, app, perTxn, now).state.book)
  {
  }

  lemma MoveGrows(s: State, vid: nat, target: VaultStatus)
    requires target in {Frozen, Closed}
    ensures Steady(s.book, MoveVault(s, vid, target).state.book)
  {
  }

  lemma KillGrows(s: State, agent: nat, action: KillAction)
    ensures Steady(s.book, KillSwitch(s, agent, action).state.book)
  {
  }

  /** Operations that leave vaults and money alone. */
  predicate DeskOnly(op: Op) {
    op.OpVendor? || op.OpAgent? || op.OpPassport? || op.OpSigner? || op.OpMandate? || op.OpEvidence? || op.OpApply?
    || op.OpEvaluate? || op.OpReview?
  }

  lemma DeskOnlyKeepsBook(s: State, op: Op, now: int)
    requires DeskOnly(op)
    ensures Perform(s, op, now).state.book == s.book
  {
  }

  /** No operation, in any state, undoes anything; vaults appear only by creation. */
  lemma PerformGrows(s: State, op: Op, now: int)
    ensures Grows(s.book, Perform(s, op, now).state.book)
    ensures !op.OpVault? ==> Steady(s.book, Perform(s, op, now).state.book)
  {
    GrowsReflexive(s.book);
    match op
    case OpVault(app, perTxn) => VaultOpensGrows(s, app, perTxn, now);
    case OpPropose(request) => ProposeGrows(s, request, now);
    case OpExecute(pid, caught) => ExecuteGrows(s, pid, caught, now);
    case OpRevenue(vid, amount, external, currency, completed) =>
      RevenueGrows(s, vid, amount, external, currency, completed);
    case OpFail(vid) => FailGrows(s, vid);
    case OpFreeze(vid) => MoveGrows(s, vid, Frozen);
    case OpClose(vid) => MoveGrows(s, vid, Closed);
    case OpKill(agent, action) => KillGrows(s, agent, action);
    case _ => DeskOnlyKeepsBook(s, op, now);
  }

  lemma {:induction false} RunGrows(y: System, events: seq<Event>)
    ensures Grows(y.state.book, Run(y, events).state.book)
  {
    if events != [] {
      var n := |events| - 1;
      RunGrows(y, events[..n]);
      var before := Run(y, events[..n]);
      if events[n].now >= before.clock {
        PerformGrows(before.state, events[n].op, events[n].now);
        GrowsTransitive(y.state.book, before.state.book, Next(before, events[n]).state.book);
      }
    }
  }

  // ----- Who writes proposals and payments -----

  predicate SameSpending(b: Book, c: Book) { c.proposals == b.proposals && c.payments == b.payments }

  lemma VaultQuiet(s: State, app: nat, perTxn: Option<int>, now: int)
    ensures SameSpending(s.book, CreateVault(s, app, perTxn, now).state.book)
  {
  }

  lemma RevenueQuiet(s: State, vid: nat, amount: int, external: string, currency: string, completed: bool)
    ensures SameSpending(s.book, ReceiveRevenue(s, vid, amount, external, currency, completed).state.book)
  {
  }

  lemma FailQuiet(s: State, vid: nat)
    ensures SameSpending(s.book, SimulateFailure(s, vid).state.book)
  {
  }

  lemma StatusQuiet(s: State, op: Op, now: int)
    requires op.OpFreeze? || op.OpClose? || op.OpKill?
    ensures SameSpending(s.book, Perform(s, op, now).state.book)
  {
  }

  /** Only proposing and executing touch proposals and payments, in any state. */
  lemma QuietOnSpending(s: State, op: Op, now: int)
    requires !op.OpPropose? && !op.OpExecute?
    ensures SameSpending(s.book, Perform(s, op, now).state.book)
  {
    match op
    case OpVault(app, perTxn) => VaultQuiet(s, app, perTxn, now);
    case OpRevenue(vid, amount, external, currency, completed) =>
      RevenueQuiet(s, vid, amount, external, currency, completed);
    case OpFail(vid) => FailQuiet(s, vid);
    case OpFreeze(vid) => StatusQuiet(s, op, now);
    case OpClose(vid) => StatusQuiet(s, op, now);
    case OpKill(agent, action) => StatusQuiet(s, op, now);
    case _ => DeskOnlyKeepsBook(s, op, now);
  }

  lemma ProposePaysNothing(s: State, q: SpendRequest, now: int)
    ensures Propose(s, q, now).state.book.payments == s.book.payments
  {
  }

  lemma OnlyExecutePays(s: State, op: Op, now: int)
    requires !op.OpExecute?
    ensures Perform(s, op, now).state.book.payments == s.book.payments
  {
    if op.OpPropose? {
      ProposePaysNothing(s, op.request, now);
    } else {
      QuietOnSpending(s, op, now);
    }
  }

  lemma ExecuteAddsNoProposal(s: State, pid: nat, caught: bool, now: int)
    ensures |Execute(s, pid, caught, now).state.book.proposals| == |s.book.proposals|
  {
  }

  lemma NoNewProposals(s: State, op: Op, now: int)
    requires !op.OpPropose?
    ensures |Perform(s, op, now).state.book.proposals| == |s.book.proposals|
  {
    if op.OpExecute? {
      ExecuteAddsNoProposal(s, op.proposal, op.caught, now);
    } else {
      QuietOnSpending(s, op, now);
    }
  }

  /** An execution that pays does so because no rule objected, and adds one payment. */
  lemma ExecutePays(s: State, pid: nat, caught: bool, now: int)
    ensures var b, c := s.book, Execute(s, pid, caught, now).state.book;
      c.payments == b.payments
      || (&& pid < |b.proposals| && b.proposals[pid].vault < |b.vaults| && |c.payments| == |b.payments| + 1
          && RuleReasons(s, RequestOf(b.proposals[pid]), now) == {}
          && var p, q := b.proposals[pid], c.payments[|b.payments|];
             c.payments == b.payments + [q]
             && q == Payment(p.vault, pid, p.vendor, p.amount, p.currency, q.journal, now))
  {
  }
}
