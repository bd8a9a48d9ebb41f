/** What holds of the money in every reachable state, over any run of service calls. */
module Safety {
  import opened Tables
  import opened Statuses
  import opened Records
  import opened Operations
  import opened Growth
  import opened VaultFile
  import opened Invariants
  import opened Preservation
  import opened Provenance
  import W = Waterfall
  import L = Ledger
  import R = Rules
  import U = Underwriting

  // ----- The ledger -----

  /** Sub-ledger agreement: in every reachable state each platform account equals the column
      or rows it accounts for, although no operation ever compares the two. */
  lemma SubLedgersAgree(events: seq<Event>)
    ensures var b := Run(START, events).state.book;
      var j := b.ledger.journal;
      && L.Balance(j, L.PrincipalReceivable) == Sum(b.vaults, Principal)
      && L.Balance(j, L.VaultAvailable) == Sum(b.vaults, Unspent)
      && L.Balance(j, L.ReservePool) == -Sum(b.vaults, ReserveDrawn)
      && L.Balance(j, L.RevenueEscrow) == 0 && L.Balance(j, L.LenderLiquidity) == 0
      && L.Balance(j, L.SandboxCash) == Sum(b.revenues, RevenueAmount)
      && L.Balance(j, L.VendorPayable) == Sum(b.payments, PaymentAmount)
      && L.Balance(j, L.FeeIncome) == Sum(b.repayments, FeePaid)
      && L.Balance(j, L.OwnerPayable) == Sum(b.repayments, OwnerPaid)
      && L.Balance(j, L.LossDefault) == Sum(b.repayments, LossTaken)
  {
    RunKeepsState(events);
  }

  /** The trial balance is empty in every currency, the accounting identity holds, and no
      idempotency key is ever used twice. */
  lemma LedgerStaysBalanced(events: seq<Event>, currency: string)
    ensures var j := Run(START, events).state.book.ledger.journal;
      && L.TrialNet(j, currency) == 0
      && L.Assets(j) + L.Balance(j, L.LossDefault) == L.Liabilities(j) + L.Balance(j, L.FeeIncome)
      && forall i, k :: 0 <= i < k < |j| ==> j[i].key != j[k].key
  {
    RunKeepsState(events);
    var b := Run(START, events).state.book;
    L.TrialBalanceEmpty(b.ledger, currency);
    L.AccountingIdentity(b.ledger);
  }

  /** One new journal row per new vault, payment, revenue and repayment: nothing that happened
      went unposted, and nothing was posted that did not happen. */
  predicate PostsExactly(b: Book, c: Book) {
    |c.ledger.journal| - |b.ledger.journal|
    == (|c.vaults| - |b.vaults|) + (|c.payments| - |b.payments|)
       + (|c.revenues| - |b.revenues|) + (|c.repayments| - |b.repayments|)
  }

  lemma MovePosts(s: State, op: Op, now: int)
    requires op.OpFreeze? || op.OpClose? || op.OpKill?
    ensures var r := Perform(s, op, now);
      PostsExactly(s.book, r.state.book) && (r.result.Err? ==> !r.result.error.LedgerRefused?)
  {
  }

  lemma ExecutePostsExactly(s: State, pid: nat, caught: bool, now: int)
    requires Kept(s.book)
    ensures var r := Execute(s, pid, caught, now);
      PostsExactly(s.book, r.state.book) && (r.result.Err? ==> !r.result.error.LedgerRefused?)
  {
    ExecutePosts(s, pid, caught, now);
  }

  lemma RevenuePostsExactly(s: State, vid: nat, amount: int, external: string, currency: string, completed: bool)
    requires Kept(s.book)
    ensures var r := ReceiveRevenue(s, vid, amount, external, currency, completed);
      PostsExactly(s.book, r.state.book) && (r.result.Err? ==> !r.result.error.LedgerRefused?)
  {
    ReceiveRevenuePosts(s, vid, amount, external, currency, completed);
  }

  lemma FailPostsExactly(s: State, vid: nat)
    requires Kept(s.book)
    ensures var r := SimulateFailure(s, vid);
      PostsExactly(s.book, r.state.book) && (r.result.Err? ==> !r.result.error.LedgerRefused?)
  {
    SimulateFailurePosts(s, vid);
  }

  lemma VaultPostsExactly(s: State, app: nat, perTxn: Option<int>, now: int)
    requires Kept(s.book)
    ensures var r := CreateVault(s, app, perTxn, now);
      PostsExactly(s.book, r.state.book) && (r.result.Err? ==> !r.result.error.LedgerRefused?)
  {
    CreateVaultPosts(s, app, perTxn, now);
  }

  /** In no reachable state does the ledger reject or swallow a posting an operation makes. */
  lemma PostingsNeverRefused(events: seq<Event>, op: Op, now: int)
    ensures var s := Run(START, events).state;
      var r := Perform(s, op, now);
      PostsExactly(s.book, r.state.book) && (r.result.Err? ==> !r.result.error.LedgerRefused?)
  {
    RunKeepsState(events);
    var s := Run(START, events).state;
    match op
    case OpVault(app, perTxn) => VaultPostsExactly(s, app, perTxn, now);
    case OpExecute(pid, caught) => ExecutePostsExactly(s, pid, caught, now);
    case OpRevenue(vid, amount, external, currency, completed) =>
      RevenuePostsExactly(s, vid, amount, external, currency, completed);
    case OpFail(vid) => FailPostsExactly(s, vid);
    case OpPropose(request) => ProposeMovesNoMoney(s, request, now);
    case OpFreeze(vid) => MovePosts(s, op, now);
    case OpClose(vid) => MovePosts(s, op, now);
    case OpKill(agent, action) => MovePosts(s, op, now);
    case _ =>
      DeskOnlyKeepsBook(s, op, now);
      DeskOnlyNotLedger(s, op, now);
  }

  lemma ProposeMovesNoMoney(s: State, q: SpendRequest, now: int)
    ensures var r := Propose(s, q, now);
      && (r.result.Err? ==> r.result.error == PolicyDenied)
      && PostsExactly(s.book, r.state.book)
      && r.state.book.ledger == s.book.ledger && r.state.book.payments == s.book.payments
  {
  }

  lemma DeskOnlyNotLedger(s: State, op: Op, now: int)
    requires DeskOnly(op)
    ensures var r := Perform(s, op, now).result;
      r.Err? ==> !r.error.LedgerRefused?
  {
  }

  // ----- Idempotent replays -----

  /** A revenue event counts once: whoever repeats it, for whatever vault and amount, changes
      nothing.  Like the next two, this holds of every state, reachable or not. */
  lemma RevenueCountsOnce(s: State, vid: nat, amount: int, external: string, currency: string, completed: bool,
                          vid': nat, amount': int, currency': string, completed': bool)
    ensures var r := ReceiveRevenue(s, vid, amount, external, currency, completed);
      r.result.Ok? ==> ReceiveRevenue(r.state, vid', amount', external, currency', completed').state == r.state
  {
    var r := ReceiveRevenue(s, vid, amount, external, currency, completed);
    if r.result.Ok? {
      AcceptedIsKnown(s, vid, amount, external, currency, completed);
      KnownIsReplayed(r.state, vid', amount', external, currency', completed');
    }
  }

  lemma AcceptedIsKnown(s: State, vid: nat, amount: int, external: string, currency: string, completed: bool)
    ensures var r := ReceiveRevenue(s, vid, amount, external, currency, completed);
      r.result.Ok? ==> FindRevenue(r.state.book.revenues, external).Some?
  {
    var r := ReceiveRevenue(s, vid, amount, external, currency, completed);
    if r.result.Ok? && FindRevenue(s.book.revenues, external).None? {
      assert r.state.book.revenues[|s.book.revenues|].external == external;
    }
  }

  lemma KnownIsReplayed(s: State, vid: nat, amount: int, external: string, currency: string, completed: bool)
    requires FindRevenue(s.book.revenues, external).Some?
    ensures ReceiveRevenue(s, vid, amount, external, currency, completed).state == s
  {
  }

  /** A payment is made once: executing the proposal again returns the same payment. */
  lemma PaymentMadeOnce(s: State, pid: nat, caught: bool, now: int, caught': bool, later: int)
    ensures var r := Execute(s, pid, caught, now);
      r.result.Ok? ==> Execute(r.state, pid, caught', later) == r
  {
    var r := Execute(s, pid, caught, now);
    if r.result.Ok? {
      ExecutedIsKnown(s, pid, caught, now);
      KnownIsReturned(r.state, pid, caught', later);
    }
  }

  lemma ExecutedIsKnown(s: State, pid: nat, caught: bool, now: int)
    ensures var r := Execute(s, pid, caught, now);
      r.result.Ok? ==> pid < |r.state.book.proposals| && FindPayment(r.state.book.payments, pid) == Some(r.result.id)
  {
    var r := Execute(s, pid, caught, now);
    if r.result.Ok? && FindPayment(s.book.payments, pid).None? {
      var p := r.state.book.payments[|s.book.payments|];
      assert r.state.book.payments == s.book.payments + [p] && p.proposal == pid;
      FoundStays(s.book.payments, p, pid);
    }
  }

  lemma KnownIsReturned(s: State, pid: nat, caught: bool, now: int)
    requires pid < |s.book.proposals| && FindPayment(s.book.payments, pid).Some?
    ensures Execute(s, pid, caught, now) == Reply(s, Ok(FindPayment(s.book.payments, pid).value))
  {
  }

  /** An idempotency key makes one proposal, whatever the repeat asks for. */
  lemma ProposalMadeOnce(s: State, q: SpendRequest, now: int, q': SpendRequest, later: int)
    requires q'.key == q.key
    ensures var r := Propose(s, q, now);
      r.result.Ok? ==> Propose(r.state, q', later) == r
  {
    var r := Propose(s, q, now);
    if r.result.Ok? && FindProposal(s.book.proposals, q.key).None? {
      assert r.state.book.proposals[|s.book.proposals|].key == q.key;
      assert FindProposal(r.state.book.proposals, q.key) == Some(|s.book.proposals|);
    }
  }

  // ----- Spending -----

  /** What a vault paid out in a closed time interval. */
  function PaidBetween(rows: seq<Payment>, from: int, until: int): int {
    if rows == [] then 0
    else
      var p := rows[|rows| - 1];
      PaidBetween(rows[..|rows| - 1], from, until) + if from <= p.at <= until then p.amount else 0
  }

  lemma {:induction false} IntervalAtMostAll(rows: seq<Payment>, from: int, until: int)
    requires forall p :: p in rows ==> p.amount > 0
    ensures PaidBetween(rows, from, until) <= Sum(rows, PaymentAmount)
  {
    if rows != [] {
      assert rows[|rows| - 1] in rows;
      IntervalAtMostAll(rows[..|rows| - 1], from, until);
    }
  }

  /** Spend safety over whole runs: however many proposals were approved in advance and in
      whatever order they execute, a vault pays at most its limit, its limit is what underwriting
      and review decided within every cap, every day stays within the daily limit, and the spent
      and count columns are the sum and number of the payment rows until a recovery sweeps the vault. */
  lemma SpendWithinCaps(events: seq<Event>, i: nat, day: int)
    requires i < |Run(START, events).state.book.vaults|
    ensures var s := Run(START, events).state;
      var f := FileOf(s.book, i);
      && Paid(f) <= f.vault.totalLimit
      && f.vault.application in s.desk.decisions
      && s.desk.decisions[f.vault.application].caps.Some?
      && U.Within(f.vault.totalLimit, s.desk.decisions[f.vault.application].caps.value)
      && PaidBetween(f.payments, day * R.DAY, day * R.DAY + R.DAY - 1) <= f.vault.dailyLimit
      && f.vault.transactionCount == |f.payments| <= f.vault.maxTransactions
      && (!Recovered(f) ==> f.vault.spent == Paid(f))
  {
    RunKeepsState(events);
    var s := Run(START, events).state;
    var f := FileOf(s.book, i);
    assert Sound(f);
    assert f.vault in s.book.vaults && FundedBy(f.vault, s.desk);
    assert Bounded(s.desk.decisions[f.vault.application]);
    forall p | p in f.payments ensures p.amount > 0 { }
    IntervalAtMostAll(f.payments, day * R.DAY, day * R.DAY + R.DAY - 1);
  }

  // ----- Recovery -----

  /** What a recovery writes: the whole unspent balance swept, the spent part drawn up to the
      signed cap, only the rest booked as loss, and a default exactly when there is a loss. */
  ghost predicate BoundedRecovery(v: Vault, cap: int, v': Vault, row: Repayment) {
    && row.kind == RecoveryRun
    && row.principal == v.totalLimit - v.spent
    && row.reserve == Min(v.spent, cap) <= cap
    && row.loss == Max(0, v.spent - cap)
    && row.fee == 0 && row.owner == 0
    && (v'.status == Defaulted <==> row.loss > 0) && (v'.status == Repaid <==> row.loss == 0)
    && v'.principal == 0 && v'.feeDue == 0 && v'.reserveDrawn == row.reserve && SameTerms(v, v')
  }

  lemma RecoveryWrites(b: Book, vid: nat, cap: nat)
    requires AllSound(b) && vid < |b.vaults| && Live(b.vaults[vid].status)
    ensures var c := RecoveredBook(b, vid, cap);
      |c.vaults| == |b.vaults| && |c.repayments| == |b.repayments| + 1
      && BoundedRecovery(b.vaults[vid], cap, c.vaults[vid], c.repayments[|b.repayments|])
  {
    OpenWhenLive(b, vid);
    RecoveryOfOpen(FileOf(b, vid), cap);
  }

  /** Bounded recovery: from any reachable state it succeeds exactly for the four open statuses,
      given a signed cap that is not negative, and then within its bounds. */
  lemma RecoveryIsBounded(events: seq<Event>, vid: nat)
    ensures var s := Run(START, events).state;
      var x := SimulateFailure(s, vid);
      && (x.result.Err? ==> x.state == s)
      && (x.result.Ok? ==> vid < |s.book.vaults|)
      && (vid < |s.book.vaults| ==>
            var v, mandates := s.book.vaults[vid], s.desk.mandates;
            var cap := if v.task in mandates then mandates[v.task].reserveCap else 0;
            && (x.result.Ok? <==>
                  cap >= 0 && (v.status == Active || v.status == Spending || v.status == Frozen || v.status == Expired))
            && (x.result.Ok? ==>
                  && |x.state.book.vaults| == |s.book.vaults| && |x.state.book.repayments| == |s.book.repayments| + 1
                  && BoundedRecovery(v, cap, x.state.book.vaults[vid], x.state.book.repayments[|s.book.repayments|])))
  {
    RunKeepsState(events);
    var s := Run(START, events).state;
    SimulateFailurePosts(s, vid);
    if Recoverable(s, vid) {
      RecoveryWrites(s.book, vid, ReserveCap(s.desk, s.book.vaults[vid].task));
    }
  }

  /** A vault is recovered at most once, and never both recovered and repaid from revenue. */
  lemma RecoveredAtMostOnce(events: seq<Event>, i: nat, k: nat)
    requires i < |Run(START, events).state.book.vaults|
    requires k < |FileOf(Run(START, events).state.book, i).repayments|
    requires FileOf(Run(START, events).state.book, i).repayments[k].kind == RecoveryRun
    ensures var f := FileOf(Run(START, events).state.book, i);
      |f.repayments| == 1 && f.revenues == [] && Recovered(f)
  {
    RunKeepsState(events);
    var f := FileOf(Run(START, events).state.book, i);
    assert Sound(f);
    assert f.repayments[k] in f.repayments;
  }

  // ----- Repayment -----

  /** What is still owed and everything the repayment rows add up to is that of the total
      revenue arriving at once; the owner is paid at most once, by the last repayment, and only
      when nothing is owed. */
  ghost predicate PathIndependent(f: File) {
    var limit, fee, total := f.vault.totalLimit, U.Fee(f.vault.totalLimit), Received(f);
    && f.vault.principal == limit - Min(total, limit)
    && f.vault.feeDue == fee - Min(Max(total - limit, 0), fee)
    && Sum(f.repayments, PrincipalPaid) == Min(total, limit)
    && Sum(f.repayments, FeePaid) == Min(Max(total - limit, 0), fee)
    && Sum(f.repayments, OwnerPaid) == Max(total - limit - fee, 0)
    && (forall k :: 0 <= k < |f.repayments| - 1 ==> f.repayments[k].owner == 0)
    && (f.repayments != [] && f.repayments[|f.repayments| - 1].owner > 0 ==>
          f.vault.principal == 0 && f.vault.feeDue == 0 && (f.vault.status == Repaid || f.vault.status == Closed))
  }

  lemma SoundFilesAreIndependent(f: File)
    requires Sound(f) && !Recovered(f)
    ensures PathIndependent(f)
  {
    FeeNonNegative(f.vault.totalLimit);
    W.RepaymentConserves(Received(f), f.vault.totalLimit, U.Fee(f.vault.totalLimit), 0);
    if Open(f) {
      NoOwnerYet(f.repayments);
    }
  }

  /** Path independence at the vault, in every reachable state. */
  lemma RepaymentDependsOnTotal(events: seq<Event>, i: nat)
    requires i < |Run(START, events).state.book.vaults|
    ensures var f := FileOf(Run(START, events).state.book, i);
      PathIndependent(f) || (Recovered(f) && f.revenues == [])
  {
    RunKeepsState(events);
    var f := FileOf(Run(START, events).state.book, i);
    assert Sound(f);
    if !Recovered(f) {
      SoundFilesAreIndependent(f);
    }
  }

  /** Each accepted revenue lowers the debt, so a vault accepts at most limit + limit/20 of them. */
  lemma RevenueEventsBounded(events: seq<Event>, i: nat)
    requires i < |Run(START, events).state.book.vaults|
    ensures var f := FileOf(Run(START, events).state.book, i);
      |f.revenues| <= f.vault.totalLimit + f.vault.totalLimit / 20
  {
    RunKeepsState(events);
    var f := FileOf(Run(START, events).state.book, i);
    assert Sound(f);
    FeeNonNegative(f.vault.totalLimit);
    W.RepaymentConserves(Received(f), f.vault.totalLimit, U.Fee(f.vault.totalLimit), 0);
  }
}
