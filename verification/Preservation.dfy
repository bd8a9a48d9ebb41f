/** Every operation keeps the invariants, and while they hold no posting is rejected or swallowed. */
module Preservation {
  import opened Tables
  import opened Statuses
  import opened Records
  import opened Operations
  import opened Growth
  import opened VaultFile
  import opened Postings
  import opened Invariants
  import W = Waterfall
  import L = Ledger
  import R = Rules
  import P = Policy
  import U = Underwriting

  // ----- Opening a vault -----

  function Opened(b: Book, v: Vault): Book {
    var n := |b.vaults|;
    b.(vaults := b.vaults + [v],
       ledger := Filed(b.ledger, DisburseKey(n), L.Disbursement, n, DisburseEntries(v.totalLimit, v.currency)))
  }

  ghost predicate NewRow(v: Vault) {
    && v.totalLimit > 0 && v.dailyLimit == v.totalLimit && v.maxTransactions == 100
    && v.status == Active && v.spent == 0 && v.transactionCount == 0 && v.reserveDrawn == 0
    && v.principal == v.totalLimit && v.feeDue == U.Fee(v.totalLimit)
  }

  /** An approved and decided application with something to lend, all of whose vendors are known. */
  predicate Fundable(s: State, app: nat) {
    && app < |s.desk.apps| && app in s.desk.decisions && s.desk.apps[app].status == AppApproved
    && s.desk.decisions[app].approvedLimit > 0
    && forall v :: v in s.desk.apps[app].vendors ==> v in s.vendors
  }

  /** A vault is created exactly for a fundable application, and its disbursement is then posted
      as a new journal row. */
  lemma CreateVaultPosts(s: State, app: nat, perTxn: Option<int>, now: int)
    requires Kept(s.book)
    ensures CreateVault(s, app, perTxn, now).result.Ok? <==> Fundable(s, app)
    ensures var r := CreateVault(s, app, perTxn, now);
      if r.result.Ok? then
        && Fundable(s, app) && r.result == Ok(|s.book.vaults|)
        && var v := NewVault(s.desk.apps[app], app, s.desk.decisions[app].approvedLimit, perTxn,
                             AllowRows(s.desk.apps[app].vendors, s.vendors), now);
           && NewRow(v) && r.state.book == Opened(s.book, v)
      else r.state == s && !r.result.error.LedgerRefused?
  {
    var d, b := s.desk, s.book;
    if app < |d.apps| && app in d.decisions && d.decisions[app].approvedLimit > 0 {
      var limit := d.decisions[app].approvedLimit;
      FreshDisburse(b);
      Pair(L.PrincipalReceivable, L.VaultAvailable, limit, d.apps[app].currency);
      PostFresh(b.ledger, DisburseKey(|b.vaults|), L.Disbursement, |b.vaults|,
                DisburseEntries(limit, d.apps[app].currency));
    }
  }

  lemma OpenedFiles(b: Book, v: Vault)
    requires InRange(b) && AllSound(b) && NewRow(v)
    ensures AllSound(Opened(b, v))
  {
    var c, n := Opened(b, v), |b.vaults|;
    WhereNone(b.payments, PaymentVault, n);
    WhereNone(b.revenues, RevenueVault, n);
    WhereNone(b.repayments, RepaymentVault, n);
    SoundNew(v);
    forall i | 0 <= i < |c.vaults| ensures Sound(FileOf(c, i)) {
      if i < n {
        assert FileOf(c, i) == FileOf(b, i);
      } else {
        assert FileOf(c, i) == File(v, [], [], []);
      }
    }
  }

  lemma OpenedLedger(b: Book, v: Vault)
    requires Kept(b) && NewRow(v)
    ensures L.Consistent(Opened(b, v).ledger) && AllJustified(Opened(b, v))
  {
    var c, n := Opened(b, v), |b.vaults|;
    FreshDisburse(b);
    Pair(L.PrincipalReceivable, L.VaultAvailable, v.totalLimit, v.currency);
    PostFresh(b.ledger, DisburseKey(n), L.Disbursement, n, DisburseEntries(v.totalLimit, v.currency));
    OpenedGrows(b, v);
    JustifiedAfter(b, c);
  }

  lemma OpenedGrows(b: Book, v: Vault)
    ensures Grows(b, Opened(b, v))
  {
  }

  lemma OpenedSubLedger(b: Book, v: Vault)
    requires SubLedger(b) && NewRow(v)
    ensures SubLedger(Opened(b, v))
  {
    OpenedPosition(b, v);
    SumAppend(b.vaults, v, Principal);
    SumAppend(b.vaults, v, Unspent);
    SumAppend(b.vaults, v, ReserveDrawn);
    assert ColumnPosition(Opened(b, v)) == ColumnPosition(b).Plus(LoanShift(v.totalLimit));
  }

  /** A loan is owed in full and available in full. */
  function LoanShift(limit: int): Position { Position(limit, limit, 0, 0, 0, 0, 0, 0, 0, 0) }

  lemma OpenedPosition(b: Book, v: Vault)
    requires v.totalLimit > 0
    ensures LedgerPosition(Opened(b, v).ledger.journal)
         == LedgerPosition(b.ledger.journal).Plus(LoanShift(v.totalLimit))
  {
    var n, entries := |b.vaults|, DisburseEntries(v.totalLimit, v.currency);
    Pair(L.PrincipalReceivable, L.VaultAvailable, v.totalLimit, v.currency);
    assert Shift(entries) == LoanShift(v.totalLimit);
    PositionShifts(b.ledger.journal, L.Journal(DisburseKey(n), L.Disbursement, n, entries));
  }

  lemma OpenedRest(b: Book, v: Vault)
    requires InRange(b) && Executions(b)
    ensures InRange(Opened(b, v)) && Executions(Opened(b, v))
  {
  }

  lemma VaultSums(b: Book, c: Book, vid: nat)
    requires vid < |b.vaults| == |c.vaults| && c.vaults == b.vaults[vid := c.vaults[vid]]
    ensures Sum(c.vaults, Principal) == Sum(b.vaults, Principal) - b.vaults[vid].principal + c.vaults[vid].principal
    ensures Sum(c.vaults, Unspent) == Sum(b.vaults, Unspent) - Unspent(b.vaults[vid]) + Unspent(c.vaults[vid])
    ensures Sum(c.vaults, ReserveDrawn)
         == Sum(b.vaults, ReserveDrawn) - b.vaults[vid].reserveDrawn + c.vaults[vid].reserveDrawn
  {
    SumUpdate(b.vaults, vid, c.vaults[vid], Principal);
    SumUpdate(b.vaults, vid, c.vaults[vid], Unspent);
    SumUpdate(b.vaults, vid, c.vaults[vid], ReserveDrawn);
  }

  lemma RepaymentSums(rows: seq<Repayment>, r: Repayment)
    ensures Sum(rows + [r], FeePaid) == Sum(rows, FeePaid) + r.fee
    ensures Sum(rows + [r], OwnerPaid) == Sum(rows, OwnerPaid) + r.owner
    ensures Sum(rows + [r], LossTaken) == Sum(rows, LossTaken) + r.loss
  {
    SumAppend(rows, r, FeePaid);
    SumAppend(rows, r, OwnerPaid);
    SumAppend(rows, r, LossTaken);
  }

  lemma CreateVaultKeeps(s: State, app: nat, perTxn: Option<int>, now: int)
    requires Kept(s.book)
    ensures Kept(CreateVault(s, app, perTxn, now).state.book)
  {
    CreateVaultPosts(s, app, perTxn, now);
    var r := CreateVault(s, app, perTxn, now);
    if r.result.Ok? {
      var v := NewVault(s.desk.apps[app], app, s.desk.decisions[app].approvedLimit, perTxn,
                        AllowRows(s.desk.apps[app].vendors, s.vendors), now);
      OpenedFiles(s.book, v);
      OpenedLedger(s.book, v);
      OpenedSubLedger(s.book, v);
      OpenedRest(s.book, v);
    }
  }

  // ----- Statuses and proposals -----

  /** A vault may change status within the live ones, or be closed when the table allows it. */
  predicate MayBecome(v: Vault, w: Vault) {
    w == v
    || (w == v.(status := w.status)
        && ((Live(v.status) && Live(w.status)) || (w.status == Closed && Closed in VaultTargets(v.status))))
  }

  lemma StatusesKeep(b: Book, vaults: seq<Vault>)
    requires Kept(b) && Steady(b, b.(vaults := vaults))
    requires |vaults| == |b.vaults| && forall i :: 0 <= i < |vaults| ==> MayBecome(b.vaults[i], vaults[i])
    ensures Kept(b.(vaults := vaults))
  {
    var c := b.(vaults := vaults);
    SoundStatuses(b, c);
    SubLedgerSame(b, c);
    JustifiedAfter(b, c);
  }

  lemma MoveVaultKeeps(s: State, vid: nat, target: VaultStatus)
    requires Kept(s.book) && (target == Frozen || target == Closed)
    ensures Kept(MoveVault(s, vid, target).state.book)
  {
    MoveGrows(s, vid, target);
    if vid < |s.book.vaults| && VaultTransition(s.book.vaults[vid].status, target).Some? {
      StatusesKeep(s.book, MoveVault(s, vid, target).state.book.vaults);
    }
  }

  lemma KillSwitchKeeps(s: State, agent: nat, action: KillAction)
    requires Kept(s.book)
    ensures Kept(KillSwitch(s, agent, action).state.book)
  {
    var b, c := s.book, KillSwitch(s, agent, action).state.book;
    KillGrows(s, agent, action);
    if c.vaults != b.vaults {
      FreezeAllMay(b.vaults, agent);
      StatusesKeep(b, c.vaults);
    }
  }

  lemma FreezeAllMay(vaults: seq<Vault>, agent: nat)
    ensures forall i :: 0 <= i < |vaults| ==> MayBecome(vaults[i], FreezeAll(vaults, agent)[i])
  {
  }

  lemma RecordProposalKeeps(s: State, q: SpendRequest, rules: set<R.Reason>, denials: set<P.Deny>)
    requires Kept(s.book) && q.vault < |s.book.vaults|
    ensures Kept(RecordProposal(s, q, rules, denials).book)
  {
    var b, c := s.book, RecordProposal(s, q, rules, denials).book;
    RecordGrows(s, q, rules, denials);
    SoundStatuses(b, c);
    SubLedgerSame(b, c);
    JustifiedAfter(b, c);
    RecordRows(s, q, rules, denials);
  }

  lemma RecordRows(s: State, q: SpendRequest, rules: set<R.Reason>, denials: set<P.Deny>)
    requires InRange(s.book) && Executions(s.book) && q.vault < |s.book.vaults|
    ensures InRange(RecordProposal(s, q, rules, denials).book) && Executions(RecordProposal(s, q, rules, denials).book)
  {
    var b, c := s.book, RecordProposal(s, q, rules, denials).book;
    forall r | r in c.records && !r.allow
      ensures r.proposal < |c.proposals| && c.proposals[r.proposal].status == ProposalDenied
    {
      if r in b.records {
        assert c.proposals[r.proposal] == b.proposals[r.proposal];
      }
    }
  }

  lemma ProposeKeeps(s: State, q: SpendRequest, now: int)
    requires Kept(s.book)
    ensures Kept(Propose(s, q, now).state.book)
  {
    if q.vault < |s.book.vaults| {
      RecordProposalKeeps(s, q, RuleReasons(s, q, now), PolicyDenials(s, q, now));
    }
  }

  // ----- Executing a payment -----

  lemma BlockedKeeps(s: State, pid: nat, rules: set<R.Reason>)
    requires Kept(s.book) && pid < |s.book.proposals| && s.book.proposals[pid].vault < |s.book.vaults|
    requires s.book.proposals[pid].status == ProposalApproved
    ensures Kept(Blocked(s, pid, rules).book)
  {
    var b, c := s.book, Blocked(s, pid, rules).book;
    BlockedGrows(s, pid, rules);
    SoundStatuses(b, c);
    SubLedgerSame(b, c);
    JustifiedAfter(b, c);
    assert InRange(c);
    forall p | p in c.payments
      ensures c.proposals[p.proposal] == b.proposals[p.proposal]
    {
      assert b.proposals[p.proposal].status == ProposalExecuted;
    }
  }

  function PaidBook(b: Book, pid: nat, now: int): Book
    requires pid < |b.proposals| && b.proposals[pid].vault < |b.vaults|
  {
    var p := b.proposals[pid];
    Pay(b, pid, |b.ledger.journal|, now).(ledger :=
      Filed(b.ledger, SpendKey(pid), L.VendorPayment, pid, SpendEntries(p.amount, p.currency)))
  }

  ghost predicate Payable(b: Book, pid: nat) {
    && pid < |b.proposals| && b.proposals[pid].vault < |b.vaults| && b.proposals[pid].status == ProposalApproved
    && FindPayment(b.payments, pid).None?
    && var p := b.proposals[pid];
       var v := b.vaults[p.vault];
       && 0 < p.amount && v.spent + p.amount <= v.totalLimit && v.transactionCount < v.maxTransactions
       && Spendable(v.status)
  }

  /** An approved proposal no rule objects to. */
  ghost predicate Unopposed(s: State, pid: nat, now: int) {
    && pid < |s.book.proposals| && s.book.proposals[pid].vault < |s.book.vaults|
    && s.book.proposals[pid].status == ProposalApproved
    && RuleReasons(s, RequestOf(s.book.proposals[pid]), now) == {}
  }

  lemma ExecuteAccepts(s: State, pid: nat, caught: bool, now: int)
    requires Kept(s.book) && Unopposed(s, pid, now)
    ensures Execute(s, pid, caught, now) == Reply(s.(book := PaidBook(s.book, pid, now)), Ok(|s.book.payments|))
    ensures Payable(s.book, pid)
    ensures var q := RequestOf(s.book.proposals[pid]);
      R.Permitted(LimitsOf(s, q.vault, now), ProposalOf(q), PaceNow(s, q, now), now)
  {
    UnopposedIsPayable(s, pid, now);
    SpendPosts(s.book, pid);
  }

  lemma UnopposedIsPayable(s: State, pid: nat, now: int)
    requires Executions(s.book) && Unopposed(s, pid, now)
    ensures Payable(s.book, pid)
    ensures var q := RequestOf(s.book.proposals[pid]);
      R.Permitted(LimitsOf(s, q.vault, now), ProposalOf(q), PaceNow(s, q, now), now)
  {
    var q := RequestOf(s.book.proposals[pid]);
    R.NoViolationMeansPermitted(LimitsOf(s, q.vault, now), ProposalOf(q), PaceNow(s, q, now), now);
  }

  lemma SpendPosts(b: Book, pid: nat)
    requires L.Consistent(b.ledger) && AllJustified(b) && Payable(b, pid)
    ensures var p := b.proposals[pid];
      var entries := SpendEntries(p.amount, p.currency);
      L.Post(L.Complete(b.ledger), SpendKey(pid), L.VendorPayment, pid, entries)
      == L.Posted(Filed(b.ledger, SpendKey(pid), L.VendorPayment, pid, entries), |b.ledger.journal|)
  {
    var p := b.proposals[pid];
    FreshSpend(b, pid);
    Pair(L.VaultAvailable, L.VendorPayable, p.amount, p.currency);
    PostFresh(b.ledger, SpendKey(pid), L.VendorPayment, pid, SpendEntries(p.amount, p.currency));
  }

  lemma ExecuteRefuses(s: State, pid: nat, caught: bool, now: int)
    requires !Unopposed(s, pid, now)
    ensures var r := Execute(s, pid, caught, now);
      && (r.result.Err? ==> !r.result.error.LedgerRefused?)
      && r.state.book.payments == s.book.payments
      && (r.state == s
          || (pid < |s.book.proposals| && s.book.proposals[pid].vault < |s.book.vaults|
              && s.book.proposals[pid].status == ProposalApproved
              && r.state == Blocked(s, pid, RuleReasons(s, RequestOf(s.book.proposals[pid]), now))))
  {
  }

  /** A payment goes through exactly when an approved proposal meets no objection, and then it is
      posted as a new row; otherwise no money moves, and at most the proposal is marked refused. */
  lemma ExecutePosts(s: State, pid: nat, caught: bool, now: int)
    requires Kept(s.book)
    ensures var r := Execute(s, pid, caught, now);
      && (r.result.Err? ==> !r.result.error.LedgerRefused?)
      && (r.state.book.payments != s.book.payments <==> Unopposed(s, pid, now))
      && (r.state.book.payments != s.book.payments ==>
            && Payable(s.book, pid) && r.result == Ok(|s.book.payments|)
            && R.Permitted(LimitsOf(s, s.book.proposals[pid].vault, now), ProposalOf(RequestOf(s.book.proposals[pid])),
                           PaceNow(s, RequestOf(s.book.proposals[pid]), now), now)
            && r.state == s.(book := PaidBook(s.book, pid, now)))
      && (r.state.book.payments == s.book.payments ==>
            r.state == s
            || (pid < |s.book.proposals| && s.book.proposals[pid].vault < |s.book.vaults|
                && s.book.proposals[pid].status == ProposalApproved
                && r.state == Blocked(s, pid, RuleReasons(s, RequestOf(s.book.proposals[pid]), now))))
  {
    if Unopposed(s, pid, now) {
      ExecuteAccepts(s, pid, caught, now);
      assert |PaidBook(s.book, pid, now).payments| == |s.book.payments| + 1;
    } else {
      ExecuteRefuses(s, pid, caught, now);
    }
  }

  lemma PaidFile(b: Book, pid: nat, now: int)
    requires Payable(b, pid) && Sound(FileOf(b, b.proposals[pid].vault))
    ensures var c, vid := PaidBook(b, pid, now), b.proposals[pid].vault;
      var f := FileOf(b, vid);
      Sound(File(c.vaults[vid], f.payments + [c.payments[|b.payments|]], f.revenues, f.repayments))
  {
    var c, vid := PaidBook(b, pid, now), b.proposals[pid].vault;
    SoundPay(FileOf(b, vid), c.payments[|b.payments|], c.vaults[vid]);
  }

  lemma PaidFiles(b: Book, pid: nat, now: int)
    requires AllSound(b) && Payable(b, pid)
    ensures AllSound(PaidBook(b, pid, now))
  {
    var c, vid := PaidBook(b, pid, now), b.proposals[pid].vault;
    PaidFile(b, pid, now);
    SoundWithPayment(b, c, vid, c.vaults[vid], c.payments[|b.payments|]);
  }

  lemma SoundWithPayment(b: Book, c: Book, vid: nat, v: Vault, p: Payment)
    requires AllSound(b) && vid < |b.vaults| && c.vaults == b.vaults[vid := v] && p.vault == vid
    requires c.payments == b.payments + [p] && c.revenues == b.revenues && c.repayments == b.repayments
    requires var f := FileOf(b, vid); Sound(File(v, f.payments + [p], f.revenues, f.repayments))
    ensures AllSound(c)
  {
    var f := FileOf(b, vid);
    assert f.revenues + [] == f.revenues && f.repayments + [] == f.repayments;
    SoundAfter(b, c, vid, v, [p], [], []);
  }

  lemma PaidLedger(b: Book, pid: nat, now: int)
    requires L.Consistent(b.ledger) && AllJustified(b) && Payable(b, pid)
    ensures L.Consistent(PaidBook(b, pid, now).ledger) && AllJustified(PaidBook(b, pid, now))
  {
    var c, p := PaidBook(b, pid, now), b.proposals[pid];
    FreshSpend(b, pid);
    Pair(L.VaultAvailable, L.VendorPayable, p.amount, p.currency);
    PostFresh(b.ledger, SpendKey(pid), L.VendorPayment, pid, SpendEntries(p.amount, p.currency));
    PayGrows(b, pid, |b.ledger.journal|, now, c.ledger);
    JustifiedAfter(b, c);
  }

  lemma PaidSubLedger(b: Book, pid: nat, now: int)
    requires SubLedger(b) && Payable(b, pid)
    ensures SubLedger(PaidBook(b, pid, now))
  {
    PaidPosition(b, pid, now);
    PaidColumns(b, pid, now);
  }

  lemma PaidPosition(b: Book, pid: nat, now: int)
    requires Payable(b, pid)
    ensures LedgerPosition(PaidBook(b, pid, now).ledger.journal)
         == LedgerPosition(b.ledger.journal).Plus(PaymentShift(b.proposals[pid].amount))
  {
    var p := b.proposals[pid];
    SpendShift(p.amount, p.currency);
    PositionShifts(b.ledger.journal,
                   L.Journal(SpendKey(pid), L.VendorPayment, pid, SpendEntries(p.amount, p.currency)));
  }

  /** A payment moves its amount from the available balance to the vendor payable. */
  function PaymentShift(amount: int): Position { Position(0, -amount, 0, 0, 0, 0, amount, 0, 0, 0) }

  lemma SpendShift(amount: int, currency: string)
    requires amount > 0
    ensures Shift(SpendEntries(amount, currency)) == PaymentShift(amount)
  {
    Pair(L.VaultAvailable, L.VendorPayable, amount, currency);
  }

  lemma PaidColumns(b: Book, pid: nat, now: int)
    requires Payable(b, pid)
    ensures ColumnPosition(PaidBook(b, pid, now)) == ColumnPosition(b).Plus(PaymentShift(b.proposals[pid].amount))
  {
    var c := PaidBook(b, pid, now);
    VaultSums(b, c, b.proposals[pid].vault);
    SumAppend(b.payments, c.payments[|b.payments|], PaymentAmount);
  }

  lemma PaidRange(b: Book, pid: nat, now: int)
    requires InRange(b) && Payable(b, pid)
    ensures InRange(PaidBook(b, pid, now))
  {
    var c := PaidBook(b, pid, now);
    assert forall p :: p in c.payments ==> p in b.payments || p == c.payments[|b.payments|];
    assert forall p :: p in c.proposals ==> p in b.proposals || p == c.proposals[pid];
  }

  lemma PaidExecutions(b: Book, pid: nat, now: int)
    requires Executions(b) && Payable(b, pid)
    ensures Executions(PaidBook(b, pid, now))
  {
    var c := PaidBook(b, pid, now);
    OneMoreExecution(b, c, pid, c.payments[|b.payments|]);
  }

  lemma FoundStays(rows: seq<Payment>, x: Payment, pid: nat)
    ensures FindPayment(rows + [x], pid) == if x.proposal == pid then Some(|rows|) else FindPayment(rows, pid)
  {
    LastAppend(rows, x, PaidProposal, pid);
  }

  lemma OneMoreExecution(b: Book, c: Book, pid: nat, x: Payment)
    requires Executions(b) && pid < |b.proposals| && b.proposals[pid].status == ProposalApproved
    requires c.payments == b.payments + [x] && c.records == b.records
    requires c.proposals == b.proposals[pid := b.proposals[pid].(status := ProposalExecuted)]
    requires var p := b.proposals[pid];
      x.proposal == pid && x.vault == p.vault && x.vendor == p.vendor && x.amount == p.amount
    ensures Executions(c)
  {
    forall p | p in c.payments
      ensures && p.proposal < |c.proposals|
        && var q := c.proposals[p.proposal];
           q.status == ProposalExecuted && p.vault == q.vault && p.vendor == q.vendor && p.amount == q.amount
    {
      assert p in b.payments || p == x;
    }
    forall i | 0 <= i < |c.proposals| && c.proposals[i].status == ProposalExecuted
      ensures FindPayment(c.payments, i).Some?
    {
      FoundStays(b.payments, x, i);
    }
    assert forall i :: 0 <= i < |b.payments| ==> b.payments[i] in b.payments;
  }

  lemma ExecuteKeeps(s: State, pid: nat, caught: bool, now: int)
    requires Kept(s.book)
    ensures Kept(Execute(s, pid, caught, now).state.book)
  {
    ExecutePosts(s, pid, caught, now);
    var r := Execute(s, pid, caught, now);
    if r.state.book.payments != s.book.payments {
      PaidFiles(s.book, pid, now);
      PaidLedger(s.book, pid, now);
      PaidSubLedger(s.book, pid, now);
      PaidRange(s.book, pid, now);
      PaidExecutions(s.book, pid, now);
    } else if r.state != s {
      BlockedKeeps(s, pid, RuleReasons(s, RequestOf(s.book.proposals[pid]), now));
    }
  }

  // ----- Collecting revenue -----

  ghost predicate Collectable(b: Book, vid: nat, amount: int, external: string, completed: bool) {
    && vid < |b.vaults| && amount > 0 && FindRevenue(b.revenues, external).None?
    && Collecting(b.vaults[vid].status, completed).Some?
  }

  function Waterfall(b: Book, vid: nat, amount: int): W.RepaymentResult
    requires vid < |b.vaults|
  {
    W.Repayment(amount, b.vaults[vid].principal, b.vaults[vid].feeDue, b.vaults[vid].reserveDrawn)
  }

  function CollectedLedger(b: Book, vid: nat, amount: int, external: string, currency: string): L.Books
    requires vid < |b.vaults|
  {
    Filed(Filed(b.ledger, RevenueKey(external), L.RevenueReceipt, vid, RevenueEntries(amount, currency)),
          WaterfallKey(external), L.RepaymentWaterfall, vid,
          WaterfallEntries(amount, Waterfall(b, vid, amount), currency))
  }

  function Collected(b: Book, vid: nat, amount: int, external: string, currency: string): Book
    requires vid < |b.vaults|
  {
    Collect(b, vid, amount, external, currency, Waterfall(b, vid, amount), |b.ledger.journal|, |b.ledger.journal| + 1)
      .(ledger := CollectedLedger(b, vid, amount, external, currency))
  }

  lemma CollectedPostings(b: Book, vid: nat, amount: int, external: string, currency: string, completed: bool)
    requires Kept(b) && Collectable(b, vid, amount, external, completed)
    ensures var v, w := b.vaults[vid], Waterfall(b, vid, amount);
      var first := Filed(b.ledger, RevenueKey(external), L.RevenueReceipt, vid, RevenueEntries(amount, currency));
      && v.principal >= 0 && v.feeDue >= 0 && v.reserveDrawn == 0
      && L.Post(L.Complete(b.ledger), RevenueKey(external), L.RevenueReceipt, vid, RevenueEntries(amount, currency))
         == L.Posted(first, |b.ledger.journal|)
      && L.Post(first, WaterfallKey(external), L.RepaymentWaterfall, vid, WaterfallEntries(amount, w, currency))
         == L.Posted(CollectedLedger(b, vid, amount, external, currency), |b.ledger.journal| + 1)
      && L.Consistent(CollectedLedger(b, vid, amount, external, currency))
  {
    var v, w := b.vaults[vid], Waterfall(b, vid, amount);
    assert Sound(FileOf(b, vid));
    CollectingOwes(FileOf(b, vid), completed);
    FreshRevenue(b, external);
    Pair(L.SandboxCash, L.RevenueEscrow, amount, currency);
    PostFresh(b.ledger, RevenueKey(external), L.RevenueReceipt, vid, RevenueEntries(amount, currency));
    var first := Filed(b.ledger, RevenueKey(external), L.RevenueReceipt, vid, RevenueEntries(amount, currency));
    W.RepaymentConserves(amount, v.principal, v.feeDue, v.reserveDrawn);
    WaterfallPostable(amount, w, currency);
    PostFresh(first, WaterfallKey(external), L.RepaymentWaterfall, vid, WaterfallEntries(amount, w, currency));
    assert L.Complete(first) == first;
  }

  lemma RevenueRefused(s: State, vid: nat, amount: int, external: string, currency: string, completed: bool)
    requires !Collectable(s.book, vid, amount, external, completed)
    ensures var r := ReceiveRevenue(s, vid, amount, external, currency, completed);
      r.state == s && (r.result.Err? ==> r.result.error == PolicyDenied)
  {
  }

  /** An accepted revenue posts exactly two new rows; a replayed or refused one changes nothing. */
  lemma ReceiveRevenuePosts(s: State, vid: nat, amount: int, external: string, currency: string, completed: bool)
    requires Kept(s.book)
    ensures var r := ReceiveRevenue(s, vid, amount, external, currency, completed);
      if Collectable(s.book, vid, amount, external, completed) then
        r.result == Ok(|s.book.repayments|) && r.state == s.(book := Collected(s.book, vid, amount, external, currency))
      else r.state == s && (r.result.Err? ==> r.result.error == PolicyDenied)
  {
    if Collectable(s.book, vid, amount, external, completed) {
      CollectedPostings(s.book, vid, amount, external, currency, completed);
    } else {
      RevenueRefused(s, vid, amount, external, currency, completed);
    }
  }

  lemma CollectedFile(b: Book, vid: nat, amount: int, external: string, currency: string, completed: bool)
    requires Collectable(b, vid, amount, external, completed) && Sound(FileOf(b, vid))
    ensures var c, f := Collected(b, vid, amount, external, currency), FileOf(b, vid);
      Sound(File(c.vaults[vid], f.payments, f.revenues + [c.revenues[|b.revenues|]],
                 f.repayments + [c.repayments[|b.repayments|]]))
  {
    var c := Collected(b, vid, amount, external, currency);
    SoundCollect(FileOf(b, vid), completed, c.revenues[|b.revenues|], Waterfall(b, vid, amount),
                 c.repayments[|b.repayments|], c.vaults[vid]);
  }

  lemma CollectedFiles(b: Book, vid: nat, amount: int, external: string, currency: string, completed: bool)
    requires AllSound(b) && Collectable(b, vid, amount, external, completed)
    ensures AllSound(Collected(b, vid, amount, external, currency))
  {
    var c, f := Collected(b, vid, amount, external, currency), FileOf(b, vid);
    CollectedFile(b, vid, amount, external, currency, completed);
    assert f.payments + [] == f.payments;
    SoundAfter(b, c, vid, c.vaults[vid], [], [c.revenues[|b.revenues|]], [c.repayments[|b.repayments|]]);
  }

  lemma CollectedJustified(b: Book, vid: nat, amount: int, external: string, currency: string, completed: bool)
    requires AllJustified(b) && Collectable(b, vid, amount, external, completed)
    ensures AllJustified(Collected(b, vid, amount, external, currency))
  {
    var c := Collected(b, vid, amount, external, currency);
    CollectGrows(b, vid, amount, external, currency, Waterfall(b, vid, amount),
                 |b.ledger.journal|, |b.ledger.journal| + 1, c.ledger);
    var rev := c.revenues[|b.revenues|];
    assert rev in c.revenues && rev.external == external;
    JustifiedAfter(b, c);
  }

  lemma CollectedSubLedger(b: Book, vid: nat, amount: int, external: string, currency: string)
    requires SubLedger(b) && vid < |b.vaults| && amount > 0
    requires var w := Waterfall(b, vid, amount);
      w.principalRepaid + w.feePaid + w.reserveReplenished + w.ownerReleased == amount
    ensures SubLedger(Collected(b, vid, amount, external, currency))
  {
    CollectedPosition(b, vid, amount, external, currency);
    CollectedColumns(b, vid, amount, external, currency);
  }

  function CollectedMove(amount: int, w: W.RepaymentResult): Position {
    Position(-w.principalRepaid, 0, w.reserveReplenished, 0, 0, amount, 0, w.feePaid, w.ownerReleased, 0)
  }

  lemma CollectedPosition(b: Book, vid: nat, amount: int, external: string, currency: string)
    requires vid < |b.vaults| && amount > 0
    requires var w := Waterfall(b, vid, amount);
      w.principalRepaid + w.feePaid + w.reserveReplenished + w.ownerReleased == amount
    ensures LedgerPosition(CollectedLedger(b, vid, amount, external, currency).journal)
         == LedgerPosition(b.ledger.journal).Plus(CollectedMove(amount, Waterfall(b, vid, amount)))
  {
    var w := Waterfall(b, vid, amount);
    var j1 := L.Journal(RevenueKey(external), L.RevenueReceipt, vid, RevenueEntries(amount, currency));
    var j2 := L.Journal(WaterfallKey(external), L.RepaymentWaterfall, vid, WaterfallEntries(amount, w, currency));
    TwoShifts(b.ledger.journal, j1, j2);
    CollectedShift(amount, w, currency);
    assert CollectedLedger(b, vid, amount, external, currency).journal == b.ledger.journal + [j1] + [j2];
  }

  lemma TwoShifts(journal: seq<L.Journal>, j: L.Journal, k: L.Journal)
    ensures LedgerPosition(journal + [j] + [k]) == LedgerPosition(journal).Plus(Shift(j.entries).Plus(Shift(k.entries)))
  {
    PositionShifts(journal, j);
    PositionShifts(journal + [j], k);
    PlusAssociates(LedgerPosition(journal), Shift(j.entries), Shift(k.entries));
  }

  lemma PlusAssociates(x: Position, y: Position, z: Position)
    ensures x.Plus(y).Plus(z) == x.Plus(y.Plus(z))
  {
  }

  lemma CollectedShift(amount: int, w: W.RepaymentResult, currency: string)
    requires amount > 0 && w.principalRepaid + w.feePaid + w.reserveReplenished + w.ownerReleased == amount
    ensures Shift(RevenueEntries(amount, currency)).Plus(Shift(WaterfallEntries(amount, w, currency)))
        == CollectedMove(amount, w)
  {
    Pair(L.SandboxCash, L.RevenueEscrow, amount, currency);
    WaterfallEffects(amount, w, currency, L.PrincipalReceivable, currency);
    WaterfallEffects(amount, w, currency, L.VaultAvailable, currency);
    WaterfallEffects(amount, w, currency, L.ReservePool, currency);
    WaterfallEffects(amount, w, currency, L.RevenueEscrow, currency);
    WaterfallEffects(amount, w, currency, L.LenderLiquidity, currency);
    WaterfallEffects(amount, w, currency, L.SandboxCash, currency);
    WaterfallEffects(amount, w, currency, L.VendorPayable, currency);
    WaterfallEffects(amount, w, currency, L.FeeIncome, currency);
    WaterfallEffects(amount, w, currency, L.OwnerPayable, currency);
    WaterfallEffects(amount, w, currency, L.LossDefault, currency);
  }

  lemma CollectedColumns(b: Book, vid: nat, amount: int, external: string, currency: string)
    requires vid < |b.vaults|
    ensures ColumnPosition(Collected(b, vid, amount, external, currency))
         == ColumnPosition(b).Plus(CollectedMove(amount, Waterfall(b, vid, amount)))
  {
    var c := Collected(b, vid, amount, external, currency);
    VaultSums(b, c, vid);
    SumAppend(b.revenues, c.revenues[|b.revenues|], RevenueAmount);
    RepaymentSums(b.repayments, c.repayments[|b.repayments|]);
  }

  lemma ReceiveRevenueKeeps(s: State, vid: nat, amount: int, external: string, currency: string, completed: bool)
    requires Kept(s.book)
    ensures Kept(ReceiveRevenue(s, vid, amount, external, currency, completed).state.book)
  {
    ReceiveRevenuePosts(s, vid, amount, external, currency, completed);
    if Collectable(s.book, vid, amount, external, completed) {
      CollectedPostings(s.book, vid, amount, external, currency, completed);
      CollectedFiles(s.book, vid, amount, external, currency, completed);
      CollectedJustified(s.book, vid, amount, external, currency, completed);
      W.RepaymentConserves(amount, s.book.vaults[vid].principal, s.book.vaults[vid].feeDue,
                           s.book.vaults[vid].reserveDrawn);
      CollectedSubLedger(s.book, vid, amount, external, currency);
    }
  }

  // ----- Recovery -----

  ghost predicate Recoverable(s: State, vid: nat) {
    && vid < |s.book.vaults| && s.book.vaults[vid].status in {Active, Spending, Frozen, Expired}
    && ReserveCap(s.desk, s.book.vaults[vid].task) >= 0
  }

  function Sweep(b: Book, vid: nat, cap: int): W.RecoveryResult
    requires vid < |b.vaults|
  {
    var v := b.vaults[vid];
    W.Recovery(v.principal, v.totalLimit - v.spent, 0, cap, cap)
  }

  function RecoveredBook(b: Book, vid: nat, cap: int): Book
    requires vid < |b.vaults|
  {
    Recover(b, vid, Sweep(b, vid, cap), Some(|b.ledger.journal|))
      .(ledger := Filed(b.ledger, RecoveryKey(vid), L.RecoveryWaterfall, vid,
                        RecoveryEntries(Sweep(b, vid, cap), b.vaults[vid].currency)))
  }

  lemma OpenWhenLive(b: Book, vid: nat)
    requires AllSound(b) && vid < |b.vaults| && Live(b.vaults[vid].status)
    ensures Open(FileOf(b, vid)) && Sound(FileOf(b, vid))
  {
    assert Sound(FileOf(b, vid));
  }

  lemma RecoveryPosting(b: Book, vid: nat, cap: nat)
    requires L.Consistent(b.ledger) && AllJustified(b) && AllSound(b) && vid < |b.vaults| && Live(b.vaults[vid].status)
    ensures var v, w := b.vaults[vid], Sweep(b, vid, cap);
      var entries := RecoveryEntries(w, v.currency);
      && w.swept + w.reserveDrawn + w.loss > 0
      && L.Post(L.Complete(b.ledger), RecoveryKey(vid), L.RecoveryWaterfall, vid, entries)
         == L.Posted(Filed(b.ledger, RecoveryKey(vid), L.RecoveryWaterfall, vid, entries), |b.ledger.journal|)
      && L.Consistent(Filed(b.ledger, RecoveryKey(vid), L.RecoveryWaterfall, vid, entries))
  {
    var v, w := b.vaults[vid], Sweep(b, vid, cap);
    OpenWhenLive(b, vid);
    RecoveryOfOpen(FileOf(b, vid), cap);
    FreshRecovery(b, vid);
    RecoveryPostable(w, v.currency);
    PostFresh(b.ledger, RecoveryKey(vid), L.RecoveryWaterfall, vid, RecoveryEntries(w, v.currency));
  }

  lemma RecoveryAccepted(s: State, vid: nat)
    requires Kept(s.book) && Recoverable(s, vid)
    ensures SimulateFailure(s, vid) ==
      Reply(s.(book := RecoveredBook(s.book, vid, ReserveCap(s.desk, s.book.vaults[vid].task))),
            Ok(|s.book.repayments|))
  {
    OpenWhenLive(s.book, vid);
    var cap := ReserveCap(s.desk, s.book.vaults[vid].task);
    RecoveryRuns(s, vid);
    RecoveryPosting(s.book, vid, cap);
    RecoveryBooked(s, vid, Sweep(s.book, vid, cap));
  }

  lemma RecoveryRuns(s: State, vid: nat)
    requires Recoverable(s, vid) && s.book.vaults[vid].principal >= 0
    requires s.book.vaults[vid].totalLimit >= s.book.vaults[vid].spent
    ensures SimulateFailure(s, vid)
         == RecoverWith(s, vid, Sweep(s.book, vid, ReserveCap(s.desk, s.book.vaults[vid].task)))
  {
  }

  lemma RecoveryBooked(s: State, vid: nat, w: W.RecoveryResult)
    requires vid < |s.book.vaults| && w.swept + w.reserveDrawn + w.loss > 0
    ensures
      match L.Post(L.Complete(s.book.ledger), RecoveryKey(vid), L.RecoveryWaterfall, vid,
                   RecoveryEntries(w, s.book.vaults[vid].currency))
      case Rejected(why) => true
      case Posted(ledger, j) =>
        RecoverWith(s, vid, w) == Reply(s.(book := Recover(s.book, vid, w, Some(j)).(ledger := ledger)),
                                        Ok(|s.book.repayments|))
  {
  }

  lemma RecoveryRefused(s: State, vid: nat)
    requires AllSound(s.book) && !Recoverable(s, vid)
    ensures var r := SimulateFailure(s, vid); r.state == s && r.result.Err? && !r.result.error.LedgerRefused?
  {
    if vid < |s.book.vaults| && s.book.vaults[vid].status in {Active, Spending, Frozen, Expired} {
      OpenWhenLive(s.book, vid);
    }
  }

  /** A recovery succeeds exactly for the four open statuses (and a non-negative signed cap);
      it then posts one new row, and otherwise nothing changes. */
  lemma SimulateFailurePosts(s: State, vid: nat)
    requires Kept(s.book)
    ensures var r := SimulateFailure(s, vid);
      if Recoverable(s, vid) then
        && r.result == Ok(|s.book.repayments|)
        && r.state == s.(book := RecoveredBook(s.book, vid, ReserveCap(s.desk, s.book.vaults[vid].task)))
      else r.state == s && r.result.Err? && !r.result.error.LedgerRefused?
  {
    if Recoverable(s, vid) {
      RecoveryAccepted(s, vid);
    } else {
      RecoveryRefused(s, vid);
    }
  }

  lemma RecoveredLedger(b: Book, vid: nat, cap: nat)
    requires L.Consistent(b.ledger) && AllJustified(b) && AllSound(b) && vid < |b.vaults| && Live(b.vaults[vid].status)
    ensures L.Consistent(RecoveredBook(b, vid, cap).ledger) && AllJustified(RecoveredBook(b, vid, cap))
  {
    var c := RecoveredBook(b, vid, cap);
    RecoveryPosting(b, vid, cap);
    RecoverGrows(b, vid, Sweep(b, vid, cap), Some(|b.ledger.journal|), c.ledger);
    JustifiedAfter(b, c);
  }

  lemma RecoveredShift(w: W.RecoveryResult, currency: string)
    ensures Shift(RecoveryEntries(w, currency)) == RecoveryShift(w.swept, w.reserveDrawn, w.loss)
  {
    RecoveryEffects(w, currency, L.PrincipalReceivable, currency);
    RecoveryEffects(w, currency, L.VaultAvailable, currency);
    RecoveryEffects(w, currency, L.ReservePool, currency);
    RecoveryEffects(w, currency, L.RevenueEscrow, currency);
    RecoveryEffects(w, currency, L.LenderLiquidity, currency);
    RecoveryEffects(w, currency, L.SandboxCash, currency);
    RecoveryEffects(w, currency, L.VendorPayable, currency);
    RecoveryEffects(w, currency, L.FeeIncome, currency);
    RecoveryEffects(w, currency, L.OwnerPayable, currency);
    RecoveryEffects(w, currency, L.LossDefault, currency);
  }

  /** The books balance because the sweep is the whole unspent amount and the three parts
      make up the whole principal. */
  lemma RecoveredSubLedger(b: Book, vid: nat, cap: int)
    requires SubLedger(b) && vid < |b.vaults|
    requires Sweep(b, vid, cap).swept == Unspent(b.vaults[vid])
    requires Sweep(b, vid, cap).swept + Sweep(b, vid, cap).reserveDrawn + Sweep(b, vid, cap).loss
        == b.vaults[vid].principal
    ensures SubLedger(RecoveredBook(b, vid, cap))
  {
    RecoveredPosition(b, vid, cap);
    RecoveredColumns(b, vid, cap);
  }

  /** What a recovery moves: the debt goes, from the unspent amount, the reserve and a loss. */
  function RecoveryShift(swept: int, drawn: int, loss: int): Position {
    Position(-(swept + drawn + loss), -swept, -drawn, 0, 0, 0, 0, 0, 0, loss)
  }

  lemma RecoveredPosition(b: Book, vid: nat, cap: int)
    requires vid < |b.vaults|
    ensures var w := Sweep(b, vid, cap);
      LedgerPosition(RecoveredBook(b, vid, cap).ledger.journal)
      == LedgerPosition(b.ledger.journal).Plus(RecoveryShift(w.swept, w.reserveDrawn, w.loss))
  {
    var w, currency := Sweep(b, vid, cap), b.vaults[vid].currency;
    PositionShifts(b.ledger.journal,
                   L.Journal(RecoveryKey(vid), L.RecoveryWaterfall, vid, RecoveryEntries(w, currency)));
    RecoveredShift(w, currency);
  }

  lemma RecoveredColumns(b: Book, vid: nat, cap: int)
    requires vid < |b.vaults|
    ensures var w, v := Sweep(b, vid, cap), b.vaults[vid];
      ColumnPosition(RecoveredBook(b, vid, cap))
      == ColumnPosition(b).Plus(Position(-v.principal, -Unspent(v), -w.reserveDrawn, 0, 0, 0, 0, 0, 0, w.loss))
  {
    var c := RecoveredBook(b, vid, cap);
    VaultSums(b, c, vid);
    RepaymentSums(b.repayments, c.repayments[|b.repayments|]);
  }

  lemma RecoveredFile(b: Book, vid: nat, cap: nat)
    requires vid < |b.vaults| && Sound(FileOf(b, vid)) && Open(FileOf(b, vid))
    ensures var c, f := RecoveredBook(b, vid, cap), FileOf(b, vid);
      Sound(File(c.vaults[vid], f.payments, f.revenues, f.repayments + [c.repayments[|b.repayments|]]))
  {
    var c := RecoveredBook(b, vid, cap);
    SoundRecover(FileOf(b, vid), cap, Sweep(b, vid, cap), c.repayments[|b.repayments|], c.vaults[vid]);
  }

  lemma RecoveredFiles(b: Book, vid: nat, cap: nat)
    requires AllSound(b) && vid < |b.vaults| && Open(FileOf(b, vid))
    ensures AllSound(RecoveredBook(b, vid, cap))
  {
    var c, f := RecoveredBook(b, vid, cap), FileOf(b, vid);
    RecoveredFile(b, vid, cap);
    assert f.payments + [] == f.payments && f.revenues + [] == f.revenues;
    SoundAfter(b, c, vid, c.vaults[vid], [], [], [c.repayments[|b.repayments|]]);
  }

  lemma SimulateFailureKeeps(s: State, vid: nat)
    requires Kept(s.book)
    ensures Kept(SimulateFailure(s, vid).state.book)
  {
    SimulateFailurePosts(s, vid);
    if Recoverable(s, vid) {
      var cap := ReserveCap(s.desk, s.book.vaults[vid].task);
      OpenWhenLive(s.book, vid);
      RecoveryOfOpen(FileOf(s.book, vid), cap);
      RecoveredFiles(s.book, vid, cap);
      RecoveredLedger(s.book, vid, cap);
      RecoveredSubLedger(s.book, vid, cap);
    }
  }

  // ----- All operations -----

  lemma PerformKeeps(s: State, op: Op, now: int)
    requires Kept(s.book)
    ensures Kept(Perform(s, op, now).state.book)
  {
    if op.OpPropose? || op.OpExecute? {
      SpendingKeeps(s, op, now);
    } else if op.OpRevenue? || op.OpFail? {
      RepaymentKeeps(s, op, now);
    } else {
      OthersKeep(s, op, now);
    }
  }

  lemma SpendingKeeps(s: State, op: Op, now: int)
    requires Kept(s.book) && (op.OpPropose? || op.OpExecute?)
    ensures Kept(Perform(s, op, now).state.book)
  {
    match op
    case OpPropose(request) => ProposeKeeps(s, request, now);
    case OpExecute(pid, caught) => ExecuteKeeps(s, pid, caught, now);
  }

  lemma RepaymentKeeps(s: State, op: Op, now: int)
    requires Kept(s.book) && (op.OpRevenue? || op.OpFail?)
    ensures Kept(Perform(s, op, now).state.book)
  {
    match op
    case OpRevenue(vid, amount, external, currency, completed) =>
      ReceiveRevenueKeeps(s, vid, amount, external, currency, completed);
    case OpFail(vid) => SimulateFailureKeeps(s, vid);
  }

  lemma OthersKeep(s: State, op: Op, now: int)
    requires Kept(s.book) && !op.OpPropose? && !op.OpExecute? && !op.OpRevenue? && !op.OpFail?
    ensures Kept(Perform(s, op, now).state.book)
  {
    match op
    case OpVault(app, perTxn) => CreateVaultKeeps(s, app, perTxn, now);
    case OpFreeze(vid) => MoveVaultKeeps(s, vid, Frozen);
    case OpClose(vid) => MoveVaultKeeps(s, vid, Closed);
    case OpKill(agent, action) => KillSwitchKeeps(s, agent, action);
    case _ => DeskOnlyKeepsBook(s, op, now);
  }
}
