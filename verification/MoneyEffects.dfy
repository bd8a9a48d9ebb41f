/** What the calls about vaults and money do, row by row: when each succeeds, which rows and
    columns it writes and what it leaves alone, in the program's own statuses and figures. */
module MoneyEffects {
  import opened Tables
  import opened Statuses
  import opened Records
  import opened Operations
  import opened VaultFile
  import opened Invariants
  import opened Preservation
  import opened SpendTerms
  import W = Waterfall
  import L = Ledger
  import R = Rules
  import P = Policy
  import U = Underwriting

  // ----- Proposing -----

  /** At least two payments to the vendor in the last ten minutes, which with this amount exceed
      the limit of one transaction. */
  predicate SplitsPayment(s: State, q: SpendRequest, now: int)
    requires q.vault < |s.book.vaults|
  {
    var paid, window := s.book.payments, now - 600_000_000;
    && Sum(paid, OneToSince(q.vault, q.vendor, window)) >= 2
    && Sum(paid, PaidToSince(q.vault, q.vendor, window)) + (if q.amount > 0 then q.amount else 0)
       > s.book.vaults[q.vault].perTransactionLimit
  }

  /** A known key answers with its proposal; an unknown vault is refused. */
  lemma ProposeReplays(s: State, q: SpendRequest, now: int)
    requires (exists p :: p in s.book.proposals && p.key == q.key) || q.vault >= |s.book.vaults|
    ensures var r := Propose(s, q, now);
      && r.state == s
      && (r.result.Ok? <==> exists p :: p in s.book.proposals && p.key == q.key)
      && (r.result.Ok? ==> r.result.id < |s.book.proposals| && s.book.proposals[r.result.id].key == q.key)
  {
    if exists p :: p in s.book.proposals && p.key == q.key {
      var p :| p in s.book.proposals && p.key == q.key;
      var i :| 0 <= i < |s.book.proposals| && s.book.proposals[i] == p;
      assert FindProposal(s.book.proposals, q.key).Some?;
    }
  }

  /** The proposal row: what was asked, approved exactly when neither control has anything against
      it, with every objection and denial. */
  ghost predicate ProposalRow(p: Proposal, s: State, q: SpendRequest, now: int)
    requires q.vault < |s.book.vaults|
  {
    && p.vault == q.vault && p.vendor == q.vendor && p.amount == q.amount && p.currency == q.currency
    && p.purpose == q.purpose && p.key == q.key
    && p.status == (if SpendAllowed(s, q, now) then ProposalApproved else ProposalDenied)
    && (forall r :: r in p.ruleReasons <==> Objects(r, s, q, now))
    && (forall d :: d in p.policyDenials <==> Denies(d, s, q, now))
  }

  /** What a new proposal writes: its row and the two engines' records, a risk event if it is
      refused, and the freeze of its own vault if that could spend and a split was detected. */
  ghost predicate ProposalFiled(s: State, q: SpendRequest, now: int, t: State)
    requires q.vault < |s.book.vaults|
  {
    var b, c, v := s.book, t.book, s.book.vaults[q.vault];
    var frozen := SplitsPayment(s, q, now) && (v.status == Active || v.status == Spending);
    && |c.proposals| == |b.proposals| + 1
    && ProposalRow(c.proposals[|b.proposals|], s, q, now)
    && c == b.(proposals := b.proposals + [c.proposals[|b.proposals|]],
               vaults := b.vaults[q.vault := if frozen then v.(status := Frozen) else v],
               records := b.records + [SpendRecord(|b.proposals|, forall r :: !Objects(r, s, q, now), VaultRules),
                                       SpendRecord(|b.proposals|, forall d :: !Denies(d, s, q, now), LocalPolicy)])
    && t == s.(book := c,
               desk := s.desk.(riskEvents := s.desk.riskEvents + if SpendAllowed(s, q, now) then []
                                                                 else [RiskEvent(SpendBlocked, v.agent)]))
  }

  lemma RecordFiles(s: State, q: SpendRequest, now: int, rules: set<R.Reason>, denials: set<P.Deny>)
    requires q.vault < |s.book.vaults|
    requires (forall r :: r in rules <==> Objects(r, s, q, now)) && forall d :: d in denials <==> Denies(d, s, q, now)
    ensures ProposalFiled(s, q, now, RecordProposal(s, q, rules, denials))
  {
    assert rules == {} <==> forall r :: !Objects(r, s, q, now);
    assert denials == {} <==> forall d :: !Denies(d, s, q, now);
    assert R.SplitPatternDetected in rules <==> SplitsPayment(s, q, now);
  }

  lemma ProposeRecords(s: State, q: SpendRequest, now: int)
    requires q.vault < |s.book.vaults| && forall p :: p in s.book.proposals ==> p.key != q.key
    ensures Propose(s, q, now)
         == Reply(RecordProposal(s, q, RuleReasons(s, q, now), PolicyDenials(s, q, now)), Ok(|s.book.proposals|))
  {
  }

  /** A new key for a known vault files a proposal. */
  lemma ProposeFiles(s: State, q: SpendRequest, now: int)
    requires q.vault < |s.book.vaults| && forall p :: p in s.book.proposals ==> p.key != q.key
    ensures Propose(s, q, now).result == Ok(|s.book.proposals|)
    ensures ProposalFiled(s, q, now, Propose(s, q, now).state)
  {
    ProposeRecords(s, q, now);
    ReasonsOnRows(s, q, now);
    forall d ensures d in PolicyDenials(s, q, now) <==> Denies(d, s, q, now) {
      DenialOnRows(d, s, q, now);
    }
    RecordFiles(s, q, now, RuleReasons(s, q, now), PolicyDenials(s, q, now));
  }

  // ----- Executing -----

  /** What a proposal asked for. */
  function AskedBy(p: Proposal): SpendRequest {
    SpendRequest(p.vault, p.vendor, p.amount, p.purpose, p.key, p.currency)
  }

  /** An approved proposal of a known vault that has not been paid. */
  predicate Pending(b: Book, pid: nat) {
    && pid < |b.proposals| && b.proposals[pid].vault < |b.vaults| && b.proposals[pid].status == ProposalApproved
    && forall p :: p in b.payments ==> p.proposal != pid
  }

  /** What a payment writes: its row at the time of the call, the vault's columns, the proposal's
      status, and the journal row that moves the amount from available to payable. */
  ghost predicate PaymentMade(b: Book, pid: nat, now: int, c: Book)
    requires Pending(b, pid)
  {
    var p, v := b.proposals[pid], b.vaults[b.proposals[pid].vault];
    && c == b.(payments := b.payments + [
                 Payment(p.vault, pid, p.vendor, p.amount, p.currency, |b.ledger.journal|, now)],
               vaults := b.vaults[p.vault := v.(spent := v.spent + p.amount, transactionCount := v.transactionCount + 1,
                                                status := Spending)],
               proposals := b.proposals[pid := p.(status := ProposalExecuted)],
               ledger := c.ledger)
    && c.ledger.journal == b.ledger.journal + [L.Journal(SpendKey(pid), L.VendorPayment, pid, [
         L.Entry(L.VaultAvailable, L.Debit, p.amount, p.currency),
         L.Entry(L.VendorPayable, L.Credit, p.amount, p.currency)])]
  }

  /** What a refused execution leaves if its caller catches the error: the mark, the objections and
      a risk event. */
  ghost predicate Refused(s: State, pid: nat, now: int, t: State)
    requires Pending(s.book, pid)
  {
    var b, c, p := s.book, t.book, s.book.proposals[pid];
    && |c.proposals| == |b.proposals|
    && (forall r :: r in c.proposals[pid].ruleReasons <==> Objects(r, s, AskedBy(p), now))
    && c == b.(proposals := b.proposals[pid := p.(status := ProposalDenied, policyDenials := {},
                                                  ruleReasons := c.proposals[pid].ruleReasons)])
    && t == s.(book := c,
               desk := s.desk.(riskEvents := s.desk.riskEvents + [RiskEvent(SpendBlocked, b.vaults[p.vault].agent)]))
  }

  /** Executing a pending proposal pays exactly when no rule objects now. */
  lemma PendingExecutes(s: State, pid: nat, caught: bool, now: int)
    requires Kept(s.book) && Pending(s.book, pid)
    ensures var x, q := Execute(s, pid, caught, now), AskedBy(s.book.proposals[pid]);
      if forall r :: !Objects(r, s, q, now) then
        && x.result == Ok(|s.book.payments|) && x.state == s.(book := x.state.book)
        && PaymentMade(s.book, pid, now, x.state.book)
      else
        x.result == Err(PolicyDenied) && if caught then Refused(s, pid, now, x.state) else x.state == s
  {
    var q := RequestOf(s.book.proposals[pid]);
    ReasonsOnRows(s, q, now);
    if RuleReasons(s, q, now) == {} {
      ExecuteAccepts(s, pid, caught, now);
      PaidBookPays(s.book, pid, now);
    } else {
      ExecuteBlocks(s, pid, caught, now);
      BlockedRefuses(s, pid, now, RuleReasons(s, q, now));
    }
  }

  lemma PaidBookPays(b: Book, pid: nat, now: int)
    requires Payable(b, pid) && Pending(b, pid)
    ensures PaymentMade(b, pid, now, PaidBook(b, pid, now))
  {
  }

  lemma ExecuteBlocks(s: State, pid: nat, caught: bool, now: int)
    requires Pending(s.book, pid) && RuleReasons(s, RequestOf(s.book.proposals[pid]), now) != {}
    ensures Execute(s, pid, caught, now)
         == Reply(if caught then Blocked(s, pid, RuleReasons(s, RequestOf(s.book.proposals[pid]), now)) else s,
                  Err(PolicyDenied))
  {
  }

  lemma BlockedRefuses(s: State, pid: nat, now: int, rules: set<R.Reason>)
    requires Pending(s.book, pid)
    requires forall r :: r in rules <==> Objects(r, s, AskedBy(s.book.proposals[pid]), now)
    ensures Refused(s, pid, now, Blocked(s, pid, rules))
  {
  }

  /** Any other execution changes nothing: it answers with the payment already made, or is refused. */
  lemma ExecuteChangesNothing(s: State, pid: nat, caught: bool, now: int)
    requires Kept(s.book) && !Pending(s.book, pid)
    ensures var r := Execute(s, pid, caught, now);
      && r.state == s
      && (r.result.Ok? <==> exists p :: p in s.book.payments && p.proposal == pid)
      && (r.result.Ok? ==> r.result.id < |s.book.payments| && s.book.payments[r.result.id].proposal == pid)
  {
    if exists p :: p in s.book.payments && p.proposal == pid {
      var p :| p in s.book.payments && p.proposal == pid;
      var i :| 0 <= i < |s.book.payments| && s.book.payments[i] == p;
      assert FindPayment(s.book.payments, pid).Some?;
    }
  }

  // ----- Opening a vault -----

  /** An approved and decided application with something to lend, all of whose vendors are known. */
  predicate Ready(s: State, app: nat) {
    && app < |s.desk.apps| && app in s.desk.decisions && s.desk.apps[app].status == AppApproved
    && s.desk.decisions[app].approvedLimit > 0 && forall v :: v in s.desk.apps[app].vendors ==> v in s.vendors
  }

  /** The row of a new vault: the whole limit owed and unspent, a fee of a twentieth, an expiry in
      hours from now, and each vendor with its category as the purpose. */
  predicate NewVaultRow(v: Vault, s: State, app: nat, perTxn: Option<int>, now: int)
    requires Ready(s, app)
  {
    var a, limit := s.desk.apps[app], s.desk.decisions[app].approvedLimit;
    && v == Vault(a.agent, a.task, app, Active, a.currency, limit, 0,
                  if perTxn.None? || perTxn.value == 0 then limit else perTxn.value, limit,
                  limit, limit / 20, 0, now + a.durationHours * 3_600_000_000, 0, 100, v.allow)
    && |v.allow| == |a.vendors|
    && forall i :: 0 <= i < |a.vendors| ==>
         var category := s.vendors[a.vendors[i]];
         v.allow[i] == AllowRow(a.vendors[i], if category == "" then None else Some(category))
  }

  /** What opening a vault writes: its row, the journal row of the loan, the application's status
      and the lock on the mandate of its task. */
  predicate VaultOpened(s: State, app: nat, perTxn: Option<int>, now: int, t: State)
    requires Ready(s, app)
  {
    var d, b, c, a, n := s.desk, s.book, t.book, s.desk.apps[app], |s.book.vaults|;
    && |c.vaults| == n + 1 && NewVaultRow(c.vaults[n], s, app, perTxn, now)
    && c == b.(vaults := b.vaults + [c.vaults[n]], ledger := c.ledger)
    && c.ledger.journal == b.ledger.journal + [L.Journal(DisburseKey(n), L.Disbursement, n, [
         L.Entry(L.PrincipalReceivable, L.Debit, d.decisions[app].approvedLimit, a.currency),
         L.Entry(L.VaultAvailable, L.Credit, d.decisions[app].approvedLimit, a.currency)])]
    && t == s.(book := c,
               desk := d.(apps := d.apps[app := a.(status := DisbursementEnabled)], mandates := t.desk.mandates))
    && t.desk.mandates == if a.task in d.mandates
                          then d.mandates[a.task := Mandate(d.mandates[a.task].reserveCap, true)] else d.mandates
  }

  lemma FeeIsTwentieth(limit: int)
    ensures U.Fee(limit) == limit / 20
  {
  }

  lemma {:induction false} AllowRowsAt(vendors: seq<string>, categories: map<string, string>, i: nat)
    requires (forall v :: v in vendors ==> v in categories) && i < |vendors|
    ensures AllowRows(vendors, categories)[i]
         == AllowRow(vendors[i], if categories[vendors[i]] == "" then None else Some(categories[vendors[i]]))
  {
    var n := |vendors| - 1;
    if i < n {
      AllowRowsAt(vendors[..n], categories, i);
    }
  }

  /** A vault is opened exactly for an application that is ready. */
  lemma CreateVaultOpens(s: State, app: nat, perTxn: Option<int>, now: int)
    requires Kept(s.book)
    ensures var x := CreateVault(s, app, perTxn, now);
      && (x.result.Ok? <==> Ready(s, app))
      && if x.result.Err? then x.state == s
         else x.result == Ok(|s.book.vaults|) && VaultOpened(s, app, perTxn, now, x.state)
  {
    CreateVaultPosts(s, app, perTxn, now);
    if Ready(s, app) {
      CreateVaultDesk(s, app, perTxn, now);
      NewVaultIsRow(s, app, perTxn, now);
    }
  }

  lemma NewVaultIsRow(s: State, app: nat, perTxn: Option<int>, now: int)
    requires Ready(s, app)
    ensures var a := s.desk.apps[app];
      NewVaultRow(NewVault(a, app, s.desk.decisions[app].approvedLimit, perTxn, AllowRows(a.vendors, s.vendors), now),
                  s, app, perTxn, now)
  {
    var a := s.desk.apps[app];
    FeeIsTwentieth(s.desk.decisions[app].approvedLimit);
    forall i | 0 <= i < |a.vendors|
      ensures AllowRows(a.vendors, s.vendors)[i]
           == AllowRow(a.vendors[i], if s.vendors[a.vendors[i]] == "" then None else Some(s.vendors[a.vendors[i]]))
    {
      AllowRowsAt(a.vendors, s.vendors, i);
    }
  }

  lemma CreateVaultDesk(s: State, app: nat, perTxn: Option<int>, now: int)
    requires Ready(s, app)
    ensures var x, d, a := CreateVault(s, app, perTxn, now), s.desk, s.desk.apps[app];
      x.result.Ok? ==>
        x.state == s.(book := x.state.book,
                      desk := d.(apps := d.apps[app := a.(status := DisbursementEnabled)],
                                 mandates := if a.task in d.mandates
                                             then d.mandates[a.task := Mandate(d.mandates[a.task].reserveCap, true)]
                                             else d.mandates))
  {
  }

  // ----- Freezing and closing -----

  /** Freezing is granted exactly from CREATED, ACTIVE and SPENDING, closing exactly from REPAID,
      PARTIALLY_REPAID and DEFAULTED, and either moves that one status. */
  lemma VaultMoves(s: State, vid: nat, target: VaultStatus)
    requires target == Frozen || target == Closed
    ensures var x, vaults := MoveVault(s, vid, target), s.book.vaults;
      && (x.result.Ok? <==>
            vid < |vaults|
            && var status := vaults[vid].status;
               if target == Frozen then status == Created || status == Active || status == Spending
               else status == Repaid || status == PartiallyRepaid || status == Defaulted)
      && x.state == if x.result.Err? then s
                    else s.(book := s.book.(vaults := vaults[vid := vaults[vid].(status := target)]))
  {
  }

  // ----- Collecting revenue -----

  /** Known vault, positive amount, and a status that may collect: spending, expired or partly
      repaid. */
  predicate Receives(b: Book, vid: nat, amount: int) {
    && vid < |b.vaults| && amount > 0
    && (b.vaults[vid].status == Active || b.vaults[vid].status == Spending || b.vaults[vid].status == Expired
        || b.vaults[vid].status == PartiallyRepaid)
  }

  function PartLine(step: W.Step, amount: int): seq<W.Allocation> {
    if amount == 0 then [] else [W.Allocation(step, amount)]
  }

  /** What a collected revenue writes: principal first, then the fee, the rest to the owner; the
      vault's columns and status, the revenue and repayment rows, and both journal rows. */
  ghost predicate RevenueCollected(b: Book, vid: nat, amount: int, external: string, currency: string, c: Book)
    requires Receives(b, vid, amount)
  {
    var v, n := b.vaults[vid], |b.ledger.journal|;
    var p := if amount < v.principal then amount else v.principal;
    var f := if amount - p < v.feeDue then amount - p else v.feeDue;
    var o := amount - p - f;
    && c == b.(vaults := b.vaults[vid := v.(
                 principal := v.principal - p, feeDue := v.feeDue - f,
                 status := if p == v.principal && f == v.feeDue then Repaid else PartiallyRepaid)],
               revenues := b.revenues + [Revenue(vid, external, amount, currency, n)],
               repayments := b.repayments + [
                 Repayment(vid, WaterfallRun,
                           PartLine(W.RepayPrincipal, p) + PartLine(W.PayFee, f) + PartLine(W.ReleaseToOwner, o),
                           p, f, 0, o, 0, Some(n + 1))],
               ledger := c.ledger)
    && |c.ledger.journal| == n + 2
    && c.ledger.journal[..n + 1] == b.ledger.journal + [L.Journal(RevenueKey(external), L.RevenueReceipt, vid, [
         L.Entry(L.SandboxCash, L.Debit, amount, currency), L.Entry(L.RevenueEscrow, L.Credit, amount, currency)])]
    && var j := c.ledger.journal[n + 1];
       && j.key == WaterfallKey(external) && j.event == L.RepaymentWaterfall && j.reference == vid
       && j.entries == [L.Entry(L.RevenueEscrow, L.Debit, amount, currency)]
                       + CreditLine(L.PrincipalReceivable, p, currency) + CreditLine(L.FeeIncome, f, currency)
                       + CreditLine(L.OwnerPayable, o, currency)
  }

  function CreditLine(account: L.Account, amount: int, currency: string): seq<L.Entry> {
    if amount == 0 then [] else [L.Entry(account, L.Credit, amount, currency)]
  }

  function DebitLine(account: L.Account, amount: int, currency: string): seq<L.Entry> {
    if amount == 0 then [] else [L.Entry(account, L.Debit, amount, currency)]
  }

  /** Between calls no vault rests in one of the three passing statuses. */
  lemma RestingStatus(b: Book, vid: nat)
    requires Kept(b) && vid < |b.vaults|
    ensures var status := b.vaults[vid].status;
      status != TaskCompleted && status != TaskFailed && status != RevenueReceived
  {
    assert Sound(FileOf(b, vid));
  }

  lemma CollectingStatus(status: VaultStatus, completed: bool)
    requires status != TaskCompleted && status != TaskFailed && status != RevenueReceived
    ensures Collecting(status, completed).Some?
      <==> status == Active || status == Spending || status == Expired || status == PartiallyRepaid
  {
  }

  lemma CollectableIsReceiving(b: Book, vid: nat, amount: int, external: string, completed: bool)
    requires Kept(b) && forall r :: r in b.revenues ==> r.external != external
    ensures Collectable(b, vid, amount, external, completed) <==> Receives(b, vid, amount)
  {
    if vid < |b.vaults| {
      RestingStatus(b, vid);
      CollectingStatus(b.vaults[vid].status, completed);
    }
  }

  /** A new revenue is collected exactly when the vault may receive it. */
  lemma RevenueCollects(s: State, vid: nat, amount: int, external: string, currency: string, completed: bool)
    requires Kept(s.book) && forall r :: r in s.book.revenues ==> r.external != external
    ensures var x := ReceiveRevenue(s, vid, amount, external, currency, completed);
      && (x.result.Ok? <==> Receives(s.book, vid, amount))
      && if x.result.Err? then x.state == s
         else
           && x.result == Ok(|s.book.repayments|) && x.state == s.(book := x.state.book)
           && RevenueCollected(s.book, vid, amount, external, currency, x.state.book)
  {
    CollectableIsReceiving(s.book, vid, amount, external, completed);
    ReceiveRevenuePosts(s, vid, amount, external, currency, completed);
    if Receives(s.book, vid, amount) {
      CollectedPostings(s.book, vid, amount, external, currency, completed);
      CollectedWrites(s.book, vid, amount, external, currency);
    } else {
      RevenueFails(s, vid, amount, external, currency, completed);
    }
  }

  lemma RevenueFails(s: State, vid: nat, amount: int, external: string, currency: string, completed: bool)
    requires !Collectable(s.book, vid, amount, external, completed) && FindRevenue(s.book.revenues, external).None?
    ensures ReceiveRevenue(s, vid, amount, external, currency, completed).result.Err?
  {
  }

  lemma WaterfallOnRows(amount: int, principal: int, fee: int)
    requires amount > 0 && principal >= 0 && fee >= 0
    ensures var p := if amount < principal then amount else principal;
      var f := if amount - p < fee then amount - p else fee;
      var o := amount - p - f;
      W.Repayment(amount, principal, fee, 0)
      == W.RepaymentResult(PartLine(W.RepayPrincipal, p) + PartLine(W.PayFee, f) + PartLine(W.ReleaseToOwner, o),
                           p, f, 0, o, principal - p, fee - f)
  {
    var w := W.Repayment(amount, principal, fee, 0);
    assert W.Line(W.RepayPrincipal, w.principalRepaid) + W.Line(W.PayFee, w.feePaid) + []
        == W.Line(W.RepayPrincipal, w.principalRepaid) + W.Line(W.PayFee, w.feePaid);
  }

  lemma WaterfallEntriesOnRows(amount: int, w: W.RepaymentResult, currency: string)
    requires w.reserveReplenished == 0
    ensures WaterfallEntries(amount, w, currency)
         == [L.Entry(L.RevenueEscrow, L.Debit, amount, currency)]
            + CreditLine(L.PrincipalReceivable, w.principalRepaid, currency)
            + CreditLine(L.FeeIncome, w.feePaid, currency)
            + CreditLine(L.OwnerPayable, w.ownerReleased, currency)
  {
    var entries := [L.Entry(L.RevenueEscrow, L.Debit, amount, currency)]
                   + CreditLine(L.PrincipalReceivable, w.principalRepaid, currency)
                   + CreditLine(L.FeeIncome, w.feePaid, currency);
    assert entries + [] == entries;
  }

  lemma CollectedWrites(b: Book, vid: nat, amount: int, external: string, currency: string)
    requires Receives(b, vid, amount)
    requires b.vaults[vid].principal >= 0 && b.vaults[vid].feeDue >= 0 && b.vaults[vid].reserveDrawn == 0
    ensures RevenueCollected(b, vid, amount, external, currency, Collected(b, vid, amount, external, currency))
  {
    var v, w := b.vaults[vid], Waterfall(b, vid, amount);
    WaterfallOnRows(amount, v.principal, v.feeDue);
    WaterfallEntriesOnRows(amount, w, currency);
  }

  // ----- Recovery -----

  /** What the mandate of a task lets a recovery draw. */
  function SignedCap(d: Desk, task: nat): int { if task in d.mandates then d.mandates[task].reserveCap else 0 }

  /** A vault whose task can still fail, and a cap that is not negative. */
  predicate Fails(s: State, vid: nat) {
    && vid < |s.book.vaults| && SignedCap(s.desk, s.book.vaults[vid].task) >= 0
    && (s.book.vaults[vid].status == Active || s.book.vaults[vid].status == Spending
        || s.book.vaults[vid].status == Frozen || s.book.vaults[vid].status == Expired)
  }

  /** What a recovery writes: the unspent part swept, the spent part drawn from the reserve up to
      the cap and the rest lost; the vault settled, one repayment row and one journal row. */
  predicate RecoveryWritten(b: Book, vid: nat, cap: int, c: Book)
    requires vid < |b.vaults|
  {
    var v, n := b.vaults[vid], |b.ledger.journal|;
    var swept, drawn := v.totalLimit - v.spent, if v.spent < cap then v.spent else cap;
    var loss := v.spent - drawn;
    && c == b.(vaults := b.vaults[vid := v.(principal := 0, feeDue := 0, reserveDrawn := drawn, spent := v.totalLimit,
                                            status := if v.spent > cap then Defaulted else Repaid)],
               repayments := b.repayments + [
                 Repayment(vid, RecoveryRun,
                           PartLine(W.SweepUnspent, swept) + PartLine(W.DrawReserveCapped, drawn)
                           + PartLine(W.SimulatedLoss, loss),
                           swept, 0, drawn, 0, loss, Some(n))],
               ledger := c.ledger)
    && c.ledger.journal == b.ledger.journal + [L.Journal(RecoveryKey(vid), L.RecoveryWaterfall, vid,
         DebitLine(L.VaultAvailable, swept, v.currency) + DebitLine(L.ReservePool, drawn, v.currency)
         + DebitLine(L.LossDefault, loss, v.currency) + CreditLine(L.PrincipalReceivable, v.totalLimit, v.currency))]
  }

  lemma RecoveryOnRows(limit: int, spent: int, cap: int)
    requires 0 <= spent <= limit && cap >= 0
    ensures var drawn := if spent < cap then spent else cap;
      W.Recovery(limit, limit - spent, 0, cap, cap)
      == W.RecoveryResult(PartLine(W.SweepUnspent, limit - spent) + PartLine(W.DrawReserveCapped, drawn)
                          + PartLine(W.SimulatedLoss, spent - drawn),
                          limit - spent, 0, drawn, spent - drawn, limit - (spent - drawn))
  {
    assert W.Line(W.SweepUnspent, limit - spent) + [] == W.Line(W.SweepUnspent, limit - spent);
  }

  lemma RecoveredWrites(b: Book, vid: nat, cap: nat)
    requires vid < |b.vaults| && Open(FileOf(b, vid)) && 0 <= b.vaults[vid].spent <= b.vaults[vid].totalLimit
    ensures RecoveryWritten(b, vid, cap, RecoveredBook(b, vid, cap))
  {
    RecoveryOnRows(b.vaults[vid].totalLimit, b.vaults[vid].spent, cap);
  }

  /** A recovery succeeds exactly for a vault that can fail under a signed cap. */
  lemma FailureRecovers(s: State, vid: nat)
    requires Kept(s.book)
    ensures var x := SimulateFailure(s, vid);
      && (x.result.Ok? <==> Fails(s, vid))
      && if x.result.Err? then x.state == s
         else
           && x.result == Ok(|s.book.repayments|) && x.state == s.(book := x.state.book)
           && RecoveryWritten(s.book, vid, SignedCap(s.desk, s.book.vaults[vid].task), x.state.book)
  {
    SimulateFailurePosts(s, vid);
    if Fails(s, vid) {
      OpenWhenLive(s.book, vid);
      RecoveredWrites(s.book, vid, SignedCap(s.desk, s.book.vaults[vid].task));
    }
  }
}
