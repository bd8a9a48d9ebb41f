/** The read side: credence/api/system_intelligence.py and read_routes.py recompute from stored
    rows what the write side should have kept.  In every reachable state they agree. */
module ReadModels {
  import opened Tables
  import opened Statuses
  import opened Records
  import opened Operations
  import opened Growth
  import opened Invariants
  import opened Preservation
  import opened Provenance
  import W = Waterfall
  import L = Ledger
  import U = Underwriting

  // ----- Repayment invariant -----

  datatype Field = PrincipalField | FeeField | ReserveField | OwnerField | LossField

  /** STEP_FIELDS: the column a waterfall step is persisted into; APPLY_REVENUE has none. */
  function FieldOf(step: W.Step): Option<Field> {
    match step
    case RepayPrincipal => Some(PrincipalField)
    case SweepUnspent => Some(PrincipalField)
    case PayFee => Some(FeeField)
    case ReplenishReserve => Some(ReserveField)
    case DrawReserveCapped => Some(ReserveField)
    case ReleaseToOwner => Some(OwnerField)
    case SimulatedLoss => Some(LossField)
    case ApplyRevenue => None
    case OtherStep(_) => None
  }

  function Column(r: Repayment, f: Field): int {
    match f
    case PrincipalField => r.principal
    case FeeField => r.fee
    case ReserveField => r.reserve
    case OwnerField => r.owner
    case LossField => r.loss
  }

  function FieldSum(rows: seq<W.Allocation>, f: Option<Field>): int {
    if rows == [] then 0
    else
      var a := rows[|rows| - 1];
      FieldSum(rows[..|rows| - 1], f) + if FieldOf(a.step) == f then a.amount else 0
  }

  function RemovePrefix(s: string, prefix: string): string {
    if prefix <= s then s[|prefix|..] else s
  }

  /** The revenue behind a waterfall run, found through the external id its journal key embeds. */
  function RevenueIn(r: Repayment, keys: map<nat, string>, revenue: map<string, int>): Option<int> {
    if r.journal.None? then None
    else
      var key := if r.journal.value in keys then keys[r.journal.value] else "";
      var external := RemovePrefix(key, "waterfall-");
      if external in revenue then Some(revenue[external]) else None
  }

  predicate KnownSteps(rows: seq<W.Allocation>) { forall a :: a in rows ==> !a.step.OtherStep? }

  /** Conservation of one recorded waterfall run. */
  predicate Reconciles(r: Repayment, keys: map<nat, string>, revenue: map<string, int>) {
    && KnownSteps(r.allocations)
    && (forall f :: Column(r, f) == FieldSum(r.allocations, Some(f)))
    && if r.kind == WaterfallRun then
         r.loss == 0 && RevenueIn(r, keys, revenue) == Some(r.principal + r.fee + r.reserve + r.owner)
       else
         r.fee == 0 && r.owner == 0 && FieldSum(r.allocations, None) >= 0
  }

  /** `_repayment_invariant_ok`. */
  method RepaymentInvariantOk(r: Repayment, keys: map<nat, string>, revenue: map<string, int>) returns (ok: bool)
    ensures ok <==> Reconciles(r, keys, revenue)
  {
    var sums: map<Field, int> := map[];
    var applied := 0;
    var i := 0;
    while i < |r.allocations|
      invariant 0 <= i <= |r.allocations| && KnownSteps(r.allocations[..i])
      invariant applied == FieldSum(r.allocations[..i], None)
      invariant forall f :: FieldSum(r.allocations[..i], Some(f)) == if f in sums then sums[f] else 0
    {
      var a := r.allocations[i];
      assert r.allocations[..i + 1][..i] == r.allocations[..i];
      if a.step.OtherStep? {
        assert a in r.allocations;
        return false;
      }
      var field := FieldOf(a.step);
      if field.None? {
        applied := applied + a.amount;
      } else {
        var f := field.value;
        sums := sums[f := (if f in sums then sums[f] else 0) + a.amount];
      }
      i := i + 1;
    }
    assert r.allocations[..i] == r.allocations;
    var fields := [PrincipalField, FeeField, ReserveField, OwnerField, LossField];
    var k := 0;
    while k < |fields|
      invariant 0 <= k <= |fields|
      invariant forall j :: 0 <= j < k ==> Column(r, fields[j]) == FieldSum(r.allocations, Some(fields[j]))
    {
      if Column(r, fields[k]) != (if fields[k] in sums then sums[fields[k]] else 0) {
        return false;
      }
      k := k + 1;
    }
    EveryField(fields);
    forall f ensures Column(r, f) == FieldSum(r.allocations, Some(f)) {
      assert f in fields;
    }
    if r.kind == WaterfallRun {
      if r.loss != 0 || r.journal.None? {
        return false;
      }
      var revenueIn := RevenueIn(r, keys, revenue);
      if revenueIn.None? {
        return false;
      }
      return revenueIn.value == r.principal + r.fee + r.reserve + r.owner;
    }
    return r.fee == 0 && r.owner == 0 && applied >= 0;
  }

  lemma EveryField(fields: seq<Field>)
    requires fields == [PrincipalField, FeeField, ReserveField, OwnerField, LossField]
    ensures forall f: Field :: f in fields
  {
    forall f: Field ensures f in fields {
      match f
      case PrincipalField => assert fields[0] == f;
      case FeeField => assert fields[1] == f;
      case ReserveField => assert fields[2] == f;
      case OwnerField => assert fields[3] == f;
      case LossField => assert fields[4] == f;
    }
  }

  lemma {:induction false} FieldSumConcat(a: seq<W.Allocation>, b: seq<W.Allocation>, f: Option<Field>)
    ensures FieldSum(a + b, f) == FieldSum(a, f) + FieldSum(b, f)
  {
    if b == [] {
      assert a + b == a;
    } else {
      FieldSumConcat(a, b[..|b| - 1], f);
      assert (a + b)[..|a + b| - 1] == a + b[..|b| - 1];
    }
  }

  lemma FieldSumLine(step: W.Step, x: int, f: Option<Field>)
    ensures FieldSum(W.Line(step, x), f) == if FieldOf(step) == f then x else 0
  {
    if x != 0 {
      assert W.Line(step, x)[..0] == [];
    }
  }

  lemma FieldSumFour(a: W.Step, x: int, b: W.Step, y: int, c: W.Step, z: int, d: W.Step, w: int, f: Option<Field>)
    ensures FieldSum(W.Line(a, x) + W.Line(b, y) + W.Line(c, z) + W.Line(d, w), f)
         == (if FieldOf(a) == f then x else 0) + (if FieldOf(b) == f then y else 0)
          + (if FieldOf(c) == f then z else 0) + (if FieldOf(d) == f then w else 0)
  {
    FieldSumConcat(W.Line(a, x) + W.Line(b, y) + W.Line(c, z), W.Line(d, w), f);
    FieldSumConcat(W.Line(a, x) + W.Line(b, y), W.Line(c, z), f);
    FieldSumConcat(W.Line(a, x), W.Line(b, y), f);
    FieldSumLine(a, x, f);
    FieldSumLine(b, y, f);
    FieldSumLine(c, z, f);
    FieldSumLine(d, w, f);
  }

  // ----- What the checker is given -----

  function JournalKeys(journal: seq<L.Journal>): map<nat, string> {
    map i: nat | i < |journal| :: journal[i].key
  }

  function RevenueByExternal(rows: seq<Revenue>): map<string, int> {
    if rows == [] then map[]
    else
      var r := rows[|rows| - 1];
      RevenueByExternal(rows[..|rows| - 1])[r.external := r.amount]
  }

  ghost predicate AllReconcile(b: Book) {
    forall r :: r in b.repayments ==>
      && (r.journal.Some? ==> r.journal.value < |b.ledger.journal|)
      && Reconciles(r, JournalKeys(b.ledger.journal), RevenueByExternal(b.revenues))
  }

  lemma {:induction false} ExternalsKnown(rows: seq<Revenue>, external: string)
    ensures external in RevenueByExternal(rows) <==> FindRevenue(rows, external).Some?
  {
    if rows != [] {
      ExternalsKnown(rows[..|rows| - 1], external);
    }
  }

  lemma ReconcilesLater(r: Repayment, keys: map<nat, string>, revenue: map<string, int>,
                        keys': map<nat, string>, revenue': map<string, int>)
    requires Reconciles(r, keys, revenue)
    requires r.journal.Some? ==>
      var j := r.journal.value; j in keys && j in keys' && keys'[j] == keys[j]
    requires forall x :: x in revenue ==> x in revenue' && revenue'[x] == revenue[x]
    ensures Reconciles(r, keys', revenue')
  {
  }

  lemma KeysLater(a: seq<L.Journal>, b: seq<L.Journal>)
    requires a <= b
    ensures forall i: nat :: i in JournalKeys(a) ==> i in JournalKeys(b) && JournalKeys(b)[i] == JournalKeys(a)[i]
  {
  }

  lemma WaterfallPrefix(external: string)
    ensures RemovePrefix(WaterfallKey(external), "waterfall-") == external
  {
    var key := WaterfallKey(external);
    assert key == "waterfall-" + external;
    assert key[|"waterfall-"|..] == external;
  }

  lemma LineKnown(step: W.Step, x: int)
    requires !step.OtherStep?
    ensures KnownSteps(W.Line(step, x))
  {
  }

  lemma KnownConcat(a: seq<W.Allocation>, b: seq<W.Allocation>)
    requires KnownSteps(a) && KnownSteps(b)
    ensures KnownSteps(a + b)
  {
  }

  lemma FourKnown(a: W.Step, x: int, b: W.Step, y: int, c: W.Step, z: int, d: W.Step, w: int)
    requires !a.OtherStep? && !b.OtherStep? && !c.OtherStep? && !d.OtherStep?
    ensures KnownSteps(W.Line(a, x) + W.Line(b, y) + W.Line(c, z) + W.Line(d, w))
  {
    LineKnown(a, x);
    LineKnown(b, y);
    LineKnown(c, z);
    LineKnown(d, w);
    KnownConcat(W.Line(a, x), W.Line(b, y));
    KnownConcat(W.Line(a, x) + W.Line(b, y), W.Line(c, z));
    KnownConcat(W.Line(a, x) + W.Line(b, y) + W.Line(c, z), W.Line(d, w));
  }

  /** Each column is the sum of the steps it stands for. */
  predicate ColumnsAddUp(r: Repayment) { forall f :: Column(r, f) == FieldSum(r.allocations, Some(f)) }

  function WaterfallRow(vid: nat, w: W.RepaymentResult, jid: nat): Repayment {
    Repayment(vid, WaterfallRun, w.allocations, w.principalRepaid, w.feePaid, w.reserveReplenished, w.ownerReleased,
              0, Some(jid))
  }

  lemma WaterfallColumns(amount: int, principal: int, fee: int, reserve: int, vid: nat, jid: nat)
    ensures ColumnsAddUp(WaterfallRow(vid, W.Repayment(amount, principal, fee, reserve), jid))
    ensures KnownSteps(W.Repayment(amount, principal, fee, reserve).allocations)
  {
    var w := W.Repayment(amount, principal, fee, reserve);
    var r := WaterfallRow(vid, w, jid);
    forall f ensures Column(r, f) == FieldSum(r.allocations, Some(f)) {
      FieldSumFour(W.RepayPrincipal, w.principalRepaid, W.PayFee, w.feePaid, W.ReplenishReserve, w.reserveReplenished,
                   W.ReleaseToOwner, w.ownerReleased, Some(f));
    }
    FourKnown(W.RepayPrincipal, w.principalRepaid, W.PayFee, w.feePaid, W.ReplenishReserve, w.reserveReplenished,
              W.ReleaseToOwner, w.ownerReleased);
  }

  /** A row `receive_revenue` writes passes, through the key round trip. */
  lemma WaterfallRowReconciles(amount: nat, principal: nat, fee: nat, reserve: nat, vid: nat, external: string,
                               jid: nat, keys: map<nat, string>, revenue: map<string, int>)
    requires jid in keys && keys[jid] == WaterfallKey(external) && external in revenue && revenue[external] == amount
    ensures Reconciles(WaterfallRow(vid, W.Repayment(amount, principal, fee, reserve), jid), keys, revenue)
  {
    WaterfallColumns(amount, principal, fee, reserve, vid, jid);
    W.RepaymentConserves(amount, principal, fee, reserve);
    WaterfallPrefix(external);
  }

  function RecoveryRow(vid: nat, w: W.RecoveryResult, jid: Option<nat>): Repayment {
    Repayment(vid, RecoveryRun, w.steps, w.swept, 0, w.reserveDrawn, 0, w.loss, jid)
  }

  lemma RecoveryColumns(owed: int, unspent: int, cap: int, vid: nat, jid: Option<nat>)
    requires W.Recovery(owed, unspent, 0, cap, cap).revenueApplied == 0
    ensures ColumnsAddUp(RecoveryRow(vid, W.Recovery(owed, unspent, 0, cap, cap), jid))
    ensures FieldSum(W.Recovery(owed, unspent, 0, cap, cap).steps, None) == 0
    ensures KnownSteps(W.Recovery(owed, unspent, 0, cap, cap).steps)
  {
    var w := W.Recovery(owed, unspent, 0, cap, cap);
    var r := RecoveryRow(vid, w, jid);
    forall f ensures Column(r, f) == FieldSum(r.allocations, Some(f)) {
      FieldSumFour(W.SweepUnspent, w.swept, W.ApplyRevenue, w.revenueApplied, W.DrawReserveCapped, w.reserveDrawn,
                   W.SimulatedLoss, w.loss, Some(f));
    }
    FieldSumFour(W.SweepUnspent, w.swept, W.ApplyRevenue, w.revenueApplied, W.DrawReserveCapped, w.reserveDrawn,
                 W.SimulatedLoss, w.loss, None);
    FourKnown(W.SweepUnspent, w.swept, W.ApplyRevenue, w.revenueApplied, W.DrawReserveCapped, w.reserveDrawn,
              W.SimulatedLoss, w.loss);
  }

  /** And so does a row `simulate_failure` writes. */
  lemma RecoveryRowReconciles(owed: nat, unspent: nat, cap: nat, vid: nat, jid: Option<nat>,
                              keys: map<nat, string>, revenue: map<string, int>)
    ensures Reconciles(RecoveryRow(vid, W.Recovery(owed, unspent, 0, cap, cap), jid), keys, revenue)
  {
    W.RecoveryConserves(owed, unspent, 0, cap, cap);
    RecoveryColumns(owed, unspent, cap, vid, jid);
  }

  // ----- Runs -----

  lemma OldRowsReconcile(b: Book, c: Book)
    requires AllReconcile(b) && b.ledger.journal <= c.ledger.journal
    requires forall x :: x in RevenueByExternal(b.revenues) ==>
      x in RevenueByExternal(c.revenues) && RevenueByExternal(c.revenues)[x] == RevenueByExternal(b.revenues)[x]
    ensures forall r :: r in b.repayments ==>
      (r.journal.Some? ==> r.journal.value < |c.ledger.journal|)
      && Reconciles(r, JournalKeys(c.ledger.journal), RevenueByExternal(c.revenues))
  {
    KeysLater(b.ledger.journal, c.ledger.journal);
    forall r | r in b.repayments
      ensures Reconciles(r, JournalKeys(c.ledger.journal), RevenueByExternal(c.revenues))
    {
      ReconcilesLater(r, JournalKeys(b.ledger.journal), RevenueByExternal(b.revenues),
                      JournalKeys(c.ledger.journal), RevenueByExternal(c.revenues));
    }
  }

  lemma CollectReconciles(b: Book, vid: nat, amount: int, external: string, currency: string, completed: bool)
    requires Kept(b) && AllReconcile(b) && Collectable(b, vid, amount, external, completed)
    ensures AllReconcile(Collected(b, vid, amount, external, currency))
  {
    var c, n := Collected(b, vid, amount, external, currency), |b.ledger.journal|;
    var v, row := b.vaults[vid], c.revenues[|b.revenues|];
    assert c.revenues[..|b.revenues|] == b.revenues;
    ExternalsKnown(b.revenues, external);
    OldRowsReconcile(b, c);
    CollectedPostings(b, vid, amount, external, currency, completed);
    assert c.ledger.journal[n + 1].key == WaterfallKey(external);
    WaterfallRowReconciles(amount, v.principal, v.feeDue, v.reserveDrawn, vid, external, n + 1,
                           JournalKeys(c.ledger.journal), RevenueByExternal(c.revenues));
  }

  lemma RecoverReconciles(b: Book, vid: nat, cap: nat)
    requires Kept(b) && AllReconcile(b) && vid < |b.vaults| && Live(b.vaults[vid].status)
    ensures AllReconcile(RecoveredBook(b, vid, cap))
  {
    var c := RecoveredBook(b, vid, cap);
    RecoveredShape(b, vid, cap);
    OpenWhenLive(b, vid);
    RecoveredRowReconciles(b, vid, cap, JournalKeys(c.ledger.journal), RevenueByExternal(c.revenues));
    NewRowReconciles(b, c, RecoveredRow(b, vid, cap));
  }

  lemma RecoveredShape(b: Book, vid: nat, cap: nat)
    requires vid < |b.vaults|
    ensures var c := RecoveredBook(b, vid, cap);
      && c.repayments == b.repayments + [RecoveredRow(b, vid, cap)] && c.revenues == b.revenues
      && b.ledger.journal <= c.ledger.journal && |c.ledger.journal| == |b.ledger.journal| + 1
  {
  }

  lemma RecoveredRowReconciles(b: Book, vid: nat, cap: nat, keys: map<nat, string>, revenue: map<string, int>)
    requires vid < |b.vaults| && b.vaults[vid].principal >= 0 && b.vaults[vid].totalLimit >= b.vaults[vid].spent
    ensures Reconciles(RecoveredRow(b, vid, cap), keys, revenue)
  {
    var v := b.vaults[vid];
    RecoveryRowReconciles(v.principal, v.totalLimit - v.spent, cap, vid, Some(|b.ledger.journal|), keys, revenue);
  }

  function RecoveredRow(b: Book, vid: nat, cap: nat): Repayment
    requires vid < |b.vaults|
  {
    RecoveryRow(vid, Sweep(b, vid, cap), Some(|b.ledger.journal|))
  }

  lemma NewRowReconciles(b: Book, c: Book, r: Repayment)
    requires AllReconcile(b) && b.ledger.journal <= c.ledger.journal && c.revenues == b.revenues
    requires c.repayments == b.repayments + [r] && (r.journal.Some? ==> r.journal.value < |c.ledger.journal|)
    requires Reconciles(r, JournalKeys(c.ledger.journal), RevenueByExternal(c.revenues))
    ensures AllReconcile(c)
  {
    OldRowsReconcile(b, c);
  }

  lemma RepaymentsUntouched(s: State, op: Op, now: int)
    requires Kept(s.book) && !op.OpRevenue? && !op.OpFail?
    ensures var c := Perform(s, op, now).state.book;
      c.repayments == s.book.repayments && c.revenues == s.book.revenues
  {
    match op
    case OpVault(app, perTxn) => CreateVaultPosts(s, app, perTxn, now);
    case OpExecute(pid, caught) => ExecutePosts(s, pid, caught, now);
    case OpPropose(request) => ProposeRepaysNothing(s, request, now);
    case OpFreeze(vid) => MoveRepaysNothing(s, op, now);
    case OpClose(vid) => MoveRepaysNothing(s, op, now);
    case OpKill(agent, action) => MoveRepaysNothing(s, op, now);
    case _ => DeskOnlyKeepsBook(s, op, now);
  }

  lemma MoveRepaysNothing(s: State, op: Op, now: int)
    requires op.OpFreeze? || op.OpClose? || op.OpKill?
    ensures var c := Perform(s, op, now).state.book;
      c.repayments == s.book.repayments && c.revenues == s.book.revenues
  {
  }

  lemma ProposeRepaysNothing(s: State, q: SpendRequest, now: int)
    ensures var c := Propose(s, q, now).state.book;
      c.repayments == s.book.repayments && c.revenues == s.book.revenues
  {
  }

  lemma RevenueReconciles(s: State, vid: nat, amount: int, external: string, currency: string, completed: bool)
    requires Kept(s.book) && AllReconcile(s.book)
    ensures AllReconcile(ReceiveRevenue(s, vid, amount, external, currency, completed).state.book)
  {
    ReceiveRevenuePosts(s, vid, amount, external, currency, completed);
    if Collectable(s.book, vid, amount, external, completed) {
      CollectReconciles(s.book, vid, amount, external, currency, completed);
    }
  }

  lemma FailReconciles(s: State, vid: nat)
    requires Kept(s.book) && AllReconcile(s.book)
    ensures AllReconcile(SimulateFailure(s, vid).state.book)
  {
    SimulateFailurePosts(s, vid);
    if Recoverable(s, vid) {
      RecoverReconciles(s.book, vid, ReserveCap(s.desk, s.book.vaults[vid].task));
    }
  }

  lemma PerformReconciles(s: State, op: Op, now: int)
    requires Kept(s.book) && AllReconcile(s.book)
    ensures AllReconcile(Perform(s, op, now).state.book)
  {
    if op.OpRevenue? || op.OpFail? {
      RepaymentReconciles(s, op, now);
    } else {
      OthersReconcile(s, op, now);
    }
  }

  lemma RepaymentReconciles(s: State, op: Op, now: int)
    requires Kept(s.book) && AllReconcile(s.book) && (op.OpRevenue? || op.OpFail?)
    ensures AllReconcile(Perform(s, op, now).state.book)
  {
    match op
    case OpRevenue(vid, amount, external, currency, completed) =>
      RevenueReconciles(s, vid, amount, external, currency, completed);
    case OpFail(vid) => FailReconciles(s, vid);
  }

  lemma OthersReconcile(s: State, op: Op, now: int)
    requires Kept(s.book) && AllReconcile(s.book) && !op.OpRevenue? && !op.OpFail?
    ensures AllReconcile(Perform(s, op, now).state.book)
  {
    RepaymentsUntouched(s, op, now);
    PerformGrows(s, op, now);
    OldRowsReconcile(s.book, Perform(s, op, now).state.book);
  }

  /** Producer meets checker: every repayment row in every reachable state passes the
      repayment invariant, so the reported pass rate is always whole. */
  lemma {:induction false} EveryRepaymentReconciles(events: seq<Event>)
    ensures AllReconcile(Run(START, events).state.book)
  {
    if events != [] {
      var n := |events| - 1;
      EveryRepaymentReconciles(events[..n]);
      RunKeepsState(events[..n]);
      var before := Run(START, events[..n]);
      if events[n].now >= before.clock {
        PerformReconciles(before.state, events[n].op, events[n].now);
      }
    }
  }

  // ----- Adversarial block rate -----

  /** `_rate`; None is the insufficient_sample envelope. */
  function RateEnvelope(numerator: nat, denominator: nat): Option<int> {
    if denominator == 0 then None else Some((numerator * U.PPM) / denominator)
  }

  /** Proposals at least one engine refused. */
  ghost function Attempts(b: Book): set<nat> {
    set i | 0 <= i < |b.proposals|
      && (b.proposals[i].status == ProposalDenied || exists r :: r in b.records && r.proposal == i && !r.allow)
  }

  /** Attempts that terminally never executed. */
  ghost function BlockedAttempts(b: Book): set<nat> {
    set i | i in Attempts(b) && b.proposals[i].status == ProposalDenied && FindPayment(b.payments, i).None?
  }

  lemma RefusedStaysRefused(b: Book)
    requires Executions(b)
    ensures BlockedAttempts(b) == Attempts(b)
    ensures forall i: nat :: i in Attempts(b) <==> i < |b.proposals| && b.proposals[i].status == ProposalDenied
  {
    forall i | i in Attempts(b) ensures i in BlockedAttempts(b) {
      assert b.proposals[i].status == ProposalDenied;
      assert forall p :: p in b.payments ==> p.proposal != i;
      assert FindPayment(b.payments, i).None?;
    }
  }

  lemma WholeRate(b: Book)
    requires Executions(b)
    ensures RateEnvelope(|BlockedAttempts(b)|, |Attempts(b)|) == if Attempts(b) == {} then None else Some(U.PPM)
  {
    RefusedStaysRefused(b);
    if Attempts(b) != {} {
      U.MultipleDivides(U.PPM, |Attempts(b)|);
    }
  }

  /** Every refused proposal stays refused and unpaid: the attempts are the refused proposals, all
      of them blocked, and the block rate is whole whenever there is anything to measure. */
  lemma BlockRateIsWhole(events: seq<Event>)
    ensures var b := Run(START, events).state.book;
      BlockedAttempts(b) == Attempts(b)
      && (forall i: nat :: i in Attempts(b) <==> i < |b.proposals| && b.proposals[i].status == ProposalDenied)
      && RateEnvelope(|BlockedAttempts(b)|, |Attempts(b)|) == if Attempts(b) == {} then None else Some(U.PPM)
  {
    RunKeepsState(events);
    RefusedStaysRefused(Run(START, events).state.book);
    WholeRate(Run(START, events).state.book);
  }

  // ----- Counts -----

  /** The summary counts derived from the audit log equal the dashboard's counts by application
      status, the clamp at zero never bites, and the three partition the decisions. */
  ghost predicate CountsMatch(d: Desk) {
    && Sum(d.verdicts, ApproveVerdict) + Sum(d.reviews, ReviewedUp) == Sum(d.apps, ApprovedApp)
    && Sum(d.verdicts, RejectVerdict) + Sum(d.reviews, ReviewedDown) == Sum(d.apps, RejectedApp)
    && Max(Sum(d.verdicts, ReferVerdict) - Sum(d.reviews, ReviewedUp) - Sum(d.reviews, ReviewedDown), 0)
         == Sum(d.apps, AwaitingApp)
    && Sum(d.apps, ApprovedApp) + Sum(d.apps, RejectedApp) + Sum(d.apps, AwaitingApp) == |d.decisions|
  }

  lemma CountedMatch(d: Desk)
    requires Counted(d)
    ensures CountsMatch(d)
  {
    NotNegative(d.apps);
    VerdictsPartition(d.verdicts);
  }

  lemma CountsAgree(events: seq<Event>)
    ensures CountsMatch(Run(START, events).state.desk)
  {
    RunKeepsState(events);
    CountedMatch(Run(START, events).state.desk);
  }

  lemma {:induction false} NotNegative(apps: seq<Application>)
    ensures Sum(apps, AwaitingApp) >= 0
  {
    if apps != [] {
      NotNegative(apps[..|apps| - 1]);
    }
  }

  lemma {:induction false} VerdictsPartition(verdicts: seq<DecisionEvent>)
    ensures Sum(verdicts, ApproveVerdict) + Sum(verdicts, RejectVerdict) + Sum(verdicts, ReferVerdict) == |verdicts|
  {
    if verdicts != [] {
      VerdictsPartition(verdicts[..|verdicts| - 1]);
    }
  }
}
