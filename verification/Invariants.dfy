/** What every operation keeps: sound vault files, a consistent ledger whose keys are
    accounted for, payments that match proposals, and sub-ledgers that match the columns. */
module Invariants {
  import opened Tables
  import opened Statuses
  import opened Records
  import opened Growth
  import opened VaultFile
  import opened Postings
  import L = Ledger

  ghost predicate InRange(b: Book) {
    && (forall p :: p in b.payments ==> p.vault < |b.vaults| && p.proposal < |b.proposals|)
    && (forall r :: r in b.revenues ==> r.vault < |b.vaults|)
    && (forall r :: r in b.repayments ==> r.vault < |b.vaults|)
    && (forall p :: p in b.proposals ==> p.vault < |b.vaults|)
    && (forall r :: r in b.records ==> r.proposal < |b.proposals|)
  }

  ghost predicate AllSound(b: Book) { forall i :: 0 <= i < |b.vaults| ==> Sound(FileOf(b, i)) }

  /** Every journal row stems from the one event its key names. */
  ghost predicate Justified(j: L.Journal, b: Book) {
    match j.event
    case Disbursement => j.reference < |b.vaults| && j.key == DisburseKey(j.reference)
    case VendorPayment =>
      && j.reference < |b.proposals| && j.key == SpendKey(j.reference)
      && b.proposals[j.reference].status == ProposalExecuted
    case RevenueReceipt => exists r :: r in b.revenues && j.key == RevenueKey(r.external)
    case RepaymentWaterfall => exists r :: r in b.revenues && j.key == WaterfallKey(r.external)
    case RecoveryWaterfall =>
      && j.reference < |b.vaults| && j.key == RecoveryKey(j.reference)
      && !Live(b.vaults[j.reference].status)
  }

  ghost predicate AllJustified(b: Book) { forall j :: j in b.ledger.journal ==> Justified(j, b) }

  /** Payments and executed proposals are the same thing, and a refusal by either engine is final. */
  ghost predicate Executions(b: Book) {
    && (forall p :: p in b.payments ==>
          && p.proposal < |b.proposals|
          && var q := b.proposals[p.proposal];
             q.status == ProposalExecuted && p.vault == q.vault && p.vendor == q.vendor && p.amount == q.amount)
    && (forall i :: 0 <= i < |b.proposals| && b.proposals[i].status == ProposalExecuted ==>
          FindPayment(b.payments, i).Some?)
    && (forall i, k :: 0 <= i < k < |b.payments| ==> b.payments[i].proposal != b.payments[k].proposal)
    && (forall r :: r in b.records && !r.allow ==>
          r.proposal < |b.proposals| && b.proposals[r.proposal].status == ProposalDenied)
  }

  /** The ten platform accounts, as balances or as what the columns say they should be. */
  datatype Position = Position(
    receivable: int, available: int, reserve: int, escrow: int, liquidity: int,
    cash: int, vendors: int, fees: int, owners: int, losses: int)
  {
    function Plus(d: Position): Position {
      Position(receivable + d.receivable, available + d.available, reserve + d.reserve, escrow + d.escrow,
               liquidity + d.liquidity, cash + d.cash, vendors + d.vendors, fees + d.fees,
               owners + d.owners, losses + d.losses)
    }
  }

  function LedgerPosition(j: seq<L.Journal>): Position {
    Position(L.Balance(j, L.PrincipalReceivable), L.Balance(j, L.VaultAvailable), L.Balance(j, L.ReservePool),
             L.Balance(j, L.RevenueEscrow), L.Balance(j, L.LenderLiquidity), L.Balance(j, L.SandboxCash),
             L.Balance(j, L.VendorPayable), L.Balance(j, L.FeeIncome), L.Balance(j, L.OwnerPayable),
             L.Balance(j, L.LossDefault))
  }

  function ColumnPosition(b: Book): Position {
    Position(Sum(b.vaults, Principal), Sum(b.vaults, Unspent), -Sum(b.vaults, ReserveDrawn), 0, 0,
             Sum(b.revenues, RevenueAmount), Sum(b.payments, PaymentAmount), Sum(b.repayments, FeePaid),
             Sum(b.repayments, OwnerPaid), Sum(b.repayments, LossTaken))
  }

  /** Each ledger account agrees with the columns it accounts for. */
  ghost predicate SubLedger(b: Book) { LedgerPosition(b.ledger.journal) == ColumnPosition(b) }

  ghost predicate Kept(b: Book) {
    InRange(b) && AllSound(b) && L.Consistent(b.ledger) && AllJustified(b) && Executions(b) && SubLedger(b)
  }

  lemma EmptyKept()
    ensures Kept(EMPTY_BOOK)
  {
    assert LedgerPosition([]) == Position(0, 0, 0, 0, 0, 0, 0, 0, 0, 0);
  }

  // ----- Keys -----

  lemma FreshDisburse(b: Book)
    requires AllJustified(b)
    ensures Fresh(b.ledger, DisburseKey(|b.vaults|))
  {
    forall j | j in b.ledger.journal ensures j.key != DisburseKey(|b.vaults|) {
      KeysInjective(|b.vaults|, j.reference);
      KeyApart(j, b, |b.vaults|);
    }
  }

  lemma FreshSpend(b: Book, pid: nat)
    requires AllJustified(b) && pid < |b.proposals| && b.proposals[pid].status != ProposalExecuted
    ensures Fresh(b.ledger, SpendKey(pid))
  {
    forall j | j in b.ledger.journal ensures j.key != SpendKey(pid) {
      KeysInjective(pid, j.reference);
      KeyApart(j, b, pid);
    }
  }

  lemma FreshRecovery(b: Book, vid: nat)
    requires AllJustified(b) && vid < |b.vaults| && Live(b.vaults[vid].status)
    ensures Fresh(b.ledger, RecoveryKey(vid))
  {
    forall j | j in b.ledger.journal ensures j.key != RecoveryKey(vid) {
      KeysInjective(vid, j.reference);
      KeyApart(j, b, vid);
    }
  }

  /** A justified key belongs to the family of its event only. */
  lemma KeyApart(j: L.Journal, b: Book, n: nat)
    requires Justified(j, b)
    ensures j.key == DisburseKey(n) ==> j.event.Disbursement?
    ensures j.key == SpendKey(n) ==> j.event.VendorPayment?
    ensures j.key == RecoveryKey(n) ==> j.event.RecoveryWaterfall?
  {
    FamiliesApart(n, j.reference, "", "");
    FamiliesApart(j.reference, n, "", "");
    if j.event.RevenueReceipt? {
      var r :| r in b.revenues && j.key == RevenueKey(r.external);
      FamiliesApart(n, n, r.external, "");
    }
    if j.event.RepaymentWaterfall? {
      var r :| r in b.revenues && j.key == WaterfallKey(r.external);
      FamiliesApart(n, n, r.external, "");
    }
  }

  lemma FreshRevenue(b: Book, external: string)
    requires AllJustified(b) && FindRevenue(b.revenues, external).None?
    ensures Fresh(b.ledger, RevenueKey(external)) && Fresh(b.ledger, WaterfallKey(external))
    ensures RevenueKey(external) != WaterfallKey(external)
  {
    FamiliesApart(0, 0, external, external);
    forall j | j in b.ledger.journal ensures j.key != RevenueKey(external) && j.key != WaterfallKey(external) {
      assert Justified(j, b);
      FamiliesApart(j.reference, j.reference, external, external);
      if j.event.RevenueReceipt? {
        var r :| r in b.revenues && j.key == RevenueKey(r.external);
        ExternalKeysInjective(r.external, external);
        FamiliesApart(0, 0, r.external, external);
      }
      if j.event.RepaymentWaterfall? {
        var r :| r in b.revenues && j.key == WaterfallKey(r.external);
        ExternalKeysInjective(r.external, external);
        FamiliesApart(0, 0, external, r.external);
      }
    }
  }

  lemma JustifiedGrows(j: L.Journal, b: Book, c: Book)
    requires Justified(j, b) && Grows(b, c)
    ensures Justified(j, c)
  {
    match j.event
    case Disbursement =>
    case VendorPayment => assert ProposalGrows(b.proposals[j.reference], c.proposals[j.reference]);
    case RevenueReceipt =>
      var r :| r in b.revenues && j.key == RevenueKey(r.external);
      assert r in c.revenues;
    case RepaymentWaterfall =>
      var r :| r in b.revenues && j.key == WaterfallKey(r.external);
      assert r in c.revenues;
    case RecoveryWaterfall => assert VaultGrows(b.vaults[j.reference], c.vaults[j.reference]);
  }

  lemma JustifiedAfter(b: Book, c: Book)
    requires AllJustified(b) && Grows(b, c)
    requires forall j :: j in c.ledger.journal && j !in b.ledger.journal ==> Justified(j, c)
    ensures AllJustified(c)
  {
    forall j | j in c.ledger.journal ensures Justified(j, c) {
      if j in b.ledger.journal {
        JustifiedGrows(j, b, c);
      }
    }
  }

  // ----- Files -----

  /** Changing the row of one vault and appending rows of that vault leaves the other files alone. */
  lemma FilesAfter(b: Book, c: Book, i: nat, v: Vault, dp: seq<Payment>, dr: seq<Revenue>, dq: seq<Repayment>)
    requires i < |b.vaults| && c.vaults == b.vaults[i := v]
    requires |dp| <= 1 && |dr| <= 1 && |dq| <= 1
    requires forall p :: p in dp ==> p.vault == i
    requires (forall r :: r in dr ==> r.vault == i) && (forall r :: r in dq ==> r.vault == i)
    requires c.payments == b.payments + dp && c.revenues == b.revenues + dr && c.repayments == b.repayments + dq
    ensures FileOf(c, i) == File(v, FileOf(b, i).payments + dp, FileOf(b, i).revenues + dr,
                                 FileOf(b, i).repayments + dq)
    ensures forall k :: 0 <= k < |b.vaults| && k != i ==> FileOf(c, k) == FileOf(b, k)
  {
    forall k | 0 <= k < |b.vaults|
      ensures Where(c.payments, PaymentVault, k) == Where(b.payments, PaymentVault, k) + if k == i then dp else []
      ensures Where(c.revenues, RevenueVault, k) == Where(b.revenues, RevenueVault, k) + if k == i then dr else []
      ensures Where(c.repayments, RepaymentVault, k)
           == Where(b.repayments, RepaymentVault, k) + if k == i then dq else []
    {
      WhereMore(b.payments, dp, PaymentVault, i, k);
      WhereMore(b.revenues, dr, RevenueVault, i, k);
      WhereMore(b.repayments, dq, RepaymentVault, i, k);
    }
  }

  lemma WhereMore<T>(rows: seq<T>, more: seq<T>, key: T -> nat, i: nat, k: nat)
    requires |more| <= 1 && forall r :: r in more ==> key(r) == i
    ensures Where(rows + more, key, k) == Where(rows, key, k) + if k == i then more else []
  {
    if more == [] {
      assert rows + more == rows;
    } else {
      assert more == [more[0]];
      WhereAppend(rows, more[0], key, k);
    }
  }

  lemma SoundAfter(b: Book, c: Book, i: nat, v: Vault, dp: seq<Payment>, dr: seq<Revenue>, dq: seq<Repayment>)
    requires AllSound(b)
    requires i < |b.vaults| && c.vaults == b.vaults[i := v]
    requires |dp| <= 1 && |dr| <= 1 && |dq| <= 1
    requires forall p :: p in dp ==> p.vault == i
    requires (forall r :: r in dr ==> r.vault == i) && (forall r :: r in dq ==> r.vault == i)
    requires c.payments == b.payments + dp && c.revenues == b.revenues + dr && c.repayments == b.repayments + dq
    requires Sound(File(v, FileOf(b, i).payments + dp, FileOf(b, i).revenues + dr, FileOf(b, i).repayments + dq))
    ensures AllSound(c)
  {
    FilesAfter(b, c, i, v, dp, dr, dq);
    forall k | 0 <= k < |c.vaults| ensures Sound(FileOf(c, k)) {
      if k != i { assert FileOf(c, k) == FileOf(b, k); }
    }
  }

  /** Changes that touch statuses only, one file at a time. */
  lemma SoundStatuses(b: Book, c: Book)
    requires AllSound(b) && |c.vaults| == |b.vaults|
    requires c.payments == b.payments && c.revenues == b.revenues && c.repayments == b.repayments
    requires forall i :: 0 <= i < |b.vaults| ==>
      c.vaults[i] == b.vaults[i]
      || (c.vaults[i] == b.vaults[i].(status := c.vaults[i].status)
          && ((Live(b.vaults[i].status) && Live(c.vaults[i].status))
              || (c.vaults[i].status == Closed && Closed in VaultTargets(b.vaults[i].status))))
    ensures AllSound(c)
  {
    forall i | 0 <= i < |c.vaults| ensures Sound(FileOf(c, i)) {
      assert Sound(FileOf(b, i));
      if c.vaults[i] != b.vaults[i] {
        SoundStatus(FileOf(b, i), c.vaults[i].status);
      }
      assert FileOf(c, i) == FileOf(b, i).(vault := c.vaults[i]);
    }
  }

  lemma SubLedgerSame(b: Book, c: Book)
    requires SubLedger(b) && |c.vaults| == |b.vaults| && c.ledger.journal == b.ledger.journal
    requires c.payments == b.payments && c.revenues == b.revenues && c.repayments == b.repayments
    requires forall i :: 0 <= i < |b.vaults| ==>
      && Principal(c.vaults[i]) == Principal(b.vaults[i]) && Unspent(c.vaults[i]) == Unspent(b.vaults[i])
      && ReserveDrawn(c.vaults[i]) == ReserveDrawn(b.vaults[i])
    ensures SubLedger(c)
  {
    SumSame(b.vaults, c.vaults, Principal);
    SumSame(b.vaults, c.vaults, Unspent);
    SumSame(b.vaults, c.vaults, ReserveDrawn);
  }

  /** What one posting does to the ten balances. */
  function Shift(entries: seq<L.Entry>): Position {
    Position(L.Effect(entries, L.PrincipalReceivable), -L.Effect(entries, L.VaultAvailable),
             -L.Effect(entries, L.ReservePool), -L.Effect(entries, L.RevenueEscrow),
             L.Effect(entries, L.LenderLiquidity),
             L.Effect(entries, L.SandboxCash), -L.Effect(entries, L.VendorPayable), -L.Effect(entries, L.FeeIncome),
             -L.Effect(entries, L.OwnerPayable), L.Effect(entries, L.LossDefault))
  }

  lemma PositionShifts(journal: seq<L.Journal>, j: L.Journal)
    ensures LedgerPosition(journal + [j]) == LedgerPosition(journal).Plus(Shift(j.entries))
  {
    forall a ensures L.Raw(journal + [j], a) == L.Raw(journal, a) + L.Effect(j.entries, a) {
      L.RawAppend(journal, j, a);
    }
  }
}
