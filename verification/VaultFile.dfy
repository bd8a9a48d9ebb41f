/** The life of one vault: its row together with its own payments, revenues and repayments. */
module VaultFile {
  import opened Tables
  import opened Statuses
  import opened Records
  import opened Operations
  import W = Waterfall
  import U = Underwriting

  datatype File = File(vault: Vault, payments: seq<Payment>, revenues: seq<Revenue>, repayments: seq<Repayment>)

  function FileOf(b: Book, i: nat): File
    requires i < |b.vaults|
  {
    File(b.vaults[i], Where(b.payments, PaymentVault, i), Where(b.revenues, RevenueVault, i),
         Where(b.repayments, RepaymentVault, i))
  }

  function Paid(f: File): int { Sum(f.payments, PaymentAmount) }

  function Received(f: File): int { Sum(f.revenues, RevenueAmount) }

  /** What the waterfall has allocated if all revenue so far had arrived at once. */
  function Allocated(f: File): W.Course {
    W.Totals(W.Repayment(Received(f), f.vault.totalLimit, U.Fee(f.vault.totalLimit), 0))
  }

  /** Facts about every vault, whatever its status. */
  ghost predicate Funded(f: File) {
    var v := f.vault;
    && v.totalLimit > 0 && v.dailyLimit == v.totalLimit && v.maxTransactions == 100
    && (forall p :: p in f.payments ==> p.amount > 0)
    && (forall r :: r in f.revenues ==> r.amount > 0)
    && Received(f) >= 0
    && 0 <= Paid(f) <= v.totalLimit && v.transactionCount == |f.payments| <= 100
  }

  /** Funded and not yet settled: the whole limit and fee are owed. */
  ghost predicate Open(f: File) {
    var v := f.vault;
    && Live(v.status) && f.revenues == [] && f.repayments == []
    && v.principal == v.totalLimit && v.feeDue == U.Fee(v.totalLimit)
    && v.reserveDrawn == 0 && v.spent == Paid(f)
  }

  /** Settling through revenue: the columns and repayment rows depend only on the total received. */
  ghost predicate Repaying(f: File) {
    var v, c := f.vault, Allocated(f);
    && f.revenues != [] && |f.repayments| == |f.revenues|
    && (forall r :: r in f.repayments ==> r.kind == WaterfallRun && r.reserve == 0 && r.loss == 0)
    && v.principal == v.totalLimit - c.principal && v.feeDue == U.Fee(v.totalLimit) - c.fee
    && Sum(f.repayments, PrincipalPaid) == c.principal && Sum(f.repayments, FeePaid) == c.fee
    && Sum(f.repayments, OwnerPaid) == c.owner
    && (forall k :: 0 <= k < |f.repayments| - 1 ==> f.repayments[k].owner == 0)
    && (v.principal + v.feeDue > 0 ==> f.repayments[|f.repayments| - 1].owner == 0)
    && |f.revenues| <= c.principal + c.fee
    && v.reserveDrawn == 0 && v.spent == Paid(f)
    && v.status in {PartiallyRepaid, Repaid, Closed}
    && (v.status == PartiallyRepaid ==> v.principal + v.feeDue > 0)
    && (v.status == Repaid ==> v.principal == v.feeDue == 0)
  }

  /** Settled by the recovery waterfall: sweep, capped draw and loss add up to the limit. */
  ghost predicate Recovered(f: File) {
    var v := f.vault;
    && f.revenues == [] && |f.repayments| == 1
    && var r := f.repayments[0];
      && r.kind == RecoveryRun && r.fee == r.owner == 0
      && r.principal == v.totalLimit - Paid(f) && r.reserve + r.loss == Paid(f)
      && 0 <= r.reserve && 0 <= r.loss
      && v.principal == v.feeDue == 0 && v.reserveDrawn == r.reserve && v.spent == v.totalLimit
      && v.status in {Repaid, Defaulted, Closed}
      && (v.status == Defaulted ==> r.loss > 0) && (v.status == Repaid ==> r.loss == 0)
  }

  ghost predicate Sound(f: File) { Funded(f) && (Open(f) || Repaying(f) || Recovered(f)) }

  // ----- Steps of one file -----

  lemma SoundNew(v: Vault)
    requires v.totalLimit > 0 && v.dailyLimit == v.totalLimit && v.maxTransactions == 100
    requires v.status == Active && v.spent == 0 && v.transactionCount == 0 && v.reserveDrawn == 0
    requires v.principal == v.totalLimit && v.feeDue == U.Fee(v.totalLimit)
    ensures Sound(File(v, [], [], []))
  {
  }

  lemma SoundStatus(f: File, status: VaultStatus)
    requires Sound(f)
    requires (Live(f.vault.status) && Live(status))
          || (status == Closed && Closed in VaultTargets(f.vault.status))
    ensures Sound(f.(vault := f.vault.(status := status)))
  {
    var g := f.(vault := f.vault.(status := status));
    assert Allocated(g) == Allocated(f) && Paid(g) == Paid(f) && Received(g) == Received(f);
  }

  lemma SoundPay(f: File, p: Payment, v': Vault)
    requires Sound(f) && Spendable(f.vault.status)
    requires 0 < p.amount && f.vault.spent + p.amount <= f.vault.totalLimit
    requires f.vault.transactionCount < f.vault.maxTransactions
    requires v' == f.vault.(spent := f.vault.spent + p.amount, transactionCount := f.vault.transactionCount + 1,
                            status := if f.vault.status == Active then Spending else f.vault.status)
    ensures Sound(File(v', f.payments + [p], f.revenues, f.repayments))
  {
    SumAppend(f.payments, p, PaymentAmount);
    var g := File(v', f.payments + [p], f.revenues, f.repayments);
    assert Open(f);
    assert Paid(g) == Paid(f) + p.amount;
    assert Received(g) == Received(f);
  }

  lemma FeeNonNegative(limit: int)
    requires limit > 0
    ensures U.Fee(limit) >= 0 && U.Fee(limit) == limit / 20
  {
  }

  /** Where revenue can be collected, something is still owed and the owner has had nothing. */
  lemma CollectingOwes(f: File, completed: bool)
    requires Sound(f) && Collecting(f.vault.status, completed).Some?
    ensures f.vault.principal + f.vault.feeDue > 0
    ensures f.vault.principal == f.vault.totalLimit - Allocated(f).principal
    ensures f.vault.feeDue == U.Fee(f.vault.totalLimit) - Allocated(f).fee
    ensures Allocated(f).owner == 0 && f.vault.reserveDrawn == 0 && f.vault.spent == Paid(f)
    ensures 0 <= f.vault.principal && 0 <= f.vault.feeDue
    ensures Open(f) || (Repaying(f) && f.vault.status == PartiallyRepaid)
  {
    FeeNonNegative(f.vault.totalLimit);
    assert !Recovered(f);
  }

  lemma {:induction false} NoOwnerYet(rows: seq<Repayment>)
    requires forall r :: r in rows ==> r.owner == 0
    ensures Sum(rows, OwnerPaid) == 0
  {
    if rows != [] {
      NoOwnerYet(rows[..|rows| - 1]);
    }
  }

  lemma SoundCollect(f: File, completed: bool, rev: Revenue, w: W.RepaymentResult, rep: Repayment, v': Vault)
    requires Sound(f) && Collecting(f.vault.status, completed).Some?
    requires rev.amount > 0
    requires w == W.Repayment(rev.amount, f.vault.principal, f.vault.feeDue, f.vault.reserveDrawn)
    requires v' == f.vault.(principal := w.principalOutstanding, feeDue := w.feeOutstanding,
                            reserveDrawn := f.vault.reserveDrawn - w.reserveReplenished, status := Settled(w))
    requires rep.kind == WaterfallRun && rep.principal == w.principalRepaid && rep.fee == w.feePaid
    requires rep.reserve == w.reserveReplenished && rep.owner == w.ownerReleased && rep.loss == 0
    ensures Sound(File(v', f.payments, f.revenues + [rev], f.repayments + [rep]))
    ensures Repaying(File(v', f.payments, f.revenues + [rev], f.repayments + [rep]))
    ensures w.principalRepaid + w.feePaid > 0
    ensures w.ownerReleased > 0 ==> v'.status == Repaid
  {
    var g := File(v', f.payments, f.revenues + [rev], f.repayments + [rep]);
    CollectingOwes(f, completed);
    FeeNonNegative(f.vault.totalLimit);
    SumAppend(f.repayments, rep, PrincipalPaid);
    SumAppend(f.repayments, rep, FeePaid);
    SumAppend(f.repayments, rep, OwnerPaid);
    CollectNumbers(rev.amount, f.vault.principal, f.vault.feeDue);
    CollectCourse(f, rev, w, v', g);
    FundedCollect(f, rev, g);
    EarlierOwner(f, completed);
    assert forall k :: 0 <= k < |g.repayments| - 1 ==> g.repayments[k] == f.repayments[k];
    assert g.repayments[|g.repayments| - 1] == rep;
  }

  lemma FundedCollect(f: File, rev: Revenue, g: File)
    requires Funded(f) && rev.amount > 0 && g.payments == f.payments && g.revenues == f.revenues + [rev]
    requires g.vault.totalLimit == f.vault.totalLimit && g.vault.dailyLimit == f.vault.dailyLimit
    requires g.vault.maxTransactions == f.vault.maxTransactions && g.vault.transactionCount == f.vault.transactionCount
    ensures Funded(g) && Paid(g) == Paid(f)
  {
    SumAppend(f.revenues, rev, RevenueAmount);
  }

  /** A positive revenue against a positive debt lowers it, and reaches the owner only by clearing it. */
  lemma CollectNumbers(amount: int, principal: nat, fee: nat)
    requires amount > 0 && principal + fee > 0
    ensures var w := W.Repayment(amount, principal, fee, 0);
      && w.principalRepaid >= 0 && w.feePaid >= 0 && w.principalRepaid + w.feePaid > 0
      && w.principalOutstanding >= 0 && w.feeOutstanding >= 0 && w.reserveReplenished == 0 <= w.ownerReleased
      && w.principalOutstanding == principal - w.principalRepaid && w.feeOutstanding == fee - w.feePaid
      && (w.ownerReleased > 0 ==> w.principalOutstanding == w.feeOutstanding == 0)
  {
    W.RepaymentConserves(amount, principal, fee, 0);
  }

  lemma EarlierOwner(f: File, completed: bool)
    requires Sound(f) && Collecting(f.vault.status, completed).Some?
    ensures |f.repayments| == |f.revenues|
    ensures forall k :: 0 <= k < |f.repayments| ==> f.repayments[k].owner == 0
    ensures forall r :: r in f.repayments ==> r.kind == WaterfallRun && r.reserve == 0 && r.loss == 0
    ensures Sum(f.repayments, PrincipalPaid) == Allocated(f).principal
    ensures Sum(f.repayments, FeePaid) == Allocated(f).fee
    ensures Sum(f.repayments, OwnerPaid) == Allocated(f).owner
    ensures |f.revenues| <= Allocated(f).principal + Allocated(f).fee
  {
    CollectingOwes(f, completed);
    FeeNonNegative(f.vault.totalLimit);
    if Open(f) {
    } else {
      forall k | 0 <= k < |f.repayments| ensures f.repayments[k].owner == 0 {
        assert f.repayments[k] in f.repayments;
      }
    }
  }

  lemma CollectCourse(f: File, rev: Revenue, w: W.RepaymentResult, v': Vault, g: File)
    requires f.vault.totalLimit > 0 && Received(f) >= 0 && rev.amount > 0
    requires f.vault.principal == f.vault.totalLimit - Allocated(f).principal
    requires f.vault.feeDue == U.Fee(f.vault.totalLimit) - Allocated(f).fee
    requires f.vault.reserveDrawn == 0 == Allocated(f).reserve
    requires w == W.Repayment(rev.amount, f.vault.principal, f.vault.feeDue, 0)
    requires v'.totalLimit == f.vault.totalLimit
    requires g.vault == v' && g.revenues == f.revenues + [rev]
    ensures Received(g) == Received(f) + rev.amount
    ensures Allocated(g).principal == Allocated(f).principal + w.principalRepaid
    ensures Allocated(g).fee == Allocated(f).fee + w.feePaid
    ensures Allocated(g).owner == Allocated(f).owner + w.ownerReleased
    ensures Allocated(g).reserve == 0 == w.reserveReplenished
  {
    SumAppend(f.revenues, rev, RevenueAmount);
    FeeNonNegative(f.vault.totalLimit);
    CourseStep(Received(f), rev.amount, f.vault.totalLimit, U.Fee(f.vault.totalLimit));
  }

  /** One more revenue, run over what the ones before it left owing. */
  lemma CourseStep(earlier: nat, amount: nat, limit: nat, fee: nat)
    ensures var c, d := W.Totals(W.Repayment(earlier, limit, fee, 0)),
                        W.Totals(W.Repayment(earlier + amount, limit, fee, 0));
      var w := W.Repayment(amount, limit - c.principal, fee - c.fee, 0);
      && d.principal == c.principal + w.principalRepaid && d.fee == c.fee + w.feePaid
      && d.owner == c.owner + w.ownerReleased && d.reserve == 0 == w.reserveReplenished && c.reserve == 0
  {
    W.TwoPayments(earlier, amount, limit, fee, 0);
  }

  /** Recovery of an open vault: the unspent balance is swept whole, the spent part is drawn
      from the reserve up to its cap, and only what is left is a loss. */
  lemma RecoveryOfOpen(f: File, cap: nat)
    requires Sound(f) && Open(f)
    ensures var w := W.Recovery(f.vault.principal, f.vault.totalLimit - f.vault.spent, 0, cap, cap);
      && w.swept == f.vault.totalLimit - f.vault.spent
      && w.reserveDrawn == Min(f.vault.spent, cap)
      && w.loss == Max(0, f.vault.spent - cap)
      && w.swept + w.reserveDrawn + w.loss == f.vault.totalLimit > 0
  {
  }

  lemma SoundRecover(f: File, cap: nat, w: W.RecoveryResult, rep: Repayment, v': Vault)
    requires Sound(f) && Open(f)
    requires w == W.Recovery(f.vault.principal, f.vault.totalLimit - f.vault.spent, 0, cap, cap)
    requires v' == f.vault.(principal := 0, feeDue := 0, reserveDrawn := f.vault.reserveDrawn + w.reserveDrawn,
                            spent := f.vault.totalLimit, status := if w.loss > 0 then Defaulted else Repaid)
    requires rep.kind == RecoveryRun && rep.principal == w.swept && rep.fee == rep.owner == 0
    requires rep.reserve == w.reserveDrawn && rep.loss == w.loss
    ensures Sound(File(v', f.payments, f.revenues, f.repayments + [rep]))
    ensures Recovered(File(v', f.payments, f.revenues, f.repayments + [rep]))
  {
    RecoveryOfOpen(f, cap);
    var g := File(v', f.payments, f.revenues, f.repayments + [rep]);
    assert g.repayments[0] == rep;
    assert Paid(g) == Paid(f) && Received(g) == Received(f);
  }
}
