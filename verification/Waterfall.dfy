/** Repayment and recovery waterfalls (credence/vault/waterfall.py), the independent
    recomputation of scripts/verify_financial_identity.py, and their laws. */
module Waterfall {
  import opened Tables

  /** The steps of an allocation as stored; no waterfall writes an OtherStep. */
  datatype Step =
    | RepayPrincipal | PayFee | ReplenishReserve | ReleaseToOwner
    | SweepUnspent | ApplyRevenue | DrawReserveCapped | SimulatedLoss
    | OtherStep(name: string)

  datatype Allocation = Allocation(step: Step, amount: int)

  datatype RepaymentResult = RepaymentResult(
    allocations: seq<Allocation>,
    principalRepaid: int, feePaid: int, reserveReplenished: int, ownerReleased: int,
    principalOutstanding: int, feeOutstanding: int)

  datatype RecoveryResult = RecoveryResult(
    steps: seq<Allocation>,
    swept: int, revenueApplied: int, reserveDrawn: int, loss: int, recoveredTotal: int)

  /** The part of `amount` that reaches a claim of size `claim` standing behind claims
      worth `senior`: what water reaches this level of the fall. */
  function Level(amount: int, senior: int, claim: int): int {
    Min(Max(amount - senior, 0), claim)
  }

  function Line(step: Step, amount: int): seq<Allocation> {
    if amount != 0 then [Allocation(step, amount)] else []
  }

  function Amount(a: Allocation): int { a.amount }

  /** The allocation of `revenue` over principal, fee, reserve and owner, each level
      given in closed form by the claims that stand before it. */
  function Repayment(revenue: int, principal: int, fee: int, reserve: int): RepaymentResult {
    var p := Level(revenue, 0, principal);
    var f := Level(revenue, principal, fee);
    var d := Level(revenue, principal + fee, reserve);
    var o := Max(revenue - (principal + fee + reserve), 0);
    RepaymentResult(
      Line(RepayPrincipal, p) + Line(PayFee, f) + Line(ReplenishReserve, d) + Line(ReleaseToOwner, o),
      p, f, d, o, principal - p, fee - f)
  }

  /** The covering of `owed` by sweep, revenue and capped reserve, and the rest as loss. */
  function Recovery(owed: int, unspent: int, revenue: int, available: int, cap: int): RecoveryResult {
    var reserve := Min(available, cap);
    var s := Level(owed, 0, unspent);
    var r := Level(owed, unspent, revenue);
    var d := Level(owed, unspent + revenue, reserve);
    var l := Max(owed - (unspent + revenue + reserve), 0);
    RecoveryResult(
      Line(SweepUnspent, s) + Line(ApplyRevenue, r) + Line(DrawReserveCapped, d) + Line(SimulatedLoss, l),
      s, r, d, l, s + r + d)
  }

  /** `run_repayment_waterfall`; None is the NegativeAmountError of a negative input. */
  method RunRepaymentWaterfall(revenue: int, principal: int, fee: int, reserve: int)
    returns (r: Option<RepaymentResult>)
    ensures r.None? <==> revenue < 0 || principal < 0 || fee < 0 || reserve < 0
    ensures r.Some? ==> r.value == Repayment(revenue, principal, fee, reserve)
  {
    if revenue < 0 || principal < 0 || fee < 0 || reserve < 0 {
      return None;
    }
    var remaining := revenue;
    var allocations: seq<Allocation> := [];

    var principalPay := Min(remaining, principal);
    if principalPay != 0 {
      allocations := allocations + [Allocation(RepayPrincipal, principalPay)];
    }
    remaining := remaining - principalPay;
    assert allocations == Line(RepayPrincipal, principalPay);
    assert principalPay == Level(revenue, 0, principal) && remaining == Max(revenue - principal, 0);

    var feePay := Min(remaining, fee);
    if feePay != 0 {
      allocations := allocations + [Allocation(PayFee, feePay)];
    }
    remaining := remaining - feePay;
    assert allocations == Line(RepayPrincipal, principalPay) + Line(PayFee, feePay);
    assert feePay == Level(revenue, principal, fee) && remaining == Max(revenue - (principal + fee), 0);

    var reservePay := Min(remaining, reserve);
    if reservePay != 0 {
      allocations := allocations + [Allocation(ReplenishReserve, reservePay)];
    }
    remaining := remaining - reservePay;
    assert allocations ==
      Line(RepayPrincipal, principalPay) + Line(PayFee, feePay) + Line(ReplenishReserve, reservePay);
    assert reservePay == Level(revenue, principal + fee, reserve);

    if remaining != 0 {
      allocations := allocations + [Allocation(ReleaseToOwner, remaining)];
    }
    r := Some(RepaymentResult(allocations, principalPay, feePay, reservePay, remaining,
                              principal - principalPay, fee - feePay));
  }

  /** `run_recovery_waterfall`. */
  method RunRecoveryWaterfall(amountOwed: int, unspent: int, revenue: int, available: int, cap: int)
    returns (r: Option<RecoveryResult>)
    ensures r.None? <==> amountOwed < 0 || unspent < 0 || revenue < 0 || available < 0 || cap < 0
    ensures r.Some? ==> r.value == Recovery(amountOwed, unspent, revenue, available, cap)
  {
    if amountOwed < 0 || unspent < 0 || revenue < 0 || available < 0 || cap < 0 {
      return None;
    }
    var owed := amountOwed;
    var steps: seq<Allocation> := [];

    var sweep := Min(owed, unspent);
    if sweep != 0 {
      steps := steps + [Allocation(SweepUnspent, sweep)];
    }
    owed := owed - sweep;
    assert steps == Line(SweepUnspent, sweep);
    assert sweep == Level(amountOwed, 0, unspent) && owed == Max(amountOwed - unspent, 0);

    var applied := Min(owed, revenue);
    if applied != 0 {
      steps := steps + [Allocation(ApplyRevenue, applied)];
    }
    owed := owed - applied;
    assert steps == Line(SweepUnspent, sweep) + Line(ApplyRevenue, applied);
    assert applied == Level(amountOwed, unspent, revenue) && owed == Max(amountOwed - (unspent + revenue), 0);

    var draw := Min(owed, Min(available, cap));
    if draw != 0 {
      steps := steps + [Allocation(DrawReserveCapped, draw)];
    }
    owed := owed - draw;
    assert steps == Line(SweepUnspent, sweep) + Line(ApplyRevenue, applied) + Line(DrawReserveCapped, draw);
    assert draw == Level(amountOwed, unspent + revenue, Min(available, cap));

    if owed != 0 {
      steps := steps + [Allocation(SimulatedLoss, owed)];
    }
    r := Some(RecoveryResult(steps, sweep, applied, draw, owed, sweep + applied + draw));
  }

  /** Conservation and seniority of the repayment waterfall: every unit of revenue is
      allocated exactly once, and a level is reached only when those before it are full. */
  lemma RepaymentConserves(revenue: nat, principal: nat, fee: nat, reserve: nat)
    ensures var r := Repayment(revenue, principal, fee, reserve);
      && r.principalRepaid + r.feePaid + r.reserveReplenished + r.ownerReleased == revenue
      && Sum(r.allocations, Amount) == revenue
      && (forall a :: a in r.allocations ==> a.amount > 0)
      && 0 <= r.principalRepaid <= principal && 0 <= r.feePaid <= fee
      && 0 <= r.reserveReplenished <= reserve && 0 <= r.ownerReleased
      && (r.feePaid > 0 ==> r.principalOutstanding == 0)
      && (r.reserveReplenished > 0 ==> r.principalOutstanding == r.feeOutstanding == 0)
      && (r.ownerReleased > 0 ==> r.principalOutstanding == r.feeOutstanding == 0 && r.reserveReplenished == reserve)
  {
    var r := Repayment(revenue, principal, fee, reserve);
    SumLines(RepayPrincipal, r.principalRepaid, PayFee, r.feePaid,
             ReplenishReserve, r.reserveReplenished, ReleaseToOwner, r.ownerReleased);
  }

  lemma SumLines(a: Step, x: int, b: Step, y: int, c: Step, z: int, d: Step, w: int)
    ensures Sum(Line(a, x) + Line(b, y) + Line(c, z) + Line(d, w), Amount) == x + y + z + w
  {
    SumConcat(Line(a, x) + Line(b, y) + Line(c, z), Line(d, w), Amount);
    SumConcat(Line(a, x) + Line(b, y), Line(c, z), Amount);
    SumConcat(Line(a, x), Line(b, y), Amount);
    SumLine(a, x);
    SumLine(b, y);
    SumLine(c, z);
    SumLine(d, w);
  }

  lemma SumLine(a: Step, x: int)
    ensures Sum(Line(a, x), Amount) == x
  {
    if x != 0 {
      SumAppend([], Allocation(a, x), Amount);
      assert [] + [Allocation(a, x)] == Line(a, x);
    }
  }

  /** The recovery covers the debt exactly once, never draws past the signed cap, and
      records a loss only when everything else is exhausted. */
  lemma RecoveryConserves(owed: nat, unspent: nat, revenue: nat, available: nat, cap: nat)
    ensures var r := Recovery(owed, unspent, revenue, available, cap);
      && r.recoveredTotal + r.loss == owed
      && Sum(r.steps, Amount) == owed
      && (forall a :: a in r.steps ==> a.amount > 0)
      && 0 <= r.swept <= unspent && 0 <= r.revenueApplied <= revenue
      && 0 <= r.reserveDrawn <= Min(available, cap) && 0 <= r.loss <= owed
      && (r.loss > 0 ==> r.swept == unspent && r.revenueApplied == revenue && r.reserveDrawn == Min(available, cap))
  {
    var r := Recovery(owed, unspent, revenue, available, cap);
    SumLines(SweepUnspent, r.swept, ApplyRevenue, r.revenueApplied,
             DrawReserveCapped, r.reserveDrawn, SimulatedLoss, r.loss);
  }

  // ----- Many revenues -----

  /** Cumulative outcome of running the waterfall once per revenue, feeding each run the
      balances the previous one left. */
  datatype Course = Course(principal: int, fee: int, reserve: int, owner: int)

  function Identity(x: int): int { x }

  function Then(c: Course, revenue: int, principal: int, fee: int, reserve: int): Course {
    var r := Repayment(revenue, principal - c.principal, fee - c.fee, reserve - c.reserve);
    Course(c.principal + r.principalRepaid, c.fee + r.feePaid,
           c.reserve + r.reserveReplenished, c.owner + r.ownerReleased)
  }

  function RunAll(revenues: seq<int>, principal: int, fee: int, reserve: int): Course {
    if revenues == [] then Course(0, 0, 0, 0)
    else Then(RunAll(revenues[..|revenues| - 1], principal, fee, reserve),
              revenues[|revenues| - 1], principal, fee, reserve)
  }

  function Totals(r: RepaymentResult): Course {
    Course(r.principalRepaid, r.feePaid, r.reserveReplenished, r.ownerReleased)
  }

  /** One level seen by two payments in a row is that level seen by their sum. */
  lemma LevelSplits(x: nat, y: nat, senior: nat, claim: nat)
    ensures Level(y, senior - Min(x, senior), claim - Level(x, senior, claim))
         == Level(x + y, senior, claim) - Level(x, senior, claim)
  {
  }

  lemma TwoPayments(x: nat, y: nat, principal: nat, fee: nat, reserve: nat)
    ensures Then(Totals(Repayment(x, principal, fee, reserve)), y, principal, fee, reserve)
         == Totals(Repayment(x + y, principal, fee, reserve))
  {
    LevelSplits(x, y, 0, principal);
    LevelSplits(x, y, principal, fee);
    LevelSplits(x, y, principal + fee, reserve);
  }

  /** Path independence: however a total is split into revenues, and in whatever order
      they arrive, the cumulative allocation is that of the total paid at once. */
  lemma {:induction false} PathIndependence(revenues: seq<int>, principal: nat, fee: nat, reserve: nat)
    requires forall x :: x in revenues ==> x >= 0
    ensures Sum(revenues, Identity) >= 0
    ensures RunAll(revenues, principal, fee, reserve)
         == Totals(Repayment(Sum(revenues, Identity), principal, fee, reserve))
  {
    if revenues != [] {
      var earlier, last := revenues[..|revenues| - 1], revenues[|revenues| - 1];
      assert last in revenues;
      assert forall x :: x in earlier ==> x in revenues;
      PathIndependence(earlier, principal, fee, reserve);
      TwoPayments(Sum(earlier, Identity), last, principal, fee, reserve);
    }
  }

  // ----- The second implementation -----

  datatype Repaid = Repaid(principal: int, fee: int, reserve: int, owner: int,
                           principalOutstanding: int, feeOutstanding: int)

  datatype Recovered = Recovered(swept: int, revenueApplied: int, reserveDrawn: int, loss: int, recovered: int)

  /** `repay`; None is its ValueError. */
  method Repay(revenue: int, principal: int, fee: int, reserveDrawn: int) returns (r: Option<Repaid>)
    ensures r.None? <==> revenue < 0 || principal < 0 || fee < 0 || reserveDrawn < 0
    ensures r.Some? ==> r.value == OfRepayment(Repayment(revenue, principal, fee, reserveDrawn))
  {
    if revenue < 0 || principal < 0 || fee < 0 || reserveDrawn < 0 {
      return None;
    }
    var left := revenue;
    var toPrincipal := if left >= principal then principal else left;
    left := left - toPrincipal;
    var toFee := if left >= fee then fee else left;
    left := left - toFee;
    var toReserve := if left >= reserveDrawn then reserveDrawn else left;
    left := left - toReserve;
    r := Some(Repaid(toPrincipal, toFee, toReserve, left, principal - toPrincipal, fee - toFee));
  }

  /** `recover`. */
  method Recover(owed: int, unspent: int, revenueReceived: int, available: int, cap: int)
    returns (r: Option<Recovered>)
    ensures r.None? <==> owed < 0 || unspent < 0 || revenueReceived < 0 || available < 0 || cap < 0
    ensures r.Some? ==> r.value == OfRecovery(Recovery(owed, unspent, revenueReceived, available, cap))
  {
    if owed < 0 || unspent < 0 || revenueReceived < 0 || available < 0 || cap < 0 {
      return None;
    }
    var left := owed;
    var swept := if left >= unspent then unspent else left;
    left := left - swept;
    assert swept == Level(owed, 0, unspent) && left == Max(owed - unspent, 0);
    var applied := if left >= revenueReceived then revenueReceived else left;
    left := left - applied;
    assert applied == Level(owed, unspent, revenueReceived) && left == Max(owed - (unspent + revenueReceived), 0);
    var ceiling := if available <= cap then available else cap;
    var drawn := if left >= ceiling then ceiling else left;
    left := left - drawn;
    r := Some(Recovered(swept, applied, drawn, left, swept + applied + drawn));
  }

  function OfRepayment(r: RepaymentResult): Repaid {
    Repaid(r.principalRepaid, r.feePaid, r.reserveReplenished, r.ownerReleased,
           r.principalOutstanding, r.feeOutstanding)
  }

  function OfRecovery(r: RecoveryResult): Recovered {
    Recovered(r.swept, r.revenueApplied, r.reserveDrawn, r.loss, r.recoveredTotal)
  }

  datatype Trial = Trial(a: nat, b: nat, c: nat, d: nat, e: nat)

  /** The repayment loop of `cross_check_against_production`: on any list of trials the
      two implementations never disagree and conservation never fails. */
  method CrossCheckRepayments(trials: seq<Trial>) returns (mismatches: int)
    ensures mismatches == 0
  {
    mismatches := 0;
    for i := 0 to |trials|
      invariant mismatches == 0
    {
      var t := trials[i];
      var mine := Repay(t.a, t.b, t.c, t.d);
      var theirs := RunRepaymentWaterfall(t.a, t.b, t.c, t.d);
      if mine.value != OfRepayment(theirs.value) {
        mismatches := mismatches + 1;
      }
      var r := theirs.value;
      if r.principalRepaid + r.feePaid + r.reserveReplenished + r.ownerReleased != t.a {
        mismatches := mismatches + 1;
      }
    }
  }

  /** The recovery loop of `cross_check_against_production`. */
  method CrossCheckRecoveries(trials: seq<Trial>) returns (mismatches: int)
    ensures mismatches == 0
  {
    mismatches := 0;
    for i := 0 to |trials|
      invariant mismatches == 0
    {
      var t := trials[i];
      var mine := Recover(t.a, t.b, t.c, t.d, t.e);
      var theirs := RunRecoveryWaterfall(t.a, t.b, t.c, t.d, t.e);
      if mine.value != OfRecovery(theirs.value) {
        mismatches := mismatches + 1;
      }
      if theirs.value.recoveredTotal + theirs.value.loss != t.a {
        mismatches := mismatches + 1;
      }
      if theirs.value.reserveDrawn > t.e {
        mismatches := mismatches + 1;
      }
    }
  }
}
