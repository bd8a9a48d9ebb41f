/** Deterministic underwriting: credence/underwriting/scorecard.py and decision.py, and the
    injection-flag corroboration of credence/services/credit.py. */
module Underwriting {
  import opened Tables

  const PPM := 1_000_000
  const BASE_PD_PPM := 120_000
  const MIN_PD_PPM := 5_000
  const MAX_PD_PPM := 950_000
  const ADVANCE_RATE_PPM := 700_000
  const LGD_PPM := 550_000
  const AUTO_APPROVE_MAX_EL_RATIO_PPM := 60_000
  const AUTO_APPROVE_MAX_PD_PPM := 350_000
  const FEE_RATE_PPM := 50_000

  const INJECTION_FLAG := "instruction_in_evidence"
  const UNCORROBORATED_INJECTION_FLAG := "instruction_in_evidence_uncorroborated"

  datatype Features = Features(
    tasksTotal: int, tasksSucceeded: int, successRate: int,
    repaymentsTotal: int, repaidInFull: int, repaymentRate: int,
    defaulted: int, outstanding: int, violations: int, blocked: int, ageDays: int, firstCredit: bool)

  datatype Factor =
    | FirstCreditNoHistory | StrongTaskSuccess | StrongRepaymentHistory | PriorDefaultLoss
    | PolicyViolations | BlockedSpendAttempts | NewIdentity | StrongRevenueCoverage | RevenueBelowPrincipal

  // ----- Scorecard -----

  predicate Applies(x: Factor, f: Features, coverage: int) {
    match x
    case FirstCreditNoHistory => f.firstCredit
    case StrongTaskSuccess => !f.firstCredit && f.successRate >= 800_000
    case StrongRepaymentHistory => !f.firstCredit && f.repaymentRate >= 800_000
    case PriorDefaultLoss => f.defaulted > 0
    case PolicyViolations => f.violations != 0
    case BlockedSpendAttempts => f.blocked != 0
    case NewIdentity => f.ageDays < 7
    case StrongRevenueCoverage => coverage >= 1_500_000
    case RevenueBelowPrincipal => coverage < PPM
  }

  function HistoryDelta(f: Features): int {
    if f.firstCredit then 80_000
    else -((60_000 * f.successRate) / PPM) - (50_000 * f.repaymentRate) / PPM
  }

  function ConductDelta(f: Features): int {
    (if f.defaulted > 0 then 150_000 else 0)
    + Min(f.violations, 5) * 30_000 + Min(f.blocked, 5) * 20_000
    + if f.ageDays < 7 then 40_000 else 0
  }

  function CoverageDelta(coverage: int): int {
    if coverage >= 1_500_000 then -40_000 else if coverage < PPM then 120_000 else 0
  }

  function Pd(f: Features, coverage: int): int {
    Max(MIN_PD_PPM, Min(MAX_PD_PPM, BASE_PD_PPM + HistoryDelta(f) + ConductDelta(f) + CoverageDelta(coverage)))
  }

  /** `score_pd_ppm`: accumulates the probability of default factor by factor. */
  method ScorePd(f: Features, coverage: int) returns (pd: int, factors: seq<Factor>)
    ensures pd == Pd(f, coverage) && MIN_PD_PPM <= pd <= MAX_PD_PPM
    ensures forall x :: x in factors <==> Applies(x, f, coverage)
  {
    pd, factors := BASE_PD_PPM, [];
    if f.firstCredit {
      pd := pd + 80_000;
      factors := factors + [FirstCreditNoHistory];
    } else {
      pd := pd - (60_000 * f.successRate) / PPM;
      if f.successRate >= 800_000 {
        factors := factors + [StrongTaskSuccess];
      }
      pd := pd - (50_000 * f.repaymentRate) / PPM;
      if f.repaymentRate >= 800_000 {
        factors := factors + [StrongRepaymentHistory];
      }
    }
    assert pd == BASE_PD_PPM + HistoryDelta(f);

    var conduct;
    pd, conduct := ScoreConduct(f, pd);
    factors := factors + conduct;
    assert pd == BASE_PD_PPM + HistoryDelta(f) + ConductDelta(f);

    if coverage >= 1_500_000 {
      pd := pd - 40_000;
      factors := factors + [StrongRevenueCoverage];
    } else if coverage < PPM {
      pd := pd + 120_000;
      factors := factors + [RevenueBelowPrincipal];
    }
    pd := Max(MIN_PD_PPM, Min(MAX_PD_PPM, pd));
  }

  predicate AboutConduct(x: Factor) {
    x.PriorDefaultLoss? || x.PolicyViolations? || x.BlockedSpendAttempts? || x.NewIdentity?
  }

  /** The conduct part of the score: losses, violations, blocked spends and a new identity. */
  method ScoreConduct(f: Features, base: int) returns (pd: int, factors: seq<Factor>)
    ensures pd == base + ConductDelta(f)
    ensures forall x :: x in factors <==> AboutConduct(x) && Applies(x, f, 0)
  {
    pd, factors := base, [];
    if f.defaulted > 0 {
      pd := pd + 150_000;
      factors := factors + [PriorDefaultLoss];
    }
    pd := pd + Min(f.violations, 5) * 30_000;
    if f.violations != 0 {
      factors := factors + [PolicyViolations];
    }
    pd := pd + Min(f.blocked, 5) * 20_000;
    if f.blocked != 0 {
      factors := factors + [BlockedSpendAttempts];
    }
    if f.ageDays < 7 {
      pd := pd + 40_000;
      factors := factors + [NewIdentity];
    }
  }

  // ----- Decision -----

  datatype Verdict = Approve | Review | Reject

  datatype ReasonCode =
    | NoLendableAmount | MandateMissing | AiChecksUnavailable | InjectionSuspected
    | InjectionUncorroborated | FirstCredit | PdAboveThreshold | ExpectedLossAboveThreshold

  datatype Caps = Caps(requested: int, exposure: int, advance: int, cost: int, policy: int)

  datatype DecisionInputs = DecisionInputs(
    requested: int, ownerCap: int, outstanding: int, revenue: int, cost: int, passportMax: int,
    features: Features, mandateValid: bool, aiAvailable: bool, flags: seq<string>)

  datatype DecisionResult = DecisionResult(
    verdict: Verdict, approvedLimit: int, pd: int, ead: int, expectedLoss: int, fee: int,
    caps: Caps, reasons: seq<ReasonCode>, factors: seq<Factor>)

  function CapsOf(i: DecisionInputs): Caps {
    Caps(i.requested, Max(0, i.ownerCap - i.outstanding), (i.revenue * ADVANCE_RATE_PPM) / PPM, i.cost, i.passportMax)
  }

  function Least(c: Caps): int { Min(c.requested, Min(c.exposure, Min(c.advance, Min(c.cost, c.policy)))) }

  predicate Within(limit: int, c: Caps) {
    limit <= c.requested && limit <= c.exposure && limit <= c.advance && limit <= c.cost && limit <= c.policy
  }

  function Limit(i: DecisionInputs): int { Least(CapsOf(i)) }

  function Coverage(i: DecisionInputs): int {
    if i.requested > 0 then (i.revenue * PPM) / i.requested else 0
  }

  function PdOf(i: DecisionInputs): int { Pd(i.features, Coverage(i)) }

  function ExpectedLoss(pd: int, limit: int): int { (pd * LGD_PPM * limit) / (PPM * PPM) }

  /** The expected-loss gate of the decision, for a positive limit. */
  predicate LossGate(pd: int, limit: int)
    requires limit > 0
  {
    (ExpectedLoss(pd, limit) * PPM) / limit > AUTO_APPROVE_MAX_EL_RATIO_PPM
  }

  /** When a reason code asks for review of a positive limit. */
  predicate Gate(r: ReasonCode, i: DecisionInputs, pd: int, limit: int)
    requires limit > 0
  {
    match r
    case NoLendableAmount => false
    case MandateMissing => !i.mandateValid
    case AiChecksUnavailable => !i.aiAvailable
    case InjectionSuspected => INJECTION_FLAG in i.flags
    case InjectionUncorroborated => UNCORROBORATED_INJECTION_FLAG in i.flags
    case FirstCredit => i.features.firstCredit
    case PdAboveThreshold => pd > AUTO_APPROVE_MAX_PD_PPM
    case ExpectedLossAboveThreshold => LossGate(pd, limit)
  }

  /** When a reason code is due. */
  predicate Holds(r: ReasonCode, i: DecisionInputs) {
    if Limit(i) <= 0 then r == NoLendableAmount else Gate(r, i, PdOf(i), Limit(i))
  }

  /** Rejected when nothing can be lent, approved when no reason speaks against it. */
  ghost function VerdictOf(i: DecisionInputs): Verdict {
    if Limit(i) <= 0 then Reject
    else if exists r :: Holds(r, i) then Review
    else Approve
  }

  lemma ReasonsDecide(i: DecisionInputs, reasons: seq<ReasonCode>)
    requires forall r :: r in reasons <==> Holds(r, i)
    ensures VerdictOf(i) == if Limit(i) <= 0 then Reject else if reasons == [] then Approve else Review
  {
    if reasons != [] {
      assert reasons[0] in reasons;
    }
  }

  function Fee(limit: int): int { (limit * FEE_RATE_PPM) / PPM }

  /** `decide`. */
  method Decide(i: DecisionInputs) returns (d: DecisionResult)
    ensures d.verdict == VerdictOf(i)
    ensures d.approvedLimit == if Limit(i) <= 0 then 0 else Limit(i)
    ensures d.pd == PdOf(i) && d.ead == Limit(i) && d.expectedLoss == ExpectedLoss(d.pd, d.ead)
    ensures d.fee == Fee(Limit(i)) && d.caps == CapsOf(i)
    ensures forall r :: r in d.reasons <==> Holds(r, i)
    ensures forall x :: x in d.factors <==> Applies(x, i.features, Coverage(i))
  {
    var reasons: seq<ReasonCode> := [];
    var exposure := Max(0, i.ownerCap - i.outstanding);
    var advance := (i.revenue * ADVANCE_RATE_PPM) / PPM;
    var caps := Caps(i.requested, exposure, advance, i.cost, i.passportMax);
    var limit := Least(caps);
    var coverage := if i.requested > 0 then (i.revenue * PPM) / i.requested else 0;
    var pd, factors := ScorePd(i.features, coverage);
    var loss := ExpectedLoss(pd, limit);
    var fee := Fee(limit);

    var verdict;
    if limit <= 0 {
      reasons := reasons + [NoLendableAmount];
      verdict := Reject;
    } else {
      verdict, reasons := ReviewGates(i, pd, limit, loss);
    }
    ReasonsDecide(i, reasons);
    d := DecisionResult(verdict, if verdict != Reject then limit else 0, pd, limit, loss, fee, caps, reasons, factors);
  }

  /** The review triggers of `decide`: they fail toward review, not approval. */
  method ReviewGates(i: DecisionInputs, pd: int, limit: int, loss: int)
    returns (verdict: Verdict, reasons: seq<ReasonCode>)
    requires limit > 0 && loss == ExpectedLoss(pd, limit)
    ensures forall r :: r in reasons <==> Gate(r, i, pd, limit)
    ensures verdict == if reasons == [] then Approve else Review
  {
    reasons := [];
    verdict := Approve;
    if !i.mandateValid {
      verdict := Review;
      reasons := reasons + [MandateMissing];
    }
    if !i.aiAvailable {
      verdict := Review;
      reasons := reasons + [AiChecksUnavailable];
    }
    if INJECTION_FLAG in i.flags {
      verdict := Review;
      reasons := reasons + [InjectionSuspected];
    }
    if UNCORROBORATED_INJECTION_FLAG in i.flags {
      verdict := Review;
      reasons := reasons + [InjectionUncorroborated];
    }
    if i.features.firstCredit {
      verdict := Review;
      reasons := reasons + [FirstCredit];
    }
    assert verdict == (if reasons == [] then Approve else Review);
    if pd > AUTO_APPROVE_MAX_PD_PPM {
      verdict := Review;
      reasons := reasons + [PdAboveThreshold];
    }
    if (loss * PPM) / limit > AUTO_APPROVE_MAX_EL_RATIO_PPM {
      verdict := Review;
      reasons := reasons + [ExpectedLossAboveThreshold];
    }
  }

  // ----- Advisory model -----

  function Uncorroborated(flag: string): string {
    if flag == INJECTION_FLAG then UNCORROBORATED_INJECTION_FLAG else flag
  }

  /** `_corroborate_injection_flag`, given whether a deterministic pattern matched. */
  function Corroborate(flags: seq<string>, matched: bool): (r: seq<string>)
    ensures |r| == |flags|
  {
    if INJECTION_FLAG !in flags || matched then flags
    else seq(|flags|, k requires 0 <= k < |flags| => Uncorroborated(flags[k]))
  }

  lemma FlagsDiffer()
    ensures INJECTION_FLAG != UNCORROBORATED_INJECTION_FLAG
  {
    assert |INJECTION_FLAG| != |UNCORROBORATED_INJECTION_FLAG|;
  }

  predicate Flagged(flags: seq<string>) {
    INJECTION_FLAG in flags || UNCORROBORATED_INJECTION_FLAG in flags
  }

  /** Corroboration changes which code is recorded, never whether the evidence is flagged. */
  lemma CorroborationKeepsFlags(flags: seq<string>, matched: bool)
    ensures Flagged(Corroborate(flags, matched)) <==> Flagged(flags)
    ensures !matched ==> INJECTION_FLAG !in Corroborate(flags, matched)
  {
    FlagsDiffer();
    var out := Corroborate(flags, matched);
    if INJECTION_FLAG in flags && !matched {
      var k :| 0 <= k < |flags| && flags[k] == INJECTION_FLAG;
      assert out[k] == UNCORROBORATED_INJECTION_FLAG;
    }
  }

  /** The model is advisory: with everything else fixed, its availability and flags leave caps,
      probability, loss and limit alone and can only exchange APPROVED for review; an
      unavailable or flagging model never yields APPROVED. */
  lemma ModelIsAdvisory(i: DecisionInputs, j: DecisionInputs)
    requires j == i.(aiAvailable := j.aiAvailable, flags := j.flags)
    ensures CapsOf(i) == CapsOf(j) && PdOf(i) == PdOf(j) && Limit(i) == Limit(j)
    ensures VerdictOf(i) == VerdictOf(j) || {VerdictOf(i), VerdictOf(j)} == {Approve, Review}
    ensures VerdictOf(i) == Approve ==> i.aiAvailable && !Flagged(i.flags)
    ensures VerdictOf(j) == Approve && i.aiAvailable && !Flagged(i.flags) ==> VerdictOf(i) == Approve
  {
    if !i.aiAvailable && Limit(i) > 0 { assert Holds(AiChecksUnavailable, i); }
    if INJECTION_FLAG in i.flags && Limit(i) > 0 { assert Holds(InjectionSuspected, i); }
    if UNCORROBORATED_INJECTION_FLAG in i.flags && Limit(i) > 0 { assert Holds(InjectionUncorroborated, i); }
    if VerdictOf(j) == Approve && i.aiAvailable && !Flagged(i.flags) {
      forall r ensures !Holds(r, i) {
        assert !Holds(r, j);
      }
    }
  }

  /** Whether the flag is corroborated moves the reason code, not the decision. */
  lemma CorroborationKeepsVerdict(i: DecisionInputs, flags: seq<string>)
    ensures VerdictOf(i.(flags := Corroborate(flags, true))) == VerdictOf(i.(flags := Corroborate(flags, false)))
  {
    CorroborationKeepsFlags(flags, true);
    CorroborationKeepsFlags(flags, false);
    var a, b := i.(flags := Corroborate(flags, true)), i.(flags := Corroborate(flags, false));
    ModelIsAdvisory(a, b);
    ModelIsAdvisory(b, a);
  }

  // ----- Gate arithmetic -----

  lemma DivisionBound(x: int, y: int, d: int)
    requires d > 0
    ensures x / d > y <==> x >= (y + 1) * d
  {
    var q := x / d;
    assert x == d * q + x % d;
    if q > y {
      ProductMonotone(y + 1, q, d);
    } else {
      ProductMonotone(q, y, d);
      assert (y + 1) * d == y * d + d;
    }
  }

  lemma DivisionMonotone(x: int, y: int, d: int)
    requires d > 0 && x <= y
    ensures x / d <= y / d
  {
    DivisionBound(x, x / d - 1, d);
    DivisionBound(y, x / d - 1, d);
  }

  lemma ProductMonotone(x: int, y: int, z: int)
    requires x <= y && z >= 0
    ensures x * z <= y * z
  {
  }

  lemma MultipleDivides(x: int, d: int)
    requires d > 0
    ensures (x * d) / d == x
  {
    assert (x * d) / d >= x <==> x * d >= x * d by { DivisionBound(x * d, x - 1, d); }
    DivisionBound(x * d, x, d);
    assert (x + 1) * d == x * d + d;
  }

  /** The gate, freed of its second division. */
  lemma GateAsProduct(pd: int, limit: int)
    requires limit > 0
    ensures LossGate(pd, limit) <==> ExpectedLoss(pd, limit) * PPM >= 60_001 * limit
  {
    DivisionBound(ExpectedLoss(pd, limit) * PPM, AUTO_APPROVE_MAX_EL_RATIO_PPM, limit);
  }

  lemma LossBounds(pd: int, limit: int)
    ensures ExpectedLoss(pd, limit) * (PPM * PPM) <= pd * LGD_PPM * limit < (ExpectedLoss(pd, limit) + 1) * (PPM * PPM)
  {
  }

  /** The expected-loss gate can fire for some limit exactly when the probability of
      default exceeds 109,092 ppm: below that no exposure is large enough. */
  lemma LossGateReach(pd: nat)
    ensures (exists limit: int :: limit > 0 && LossGate(pd, limit)) <==> pd > 109_092
  {
    if pd > 109_092 {
      var limit := PPM * PPM;
      assert pd * LGD_PPM * limit == (pd * LGD_PPM) * (PPM * PPM);
      MultipleDivides(pd * LGD_PPM, PPM * PPM);
      GateAsProduct(pd, limit);
      assert LossGate(pd, limit);
    } else {
      forall limit: int | limit > 0 ensures !LossGate(pd, limit) {
        LossBounds(pd, limit);
        GateAsProduct(pd, limit);
        ProductMonotone(pd, 109_092, LGD_PPM * limit);
        assert pd * LGD_PPM * limit == pd * (LGD_PPM * limit);
      }
    }
  }

  /** Above the PD threshold the expected-loss gate fires for every limit of at least 6 minor
      units, and only then: the PD gate decides anything only below 6. */
  lemma PdGateReach(limit: int)
    requires limit > 0
    ensures (forall pd: int :: pd > AUTO_APPROVE_MAX_PD_PPM ==> LossGate(pd, limit)) <==> limit >= 6
  {
    if limit >= 6 {
      forall pd: int | pd > AUTO_APPROVE_MAX_PD_PPM ensures LossGate(pd, limit) {
        GateAsProduct(pd, limit);
        LossBounds(pd, limit);
        ProductMonotone(350_001, pd, LGD_PPM * limit);
        assert pd * LGD_PPM * limit == pd * (LGD_PPM * limit);
        assert (ExpectedLoss(pd, limit) + 1) * (PPM * PPM) > 192_500_550_000 * limit;
        if limit < 8 {
          assert ExpectedLoss(pd, limit) >= 1;
        }
      }
    } else {
      var pd := 350_001;
      LossBounds(pd, limit);
      GateAsProduct(pd, limit);
      assert !LossGate(pd, limit);
    }
  }

  /** Every approval is within the loss ratio, whatever the inputs. */
  lemma ApprovalWithinLossRatio(i: DecisionInputs)
    requires VerdictOf(i) == Approve
    ensures Limit(i) > 0 && Within(Limit(i), CapsOf(i))
    ensures ExpectedLoss(PdOf(i), Limit(i)) * PPM < 60_001 * Limit(i)
    ensures PdOf(i) <= AUTO_APPROVE_MAX_PD_PPM
    ensures i.mandateValid && i.aiAvailable && !Flagged(i.flags) && !i.features.firstCredit
  {
    GateAsProduct(PdOf(i), Limit(i));
    assert !Holds(ExpectedLossAboveThreshold, i) && !Holds(PdAboveThreshold, i) && !Holds(MandateMissing, i);
    assert !Holds(FirstCredit, i);
    ModelIsAdvisory(i, i);
  }

  // ----- Monotonicity -----

  /** `g` is a history at least as bad as `f`, with the same first-credit status. */
  predicate NoBetter(f: Features, g: Features) {
    && f.firstCredit == g.firstCredit
    && g.successRate <= f.successRate && g.repaymentRate <= f.repaymentRate
    && (f.defaulted > 0 ==> g.defaulted > 0)
    && f.violations <= g.violations && f.blocked <= g.blocked && g.ageDays <= f.ageDays
  }

  lemma PdMonotone(f: Features, g: Features, coverage: int, lower: int)
    requires NoBetter(f, g) && lower <= coverage
    ensures Pd(f, coverage) <= Pd(g, lower)
  {
    DivisionMonotone(60_000 * g.successRate, 60_000 * f.successRate, PPM);
    DivisionMonotone(50_000 * g.repaymentRate, 50_000 * f.repaymentRate, PPM);
  }

  lemma LossMonotone(pd: int, worse: int, limit: nat)
    requires pd <= worse
    ensures ExpectedLoss(pd, limit) <= ExpectedLoss(worse, limit)
  {
    ProductMonotone(pd, worse, LGD_PPM * limit);
    assert pd * LGD_PPM * limit == pd * (LGD_PPM * limit) && worse * LGD_PPM * limit == worse * (LGD_PPM * limit);
    DivisionMonotone(pd * LGD_PPM * limit, worse * LGD_PPM * limit, PPM * PPM);
  }

  /** Worse history or lower revenue coverage, for the same limit and gates, never lowers the
      probability of default or the expected loss and never moves the decision toward approval. */
  lemma RiskMonotone(i: DecisionInputs, j: DecisionInputs)
    requires NoBetter(i.features, j.features) && Coverage(j) <= Coverage(i) && Limit(i) == Limit(j)
    requires i.mandateValid == j.mandateValid && i.aiAvailable == j.aiAvailable && i.flags == j.flags
    ensures PdOf(i) <= PdOf(j)
    ensures Limit(i) >= 0 ==> ExpectedLoss(PdOf(i), Limit(i)) <= ExpectedLoss(PdOf(j), Limit(j))
    ensures VerdictOf(j) == Approve ==> VerdictOf(i) == Approve
    ensures VerdictOf(i) == Reject <==> VerdictOf(j) == Reject
  {
    PdMonotone(i.features, j.features, Coverage(i), Coverage(j));
    if Limit(i) > 0 {
      LossMonotone(PdOf(i), PdOf(j), Limit(i));
      GateAsProduct(PdOf(i), Limit(i));
      GateAsProduct(PdOf(j), Limit(j));
      forall r | Holds(r, i) ensures Holds(r, j) {
      }
    }
  }
}
