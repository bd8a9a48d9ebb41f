/** The rows of the credit facility (credence/models.py, credence/finance_models.py) and
    the state they make up.  Organizations, telemetry and display columns are left out. */
module Records {
  import opened Tables
  import opened Statuses
  import W = Waterfall
  import L = Ledger
  import R = Rules
  import P = Policy
  import U = Underwriting

  // ----- Identity and underwriting -----

  datatype Agent = Agent(status: R.AgentStatus, createdAt: int)

  /** A stored passport; its nonce is its row id, and `key` the signing key it was signed with. */
  datatype Passport = Passport(agent: nat, validFrom: int, expiresAt: int, maxBorrowing: int, key: nat)

  /** nonce None is the empty nonce, which revokes every passport of the agent. */
  datatype Revocation = Revocation(agent: nat, nonce: Option<nat>)

  datatype Mandate = Mandate(reserveCap: int, locked: bool)

  datatype Application = Application(
    agent: nat, task: nat, status: AppStatus, currency: string, requested: int, durationHours: int,
    revenue: int, cost: int, ownerCap: int, vendors: seq<string>)

  datatype PassportFault = IdentityInvalid | NotYetValid | PassportExpired | PassportRevoked

  datatype DecisionReason =
    | Engine(code: U.ReasonCode) | Identity(fault: PassportFault) | AgentNotActive | InsufficientEvidence

  /** One row per application, hence a map from the application id. */
  datatype Decision = Decision(
    verdict: U.Verdict, approvedLimit: int, caps: Option<U.Caps>, reasons: set<DecisionReason>)

  datatype RiskRun = RiskRun(application: nat, pd: int, ead: int, expectedLoss: int)

  datatype ModelRole = Analyst | Underwriter | Critic

  datatype ModelRun = ModelRun(application: nat, role: ModelRole, schemaValid: bool)

  datatype ReviewAction = ApproveFull | Reduce | Decline | UnknownAction

  datatype HumanReview = HumanReview(application: nat, action: ReviewAction, amount: int)

  /** The payload of a CREDIT_DECISION audit event. */
  datatype DecisionEvent = DecisionEvent(application: nat, verdict: U.Verdict)

  datatype RiskKind = SpendBlocked | PolicyViolation

  datatype RiskEvent = RiskEvent(kind: RiskKind, agent: nat)

  /** policy_decisions rows whose subject is an application. */
  datatype ApplicationRecord = ApplicationRecord(application: nat, allow: bool)

  datatype Desk = Desk(
    agents: seq<Agent>, passports: seq<Passport>, revocations: seq<Revocation>,
    mandates: map<nat, Mandate>, evidence: seq<nat>,
    apps: seq<Application>, decisions: map<nat, Decision>, reviews: seq<HumanReview>,
    verdicts: seq<DecisionEvent>, riskRuns: seq<RiskRun>, modelRuns: seq<ModelRun>,
    appRecords: seq<ApplicationRecord>, riskEvents: seq<RiskEvent>, signer: nat)

  // ----- Vaults and money -----

  datatype AllowRow = AllowRow(vendor: string, purpose: Option<string>)

  datatype Vault = Vault(
    agent: nat, task: nat, application: nat, status: VaultStatus, currency: string,
    totalLimit: int, spent: int, perTransactionLimit: int, dailyLimit: int,
    principal: int, feeDue: int, reserveDrawn: int,
    expiresAt: int, transactionCount: int, maxTransactions: int, allow: seq<AllowRow>)

  datatype ProposalStatus = ProposalApproved | ProposalDenied | ProposalExecuted

  datatype Proposal = Proposal(
    vault: nat, vendor: string, amount: int, currency: string, purpose: string, key: string,
    status: ProposalStatus, ruleReasons: set<R.Reason>, policyDenials: set<P.Deny>)

  datatype Payment = Payment(
    vault: nat, proposal: nat, vendor: string, amount: int, currency: string, journal: nat, at: int)

  datatype Revenue = Revenue(vault: nat, external: string, amount: int, currency: string, journal: nat)

  datatype RepaymentKind = WaterfallRun | RecoveryRun

  datatype Repayment = Repayment(
    vault: nat, kind: RepaymentKind, allocations: seq<W.Allocation>,
    principal: int, fee: int, reserve: int, owner: int, loss: int, journal: Option<nat>)

  datatype EngineName = VaultRules | LocalPolicy

  /** policy_decisions rows whose subject is a transaction proposal. */
  datatype SpendRecord = SpendRecord(proposal: nat, allow: bool, engine: EngineName)

  datatype Book = Book(
    vaults: seq<Vault>, proposals: seq<Proposal>, payments: seq<Payment>,
    revenues: seq<Revenue>, repayments: seq<Repayment>, records: seq<SpendRecord>, ledger: L.Books)

  datatype State = State(vendors: map<string, string>, desk: Desk, book: Book)

  const EMPTY_DESK := Desk([], [], [], map[], [], [], map[], [], [], [], [], [], [], 0)
  const EMPTY_BOOK := Book([], [], [], [], [], [], L.Books({}, []))
  const EMPTY := State(map[], EMPTY_DESK, EMPTY_BOOK)

  // ----- Columns -----

  function VaultAgent(v: Vault): nat { v.agent }
  function Principal(v: Vault): int { v.principal }
  function Unspent(v: Vault): int { v.totalLimit - v.spent }
  function ReserveDrawn(v: Vault): int { v.reserveDrawn }
  function PassportAgent(p: Passport): nat { p.agent }
  function ProposalKey(p: Proposal): string { p.key }
  function PaidProposal(p: Payment): nat { p.proposal }
  function ExternalId(r: Revenue): string { r.external }
  function PaymentVault(p: Payment): nat { p.vault }
  function PaymentAmount(p: Payment): int { p.amount }
  function RevenueVault(r: Revenue): nat { r.vault }
  function RevenueAmount(r: Revenue): int { r.amount }
  function RepaymentVault(r: Repayment): nat { r.vault }
  function PrincipalPaid(r: Repayment): int { r.principal }
  function FeePaid(r: Repayment): int { r.fee }
  function OwnerPaid(r: Repayment): int { r.owner }
  function LossTaken(r: Repayment): int { r.loss }

  // ----- Lookups -----

  function FindProposal(rows: seq<Proposal>, key: string): (r: Option<nat>)
    ensures r.Some? ==> r.value < |rows| && rows[r.value].key == key
    ensures r.None? ==> forall i :: 0 <= i < |rows| ==> rows[i].key != key
  {
    Last(rows, ProposalKey, key)
  }

  function FindPayment(rows: seq<Payment>, proposal: nat): (r: Option<nat>)
    ensures r.Some? ==> r.value < |rows| && rows[r.value].proposal == proposal
    ensures r.None? ==> forall i :: 0 <= i < |rows| ==> rows[i].proposal != proposal
  {
    Last(rows, PaidProposal, proposal)
  }

  function FindRevenue(rows: seq<Revenue>, external: string): (r: Option<nat>)
    ensures r.Some? ==> r.value < |rows| && rows[r.value].external == external
    ensures r.None? ==> forall i :: 0 <= i < |rows| ==> rows[i].external != external
  {
    Last(rows, ExternalId, external)
  }

  /** The most recent repayment of a vault. */
  function LatestRepayment(rows: seq<Repayment>, vault: nat): (r: Option<nat>)
    ensures r.Some? ==> r.value < |rows| && rows[r.value].vault == vault
    ensures r.None? ==> forall i :: 0 <= i < |rows| ==> rows[i].vault != vault
  {
    Last(rows, RepaymentVault, vault)
  }

  /** The most recent passport of an agent. */
  function LatestPassport(rows: seq<Passport>, agent: nat): (r: Option<nat>)
    ensures r.Some? ==> r.value < |rows| && rows[r.value].agent == agent
    ensures r.None? ==> forall i :: 0 <= i < |rows| ==> rows[i].agent != agent
  {
    Last(rows, PassportAgent, agent)
  }

  // ----- Idempotency keys -----

  function Digit(d: nat): char
    requires d < 10
  {
    ('0' as int + d) as char
  }

  function Digits(n: nat): (s: string)
    ensures s != []
  {
    (if n < 10 then [] else Digits(n / 10)) + [Digit(n % 10)]
  }

  function VaultId(v: nat): string { "vlt_" + Digits(v) }

  function ProposalId(p: nat): string { "prp_" + Digits(p) }

  function DisburseKey(v: nat): string { "disburse-" + VaultId(v) }
  function SpendKey(p: nat): string { "spend-" + ProposalId(p) }
  function RevenueKey(external: string): string { "revenue-" + external }
  function WaterfallKey(external: string): string { "waterfall-" + external }
  function RecoveryKey(v: nat): string { "recovery-" + VaultId(v) }

  lemma {:induction false} DigitsInjective(m: nat, n: nat)
    requires Digits(m) == Digits(n)
    ensures m == n
  {
    var a, b := Digits(m), Digits(n);
    assert a[|a| - 1] == Digit(m % 10) && b[|b| - 1] == Digit(n % 10);
    assert m % 10 == n % 10;
    if m < 10 {
      assert |a| == 1;
    } else {
      assert |a| >= 2;
      assert a[..|a| - 1] == Digits(m / 10) && b[..|b| - 1] == Digits(n / 10);
      DigitsInjective(m / 10, n / 10);
    }
  }

  lemma SuffixEqual(prefix: string, x: string, y: string)
    requires prefix + x == prefix + y
    ensures x == y
  {
    assert x == (prefix + x)[|prefix|..] && y == (prefix + y)[|prefix|..];
  }

  /** The key families are injective. */
  lemma KeysInjective(m: nat, n: nat)
    ensures DisburseKey(m) == DisburseKey(n) ==> m == n
    ensures SpendKey(m) == SpendKey(n) ==> m == n
    ensures RecoveryKey(m) == RecoveryKey(n) ==> m == n
  {
    if DisburseKey(m) == DisburseKey(n) {
      SuffixEqual("disburse-", VaultId(m), VaultId(n));
      SuffixEqual("vlt_", Digits(m), Digits(n));
      DigitsInjective(m, n);
    }
    if SpendKey(m) == SpendKey(n) {
      SuffixEqual("spend-", ProposalId(m), ProposalId(n));
      SuffixEqual("prp_", Digits(m), Digits(n));
      DigitsInjective(m, n);
    }
    if RecoveryKey(m) == RecoveryKey(n) {
      SuffixEqual("recovery-", VaultId(m), VaultId(n));
      SuffixEqual("vlt_", Digits(m), Digits(n));
      DigitsInjective(m, n);
    }
  }

  lemma ExternalKeysInjective(x: string, y: string)
    ensures RevenueKey(x) == RevenueKey(y) ==> x == y
    ensures WaterfallKey(x) == WaterfallKey(y) ==> x == y
  {
    if RevenueKey(x) == RevenueKey(y) { SuffixEqual("revenue-", x, y); }
    if WaterfallKey(x) == WaterfallKey(y) { SuffixEqual("waterfall-", x, y); }
  }

  /** Keys of different families never collide, whatever ids and external ids they embed. */
  lemma FamiliesApart(m: nat, n: nat, x: string, y: string)
    ensures DisburseKey(m) !in {SpendKey(n), RevenueKey(x), WaterfallKey(x), RecoveryKey(n)}
    ensures SpendKey(m) !in {RevenueKey(x), WaterfallKey(x), RecoveryKey(n)}
    ensures RevenueKey(x) !in {WaterfallKey(y), RecoveryKey(n)}
    ensures WaterfallKey(x) != RecoveryKey(n)
  {
    assert DisburseKey(m)[0] == 'd' && SpendKey(m)[0] == 's' && SpendKey(n)[0] == 's';
    assert RevenueKey(x)[0] == 'r' && WaterfallKey(x)[0] == 'w' && WaterfallKey(y)[0] == 'w';
    assert RecoveryKey(n)[0] == 'r' && RevenueKey(x)[2] == 'v' && RecoveryKey(n)[2] == 'c';
  }
}
