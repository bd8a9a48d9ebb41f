/** What each service operation does to the state: credence/services/vault_ops.py,
    identity.py and credit.py.  An operation that raises leaves the state as it was. */
module Operations {
  import opened Tables
  import opened Statuses
  import opened Records
  import W = Waterfall
  import L = Ledger
  import R = Rules
  import P = Policy
  import U = Underwriting

  datatype Error =
    | PolicyDenied | VendorNotAllowed | AgentUnknown | AgentNotUsable | AgentRevoked
    | LedgerRefused(why: L.LedgerError) | NegativeAmount | Duplicate | TtlTooLong | MalformedPassport | ModelRaised

  datatype Result = Ok(id: nat) | Err(error: Error)

  datatype Reply = Reply(state: State, result: Result)

  ghost function Raise(s: State, e: Error): Reply { Reply(s, Err(e)) }

  const HOUR := 3600 * R.SECOND
  const MAX_TTL_HOURS := 24

  // ----- Registration -----

  function RegisterVendor(s: State, vendor: string, category: string): Reply {
    if vendor in s.vendors then Reply(s, Err(Duplicate))
    else Reply(s.(vendors := s.vendors[vendor := category]), Ok(0))
  }

  function RegisterAgent(s: State, now: int): Reply {
    Reply(s.(desk := s.desk.(agents := s.desk.agents + [Agent(R.AgentActive, now)])), Ok(|s.desk.agents|))
  }

  function CreateMandate(s: State, task: nat, reserveCap: int): Reply {
    if task in s.desk.mandates then Reply(s, Err(Duplicate))
    else Reply(s.(desk := s.desk.(mandates := s.desk.mandates[task := Mandate(reserveCap, false)])), Ok(task))
  }

  function AddEvidence(s: State, task: nat): Reply {
    Reply(s.(desk := s.desk.(evidence := s.desk.evidence + [task])), Ok(|s.desk.evidence|))
  }

  function Distinct(vendors: seq<string>): (r: seq<string>)
    ensures forall v :: v in r <==> v in vendors
    ensures forall i, k :: 0 <= i < k < |r| ==> r[i] != r[k]
  {
    if vendors == [] then []
    else
      var earlier := Distinct(vendors[..|vendors| - 1]);
      var last := vendors[|vendors| - 1];
      if last in earlier then earlier else earlier + [last]
  }

  function CreateApplication(s: State, a: Application): Reply {
    if a.requested <= 0 then Reply(s, Err(PolicyDenied))
    else
      var row := a.(status := Draft, vendors := Distinct(a.vendors));
      Reply(s.(desk := s.desk.(apps := s.desk.apps + [row])), Ok(|s.desk.apps|))
  }

  // ----- Identity -----

  predicate IsRevoked(d: Desk, agent: nat, nonce: nat) {
    || agent >= |d.agents|
    || d.agents[agent].status == R.AgentRevoked
    || Revocation(agent, None) in d.revocations
    || Revocation(agent, Some(nonce)) in d.revocations
  }

  /** When the agent's latest stored passport fails verification for a given reason. */
  predicate Faulty(f: PassportFault, d: Desk, agent: nat, now: int) {
    match LatestPassport(d.passports, agent)
    case None => f == IdentityInvalid
    case Some(k) =>
      match f
      case IdentityInvalid => d.passports[k].key != d.signer
      case NotYetValid => d.passports[k].validFrom > now
      case PassportExpired => d.passports[k].expiresAt <= now
      case PassportRevoked => IsRevoked(d, agent, k)
  }

  ghost function PassportFaults(d: Desk, agent: nat, now: int): set<PassportFault> {
    set f: PassportFault | Faulty(f, d, agent, now)
  }

  ghost predicate PassportValid(d: Desk, agent: nat, now: int) { PassportFaults(d, agent, now) == {} }

  function StatusOf(d: Desk, agent: nat): R.AgentStatus {
    if agent < |d.agents| then d.agents[agent].status else R.AgentRevoked
  }

  function IssuePassport(s: State, agent: nat, maxBorrowing: int, maxTransaction: int, ttlHours: int, now: int): Reply {
    var d := s.desk;
    if agent >= |d.agents| then Reply(s, Err(AgentUnknown))
    else if d.agents[agent].status != R.AgentActive then Reply(s, Err(AgentNotUsable))
    else if ttlHours > MAX_TTL_HOURS then Reply(s, Err(TtlTooLong))
    else if maxBorrowing < 0 || maxTransaction < 0 then Reply(s, Err(MalformedPassport))
    else
      var row := Passport(agent, now, now + ttlHours * HOUR, maxBorrowing, d.signer);
      Reply(s.(desk := d.(passports := d.passports + [row])), Ok(|d.passports|))
  }

  /** The service starts over with another signing key: a new configured key, or the ephemeral
      key of a development instance. */
  function ReplaceSigner(s: State, key: nat): Reply {
    Reply(s.(desk := s.desk.(signer := key)), Ok(key))
  }

  datatype KillAction = KillFreeze | KillUnfreeze | KillRevoke | KillOther

  function FreezeOpen(v: Vault, agent: nat): Vault {
    if v.agent == agent && v.status in {Created, Active, Spending} then v.(status := Frozen) else v
  }

  function FreezeAll(vaults: seq<Vault>, agent: nat): seq<Vault> {
    seq(|vaults|, i requires 0 <= i < |vaults| => FreezeOpen(vaults[i], agent))
  }

  function SetAgent(d: Desk, agent: nat, status: R.AgentStatus): Desk
    requires agent < |d.agents|
  {
    d.(agents := d.agents[agent := d.agents[agent].(status := status)])
  }

  function KillSwitch(s: State, agent: nat, action: KillAction): Reply {
    var d := s.desk;
    if agent >= |d.agents| then Reply(s, Err(AgentUnknown))
    else
      match action
      case KillFreeze => Reply(s.(desk := SetAgent(d, agent, R.AgentFrozen)), Ok(agent))
      case KillUnfreeze =>
        if d.agents[agent].status == R.AgentRevoked then Reply(s, Err(AgentRevoked))
        else Reply(s.(desk := SetAgent(d, agent, R.AgentActive)), Ok(agent))
      case KillRevoke =>
        Reply(s.(desk := SetAgent(d, agent, R.AgentRevoked)
                           .(revocations := d.revocations + [Revocation(agent, None)]),
                 book := s.book.(vaults := FreezeAll(s.book.vaults, agent))),
              Ok(agent))
      case KillOther => Reply(s, Err(PolicyDenied))
  }

  // ----- Underwriting -----

  /** What asking the model for something comes to: an answer, the ModelUnavailableError its
      callers handle, or any other exception, which they do not. */
  datatype Outcome<+T> = Answer(value: T) | Unavailable | Raised

  /** What the model gateway does when called: the analyst's risk flags, and the opinions of the
      two advisory roles. */
  datatype Gateway = Gateway(analysis: Outcome<seq<string>>, underwriter: Outcome<()>, critic: Outcome<()>)

  predicate Analysed(g: Option<Gateway>) { g.Some? && g.value.analysis.Answer? }

  /** Some role that is reached raises an exception nobody handles. */
  predicate Raises(g: Option<Gateway>) {
    g.Some? && (g.value.analysis.Raised? || (Analysed(g) && (g.value.underwriter.Raised? || g.value.critic.Raised?)))
  }

  function One(b: bool): int { if b then 1 else 0 }
  function TerminalRow(v: Vault): int { One(v.status in {Repaid, PartiallyRepaid, Defaulted, Closed}) }
  function SucceededRow(v: Vault): int { One(v.status in {Repaid, Closed}) }
  function OutstandingRow(v: Vault): int { if v.status in {Repaid, Closed, Defaulted} then 0 else v.principal }
  function RepaidFullRow(r: Repayment): int { One(r.kind == WaterfallRun && r.loss == 0) }

  function RepaymentsOf(rows: seq<Repayment>, vaults: seq<Vault>, agent: nat): seq<Repayment> {
    if rows == [] then []
    else
      var r := rows[|rows| - 1];
      RepaymentsOf(rows[..|rows| - 1], vaults, agent)
      + if r.vault < |vaults| && vaults[r.vault].agent == agent then [r] else []
  }

  function RiskCount(rows: seq<RiskEvent>, kind: RiskKind, agent: nat): nat {
    if rows == [] then 0
    else RiskCount(rows[..|rows| - 1], kind, agent) + if rows[|rows| - 1] == RiskEvent(kind, agent) then 1 else 0
  }

  function Rate(numerator: int, denominator: int): int {
    if denominator <= 0 then 0 else (numerator * U.PPM) / denominator
  }

  /** `compute_features`. */
  function FeaturesOf(s: State, agent: nat, now: int): U.Features {
    var vaults := Where(s.book.vaults, VaultAgent, agent);
    var repayments := RepaymentsOf(s.book.repayments, s.book.vaults, agent);
    var terminal, succeeded := Sum(vaults, TerminalRow), Sum(vaults, SucceededRow);
    var full := Sum(repayments, RepaidFullRow);
    var created := if agent < |s.desk.agents| then s.desk.agents[agent].createdAt else now;
    U.Features(
      terminal, succeeded, Rate(succeeded, terminal),
      |repayments|, full, Rate(full, |repayments|),
      Sum(repayments, LossTaken), Sum(vaults, OutstandingRow),
      RiskCount(s.desk.riskEvents, PolicyViolation, agent), RiskCount(s.desk.riskEvents, SpendBlocked, agent),
      Max(0, (now - created) / R.DAY), |vaults| == 0)
  }

  function BorrowingCap(d: Desk, agent: nat): int {
    match LatestPassport(d.passports, agent)
    case None => 0
    case Some(k) => d.passports[k].maxBorrowing
  }

  function InputsOf(s: State, a: Application, gateway: Option<Gateway>, matched: bool, now: int): U.DecisionInputs {
    var features := FeaturesOf(s, a.agent, now);
    var analysed := Analysed(gateway);
    U.DecisionInputs(
      a.requested, a.ownerCap, features.outstanding, a.revenue, a.cost, BorrowingCap(s.desk, a.agent),
      features, a.task in s.desk.mandates, analysed,
      if analysed then U.Corroborate(gateway.value.analysis.value, matched) else [])
  }

  function StatusFor(v: U.Verdict): AppStatus {
    match v
    case Approve => AppApproved
    case Review => HumanReviewRequired
    case Reject => AppRejected
  }

  /** `_store_decision` together with the final application status. */
  function StoreDecision(d: Desk, app: nat, decision: Decision): Desk
    requires app < |d.apps|
  {
    d.(apps := d.apps[app := d.apps[app].(status := StatusFor(decision.verdict))],
       decisions := d.decisions[app := decision],
       verdicts := d.verdicts + [DecisionEvent(app, decision.verdict)])
  }

  ghost function EngineDecision(i: U.DecisionInputs): Decision {
    Decision(U.VerdictOf(i), if U.Limit(i) <= 0 then 0 else U.Limit(i), Some(U.CapsOf(i)),
             set r: U.ReasonCode | U.Holds(r, i) :: Engine(r))
  }

  function ModelRuns(app: nat, gateway: Option<Gateway>): seq<ModelRun> {
    if gateway.None? then []
    else if !Analysed(gateway) then [ModelRun(app, Analyst, false)]
    else [ModelRun(app, Analyst, true), ModelRun(app, Underwriter, gateway.value.underwriter.Answer?),
          ModelRun(app, Critic, gateway.value.critic.Answer?)]
  }

  ghost function IdentityReasons(d: Desk, agent: nat, now: int): set<DecisionReason> {
    if PassportValid(d, agent, now) then {AgentNotActive}
    else set f: PassportFault | Faulty(f, d, agent, now) :: Identity(f)
  }

  /** The identity and evidence gates before the model is asked. */
  ghost predicate GatesPass(s: State, a: Application, now: int) {
    PassportValid(s.desk, a.agent, now) && StatusOf(s.desk, a.agent) == R.AgentActive && a.task in s.desk.evidence
  }

  /** The bounded pipeline on a draft application: the side rows it writes and its decision. */
  ghost function Assess(s: State, app: nat, gateway: Option<Gateway>, matched: bool, now: int): (r: (Desk, Decision))
    requires app < |s.desk.apps|
    ensures r.0.apps == s.desk.apps
  {
    var d := s.desk;
    var a := d.apps[app];
    if !PassportValid(d, a.agent, now) || StatusOf(d, a.agent) != R.AgentActive then
      (d, Decision(U.Reject, 0, None, IdentityReasons(d, a.agent, now)))
    else if a.task !in d.evidence then (d, Decision(U.Reject, 0, None, {InsufficientEvidence}))
    else
      var i := InputsOf(s, a, gateway, matched, now);
      (d.(modelRuns := d.modelRuns + ModelRuns(app, gateway),
          riskRuns := d.riskRuns + [RiskRun(app, U.PdOf(i), U.Limit(i), U.ExpectedLoss(U.PdOf(i), U.Limit(i)))],
          appRecords := d.appRecords + [ApplicationRecord(app, U.VerdictOf(i) == U.Approve)]),
       EngineDecision(i))
  }

  ghost function Evaluate(s: State, app: nat, gateway: Option<Gateway>, matched: bool, now: int): Reply {
    var d := s.desk;
    if app >= |d.apps| then Raise(s, PolicyDenied)
    else if d.apps[app].status != Draft then
      if app in d.decisions then Reply(s, Ok(app)) else Raise(s, PolicyDenied)
    else if GatesPass(s, d.apps[app], now) && Raises(gateway) then Raise(s, ModelRaised)
    else
      var (d', decision) := Assess(s, app, gateway, matched, now);
      Reply(s.(desk := StoreDecision(d', app, decision)), Ok(app))
  }

  function ReviewApplication(s: State, app: nat, action: ReviewAction, amount: int): Reply {
    var d := s.desk;
    if app >= |d.apps| || d.apps[app].status != HumanReviewRequired || app !in d.decisions then
      Reply(s, Err(PolicyDenied))
    else
      var decision := d.decisions[app];
      match action
      case Decline =>
        Reply(s.(desk := d.(apps := d.apps[app := d.apps[app].(status := AppRejected)],
                            reviews := d.reviews + [HumanReview(app, action, 0)])), Ok(app))
      case UnknownAction => Reply(s, Err(PolicyDenied))
      case _ =>
        var granted := if action == ApproveFull then decision.approvedLimit else amount;
        if granted <= 0 || granted > decision.approvedLimit then Reply(s, Err(PolicyDenied))
        else
          Reply(s.(desk := d.(apps := d.apps[app := d.apps[app].(status := AppApproved)],
                              decisions := d.decisions[
                                app := decision.(approvedLimit := granted, verdict := U.Approve)],
                              reviews := d.reviews + [HumanReview(app, action, granted)])), Ok(app))
  }

  // ----- Vaults -----

  function AllowRows(vendors: seq<string>, categories: map<string, string>): (rows: seq<AllowRow>)
    requires forall v :: v in vendors ==> v in categories
    ensures |rows| == |vendors| && forall i :: 0 <= i < |rows| ==> rows[i].vendor == vendors[i]
  {
    if vendors == [] then []
    else
      var v := vendors[|vendors| - 1];
      AllowRows(vendors[..|vendors| - 1], categories)
      + [AllowRow(v, if categories[v] != "" then Some(categories[v]) else None)]
  }

  function NewVault(a: Application, app: nat, limit: int, perTxn: Option<int>, allow: seq<AllowRow>, now: int): Vault {
    Vault(a.agent, a.task, app, Active, a.currency, limit, 0,
          if perTxn.Some? && perTxn.value != 0 then perTxn.value else limit, limit,
          limit, U.Fee(limit), 0, now + a.durationHours * HOUR, 0, 100, allow)
  }

  function DisburseEntries(limit: int, currency: string): seq<L.Entry> {
    [L.Entry(L.PrincipalReceivable, L.Debit, limit, currency), L.Entry(L.VaultAvailable, L.Credit, limit, currency)]
  }

  function LockMandate(mandates: map<nat, Mandate>, task: nat): map<nat, Mandate> {
    if task in mandates then mandates[task := mandates[task].(locked := true)] else mandates
  }

  ghost function CreateVault(s: State, app: nat, perTxn: Option<int>, now: int): Reply {
    var d := s.desk;
    if app >= |d.apps| || d.apps[app].status != AppApproved || app !in d.decisions then Raise(s, PolicyDenied)
    else if d.decisions[app].approvedLimit <= 0 then Raise(s, PolicyDenied)
    else if exists v :: v in d.apps[app].vendors && v !in s.vendors then Raise(s, VendorNotAllowed)
    else Fund(s, app, d.decisions[app].approvedLimit, perTxn, now)
  }

  /** Opens the vault of an application with known vendors and posts its disbursement. */
  ghost function Fund(s: State, app: nat, limit: int, perTxn: Option<int>, now: int): Reply
    requires app < |s.desk.apps| && forall v :: v in s.desk.apps[app].vendors ==> v in s.vendors
  {
    var d, b := s.desk, s.book;
    var a, vid := d.apps[app], |b.vaults|;
    match L.Post(L.Complete(b.ledger), DisburseKey(vid), L.Disbursement, vid, DisburseEntries(limit, a.currency))
    case Rejected(why) => Raise(s, LedgerRefused(why))
    case Posted(ledger, _) =>
      var vault := NewVault(a, app, limit, perTxn, AllowRows(a.vendors, s.vendors), now);
      Reply(s.(desk := d.(apps := d.apps[app := a.(status := DisbursementEnabled)],
                          mandates := LockMandate(d.mandates, a.task)),
               book := b.(vaults := b.vaults + [vault], ledger := ledger)),
            Ok(vid))
  }

  /** Payments of one vault executed at or after `since`, as the rules see them. */
  function Spends(rows: seq<Payment>, vault: nat, since: int): seq<R.RecentSpend> {
    if rows == [] then []
    else
      var p := rows[|rows| - 1];
      Spends(rows[..|rows| - 1], vault, since)
      + if p.vault == vault && p.at >= since then [R.RecentSpend(p.vendor, p.amount, p.at)] else []
  }

  function VendorPurposes(rows: seq<AllowRow>): map<string, set<string>> {
    if rows == [] then map[]
    else
      var row := rows[|rows| - 1];
      var earlier := VendorPurposes(rows[..|rows| - 1]);
      if row.purpose.Some? then earlier[row.vendor := {row.purpose.value}] else earlier
  }

  function Vendors(rows: seq<AllowRow>): seq<string> {
    seq(|rows|, i requires 0 <= i < |rows| => rows[i].vendor)
  }

  function VendorSet(rows: seq<AllowRow>): set<string> { set x | x in Vendors(rows) }

  /** `_vault_limits`. */
  function LimitsOf(s: State, vid: nat, now: int): R.VaultLimits
    requires vid < |s.book.vaults|
  {
    var v := s.book.vaults[vid];
    R.VaultLimits(
      v.status, StatusOf(s.desk, v.agent), v.currency, v.totalLimit, v.spent, v.perTransactionLimit, v.dailyLimit,
      Sum(Spends(s.book.payments, vid, now - now % R.DAY), R.SpendAmount),
      VendorSet(v.allow), VendorPurposes(v.allow),
      Some(v.expiresAt), v.transactionCount, v.maxTransactions, R.VELOCITY_WINDOW, R.VELOCITY_MAX)
  }

  datatype SpendRequest = SpendRequest(
    vault: nat, vendor: string, amount: int, purpose: string, key: string, currency: string)

  function ProposalOf(q: SpendRequest): R.SpendProposal {
    R.SpendProposal(q.vendor, q.amount, q.currency, q.purpose, q.key)
  }

  function PaceNow(s: State, q: SpendRequest, now: int): R.Pace
    requires q.vault < |s.book.vaults|
  {
    R.PaceOf(LimitsOf(s, q.vault, now), q.vendor, Spends(s.book.payments, q.vault, now - R.VELOCITY_WINDOW), now)
  }

  ghost function RuleReasons(s: State, q: SpendRequest, now: int): set<R.Reason>
    requires q.vault < |s.book.vaults|
  {
    R.Violations(LimitsOf(s, q.vault, now), ProposalOf(q), PaceNow(s, q, now), now)
  }

  /** int(datetime.timestamp()): whole seconds, truncated toward zero. */
  function Seconds(t: int): int { if t >= 0 then t / R.SECOND else -((-t) / R.SECOND) }

  function AgentText(a: R.AgentStatus): P.Json {
    match a
    case AgentActive => P.ACTIVE
    case AgentFrozen => P.Str("FROZEN")
    case AgentRevoked => P.Str("REVOKED")
  }

  function VaultText(v: VaultStatus): P.Json {
    match v
    case Active => P.ACTIVE
    case Spending => P.SPENDING
    case Created => P.Str("CREATED")
    case Frozen => P.Str("FROZEN")
    case Expired => P.Str("EXPIRED")
    case TaskCompleted => P.Str("TASK_COMPLETED")
    case TaskFailed => P.Str("TASK_FAILED")
    case RevenueReceived => P.Str("REVENUE_RECEIVED")
    case Repaid => P.Str("REPAID")
    case PartiallyRepaid => P.Str("PARTIALLY_REPAID")
    case Defaulted => P.Str("DEFAULTED")
    case Closed => P.Str("CLOSED")
  }

  function DocumentOf(v: Vault, agentStatus: R.AgentStatus, passportValid: bool, q: SpendRequest,
                      rulesAllow: bool, now: int): P.Json {
    P.TransactionDocument(passportValid, Seconds(v.expiresAt), Seconds(now), AgentText(agentStatus),
                          VaultText(v.status), Vendors(v.allow), v.perTransactionLimit, v.spent, v.totalLimit,
                          q.vendor, q.amount, rulesAllow)
  }

  ghost function PolicyDenials(s: State, q: SpendRequest, now: int): set<P.Deny>
    requires q.vault < |s.book.vaults|
  {
    var v := s.book.vaults[q.vault];
    P.Read(DocumentOf(v, StatusOf(s.desk, v.agent), PassportValid(s.desk, v.agent, now), q,
                      RuleReasons(s, q, now) == {}, now)).Denials()
  }

  ghost function Propose(s: State, q: SpendRequest, now: int): Reply {
    var b := s.book;
    match FindProposal(b.proposals, q.key)
    case Some(id) => Reply(s, Ok(id))
    case None =>
      if q.vault >= |b.vaults| then Raise(s, PolicyDenied)
      else
        var rules, denials := RuleReasons(s, q, now), PolicyDenials(s, q, now);
        Reply(RecordProposal(s, q, rules, denials), Ok(|b.proposals|))
  }

  /** The rows a decided proposal leaves behind; a detected split freezes the vault. */
  function RecordProposal(s: State, q: SpendRequest, rules: set<R.Reason>, denials: set<P.Deny>): State
    requires q.vault < |s.book.vaults|
  {
    var b := s.book;
    var v, pid := b.vaults[q.vault], |b.proposals|;
    var allowed := rules == {} && denials == {};
    var row := Proposal(q.vault, q.vendor, q.amount, q.currency, q.purpose, q.key,
                        if allowed then ProposalApproved else ProposalDenied, rules, denials);
    var v' := if !allowed && R.SplitPatternDetected in rules && Spendable(v.status) then v.(status := Frozen) else v;
    s.(desk := if allowed then s.desk
               else s.desk.(riskEvents := s.desk.riskEvents + [RiskEvent(SpendBlocked, v.agent)]),
       book := b.(vaults := b.vaults[q.vault := v'],
                  proposals := b.proposals + [row],
                  records := b.records + [SpendRecord(pid, rules == {}, VaultRules),
                                          SpendRecord(pid, denials == {}, LocalPolicy)]))
  }

  function RequestOf(p: Proposal): SpendRequest {
    SpendRequest(p.vault, p.vendor, p.amount, p.purpose, p.key, p.currency)
  }

  function SpendEntries(amount: int, currency: string): seq<L.Entry> {
    [L.Entry(L.VaultAvailable, L.Debit, amount, currency), L.Entry(L.VendorPayable, L.Credit, amount, currency)]
  }

  /** `execute_transaction`.  A refusal marks the proposal DENIED and raises: a caller that
      catches the error inside the session (`caught`) keeps the mark, otherwise it rolls back. */
  ghost function Execute(s: State, pid: nat, caught: bool, now: int): Reply {
    var b := s.book;
    if pid >= |b.proposals| then Raise(s, PolicyDenied)
    else if FindPayment(b.payments, pid).Some? then Reply(s, Ok(FindPayment(b.payments, pid).value))
    else
      var p := b.proposals[pid];
      if p.status != ProposalApproved || p.vault >= |b.vaults| then Raise(s, PolicyDenied)
      else
        var rules := RuleReasons(s, RequestOf(p), now);
        if rules != {} then Reply(if caught then Blocked(s, pid, rules) else s, Err(PolicyDenied))
        else
          match L.Post(L.Complete(b.ledger), SpendKey(pid), L.VendorPayment, pid, SpendEntries(p.amount, p.currency))
          case Rejected(why) => Raise(s, LedgerRefused(why))
          case Posted(ledger, jid) => Reply(s.(book := Pay(b, pid, jid, now).(ledger := ledger)), Ok(|b.payments|))
  }

  function Blocked(s: State, pid: nat, rules: set<R.Reason>): State
    requires pid < |s.book.proposals| && s.book.proposals[pid].vault < |s.book.vaults|
  {
    var b := s.book;
    var p := b.proposals[pid];
    s.(desk := s.desk.(riskEvents := s.desk.riskEvents + [RiskEvent(SpendBlocked, b.vaults[p.vault].agent)]),
       book := b.(proposals := b.proposals[
                    pid := p.(status := ProposalDenied, ruleReasons := rules, policyDenials := {})]))
  }

  function Pay(b: Book, pid: nat, jid: nat, now: int): Book
    requires pid < |b.proposals| && b.proposals[pid].vault < |b.vaults|
  {
    var p := b.proposals[pid];
    var v := b.vaults[p.vault];
    var v' := v.(spent := v.spent + p.amount, transactionCount := v.transactionCount + 1,
                 status := if v.status == Active then Spending else v.status);
    b.(vaults := b.vaults[p.vault := v'],
       proposals := b.proposals[pid := p.(status := ProposalExecuted)],
       payments := b.payments + [Payment(p.vault, pid, p.vendor, p.amount, p.currency, jid, now)])
  }

  function SetStatus(b: Book, vid: nat, status: VaultStatus): Book
    requires vid < |b.vaults|
  {
    b.(vaults := b.vaults[vid := b.vaults[vid].(status := status)])
  }

  /** `freeze_vault` and `close_vault` ask the state machine for FROZEN and CLOSED. */
  function MoveVault(s: State, vid: nat, target: VaultStatus): Reply {
    if vid >= |s.book.vaults| then Reply(s, Err(PolicyDenied))
    else
      match VaultTransition(s.book.vaults[vid].status, target)
      case None => Reply(s, Err(PolicyDenied))
      case Some(status) => Reply(s.(book := SetStatus(s.book, vid, status)), Ok(vid))
  }

  // ----- Repayment -----

  function RevenueEntries(amount: int, currency: string): seq<L.Entry> {
    [L.Entry(L.SandboxCash, L.Debit, amount, currency), L.Entry(L.RevenueEscrow, L.Credit, amount, currency)]
  }

  function EntryIf(account: L.Account, direction: L.Direction, amount: int, currency: string): seq<L.Entry> {
    if amount != 0 then [L.Entry(account, direction, amount, currency)] else []
  }

  function WaterfallEntries(amount: int, w: W.RepaymentResult, currency: string): seq<L.Entry> {
    [L.Entry(L.RevenueEscrow, L.Debit, amount, currency)]
    + EntryIf(L.PrincipalReceivable, L.Credit, w.principalRepaid, currency)
    + EntryIf(L.FeeIncome, L.Credit, w.feePaid, currency)
    + EntryIf(L.ReservePool, L.Credit, w.reserveReplenished, currency)
    + EntryIf(L.OwnerPayable, L.Credit, w.ownerReleased, currency)
  }

  /** The status after ACTIVE/SPENDING -> TASK_* and -> REVENUE_RECEIVED; None when refused. */
  function Collecting(status: VaultStatus, completed: bool): Option<VaultStatus> {
    var done := if Spendable(status) then VaultTransition(status, if completed then TaskCompleted else TaskFailed)
                else Some(status);
    if done.None? then None else VaultTransition(done.value, RevenueReceived)
  }

  function Settled(w: W.RepaymentResult): VaultStatus {
    if w.principalOutstanding == 0 && w.feeOutstanding == 0 then Repaid else PartiallyRepaid
  }

  /** The columns and rows a collected revenue changes. */
  function Collect(b: Book, vid: nat, amount: int, external: string, currency: string,
                   w: W.RepaymentResult, revenueJournal: nat, waterfallJournal: nat): Book
    requires vid < |b.vaults|
  {
    var v := b.vaults[vid];
    b.(vaults := b.vaults[vid := v.(principal := w.principalOutstanding, feeDue := w.feeOutstanding,
                                    reserveDrawn := v.reserveDrawn - w.reserveReplenished, status := Settled(w))],
       revenues := b.revenues + [Revenue(vid, external, amount, currency, revenueJournal)],
       repayments := b.repayments + [Repayment(vid, WaterfallRun, w.allocations, w.principalRepaid, w.feePaid,
                                               w.reserveReplenished, w.ownerReleased, 0, Some(waterfallJournal))])
  }

  ghost function ReceiveRevenue(s: State, vid: nat, amount: int, external: string, currency: string,
                                completed: bool): Reply {
    var b := s.book;
    match FindRevenue(b.revenues, external)
    case Some(k) =>
      (match LatestRepayment(b.repayments, b.revenues[k].vault)
       case None => Raise(s, PolicyDenied)
       case Some(id) => Reply(s, Ok(id)))
    case None =>
      if vid >= |b.vaults| || amount <= 0 || Collecting(b.vaults[vid].status, completed).None? then
        Raise(s, PolicyDenied)
      else
        var v := b.vaults[vid];
        match L.Post(L.Complete(b.ledger), RevenueKey(external), L.RevenueReceipt, vid,
                     RevenueEntries(amount, currency))
        case Rejected(why) => Raise(s, LedgerRefused(why))
        case Posted(first, j) =>
          if v.principal < 0 || v.feeDue < 0 || v.reserveDrawn < 0 then Raise(s, NegativeAmount)
          else
            var w := W.Repayment(amount, v.principal, v.feeDue, v.reserveDrawn);
            match L.Post(first, WaterfallKey(external), L.RepaymentWaterfall, vid,
                         WaterfallEntries(amount, w, currency))
            case Rejected(why) => Raise(s, LedgerRefused(why))
            case Posted(second, k) =>
              Reply(s.(book := Collect(b, vid, amount, external, currency, w, j, k).(ledger := second)),
                    Ok(|b.repayments|))
  }

  // ----- Recovery -----

  function RecoveryEntries(w: W.RecoveryResult, currency: string): seq<L.Entry> {
    EntryIf(L.VaultAvailable, L.Debit, w.swept, currency)
    + EntryIf(L.ReservePool, L.Debit, w.reserveDrawn, currency)
    + EntryIf(L.LossDefault, L.Debit, w.loss, currency)
    + EntryIf(L.PrincipalReceivable, L.Credit, w.swept + w.reserveDrawn + w.loss, currency)
  }

  function ReserveCap(d: Desk, task: nat): int {
    if task in d.mandates then d.mandates[task].reserveCap else 0
  }

  /** The columns and rows a recovery changes. */
  function Recover(b: Book, vid: nat, w: W.RecoveryResult, journal: Option<nat>): Book
    requires vid < |b.vaults|
  {
    var v := b.vaults[vid];
    b.(vaults := b.vaults[vid := v.(principal := 0, feeDue := 0, reserveDrawn := v.reserveDrawn + w.reserveDrawn,
                                    spent := v.totalLimit, status := if w.loss > 0 then Defaulted else Repaid)],
       repayments := b.repayments + [Repayment(vid, RecoveryRun, w.steps, w.swept, 0, w.reserveDrawn, 0, w.loss,
                                               journal)])
  }

  /** Books a recovery; one that moves nothing has no journal. */
  ghost function RecoverWith(s: State, vid: nat, w: W.RecoveryResult): Reply
    requires vid < |s.book.vaults|
  {
    var b := s.book;
    if w.swept + w.reserveDrawn + w.loss == 0 then
      Reply(s.(book := Recover(b, vid, w, None).(ledger := L.Complete(b.ledger))), Ok(|b.repayments|))
    else
      match L.Post(L.Complete(b.ledger), RecoveryKey(vid), L.RecoveryWaterfall, vid,
                   RecoveryEntries(w, b.vaults[vid].currency))
      case Rejected(why) => Raise(s, LedgerRefused(why))
      case Posted(ledger, j) => Reply(s.(book := Recover(b, vid, w, Some(j)).(ledger := ledger)), Ok(|b.repayments|))
  }

  ghost function SimulateFailure(s: State, vid: nat): Reply {
    var b := s.book;
    if vid >= |b.vaults| || b.vaults[vid].status !in {Active, Spending, Frozen, Expired} then Raise(s, PolicyDenied)
    else
      var v := b.vaults[vid];
      var cap := ReserveCap(s.desk, v.task);
      if v.principal < 0 || v.totalLimit - v.spent < 0 || cap < 0 then Raise(s, NegativeAmount)
      else
        RecoverWith(s, vid, W.Recovery(v.principal, v.totalLimit - v.spent, 0, cap, cap))
  }

  // ----- Runs -----

  datatype Op =
    | OpVendor(vendor: string, category: string)
    | OpAgent
    | OpPassport(agent: nat, maxBorrowing: int, maxTransaction: int, ttlHours: int)
    | OpSigner(key: nat)
    | OpKill(agent: nat, action: KillAction)
    | OpMandate(task: nat, reserveCap: int)
    | OpEvidence(task: nat)
    | OpApply(application: Application)
    | OpEvaluate(app: nat, gateway: Option<Gateway>, matched: bool)
    | OpReview(app: nat, decision: ReviewAction, amount: int)
    | OpVault(app: nat, perTxn: Option<int>)
    | OpPropose(request: SpendRequest)
    | OpExecute(proposal: nat, caught: bool)
    | OpFreeze(vault: nat)
    | OpRevenue(vault: nat, amount: int, external: string, currency: string, completed: bool)
    | OpFail(vault: nat)
    | OpClose(vault: nat)

  ghost function Perform(s: State, op: Op, now: int): Reply {
    match op
    case OpVendor(vendor, category) => RegisterVendor(s, vendor, category)
    case OpAgent => RegisterAgent(s, now)
    case OpPassport(agent, maxBorrowing, maxTransaction, ttl) =>
      IssuePassport(s, agent, maxBorrowing, maxTransaction, ttl, now)
    case OpSigner(key) => ReplaceSigner(s, key)
    case OpKill(agent, action) => KillSwitch(s, agent, action)
    case OpMandate(task, cap) => CreateMandate(s, task, cap)
    case OpEvidence(task) => AddEvidence(s, task)
    case OpApply(application) => CreateApplication(s, application)
    case OpEvaluate(app, gateway, matched) => Evaluate(s, app, gateway, matched, now)
    case OpReview(app, action, amount) => ReviewApplication(s, app, action, amount)
    case OpVault(app, perTxn) => CreateVault(s, app, perTxn, now)
    case OpPropose(request) => Propose(s, request, now)
    case OpExecute(pid, caught) => Execute(s, pid, caught, now)
    case OpFreeze(vid) => MoveVault(s, vid, Frozen)
    case OpRevenue(vid, amount, external, currency, completed) =>
      ReceiveRevenue(s, vid, amount, external, currency, completed)
    case OpFail(vid) => SimulateFailure(s, vid)
    case OpClose(vid) => MoveVault(s, vid, Closed)
  }

  /** One service call at a time. */
  datatype Event = Event(now: int, op: Op)

  /** The clock of a run is the time of its latest call; time never goes backwards. */
  datatype System = System(clock: int, state: State)

  const START := System(0, EMPTY)

  /** A call in the past is not a behaviour, and is skipped. */
  ghost function Next(y: System, e: Event): System {
    if e.now < y.clock then y else System(e.now, Perform(y.state, e.op, e.now).state)
  }

  ghost function Run(y: System, events: seq<Event>): System {
    if events == [] then y else Next(Run(y, events[..|events| - 1]), events[|events| - 1])
  }

  /** The calls of a run that are not skipped. */
  ghost function Performed(y: System, events: seq<Event>): seq<Event> {
    if events == [] then []
    else
      var n := |events| - 1;
      Performed(y, events[..n]) + if events[n].now < Run(y, events[..n]).clock then [] else [events[n]]
  }

  /** Calls served in the order given, whatever their dates: no assumption on the clock. */
  ghost function Serve(s: State, calls: seq<Event>): State {
    if calls == [] then s
    else
      var n := |calls| - 1;
      Perform(Serve(s, calls[..n]), calls[n].op, calls[n].now).state
  }

  /** A run serves exactly the calls it performs. */
  lemma {:induction false} RunServes(y: System, events: seq<Event>)
    ensures Run(y, events).state == Serve(y.state, Performed(y, events))
  {
    if events != [] {
      var n := |events| - 1;
      RunServes(y, events[..n]);
      if events[n].now >= Run(y, events[..n]).clock {
        var earlier := Performed(y, events[..n]);
        assert (earlier + [events[n]])[..|earlier|] == earlier;
      } else {
        assert Performed(y, events) == Performed(y, events[..n]);
      }
    }
  }
}
