/** What the service calls append to the audit log (the calls of `append_audit_event` in
    credence/services), what it tells about the money and the decisions, and how far the head
    hash of the chain fixes both. */
module AuditTrail {
  import opened Tables
  import opened Statuses
  import opened Records
  import opened Operations
  import opened Growth
  import opened Invariants
  import opened Preservation
  import opened Provenance
  import C = AuditChain
  import W = Waterfall
  import L = Ledger

  /** An audit event by its type, with the ids and figures of its payload the theorems need. */
  datatype Topic =
    | AgentCreated(agent: nat)
    | PassportIssued(passport: nat)
    | AgentAction(agent: nat, action: KillAction)
    | MandateCreated(task: nat)
    | ApplicationCreated(application: nat)
    | CreditDecided(event: DecisionEvent)
    | Reviewed(review: HumanReview)
    | VaultOpened(vault: nat, limit: int)
    | TransactionProposed(proposal: nat, status: ProposalStatus)
    | TransactionExecuted(transaction: nat, amount: int)
    | VaultFrozen(vault: nat)
    | VaultClosed(vault: nat)
    | RepaymentBooked(repayment: nat, revenue: int, principal: int, fee: int, owner: int)
    | RecoveryBooked(repayment: nat, swept: int, drawn: int, loss: int)

  function ActionName(action: KillAction): string {
    match action
    case KillFreeze => "AGENT_FREEZE"
    case KillUnfreeze => "AGENT_UNFREEZE"
    case KillRevoke => "AGENT_REVOKE"
    case KillOther => "AGENT_"
  }

  function EventType(t: Topic): string {
    match t
    case AgentCreated(_) => "AGENT_CREATED"
    case PassportIssued(_) => "PASSPORT_ISSUED"
    case AgentAction(_, action) => ActionName(action)
    case MandateCreated(_) => "REVENUE_MANDATE_CREATED"
    case ApplicationCreated(_) => "CREDIT_APPLICATION_CREATED"
    case CreditDecided(_) => "CREDIT_DECISION"
    case Reviewed(_) => "HUMAN_REVIEW"
    case VaultOpened(_, _) => "VAULT_CREATED"
    case TransactionProposed(_, _) => "TRANSACTION_PROPOSED"
    case TransactionExecuted(_, _) => "TRANSACTION_EXECUTED"
    case VaultFrozen(_) => "VAULT_FROZEN"
    case VaultClosed(_) => "VAULT_CLOSED"
    case RepaymentBooked(_, _, _, _, _) => "REPAYMENT_WATERFALL"
    case RecoveryBooked(_, _, _, _) => "RECOVERY_WATERFALL"
  }

  // ----- What a call appends -----

  /** The event about the row a call has just stored under its id. */
  function About<T>(rows: seq<T>, id: nat, say: (nat, T) -> Topic): Option<Topic> {
    if id < |rows| then Some(say(id, rows[id])) else None
  }

  function OnVault(id: nat, v: Vault): Topic { VaultOpened(id, v.totalLimit) }
  function OnProposal(id: nat, p: Proposal): Topic { TransactionProposed(id, p.status) }
  function OnPayment(id: nat, p: Payment): Topic { TransactionExecuted(id, p.amount) }
  function OnRecovery(id: nat, r: Repayment): Topic { RecoveryBooked(id, r.principal, r.reserve, r.loss) }
  function OnRepayment(revenue: int): (nat, Repayment) -> Topic {
    (id: nat, r: Repayment) => RepaymentBooked(id, revenue, r.principal, r.fee, r.owner)
  }

  function OnDecision(before: Desk, app: nat, after: Desk): Option<Topic> {
    if app < |before.apps| && before.apps[app].status == Draft && app in after.decisions then
      Some(CreditDecided(DecisionEvent(app, after.decisions[app].verdict)))
    else None
  }

  function OnReview(after: Desk): Option<Topic> {
    if after.reviews == [] then None else Some(Reviewed(after.reviews[|after.reviews| - 1]))
  }

  /** The event a call appends.  One that raises appends nothing, nor does one that finds its work
      already done; vendors, evidence and the signing key are not audited. */
  function Trace(s: State, op: Op, r: Reply): Option<Topic> {
    if r.result.Err? then None
    else
      var b, c, id := s.book, r.state.book, r.result.id;
      match op
      case OpVendor(_, _) => None
      case OpAgent => Some(AgentCreated(id))
      case OpPassport(_, _, _, _) => Some(PassportIssued(id))
      case OpSigner(_) => None
      case OpKill(agent, action) => Some(AgentAction(agent, action))
      case OpMandate(task, _) => Some(MandateCreated(task))
      case OpEvidence(_) => None
      case OpApply(_) => Some(ApplicationCreated(id))
      case OpEvaluate(app, _, _) => OnDecision(s.desk, app, r.state.desk)
      case OpReview(_, _, _) => OnReview(r.state.desk)
      case OpVault(_, _) => About(c.vaults, id, OnVault)
      case OpPropose(q) => if FindProposal(b.proposals, q.key).Some? then None else About(c.proposals, id, OnProposal)
      case OpExecute(pid, _) => if FindPayment(b.payments, pid).Some? then None else About(c.payments, id, OnPayment)
      case OpFreeze(vault) => Some(VaultFrozen(vault))
      case OpRevenue(_, amount, external, _, _) =>
        if FindRevenue(b.revenues, external).Some? then None else About(c.repayments, id, OnRepayment(amount))
      case OpFail(_) => About(c.repayments, id, OnRecovery)
      case OpClose(vault) => Some(VaultClosed(vault))
  }

  function Written(log: seq<Topic>, told: Option<Topic>): seq<Topic> {
    if told.None? then log else log + [told.value]
  }

  /** The audit log of a run. */
  ghost function Log(y: System, events: seq<Event>): seq<Topic> {
    if events == [] then []
    else
      var n := |events| - 1;
      var s, e := Run(y, events[..n]), events[n];
      if e.now < s.clock then Log(y, events[..n])
      else Written(Log(y, events[..n]), Trace(s.state, e.op, Perform(s.state, e.op, e.now)))
  }

  // ----- The money -----

  const NOWHERE := Position(0, 0, 0, 0, 0, 0, 0, 0, 0, 0)

  /** What an event says has moved between the platform accounts. */
  function Move(t: Topic): Position {
    match t
    case VaultOpened(_, limit) => LoanShift(limit)
    case TransactionExecuted(_, amount) => PaymentShift(amount)
    case RepaymentBooked(_, revenue, principal, fee, owner) =>
      Position(-principal, 0, revenue - principal - fee - owner, 0, 0, revenue, 0, fee, owner, 0)
    case RecoveryBooked(_, swept, drawn, loss) => RecoveryShift(swept, drawn, loss)
    case _ => NOWHERE
  }

  function Moved(log: seq<Topic>): Position {
    if |log| == 0 then NOWHERE else Moved(log[..|log| - 1]).Plus(Move(log[|log| - 1]))
  }

  function MoveOf(told: Option<Topic>): Position { if told.None? then NOWHERE else Move(told.value) }

  lemma PlusNowhere(p: Position)
    ensures p.Plus(NOWHERE) == p
  {
  }

  lemma MovedAppend(log: seq<Topic>, t: Topic)
    ensures Moved(log + [t]) == Moved(log).Plus(Move(t))
  {
    assert (log + [t])[..|log|] == log;
  }

  lemma MovedWritten(log: seq<Topic>, told: Option<Topic>)
    ensures Moved(Written(log, told)) == Moved(log).Plus(MoveOf(told))
  {
    if told.Some? {
      MovedAppend(log, told.value);
    } else {
      PlusNowhere(Moved(log));
    }
  }

  /** The ledger moves by what the event of a call says. */
  predicate Explained(b: Book, told: Option<Topic>, c: Book) {
    LedgerPosition(c.ledger.journal) == LedgerPosition(b.ledger.journal).Plus(MoveOf(told))
  }

  lemma StillExplained(b: Book, told: Option<Topic>, c: Book)
    requires c.ledger == b.ledger && MoveOf(told) == NOWHERE
    ensures Explained(b, told, c)
  {
    PlusNowhere(LedgerPosition(b.ledger.journal));
  }

  /** The event about the last row of a table. */
  lemma AboutLast<T>(rows: seq<T>, more: seq<T>, x: T, say: (nat, T) -> Topic)
    requires more == rows + [x]
    ensures About(more, |rows|, say) == Some(say(|rows|, x))
  {
  }

  lemma VaultTrace(s: State, op: Op, r: Reply, v: Vault)
    requires op.OpVault? && r.result == Ok(|s.book.vaults|) && r.state.book.vaults == s.book.vaults + [v]
    ensures MoveOf(Trace(s, op, r)) == LoanShift(v.totalLimit)
  {
    AboutLast(s.book.vaults, r.state.book.vaults, v, OnVault);
  }

  lemma VaultExplained(s: State, op: Op, now: int, r: Reply)
    requires Kept(s.book) && op.OpVault? && r == CreateVault(s, op.app, op.perTxn, now)
    ensures Explained(s.book, Trace(s, op, r), r.state.book)
  {
    CreateVaultPosts(s, op.app, op.perTxn, now);
    if r.result.Ok? {
      OpenedExplained(s, op, r, NewVault(s.desk.apps[op.app], op.app, s.desk.decisions[op.app].approvedLimit, op.perTxn,
                                         AllowRows(s.desk.apps[op.app].vendors, s.vendors), now));
    } else {
      RefusalExplained(s, op, r);
    }
  }

  /** A call that raises leaves no event, and no trace in the ledger. */
  lemma RefusalExplained(s: State, op: Op, r: Reply)
    requires r.result.Err? && r.state.book.ledger == s.book.ledger
    ensures Explained(s.book, Trace(s, op, r), r.state.book)
  {
    StillExplained(s.book, None, r.state.book);
  }

  lemma OpenedExplained(s: State, op: Op, r: Reply, v: Vault)
    requires op.OpVault? && r.result == Ok(|s.book.vaults|) && r.state.book == Opened(s.book, v) && v.totalLimit > 0
    ensures Explained(s.book, Trace(s, op, r), r.state.book)
  {
    VaultTrace(s, op, r, v);
    OpenedPosition(s.book, v);
  }

  lemma ExecuteTrace(s: State, op: Op, r: Reply, p: Payment)
    requires op.OpExecute? && r.result == Ok(|s.book.payments|) && r.state.book.payments == s.book.payments + [p]
    requires FindPayment(s.book.payments, op.proposal).None?
    ensures MoveOf(Trace(s, op, r)) == PaymentShift(p.amount)
  {
    AboutLast(s.book.payments, r.state.book.payments, p, OnPayment);
  }

  /** An execution that pays nothing has failed or found its payment. */
  lemma UnpaidSaysNothing(s: State, op: Op, now: int, r: Reply)
    requires op.OpExecute? && r == Execute(s, op.proposal, op.caught, now)
    requires r.state.book.payments == s.book.payments
    ensures Trace(s, op, r) == None && r.state.book.ledger == s.book.ledger
  {
  }

  lemma ExecuteExplained(s: State, op: Op, now: int, r: Reply)
    requires Kept(s.book) && op.OpExecute? && r == Execute(s, op.proposal, op.caught, now)
    ensures Explained(s.book, Trace(s, op, r), r.state.book)
  {
    ExecutePosts(s, op.proposal, op.caught, now);
    if r.state.book.payments != s.book.payments {
      ExecuteTrace(s, op, r, r.state.book.payments[|s.book.payments|]);
      PaidPosition(s.book, op.proposal, now);
    } else {
      UnpaidSaysNothing(s, op, now, r);
      StillExplained(s.book, None, r.state.book);
    }
  }

  lemma RevenueTrace(s: State, op: Op, r: Reply, row: Repayment)
    requires op.OpRevenue? && r.result == Ok(|s.book.repayments|)
    requires r.state.book.repayments == s.book.repayments + [row]
    requires FindRevenue(s.book.revenues, op.external).None?
    ensures Trace(s, op, r) == Some(RepaymentBooked(|s.book.repayments|, op.amount, row.principal, row.fee, row.owner))
  {
    AboutLast(s.book.repayments, r.state.book.repayments, row, OnRepayment(op.amount));
  }

  lemma UncollectedSaysNothing(s: State, op: Op, r: Reply)
    requires op.OpRevenue? && (FindRevenue(s.book.revenues, op.external).Some? || r.result.Err?)
    ensures Trace(s, op, r) == None
  {
  }

  /** Revenue is told in full: what is not principal, fee or surplus replenished the reserve. */
  lemma RevenueMove(id: nat, amount: int, w: W.RepaymentResult)
    requires w.principalRepaid + w.feePaid + w.reserveReplenished + w.ownerReleased == amount
    ensures Move(RepaymentBooked(id, amount, w.principalRepaid, w.feePaid, w.ownerReleased)) == CollectedMove(amount, w)
  {
  }

  lemma CollectedExplained(b: Book, vid: nat, amount: int, external: string, currency: string, completed: bool, id: nat)
    requires Kept(b) && Collectable(b, vid, amount, external, completed)
    ensures var w := Waterfall(b, vid, amount);
      Explained(b, Some(RepaymentBooked(id, amount, w.principalRepaid, w.feePaid, w.ownerReleased)),
                Collected(b, vid, amount, external, currency))
  {
    CollectedPostings(b, vid, amount, external, currency, completed);
    W.RepaymentConserves(amount, b.vaults[vid].principal, b.vaults[vid].feeDue, b.vaults[vid].reserveDrawn);
    CollectedPosition(b, vid, amount, external, currency);
    RevenueMove(id, amount, Waterfall(b, vid, amount));
  }

  /** A revenue that is not collected has failed or was known. */
  lemma UncollectedAnswer(s: State, op: Op, r: Reply)
    requires op.OpRevenue? && !Collectable(s.book, op.vault, op.amount, op.external, op.completed)
    requires r == ReceiveRevenue(s, op.vault, op.amount, op.external, op.currency, op.completed)
    ensures FindRevenue(s.book.revenues, op.external).Some? || r.result.Err?
  {
  }

  lemma RevenueExplained(s: State, op: Op, r: Reply)
    requires Kept(s.book) && op.OpRevenue?
    requires r == ReceiveRevenue(s, op.vault, op.amount, op.external, op.currency, op.completed)
    ensures Explained(s.book, Trace(s, op, r), r.state.book)
  {
    ReceiveRevenuePosts(s, op.vault, op.amount, op.external, op.currency, op.completed);
    if Collectable(s.book, op.vault, op.amount, op.external, op.completed) {
      RevenueTrace(s, op, r, r.state.book.repayments[|s.book.repayments|]);
      CollectedExplained(s.book, op.vault, op.amount, op.external, op.currency, op.completed, |s.book.repayments|);
    } else {
      UncollectedAnswer(s, op, r);
      UncollectedSaysNothing(s, op, r);
      StillExplained(s.book, None, r.state.book);
    }
  }

  lemma RecoveryTrace(s: State, op: Op, r: Reply, row: Repayment)
    requires op.OpFail? && r.result == Ok(|s.book.repayments|) && r.state.book.repayments == s.book.repayments + [row]
    ensures MoveOf(Trace(s, op, r)) == RecoveryShift(row.principal, row.reserve, row.loss)
  {
    AboutLast(s.book.repayments, r.state.book.repayments, row, OnRecovery);
  }

  lemma RecoveryExplained(s: State, op: Op, r: Reply)
    requires Kept(s.book) && op.OpFail? && r == SimulateFailure(s, op.vault)
    ensures Explained(s.book, Trace(s, op, r), r.state.book)
  {
    SimulateFailurePosts(s, op.vault);
    if Recoverable(s, op.vault) {
      RecoveryTrace(s, op, r, r.state.book.repayments[|s.book.repayments|]);
      RecoveredPosition(s.book, op.vault, ReserveCap(s.desk, s.book.vaults[op.vault].task));
    } else {
      RefusalExplained(s, op, r);
    }
  }

  predicate Moves(op: Op) { op.OpVault? || op.OpExecute? || op.OpRevenue? || op.OpFail? }

  lemma ProposeLeavesLedger(s: State, q: SpendRequest, now: int)
    ensures Propose(s, q, now).state.book.ledger == s.book.ledger
  {
  }

  lemma StatusLeavesLedger(s: State, op: Op, now: int)
    requires op.OpFreeze? || op.OpClose? || op.OpKill?
    ensures Perform(s, op, now).state.book.ledger == s.book.ledger
  {
  }

  lemma OthersLeaveLedger(s: State, op: Op, now: int)
    requires !Moves(op)
    ensures Perform(s, op, now).state.book.ledger == s.book.ledger
  {
    if op.OpPropose? {
      ProposeLeavesLedger(s, op.request, now);
    } else if DeskOnly(op) {
      DeskOnlyKeepsBook(s, op, now);
    } else {
      StatusLeavesLedger(s, op, now);
    }
  }

  lemma OthersTellNoMove(s: State, op: Op, r: Reply)
    requires !Moves(op)
    ensures MoveOf(Trace(s, op, r)) == NOWHERE
  {
  }

  lemma PerformExplained(s: State, op: Op, now: int, r: Reply)
    requires Kept(s.book) && r == Perform(s, op, now)
    ensures Explained(s.book, Trace(s, op, r), r.state.book)
  {
    if op.OpVault? {
      VaultExplained(s, op, now, r);
    } else if op.OpExecute? {
      ExecuteExplained(s, op, now, r);
    } else if op.OpRevenue? {
      RevenueExplained(s, op, r);
    } else if op.OpFail? {
      RecoveryExplained(s, op, r);
    } else {
      OthersLeaveLedger(s, op, now);
      OthersTellNoMove(s, op, r);
      StillExplained(s.book, Trace(s, op, r), r.state.book);
    }
  }

  lemma MovedStep(log: seq<Topic>, told: Option<Topic>, b: Book, c: Book)
    requires Moved(log) == LedgerPosition(b.ledger.journal) && Explained(b, told, c)
    ensures Moved(Written(log, told)) == LedgerPosition(c.ledger.journal)
  {
    MovedWritten(log, told);
  }

  lemma NothingMoved(journal: seq<L.Journal>, log: seq<Topic>)
    requires |journal| == |log| == 0
    ensures LedgerPosition(journal) == Moved(log)
  {
  }

  lemma ExplainedStep(y: System, e: Event, log: seq<Topic>)
    requires Kept(y.state.book) && Moved(log) == LedgerPosition(y.state.book.ledger.journal)
    ensures var r := Perform(y.state, e.op, e.now);
      Moved(Written(log, Trace(y.state, e.op, r))) == LedgerPosition(r.state.book.ledger.journal)
  {
    var r := Perform(y.state, e.op, e.now);
    PerformExplained(y.state, e.op, e.now, r);
    MovedStep(log, Trace(y.state, e.op, r), y.state.book, r.state.book);
  }

  /** The ten platform balances are what the audit log of the run adds up to. */
  lemma {:induction false} LogExplainsLedger(events: seq<Event>)
    ensures LedgerPosition(Run(START, events).state.book.ledger.journal) == Moved(Log(START, events))
  {
    if |events| == 0 {
      NothingMoved(Run(START, events).state.book.ledger.journal, Log(START, events));
    } else {
      var n := |events| - 1;
      LogExplainsLedger(events[..n]);
      if events[n].now >= Run(START, events[..n]).clock {
        RunKeepsState(events[..n]);
        ExplainedStep(Run(START, events[..n]), events[n], Log(START, events[..n]));
      }
    }
  }

  // ----- The decisions -----

  function VerdictTold(told: Option<Topic>): seq<DecisionEvent> {
    if told.Some? && told.value.CreditDecided? then [told.value.event] else []
  }

  function ReviewTold(told: Option<Topic>): seq<HumanReview> {
    if told.Some? && told.value.Reviewed? then [told.value.review] else []
  }

  function Verdicts(log: seq<Topic>): seq<DecisionEvent> {
    if |log| == 0 then [] else Verdicts(log[..|log| - 1]) + VerdictTold(Some(log[|log| - 1]))
  }

  function Reviews(log: seq<Topic>): seq<HumanReview> {
    if |log| == 0 then [] else Reviews(log[..|log| - 1]) + ReviewTold(Some(log[|log| - 1]))
  }

  lemma DecisionsWritten(log: seq<Topic>, told: Option<Topic>)
    ensures Verdicts(Written(log, told)) == Verdicts(log) + VerdictTold(told)
    ensures Reviews(Written(log, told)) == Reviews(log) + ReviewTold(told)
  {
    if told.Some? {
      assert (log + [told.value])[..|log|] == log;
    }
  }

  /** Decisions and reviews are recorded exactly when the event of the call says so. */
  predicate DecisionsTold(d: Desk, told: Option<Topic>, e: Desk) {
    e.verdicts == d.verdicts + VerdictTold(told) && e.reviews == d.reviews + ReviewTold(told)
  }

  lemma EvaluateTold(s: State, op: Op, now: int, r: Reply)
    requires op.OpEvaluate? && r == Evaluate(s, op.app, op.gateway, op.matched, now)
    ensures DecisionsTold(s.desk, Trace(s, op, r), r.state.desk)
  {
  }

  lemma ReviewTellsItself(s: State, op: Op, r: Reply)
    requires op.OpReview? && r == ReviewApplication(s, op.app, op.decision, op.amount)
    ensures DecisionsTold(s.desk, Trace(s, op, r), r.state.desk)
  {
  }

  lemma OthersTellNoDecision(s: State, op: Op, r: Reply)
    requires !op.OpEvaluate? && !op.OpReview?
    ensures VerdictTold(Trace(s, op, r)) == [] && ReviewTold(Trace(s, op, r)) == []
  {
  }

  lemma OthersDecideNothing(s: State, op: Op, now: int)
    requires !op.OpEvaluate? && !op.OpReview?
    ensures var e := Perform(s, op, now).state.desk; e.verdicts == s.desk.verdicts && e.reviews == s.desk.reviews
  {
    if op.OpVault? {
      FundShape(s, op.app, op.perTxn, now);
    } else if !CoreOp(op) {
      OthersKeepCore(s, op, now);
    }
  }

  lemma PerformTold(s: State, op: Op, now: int, r: Reply)
    requires r == Perform(s, op, now)
    ensures DecisionsTold(s.desk, Trace(s, op, r), r.state.desk)
  {
    if op.OpEvaluate? {
      EvaluateTold(s, op, now, r);
    } else if op.OpReview? {
      ReviewTellsItself(s, op, r);
    } else {
      OthersDecideNothing(s, op, now);
      OthersTellNoDecision(s, op, r);
    }
  }

  /** The verdicts and reviews the counts are taken from are those of the audit log. */
  lemma {:induction false} LogTellsDecisions(events: seq<Event>)
    ensures var d := Run(START, events).state.desk;
      d.verdicts == Verdicts(Log(START, events)) && d.reviews == Reviews(Log(START, events))
  {
    if events != [] {
      var n := |events| - 1;
      var y, e := Run(START, events[..n]), events[n];
      LogTellsDecisions(events[..n]);
      if e.now >= y.clock {
        var r := Perform(y.state, e.op, e.now);
        PerformTold(y.state, e.op, e.now, r);
        DecisionsWritten(Log(START, events[..n]), Trace(y.state, e.op, r));
      }
    }
  }

  // ----- Silent changes -----

  /** The calls that are not audited, and a refused execution whose caller catches the error. */
  predicate Unaudited(op: Op, r: Reply) {
    op.OpVendor? || op.OpEvidence? || op.OpSigner? || (op.OpExecute? && r.result.Err?)
  }

  lemma VaultSpeaks(s: State, op: Op, now: int, r: Reply)
    requires op.OpVault? && r == CreateVault(s, op.app, op.perTxn, now) && r.state != s
    ensures Trace(s, op, r).Some?
  {
  }

  lemma ProposeSpeaks(s: State, op: Op, now: int, r: Reply)
    requires op.OpPropose? && r == Propose(s, op.request, now) && r.state != s
    ensures Trace(s, op, r).Some?
  {
    ProposalFiled(s, op.request, now);
    ProposalTrace(s, op, r);
  }

  lemma ProposalFiled(s: State, q: SpendRequest, now: int)
    ensures var r := Propose(s, q, now);
      r.state == s
      || (FindProposal(s.book.proposals, q.key).None? && r.result == Ok(|s.book.proposals|)
          && |r.state.book.proposals| == |s.book.proposals| + 1)
  {
  }

  lemma ProposalTrace(s: State, op: Op, r: Reply)
    requires op.OpPropose? && FindProposal(s.book.proposals, op.request.key).None?
    requires r.result == Ok(|s.book.proposals|) && |r.state.book.proposals| == |s.book.proposals| + 1
    ensures Trace(s, op, r).Some?
  {
  }

  lemma ExecuteSpeaks(s: State, op: Op, now: int, r: Reply)
    requires op.OpExecute? && r == Execute(s, op.proposal, op.caught, now) && r.state != s
    ensures Trace(s, op, r).Some? <==> r.result.Ok?
  {
  }

  lemma RevenueSpeaks(s: State, op: Op, r: Reply)
    requires op.OpRevenue? && r == ReceiveRevenue(s, op.vault, op.amount, op.external, op.currency, op.completed)
    requires r.state != s
    ensures Trace(s, op, r).Some?
  {
  }

  lemma FailSpeaks(s: State, op: Op, r: Reply)
    requires op.OpFail? && r == SimulateFailure(s, op.vault) && r.state != s
    ensures Trace(s, op, r).Some?
  {
  }

  lemma DeskSpeaks(s: State, op: Op, now: int, r: Reply)
    requires (DeskOnly(op) && !op.OpEvaluate?) || op.OpKill? || op.OpFreeze? || op.OpClose?
    requires r == Perform(s, op, now) && r.state != s
    ensures Trace(s, op, r).None? <==> op.OpVendor? || op.OpEvidence? || op.OpSigner?
  {
  }

  lemma EvaluateSpeaks(s: State, op: Op, now: int, r: Reply)
    requires op.OpEvaluate? && r == Evaluate(s, op.app, op.gateway, op.matched, now) && r.state != s
    ensures Trace(s, op, r).Some?
  {
  }

  /** A call changes something without an audit event if and only if it is one of those that are
      not audited; everything else that changes anything is on record. */
  lemma SilentChange(s: State, op: Op, now: int)
    ensures var r := Perform(s, op, now);
      r.state != s ==> (Trace(s, op, r).None? <==> Unaudited(op, r))
  {
    var r := Perform(s, op, now);
    if r.state != s {
      if op.OpVault? {
        VaultSpeaks(s, op, now, r);
      } else if op.OpPropose? {
        ProposeSpeaks(s, op, now, r);
      } else if op.OpExecute? {
        ExecuteSpeaks(s, op, now, r);
      } else if op.OpRevenue? {
        RevenueSpeaks(s, op, r);
      } else if op.OpFail? {
        FailSpeaks(s, op, r);
      } else if op.OpEvaluate? {
        EvaluateSpeaks(s, op, now, r);
      } else {
        DeskSpeaks(s, op, now, r);
      }
    }
  }

  // ----- The chain -----

  /** How events are written down, and what a row's type, resource id and payload read as. */
  datatype Script = Script(write: Topic -> C.Body, read: (string, Option<string>, string) -> Option<Topic>)
  {
    function Reading(b: C.Body): Option<Topic> { read(b.eventType, b.resource, b.payload) }
  }

  ghost predicate Legible(x: Script) {
    forall t :: x.write(t).eventType == EventType(t) && x.Reading(x.write(t)) == Some(t)
  }

  /** The audit table: each event sealed after the one before it. */
  function Table(g: C.Digest, x: Script, log: seq<Topic>): seq<C.Row> {
    if |log| == 0 then []
    else
      var earlier := Table(g, x, log[..|log| - 1]);
      earlier + [C.Seal(g, C.HeadHash(earlier), x.write(log[|log| - 1]), |log|)]
  }

  /** The events a table holds. */
  function Readings(x: Script, rows: seq<C.Row>): seq<Topic> {
    if |rows| == 0 then []
    else
      Written(Readings(x, rows[..|rows| - 1]), x.Reading(rows[|rows| - 1].body))
  }

  lemma {:induction false} TableIntact(g: C.Digest, x: Script, log: seq<Topic>)
    ensures C.Intact(g, Table(g, x, log))
  {
    if |log| != 0 {
      var n := |log| - 1;
      TableIntact(g, x, log[..n]);
      var earlier := Table(g, x, log[..n]);
      C.ExtendsIntact(g, earlier, C.Seal(g, C.HeadHash(earlier), x.write(log[n]), |log|));
    }
  }

  /** A table with the same history reads the same, whatever its uncovered fields say. */
  lemma {:induction false} ReadsBack(g: C.Digest, x: Script, log: seq<Topic>, rows: seq<C.Row>)
    requires Legible(x) && C.SameHistory(Table(g, x, log), rows)
    ensures Readings(x, rows) == log
  {
    if |log| > 0 {
      var n := |log| - 1;
      ReadsBackLast(g, x, log, rows);
      ReadsBack(g, x, log[..n], rows[..|rows| - 1]);
      assert log == log[..n] + [log[n]];
    } else {
      assert |rows| == 0;
    }
  }

  lemma {:induction false} ReadsBackLast(g: C.Digest, x: Script, log: seq<Topic>, rows: seq<C.Row>)
    requires Legible(x) && |log| > 0 && C.SameHistory(Table(g, x, log), rows)
    ensures |rows| > 0 && C.SameHistory(Table(g, x, log[..|log| - 1]), rows[..|rows| - 1])
    ensures Readings(x, rows) == Readings(x, rows[..|rows| - 1]) + [log[|log| - 1]]
  {
    var table, earlier := Table(g, x, log), Table(g, x, log[..|log| - 1]);
    var before, row := rows[..|rows| - 1], rows[|rows| - 1];
    assert rows == before + [row] && table == earlier + [table[|earlier|]];
    LastRow(table, rows);
    C.SameHistoryExtends(earlier, before, table[|earlier|], row);
    LastReading(x, rows, table[|earlier|].body, log[|log| - 1]);
  }

  lemma {:induction false} LastReading(x: Script, rows: seq<C.Row>, body: C.Body, t: Topic)
    requires Legible(x) && |rows| > 0 && body == x.write(t)
    requires var b := rows[|rows| - 1].body;
      b.eventType == body.eventType && b.resource == body.resource && b.payload == body.payload
    ensures Readings(x, rows) == Readings(x, rows[..|rows| - 1]) + [t]
  {
    assert x.Reading(rows[|rows| - 1].body) == x.Reading(body);
  }

  lemma {:induction false} LastRow(a: seq<C.Row>, b: seq<C.Row>)
    requires C.SameHistory(a, b) && |a| > 0
    ensures var x, y := a[|a| - 1], b[|b| - 1];
      C.SameContent(x, y) && x.eventHash == y.eventHash
  {
  }

  /** One hash fixes the money and the decisions: any intact table that ends in the head hash of
      the audit table of a run adds up to the balances of the ledger and holds the verdicts and
      reviews of the desk, or else it hands out a collision of the hash or a preimage of the
      genesis value. */
  lemma HeadFixesBalances(g: C.Digest, x: Script, events: seq<Event>, rows: seq<C.Row>)
    requires C.Injective(g) && Legible(x) && C.Intact(g, rows)
    requires C.HeadHash(rows) == C.HeadHash(Table(g, x, Log(START, events)))
    ensures var s, e := Run(START, events).state, C.Extract(g, Table(g, x, Log(START, events)), rows);
      C.Genuine(g, e)
      && (e.Same? ==>
            && Moved(Readings(x, rows)) == LedgerPosition(s.book.ledger.journal)
            && Verdicts(Readings(x, rows)) == s.desk.verdicts && Reviews(Readings(x, rows)) == s.desk.reviews)
  {
    var log := Log(START, events);
    TableIntact(g, x, log);
    C.HeadBindsHistory(g, Table(g, x, log), rows);
    if C.SameHistory(Table(g, x, log), rows) {
      ReadsBack(g, x, log, rows);
      LogExplainsLedger(events);
      LogTellsDecisions(events);
    }
  }

  // ----- The dashboard -----

  lemma DecisionType(t: Topic)
    ensures EventType(t) == "CREDIT_DECISION" <==> t.CreditDecided?
  {
    var name := EventType(t);
    assert !t.CreditDecided? ==> |name| != 15 || name[0] != 'C';
  }

  /** The dashboard's verdicts: the payloads of the rows of type CREDIT_DECISION. */
  function DecisionRows(x: Script, rows: seq<C.Row>): seq<DecisionEvent> {
    if |rows| == 0 then []
    else
      var body := rows[|rows| - 1].body;
      DecisionRows(x, rows[..|rows| - 1])
      + if body.eventType == "CREDIT_DECISION" then VerdictTold(x.Reading(body)) else []
  }

  lemma {:induction false} TableDecisions(g: C.Digest, x: Script, log: seq<Topic>)
    requires Legible(x)
    ensures DecisionRows(x, Table(g, x, log)) == Verdicts(log)
  {
    if |log| != 0 {
      var n := |log| - 1;
      TableDecisions(g, x, log[..n]);
      var table := Table(g, x, log);
      assert table[..|table| - 1] == Table(g, x, log[..n]);
      assert table[|table| - 1].body == x.write(log[n]);
      DecisionType(log[n]);
    }
  }

  /** The counts the dashboard takes from the CREDIT_DECISION rows of the audit table, together
      with the reviews, are those it takes from the application statuses. */
  lemma DashboardCounts(g: C.Digest, x: Script, events: seq<Event>)
    requires Legible(x)
    ensures var d, verdicts := Run(START, events).state.desk, DecisionRows(x, Table(g, x, Log(START, events)));
      && LogTally(verdicts, d.reviews) == StatusTally(d.apps) && |verdicts| == |d.decisions|
  {
    TableDecisions(g, x, Log(START, events));
    LogTellsDecisions(events);
    RunKeepsState(events);
  }
}
