/** One credit from registration to repayment, call by call.  It shows that the theorems over runs
    speak of states that are reached: a vault opens, a payment is made, revenue repays it. */
module Scenario {
  import opened Tables
  import opened Statuses
  import opened Records
  import opened Operations
  import opened Invariants
  import opened Preservation
  import opened Provenance
  import opened Controls
  import opened CreditTerms
  import opened DeskEffects
  import opened MoneyEffects
  import R = Rules
  import U = Underwriting

  const REQUEST := Application(0, 0, Draft, "INR", 10, 1, 1_000, 100, 100, ["v"])

  const SPEND := SpendRequest(0, "v", 4, "p", "k", "INR")

  const VAULT := Vault(0, 0, 0, Active, "INR", 10, 0, 10, 10, 10, 0, 0, 5 + HOUR, 0, 100, [AllowRow("v", None)])

  ghost predicate Reachable(y: System) { exists events :: Run(START, events) == y }

  /** A reachable state at the time of its latest call. */
  ghost predicate At(now: int, s: State) { Reachable(System(now, s)) }

  // What one more call of each kind reaches.

  lemma OneMore(now: int, s: State, e: Event)
    requires At(now, s) && now <= e.now
    ensures At(e.now, Perform(s, e.op, e.now).state)
  {
    var events :| Run(START, events) == System(now, s);
    assert (events + [e])[..|events|] == events;
    assert Run(START, events + [e]) == System(e.now, Perform(s, e.op, e.now).state);
  }

  lemma EvaluateMore(s: State, op: Op, now: int)
    requires At(now, s) && op.OpEvaluate?
    ensures At(now, Evaluate(s, op.app, op.gateway, op.matched, now).state)
  {
    OneMore(now, s, Event(now, op));
  }

  lemma ReviewMore(s: State, op: Op, now: int)
    requires At(now, s) && op.OpReview?
    ensures At(now, ReviewApplication(s, op.app, op.decision, op.amount).state)
  {
    OneMore(now, s, Event(now, op));
  }

  lemma VaultMore(s: State, op: Op, now: int)
    requires At(now, s) && op.OpVault?
    ensures At(now, CreateVault(s, op.app, op.perTxn, now).state)
  {
    OneMore(now, s, Event(now, op));
  }

  lemma ProposeMore(past: int, s: State, op: Op, now: int)
    requires At(past, s) && past <= now && op.OpPropose?
    ensures At(now, Propose(s, op.request, now).state)
  {
    OneMore(past, s, Event(now, op));
  }

  lemma ExecuteMore(s: State, op: Op, now: int)
    requires At(now, s) && op.OpExecute?
    ensures At(now, Execute(s, op.proposal, op.caught, now).state)
  {
    OneMore(now, s, Event(now, op));
  }

  lemma RevenueMore(s: State, op: Op, now: int)
    requires At(now, s) && op.OpRevenue?
    ensures At(now, ReceiveRevenue(s, op.vault, op.amount, op.external, op.currency, op.completed).state)
  {
    RevenueIs(s, op, now);
    OneMore(now, s, Event(now, op));
  }

  lemma RevenueIs(s: State, op: Op, now: int)
    requires op.OpRevenue?
    ensures Perform(s, op, now)
         == ReceiveRevenue(s, op.vault, op.amount, op.external, op.currency, op.completed)
  {
  }

  lemma ReachableKept(now: int, s: State)
    requires At(now, s)
    ensures StateKept(s)
  {
    var events :| Run(START, events) == System(now, s);
    RunKeepsState(events);
  }

  // ----- Applying -----

  function Registered(): State {
    State(map["v" := ""], EMPTY_DESK.(agents := [Agent(R.AgentActive, 5)]), EMPTY_BOOK)
  }

  function Identified(): State {
    Registered().(desk := Registered().desk.(
      passports := [Passport(0, 5, 5 + 24 * HOUR, 100, 0)], evidence := [0]))
  }

  function Applied(): State { Identified().(desk := Identified().desk.(apps := [REQUEST])) }

  lemma Registers()
    ensures At(5, Registered())
  {
    assert Run(START, []) == START;
    OneMore(0, EMPTY, Event(5, OpVendor("v", "")));
    OneMore(5, EMPTY.(vendors := map["v" := ""]), Event(5, OpAgent));
  }

  lemma Identifies()
    ensures At(5, Identified())
  {
    Registers();
    OneMore(5, Registered(), Event(5, OpPassport(0, 100, 0, 24)));
    OneMore(5, Registered().(desk := Identified().desk.(evidence := [])), Event(5, OpEvidence(0)));
  }

  lemma FilesRequest(s: State)
    requires s.desk.apps == []
    ensures CreateApplication(s, REQUEST).state == s.(desk := s.desk.(apps := [REQUEST]))
  {
    assert Distinct(["v"][..0]) == [] && Distinct(["v"]) == ["v"];
  }

  lemma Applies()
    ensures At(5, Applied())
  {
    Identifies();
    OneMore(5, Identified(), Event(5, OpApply(REQUEST)));
    FilesRequest(Identified());
  }

  // ----- Opening -----

  /** What the run has brought about once a decision is due or made. */
  predicate Applying(s: State, status: AppStatus) {
    && s.vendors == Applied().vendors && s.desk.agents == Applied().desk.agents
    && s.desk.passports == Applied().desk.passports && s.desk.revocations == [] && s.desk.signer == 0
    && s.book == EMPTY_BOOK && s.desk.apps == [REQUEST.(status := status)]
    && 0 in s.desk.decisions && s.desk.decisions[0].approvedLimit == 10
  }

  lemma PassportHolds(d: Desk, now: int)
    requires d.agents == Applied().desk.agents && d.passports == Applied().desk.passports
    requires d.revocations == [] && d.signer == 0 && 5 <= now < 5 + 24 * HOUR
    ensures PassportValid(d, 0, now)
  {
    assert LatestPassport(d.passports, 0) == Some(0);
    forall f: PassportFault ensures !Faulty(f, d, 0, now) {
    }
  }

  /** The decision engine: ten units can be lent, and the missing mandate asks for a human. */
  lemma Decides()
    ensures var i := InputsOf(Applied(), REQUEST, None, false, 5);
      U.Limit(i) == 10 && U.VerdictOf(i) == U.Review
  {
    var i := InputsOf(Applied(), REQUEST, None, false, 5);
    assert LatestPassport(Applied().desk.passports, 0) == Some(0);
    assert i.passportMax == 100 && i.outstanding == 0 && !i.mandateValid;
    assert U.Holds(U.MandateMissing, i);
  }

  lemma Evaluates()
    ensures Applying(Evaluate(Applied(), 0, None, false, 5).state, HumanReviewRequired)
  {
    PassportHolds(Applied().desk, 5);
    Decides();
  }

  lemma Grants(s: State)
    requires Applying(s, HumanReviewRequired)
    ensures Applying(ReviewApplication(s, 0, ApproveFull, 0).state, AppApproved)
  {
  }

  predicate Opening(s: State) {
    && s.vendors == Applied().vendors && s.desk.agents == Applied().desk.agents
    && s.desk.passports == Applied().desk.passports && s.desk.revocations == [] && s.desk.signer == 0
    && s.book.vaults == [VAULT] && s.book.proposals == [] && s.book.payments == []
    && s.book.revenues == [] && s.book.repayments == [] && |s.book.ledger.journal| == 1
  }

  lemma AllowsVendor()
    ensures AllowRows(["v"], Applied().vendors) == [AllowRow("v", None)]
  {
    assert AllowRows(["v"][..0], Applied().vendors) == [];
  }

  lemma Opens(s: State)
    requires Kept(s.book) && Applying(s, AppApproved)
    ensures Opening(CreateVault(s, 0, None, 5).state)
  {
    CreateVaultPosts(s, 0, None, 5);
    AllowsVendor();
    assert s.desk.apps[0].vendors == ["v"];
    assert NewVault(s.desk.apps[0], 0, 10, None, [AllowRow("v", None)], 5) == VAULT;
    OpeningBook(s, CreateVault(s, 0, None, 5).state);
  }

  lemma OpeningBook(s: State, t: State)
    requires Applying(s, AppApproved) && t.book == Opened(s.book, VAULT) && t.vendors == s.vendors
    requires t.desk == s.desk.(apps := t.desk.apps, mandates := t.desk.mandates)
    ensures Opening(t)
  {
  }

  /** Without a model or a mandate the application goes to a human, who grants it in full. */
  lemma RunGrants() returns (s: State)
    ensures At(5, s) && Applying(s, AppApproved)
  {
    Applies();
    Evaluates();
    EvaluateMore(Applied(), OpEvaluate(0, None, false), 5);
    var decided := Evaluate(Applied(), 0, None, false, 5).state;
    Grants(decided);
    ReviewMore(decided, OpReview(0, ApproveFull, 0), 5);
    s := ReviewApplication(decided, 0, ApproveFull, 0).state;
  }

  lemma RunOpens() returns (s: State)
    ensures At(5, s) && Opening(s)
  {
    s := RunGrants();
    ReachableKept(5, s);
    Opens(s);
    VaultMore(s, OpVault(0, None), 5);
    s := CreateVault(s, 0, None, 5).state;
  }

  // ----- Spending -----

  lemma RulesAllow(s: State, now: int)
    requires s.desk.agents == Applied().desk.agents && s.book.vaults == [VAULT] && s.book.payments == []
    requires 5 <= now < 5 + HOUR
    ensures RuleReasons(s, SPEND, now) == {}
  {
    assert Vendors(VAULT.allow)[0] == "v";
    assert "v" in VendorSet(VAULT.allow);
    assert VendorPurposes(VAULT.allow[..0]) == map[];
    assert VendorPurposes(VAULT.allow) == map[];
    assert Spends(s.book.payments, 0, now - R.VELOCITY_WINDOW) == [];
    R.NoViolationMeansPermitted(LimitsOf(s, 0, now), ProposalOf(SPEND), PaceNow(s, SPEND, now), now);
  }

  /** The rules and the passport allow a spend and the policy denies it. */
  ghost predicate Disagree(s: State, q: SpendRequest, now: int) {
    && q.vault < |s.book.vaults|
    && RuleReasons(s, q, now) == {} && PassportValid(s.desk, s.book.vaults[q.vault].agent, now)
    && PolicyDenials(s, q, now) != {}
  }

  lemma EdgeDisagrees(s: State, now: int)
    requires Opening(s) && now == HOUR + 4
    ensures Disagree(s, SPEND, now)
  {
    RulesAllow(s, now);
    PassportHolds(s.desk, now);
    SecondDisagrees(s, SPEND, now);
  }

  lemma SecondDisagrees(s: State, q: SpendRequest, now: int)
    requires q.vault < |s.book.vaults| && Seconds(now) == Seconds(s.book.vaults[q.vault].expiresAt)
    requires RuleReasons(s, q, now) == {} && PassportValid(s.desk, s.book.vaults[q.vault].agent, now)
    ensures Disagree(s, q, now)
  {
    PolicyStricterWithinSecond(s, q, now);
  }

  /** The two spend controls do disagree: in a state that a run reaches, within the second in
      which the vault expires, the policy denies to a valid passport what the rules allow. */
  lemma ControlsCanDisagree()
    ensures exists y: System, q: SpendRequest, now: int ::
      Reachable(y) && now >= y.clock && Disagree(y.state, q, now)
  {
    var s := RunOpens();
    var now := HOUR + 4;
    EdgeDisagrees(s, now);
    var y := System(5, s);
    assert Reachable(y) && Disagree(y.state, SPEND, now);
  }

  predicate Proposed(s: State) {
    && s.desk.agents == Applied().desk.agents && s.book.vaults == [VAULT] && s.book.payments == []
    && s.book.revenues == [] && s.book.repayments == []
    && |s.book.ledger.journal| == 1 && |s.book.proposals| == 1
    && RequestOf(s.book.proposals[0]) == SPEND && s.book.proposals[0].status == ProposalApproved
  }

  lemma Proposes(s: State)
    requires Opening(s)
    ensures Proposed(Propose(s, SPEND, 6).state)
  {
    RulesAllow(s, 6);
    PassportHolds(s.desk, 6);
    ApprovedMeansBoth(s, SPEND, 6);
  }

  const PAYMENT := Payment(0, 0, "v", 4, "INR", 1, 6)

  predicate PaidOnce(b: Book) {
    && b.vaults == [VAULT.(spent := 4, transactionCount := 1, status := Spending)]
    && b.payments == [PAYMENT] && b.revenues == [] && b.repayments == []
    && |b.ledger.journal| == 2
  }

  lemma Executes(s: State)
    requires Kept(s.book) && Proposed(s)
    ensures PaidOnce(Execute(s, 0, false, 6).state.book)
  {
    RulesAllow(s, 6);
    ExecuteAccepts(s, 0, false, 6);
    PaysOnce(s.book, 0, 6);
  }

  lemma PaysOnce(b: Book, pid: nat, now: int)
    requires pid == 0 && now == 6 && b.vaults == [VAULT] && b.payments == [] && b.revenues == [] && b.repayments == []
    requires |b.ledger.journal| == 1 && |b.proposals| == 1 && RequestOf(b.proposals[0]) == SPEND
    ensures PaidOnce(PaidBook(b, pid, now))
  {
  }

  predicate PaidBack(b: Book) {
    && |b.vaults| == 1 && b.vaults[0].status == Repaid && b.vaults[0].principal == 0
    && b.payments == [PAYMENT]
    && |b.repayments| == 1 && b.repayments[0].principal == 10 && b.repayments[0].owner == 2
    && |b.ledger.journal| == 4
  }

  lemma Repays(s: State)
    requires Kept(s.book) && PaidOnce(s.book)
    ensures PaidBack(ReceiveRevenue(s, 0, 12, "x", "INR", true).state.book)
  {
    ReceiveRevenuePosts(s, 0, 12, "x", "INR", true);
  }

  lemma RunPays() returns (s: State)
    ensures At(6, s) && PaidOnce(s.book)
  {
    var before := RunOpens();
    Proposes(before);
    ProposeMore(5, before, OpPropose(SPEND), 6);
    s := Propose(before, SPEND, 6).state;
    ReachableKept(6, s);
    Executes(s);
    ExecuteMore(s, OpExecute(0, false), 6);
    s := Execute(s, 0, false, 6).state;
  }

  /** A vault opens, pays a vendor and is repaid from revenue, with a surplus for the owner. */
  lemma CreditIsRepaid()
    ensures exists y: System :: Reachable(y) && PaidBack(y.state.book)
  {
    var s := RunPays();
    ReachableKept(6, s);
    Repays(s);
    RevenueMore(s, OpRevenue(0, 12, "x", "INR", true), 6);
    assert At(6, ReceiveRevenue(s, 0, 12, "x", "INR", true).state);
  }

  // ----- Two applications at once -----

  /** An application for all its owner lets the agent owe. */
  const TIGHT := REQUEST.(ownerCap := 10)

  /** Two such applications of one agent, before any vault is opened. */
  predicate Two(s: State, first: AppStatus, second: AppStatus) {
    && s.vendors == Applied().vendors && s.desk.agents == Applied().desk.agents
    && s.desk.passports == Applied().desk.passports && s.desk.revocations == [] && s.desk.signer == 0
    && s.desk.evidence == [0] && s.desk.mandates == map[] && s.book == EMPTY_BOOK
    && s.desk.apps == [TIGHT.(status := first), TIGHT.(status := second)]
    && (first != Draft ==> 0 in s.desk.decisions && s.desk.decisions[0].approvedLimit == 10)
    && (second != Draft ==> 1 in s.desk.decisions && s.desk.decisions[1].approvedLimit == 10)
  }

  lemma TightFiles(s: State, op: Op, now: int)
    requires op == OpApply(TIGHT)
    ensures Perform(s, op, now).state == s.(desk := s.desk.(apps := s.desk.apps + [TIGHT]))
  {
    assert Distinct(["v"][..0]) == [] && Distinct(["v"]) == ["v"];
  }

  lemma RunAppliesTwice() returns (s: State)
    ensures At(5, s) && Two(s, Draft, Draft)
  {
    Identifies();
    var op := OpApply(TIGHT);
    OneMore(5, Identified(), Event(5, op));
    TightFiles(Identified(), op, 5);
    s := Perform(Identified(), op, 5).state;
    OneMore(5, s, Event(5, op));
    TightFiles(s, op, 5);
    s := Perform(s, op, 5).state;
  }

  /** Each is decided as if the other were not there: ten units can be lent, and a human is asked. */
  lemma TightDecided(s: State, op: Op, first: AppStatus)
    requires op.OpEvaluate? && op.gateway == None && Two(s, first, Draft)
    requires (op.app == 0 && first == Draft) || (op.app == 1 && first == HumanReviewRequired)
    ensures var t := Evaluate(s, op.app, op.gateway, op.matched, 5).state;
      if op.app == 0 then Two(t, HumanReviewRequired, Draft) else Two(t, HumanReviewRequired, HumanReviewRequired)
  {
    var a := s.desk.apps[op.app];
    PassportHolds(s.desk, 5);
    ValidOnRows(s.desk, 0, 5);
    EvaluateDecides(s, op.app, op.gateway, op.matched, 5);
    var x := Evaluate(s, op.app, op.gateway, op.matched, 5).state.desk.decisions[op.app];
    TightCaps(s, a, x.caps.value);
    assert Asked(U.MandateMissing, s, a, op.gateway, op.matched, RiskOnRows(s, a, 5), 10);
  }

  lemma TightCaps(s: State, a: Application, caps: U.Caps)
    requires CapsOnRows(caps, s, a) && a.requested == 10 && a.ownerCap == 10 && a.revenue == 1_000 && a.cost == 100
    requires a.agent == 0 && s.book.vaults == [] && s.desk.passports == Applied().desk.passports
    ensures Min(caps.requested, Min(caps.exposure, Min(caps.advance, Min(caps.cost, caps.policy)))) == 10
  {
    assert LatestRow(s.desk.passports, 0, 0);
  }

  lemma TightGranted(s: State, op: Op, first: AppStatus)
    requires op.OpReview? && op.decision == ApproveFull && Two(s, first, HumanReviewRequired)
    requires (op.app == 0 && first == HumanReviewRequired) || (op.app == 1 && first == AppApproved)
    ensures var t := ReviewApplication(s, op.app, op.decision, op.amount).state;
      if op.app == 0 then Two(t, AppApproved, HumanReviewRequired) else Two(t, AppApproved, AppApproved)
  {
    ReviewSettles(s, op.app, op.decision, op.amount);
  }

  lemma RunGrantsTwice() returns (s: State)
    ensures At(5, s) && Two(s, AppApproved, AppApproved)
  {
    s := RunAppliesTwice();
    var e0, e1 := OpEvaluate(0, None, false), OpEvaluate(1, None, false);
    EvaluateMore(s, e0, 5);
    TightDecided(s, e0, Draft);
    s := Evaluate(s, e0.app, e0.gateway, e0.matched, 5).state;
    EvaluateMore(s, e1, 5);
    TightDecided(s, e1, HumanReviewRequired);
    s := Evaluate(s, e1.app, e1.gateway, e1.matched, 5).state;
    var r0, r1 := OpReview(0, ApproveFull, 0), OpReview(1, ApproveFull, 0);
    ReviewMore(s, r0, 5);
    TightGranted(s, r0, HumanReviewRequired);
    s := ReviewApplication(s, r0.app, r0.decision, r0.amount).state;
    ReviewMore(s, r1, 5);
    TightGranted(s, r1, AppApproved);
    s := ReviewApplication(s, r1.app, r1.decision, r1.amount).state;
  }

  predicate TightVault(v: Vault, app: nat) {
    v.agent == 0 && v.application == app && v.principal == 10 && v.status == Active
  }

  /** The first `n` of the two applications have their vaults, and nothing is paid back. */
  predicate OpenedFirst(s: State, n: nat) {
    && n <= 2 && s.vendors == Applied().vendors
    && |s.book.vaults| == n && (forall i :: 0 <= i < n ==> TightVault(s.book.vaults[i], i))
    && |s.desk.apps| == 2
    && (forall i :: 0 <= i < 2 ==>
          && s.desk.apps[i] == TIGHT.(status := s.desk.apps[i].status)
          && (n <= i ==> s.desk.apps[i].status == AppApproved)
          && i in s.desk.decisions && s.desk.decisions[i].approvedLimit == 10)
  }

  lemma TightOpens(s: State, op: Op)
    requires Kept(s.book) && op.OpVault? && op.app < 2 && OpenedFirst(s, op.app)
    ensures OpenedFirst(CreateVault(s, op.app, op.perTxn, 5).state, op.app + 1)
  {
    CreateVaultOpens(s, op.app, op.perTxn, 5);
    assert s.desk.apps[op.app].vendors == ["v"];
    assert Ready(s, op.app);
  }

  lemma RunOpensTwice() returns (s: State)
    ensures At(5, s) && OpenedFirst(s, 2)
  {
    s := RunGrantsTwice();
    s := RunOpensNext(s, OpVault(0, None));
    s := RunOpensNext(s, OpVault(1, None));
  }

  lemma RunOpensNext(s: State, op: Op) returns (t: State)
    requires At(5, s) && op.OpVault? && op.app < 2 && OpenedFirst(s, op.app)
    ensures At(5, t) && OpenedFirst(t, op.app + 1)
  {
    ReachableKept(5, s);
    VaultMore(s, op, 5);
    TightOpens(s, op);
    t := CreateVault(s, op.app, op.perTxn, 5).state;
  }

  lemma TightOwes(vaults: seq<Vault>)
    requires |vaults| == 2 && TightVault(vaults[0], 0) && TightVault(vaults[1], 1)
    ensures Sum(vaults, Owed(0)) == 20
  {
    assert vaults == [vaults[0]] + [vaults[1]];
    SumAppend([vaults[0]], vaults[1], Owed(0));
    assert Sum([vaults[0]], Owed(0)) == Sum([vaults[0]][..0], Owed(0)) + 10;
  }

  /** The owner's cap is not kept over runs: two applications decided before either has its vault
      are each measured as if the other were not there, and together owe twice the cap. */
  lemma ExposureCanBeExceeded()
    ensures exists y: System, i: nat ::
      Reachable(y) && i < |y.state.book.vaults| && OverExposed(y.state, y.state.book.vaults[i])
  {
    var s := RunOpensTwice();
    TightOwes(s.book.vaults);
    assert OverExposed(s, s.book.vaults[0]);
    var y := System(5, s);
    assert Reachable(y) && OverExposed(y.state, y.state.book.vaults[0]);
  }

  /** The agent of a vault owes more than the owner's cap of the application the vault came from. */
  predicate OverExposed(s: State, v: Vault) {
    v.application < |s.desk.apps| && Sum(s.book.vaults, Owed(v.agent)) > s.desk.apps[v.application].ownerCap
  }
}
