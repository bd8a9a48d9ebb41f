/** Where a vault's limit comes from: application, decision, review and vault agree, and the
    counts derived from the audit log agree with those derived from application statuses. */
module Provenance {
  import opened Tables
  import opened Statuses
  import opened Records
  import opened Operations
  import opened Growth
  import opened Invariants
  import opened Preservation
  import U = Underwriting

  // ----- Decisions -----

  /** A decision that grants anything records the caps it was bounded by. */
  ghost predicate Bounded(x: Decision) {
    x.approvedLimit > 0 ==> x.caps.Some? && U.Within(x.approvedLimit, x.caps.value)
  }

  ghost predicate Decided(d: Desk) {
    && (forall i: nat :: i in d.decisions <==> i < |d.apps| && d.apps[i].status != Draft)
    && (forall i: nat :: i in d.decisions ==> Bounded(d.decisions[i]))
  }

  // ----- Counts -----

  function ApproveVerdict(e: DecisionEvent): int { One(e.verdict == U.Approve) }
  function RejectVerdict(e: DecisionEvent): int { One(e.verdict == U.Reject) }
  function ReferVerdict(e: DecisionEvent): int { One(e.verdict == U.Review) }
  function ReviewedUp(r: HumanReview): int { One(r.action == ApproveFull || r.action == Reduce) }
  function ReviewedDown(r: HumanReview): int { One(r.action == Decline) }
  function ApprovedApp(a: Application): int { One(ApprovedStatus(a.status)) }
  function RejectedApp(a: Application): int { One(a.status == AppRejected) }
  function AwaitingApp(a: Application): int { One(a.status == HumanReviewRequired) }

  datatype Tally = Tally(approvals: int, rejections: int, awaiting: int)
  {
    function Plus(t: Tally): Tally { Tally(approvals + t.approvals, rejections + t.rejections, awaiting + t.awaiting) }
    function Minus(t: Tally): Tally { Tally(approvals - t.approvals, rejections - t.rejections, awaiting - t.awaiting) }
  }

  /** Counted from engine verdicts in the audit log and from reviews. */
  function LogTally(verdicts: seq<DecisionEvent>, reviews: seq<HumanReview>): Tally {
    Tally(Sum(verdicts, ApproveVerdict) + Sum(reviews, ReviewedUp),
          Sum(verdicts, RejectVerdict) + Sum(reviews, ReviewedDown),
          Sum(verdicts, ReferVerdict) - Sum(reviews, ReviewedUp) - Sum(reviews, ReviewedDown))
  }

  /** Counted from application statuses. */
  function StatusTally(apps: seq<Application>): Tally {
    Tally(Sum(apps, ApprovedApp), Sum(apps, RejectedApp), Sum(apps, AwaitingApp))
  }

  function Mark(s: AppStatus): Tally {
    Tally(One(ApprovedStatus(s)), One(s == AppRejected), One(s == HumanReviewRequired))
  }

  ghost predicate Counted(d: Desk) {
    LogTally(d.verdicts, d.reviews) == StatusTally(d.apps) && |d.verdicts| == |d.decisions|
  }

  lemma TallyMoves(t: Tally, u: Tally, m: Tally, n: Tally)
    requires u.approvals == t.approvals - m.approvals + n.approvals
    requires u.rejections == t.rejections - m.rejections + n.rejections
    requires u.awaiting == t.awaiting - m.awaiting + n.awaiting
    ensures u == t.Minus(m).Plus(n)
  {
  }

  lemma AppMoves(apps: seq<Application>, i: nat, row: Application)
    requires i < |apps|
    ensures StatusTally(apps[i := row]) == StatusTally(apps).Minus(Mark(apps[i].status)).Plus(Mark(row.status))
  {
    SumUpdate(apps, i, row, ApprovedApp);
    SumUpdate(apps, i, row, RejectedApp);
    SumUpdate(apps, i, row, AwaitingApp);
    TallyMoves(StatusTally(apps), StatusTally(apps[i := row]), Mark(apps[i].status), Mark(row.status));
  }

  lemma DraftUnmarked(t: Tally)
    ensures t.Minus(Mark(Draft)) == t
  {
  }

  lemma ApprovalsAppend(verdicts: seq<DecisionEvent>, e: DecisionEvent)
    ensures Sum(verdicts + [e], ApproveVerdict) == Sum(verdicts, ApproveVerdict) + Mark(StatusFor(e.verdict)).approvals
  {
    SumAppend(verdicts, e, ApproveVerdict);
  }

  lemma RejectionsAppend(verdicts: seq<DecisionEvent>, e: DecisionEvent)
    ensures Sum(verdicts + [e], RejectVerdict) == Sum(verdicts, RejectVerdict) + Mark(StatusFor(e.verdict)).rejections
  {
    SumAppend(verdicts, e, RejectVerdict);
  }

  lemma ReferralsAppend(verdicts: seq<DecisionEvent>, e: DecisionEvent)
    ensures Sum(verdicts + [e], ReferVerdict) == Sum(verdicts, ReferVerdict) + Mark(StatusFor(e.verdict)).awaiting
  {
    SumAppend(verdicts, e, ReferVerdict);
  }

  lemma VerdictMoves(verdicts: seq<DecisionEvent>, reviews: seq<HumanReview>, e: DecisionEvent)
    ensures LogTally(verdicts + [e], reviews) == LogTally(verdicts, reviews).Plus(Mark(StatusFor(e.verdict)))
  {
    var after := verdicts + [e];
    ApprovalsAppend(verdicts, e);
    RejectionsAppend(verdicts, e);
    ReferralsAppend(verdicts, e);
    TallyAdds(Sum(verdicts, ApproveVerdict), Sum(verdicts, RejectVerdict), Sum(verdicts, ReferVerdict),
              Sum(after, ApproveVerdict), Sum(after, RejectVerdict), Sum(after, ReferVerdict),
              Sum(reviews, ReviewedUp), Sum(reviews, ReviewedDown), Mark(StatusFor(e.verdict)));
  }

  /** The arithmetic of a tally whose verdict counts grow by a mark. */
  lemma TallyAdds(a: int, r: int, w: int, a': int, r': int, w': int, up: int, down: int, m: Tally)
    requires a' == a + m.approvals && r' == r + m.rejections && w' == w + m.awaiting
    ensures Tally(a' + up, r' + down, w' - up - down) == Tally(a + up, r + down, w - up - down).Plus(m)
  {
  }

  lemma UpsAppend(reviews: seq<HumanReview>, r: HumanReview)
    requires r.action != UnknownAction
    ensures Sum(reviews + [r], ReviewedUp) == Sum(reviews, ReviewedUp) + One(r.action != Decline)
  {
    SumAppend(reviews, r, ReviewedUp);
  }

  lemma DownsAppend(reviews: seq<HumanReview>, r: HumanReview)
    ensures Sum(reviews + [r], ReviewedDown) == Sum(reviews, ReviewedDown) + One(r.action == Decline)
  {
    SumAppend(reviews, r, ReviewedDown);
  }

  lemma ReviewMoves(verdicts: seq<DecisionEvent>, reviews: seq<HumanReview>, r: HumanReview)
    requires r.action != UnknownAction
    ensures LogTally(verdicts, reviews + [r])
         == LogTally(verdicts, reviews).Minus(Mark(HumanReviewRequired))
              .Plus(Mark(if r.action == Decline then AppRejected else AppApproved))
  {
    var after := reviews + [r];
    UpsAppend(reviews, r);
    DownsAppend(reviews, r);
    var a, j, w := Sum(verdicts, ApproveVerdict), Sum(verdicts, RejectVerdict), Sum(verdicts, ReferVerdict);
    var up, down := Sum(reviews, ReviewedUp), Sum(reviews, ReviewedDown);
    if r.action == Decline {
      TallyReviews(a, j, w, up, down, Sum(after, ReviewedUp), Sum(after, ReviewedDown), true);
    } else {
      TallyReviews(a, j, w, up, down, Sum(after, ReviewedUp), Sum(after, ReviewedDown), false);
    }
  }

  /** The arithmetic of a tally when one review goes up or down. */
  lemma TallyReviews(a: int, r: int, w: int, up: int, down: int, up': int, down': int, declined: bool)
    requires up' == up + One(!declined) && down' == down + One(declined)
    ensures Tally(a + up', r + down', w - up' - down')
         == Tally(a + up, r + down, w - up - down).Minus(Mark(HumanReviewRequired))
              .Plus(Mark(if declined then AppRejected else AppApproved))
  {
  }

  // ----- Funding -----

  /** Each vault was opened from one application, for exactly the limit decided for it. */
  ghost predicate FundedBy(v: Vault, d: Desk) {
    && v.application < |d.apps| && v.application in d.decisions
    && d.apps[v.application].status == DisbursementEnabled
    && d.apps[v.application].agent == v.agent
    && d.decisions[v.application].approvedLimit == v.totalLimit
  }

  ghost predicate Traced(s: State) {
    && (forall v :: v in s.book.vaults ==> FundedBy(v, s.desk))
    && (forall i, k :: 0 <= i < k < |s.book.vaults| ==> s.book.vaults[i].application != s.book.vaults[k].application)
  }

  ghost predicate DeskKept(d: Desk) { Decided(d) && Counted(d) }

  // ----- Steps of the desk -----

  lemma StoreDecided(d: Desk, app: nat, x: Decision)
    requires Decided(d) && app < |d.apps| && Bounded(x)
    ensures Decided(StoreDecision(d, app, x))
  {
  }

  lemma StoreCounted(d: Desk, app: nat, x: Decision)
    requires Counted(d) && app < |d.apps| && d.apps[app].status == Draft && app !in d.decisions
    ensures Counted(StoreDecision(d, app, x))
  {
    AppMoves(d.apps, app, d.apps[app].(status := StatusFor(x.verdict)));
    VerdictMoves(d.verdicts, d.reviews, DecisionEvent(app, x.verdict));
    DraftUnmarked(StatusTally(d.apps));
  }

  lemma StoreKeeps(d: Desk, app: nat, x: Decision)
    requires DeskKept(d) && app < |d.apps| && d.apps[app].status == Draft && Bounded(x)
    ensures DeskKept(StoreDecision(d, app, x))
  {
    StoreDecided(d, app, x);
    StoreCounted(d, app, x);
  }

  /** Facts of the desk that other columns do not enter. */
  predicate SameCore(d: Desk, e: Desk) {
    e.apps == d.apps && e.decisions == d.decisions && e.verdicts == d.verdicts && e.reviews == d.reviews
  }

  lemma AssessBounded(s: State, app: nat, gateway: Option<Gateway>, matched: bool, now: int)
    requires app < |s.desk.apps|
    ensures SameCore(s.desk, Assess(s, app, gateway, matched, now).0)
    ensures Bounded(Assess(s, app, gateway, matched, now).1)
  {
  }

  lemma EvaluateKeeps(s: State, app: nat, gateway: Option<Gateway>, matched: bool, now: int)
    requires DeskKept(s.desk)
    ensures DeskKept(Evaluate(s, app, gateway, matched, now).state.desk)
  {
    if app < |s.desk.apps| && s.desk.apps[app].status == Draft {
      AssessBounded(s, app, gateway, matched, now);
      var (d', x) := Assess(s, app, gateway, matched, now);
      assert DeskKept(d');
      StoreKeeps(d', app, x);
    }
  }

  /** A review moves one application out of the queue, never above the decided limit. */
  lemma ReviewShape(s: State, app: nat, action: ReviewAction, amount: int)
    ensures var d, e := s.desk, ReviewApplication(s, app, action, amount).state.desk;
      e == d
      || (&& app < |d.apps| && app in d.decisions && d.apps[app].status == HumanReviewRequired
          && action != UnknownAction
          && e.apps == d.apps[app := d.apps[app].(status := if action == Decline then AppRejected else AppApproved)]
          && e.verdicts == d.verdicts && |e.reviews| == |d.reviews| + 1
          && e.reviews == d.reviews + [e.reviews[|d.reviews|]] && e.reviews[|d.reviews|].action == action
          && app in e.decisions && e.decisions == d.decisions[app := e.decisions[app]]
          && e.decisions[app].caps == d.decisions[app].caps
          && e.decisions[app].approvedLimit <= d.decisions[app].approvedLimit)
  {
  }

  lemma ReviewKeeps(s: State, app: nat, action: ReviewAction, amount: int)
    requires DeskKept(s.desk)
    ensures DeskKept(ReviewApplication(s, app, action, amount).state.desk)
  {
    ReviewShape(s, app, action, amount);
    var d, e := s.desk, ReviewApplication(s, app, action, amount).state.desk;
    if e != d {
      ReviewMoves(d.verdicts, d.reviews, e.reviews[|d.reviews|]);
      AppMoves(d.apps, app, e.apps[app]);
      assert e.decisions.Keys == d.decisions.Keys;
      assert |e.decisions| == |e.decisions.Keys| && |d.decisions| == |d.decisions.Keys|;
      ReviewDecided(d, e, app);
    }
  }

  lemma ReviewDecided(d: Desk, e: Desk, app: nat)
    requires Decided(d) && app < |d.apps| == |e.apps| && app in d.decisions && app in e.decisions
    requires e.apps == d.apps[app := e.apps[app]] && e.apps[app].status != Draft
    requires e.decisions == d.decisions[app := e.decisions[app]]
    requires e.decisions[app].caps == d.decisions[app].caps
    requires e.decisions[app].approvedLimit <= d.decisions[app].approvedLimit
    ensures Decided(e)
  {
  }

  lemma ApplyKeeps(s: State, a: Application)
    requires DeskKept(s.desk)
    ensures DeskKept(CreateApplication(s, a).state.desk)
  {
    var d, e := s.desk, CreateApplication(s, a).state.desk;
    if e != d {
      var row := e.apps[|d.apps|];
      SumAppend(d.apps, row, ApprovedApp);
      SumAppend(d.apps, row, RejectedApp);
      SumAppend(d.apps, row, AwaitingApp);
    }
  }

  lemma FundShape(s: State, app: nat, perTxn: Option<int>, now: int)
    ensures var d, e := s.desk, CreateVault(s, app, perTxn, now).state.desk;
      e == d
      || (app < |d.apps| && d.apps[app].status == AppApproved
          && e == d.(apps := d.apps[app := d.apps[app].(status := DisbursementEnabled)], mandates := e.mandates))
  {
  }

  lemma FundKeeps(s: State, app: nat, perTxn: Option<int>, now: int)
    requires DeskKept(s.desk)
    ensures DeskKept(CreateVault(s, app, perTxn, now).state.desk)
  {
    FundShape(s, app, perTxn, now);
    var d, e := s.desk, CreateVault(s, app, perTxn, now).state.desk;
    if e != d {
      AppMoves(d.apps, app, e.apps[app]);
    }
  }

  lemma ProposeCore(s: State, q: SpendRequest, now: int)
    ensures SameCore(s.desk, Propose(s, q, now).state.desk)
  {
  }

  lemma ExecuteCore(s: State, pid: nat, caught: bool, now: int)
    ensures SameCore(s.desk, Execute(s, pid, caught, now).state.desk)
  {
  }

  lemma RevenueCore(s: State, vid: nat, amount: int, external: string, currency: string, completed: bool)
    ensures SameCore(s.desk, ReceiveRevenue(s, vid, amount, external, currency, completed).state.desk)
  {
  }

  lemma FailCore(s: State, vid: nat)
    ensures SameCore(s.desk, SimulateFailure(s, vid).state.desk)
  {
  }

  predicate CoreOp(op: Op) { op.OpEvaluate? || op.OpReview? || op.OpApply? || op.OpVault? }

  /** Operations that leave applications, decisions, verdicts and reviews alone. */
  lemma OthersKeepCore(s: State, op: Op, now: int)
    requires !CoreOp(op)
    ensures SameCore(s.desk, Perform(s, op, now).state.desk)
  {
    match op
    case OpPropose(request) => ProposeCore(s, request, now);
    case OpExecute(pid, caught) => ExecuteCore(s, pid, caught, now);
    case OpRevenue(vid, amount, external, currency, completed) =>
      RevenueCore(s, vid, amount, external, currency, completed);
    case OpFail(vid) => FailCore(s, vid);
    case OpFreeze(vid) =>
    case OpClose(vid) =>
    case OpKill(agent, action) =>
    case _ => RegistrationCore(s, op, now);
  }

  lemma RegistrationCore(s: State, op: Op, now: int)
    requires DeskOnly(op) && !CoreOp(op)
    ensures SameCore(s.desk, Perform(s, op, now).state.desk)
  {
  }

  lemma PerformKeepsDesk(s: State, op: Op, now: int)
    requires DeskKept(s.desk)
    ensures DeskKept(Perform(s, op, now).state.desk)
  {
    match op
    case OpEvaluate(app, gateway, matched) => EvaluateKeeps(s, app, gateway, matched, now);
    case OpReview(app, action, amount) => ReviewKeeps(s, app, action, amount);
    case OpApply(a) => ApplyKeeps(s, a);
    case OpVault(app, perTxn) => FundKeeps(s, app, perTxn, now);
    case _ => OthersKeepCore(s, op, now);
  }

  // ----- Tracing vaults to decisions -----

  /** Decisions behind funded applications are final. */
  predicate FundingStays(d: Desk, e: Desk) {
    && |d.apps| <= |e.apps|
    && forall i :: 0 <= i < |d.apps| && d.apps[i].status == DisbursementEnabled && i in d.decisions ==>
         e.apps[i] == d.apps[i] && i in e.decisions && e.decisions[i] == d.decisions[i]
  }

  lemma EvaluateFunding(s: State, app: nat, gateway: Option<Gateway>, matched: bool, now: int)
    ensures FundingStays(s.desk, Evaluate(s, app, gateway, matched, now).state.desk)
  {
    if app < |s.desk.apps| { AssessBounded(s, app, gateway, matched, now); }
  }

  lemma ReviewFunding(s: State, app: nat, action: ReviewAction, amount: int)
    ensures FundingStays(s.desk, ReviewApplication(s, app, action, amount).state.desk)
  {
    ReviewShape(s, app, action, amount);
  }

  lemma VaultFunding(s: State, app: nat, perTxn: Option<int>, now: int)
    ensures FundingStays(s.desk, CreateVault(s, app, perTxn, now).state.desk)
  {
    FundShape(s, app, perTxn, now);
  }

  lemma CoreFunding(d: Desk, e: Desk)
    requires SameCore(d, e)
    ensures FundingStays(d, e)
  {
  }

  lemma PerformKeepsFunding(s: State, op: Op, now: int)
    ensures FundingStays(s.desk, Perform(s, op, now).state.desk)
  {
    match op
    case OpEvaluate(app, gateway, matched) => EvaluateFunding(s, app, gateway, matched, now);
    case OpVault(app, perTxn) => VaultFunding(s, app, perTxn, now);
    case OpReview(app, action, amount) => ReviewFunding(s, app, action, amount);
    case OpApply(a) =>
    case _ =>
      OthersKeepCore(s, op, now);
      CoreFunding(s.desk, Perform(s, op, now).state.desk);
  }

  lemma TracedStays(s: State, t: State)
    requires Traced(s) && FundingStays(s.desk, t.desk) && Grows(s.book, t.book)
    requires |t.book.vaults| == |s.book.vaults|
    ensures Traced(t)
  {
    forall v | v in t.book.vaults ensures FundedBy(v, t.desk) {
      var i :| 0 <= i < |t.book.vaults| && t.book.vaults[i] == v;
      assert s.book.vaults[i] in s.book.vaults;
      assert VaultGrows(s.book.vaults[i], v);
    }
    forall i, k | 0 <= i < k < |t.book.vaults| ensures t.book.vaults[i].application != t.book.vaults[k].application {
      assert VaultGrows(s.book.vaults[i], t.book.vaults[i]) && VaultGrows(s.book.vaults[k], t.book.vaults[k]);
    }
  }

  lemma CreateVaultTraced(s: State, app: nat, perTxn: Option<int>, now: int)
    requires Kept(s.book) && Traced(s)
    ensures Traced(CreateVault(s, app, perTxn, now).state)
  {
    CreateVaultPosts(s, app, perTxn, now);
    VaultFunding(s, app, perTxn, now);
    var r := CreateVault(s, app, perTxn, now);
    if r.result.Ok? {
      var a := s.desk.apps[app];
      var v := NewVault(a, app, s.desk.decisions[app].approvedLimit, perTxn, AllowRows(a.vendors, s.vendors), now);
      FundShape(s, app, perTxn, now);
      NewVaultTraced(s, r.state, v);
    }
  }

  lemma NewVaultTraced(s: State, t: State, v: Vault)
    requires Traced(s) && FundingStays(s.desk, t.desk) && t.book.vaults == s.book.vaults + [v]
    requires FundedBy(v, t.desk)
    requires v.application < |s.desk.apps| && s.desk.apps[v.application].status == AppApproved
    ensures Traced(t)
  {
    forall x | x in t.book.vaults ensures FundedBy(x, t.desk) {
      if x != v {
        assert FundedBy(x, s.desk);
      }
    }
    forall x | x in s.book.vaults ensures x.application != v.application {
      assert FundedBy(x, s.desk);
    }
  }

  lemma PerformKeepsTrace(s: State, op: Op, now: int)
    requires Kept(s.book) && Traced(s)
    ensures Traced(Perform(s, op, now).state)
  {
    if op.OpVault? {
      CreateVaultTraced(s, op.app, op.perTxn, now);
    } else {
      PerformKeepsFunding(s, op, now);
      PerformGrows(s, op, now);
      TracedStays(s, Perform(s, op, now).state);
    }
  }

  ghost predicate StateKept(s: State) { Kept(s.book) && DeskKept(s.desk) && Traced(s) }

  lemma EmptyStateKept()
    ensures StateKept(EMPTY)
  {
    EmptyKept();
    assert LogTally([], []) == Tally(0, 0, 0) == StatusTally([]);
  }

  lemma PerformKeepsState(s: State, op: Op, now: int)
    requires StateKept(s)
    ensures StateKept(Perform(s, op, now).state)
  {
    PerformKeeps(s, op, now);
    PerformKeepsDesk(s, op, now);
    PerformKeepsTrace(s, op, now);
  }

  /** Every reachable state has sound books, consistent counts and traced vaults. */
  lemma {:induction false} RunKeepsState(events: seq<Event>)
    ensures StateKept(Run(START, events).state)
  {
    if events == [] {
      EmptyStateKept();
    } else {
      var n := |events| - 1;
      RunKeepsState(events[..n]);
      var before := Run(START, events[..n]);
      if events[n].now >= before.clock {
        PerformKeepsState(before.state, events[n].op, events[n].now);
      }
    }
  }
}
