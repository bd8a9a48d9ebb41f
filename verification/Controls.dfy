/** How the controls relate: the policy engine against the vault rules, and the advisory model
    against the decision engine. */
module Controls {
  import opened Tables
  import opened Statuses
  import opened Records
  import opened Operations
  import R = Rules
  import P = Policy
  import S = Passports
  import U = Underwriting

  // ----- Two controls on one spend -----

  lemma TextsMember(items: seq<string>, x: string)
    ensures P.Str(x) in P.Texts(items) <==> x in items
  {
    var texts := P.Texts(items);
    if x in items {
      var i :| 0 <= i < |items| && items[i] == x;
      assert texts[i] == P.Str(x);
    }
    if P.Str(x) in texts {
      var i :| 0 <= i < |texts| && texts[i] == P.Str(x);
      assert items[i] == x;
    }
  }

  lemma SecondsOrder(x: int, y: int)
    ensures P.AsReal(P.Int(x)) < P.AsReal(P.Int(y)) <==> x < y
  {
  }

  /** What the engine reads from the document of a spend request. */
  lemma ReadDocument(v: Vault, agentStatus: R.AgentStatus, valid: bool, q: SpendRequest, rulesAllow: bool, now: int)
    ensures P.Read(DocumentOf(v, agentStatus, valid, q, rulesAllow, now))
         == P.Reading(P.Bool(valid), P.Int(Seconds(v.expiresAt)), P.Int(Seconds(now)), AgentText(agentStatus),
                      VaultText(v.status), P.Str(q.vendor), P.List(P.Texts(Vendors(v.allow))), P.Int(q.amount),
                      P.Int(v.perTransactionLimit), P.Int(v.spent), P.Int(v.totalLimit),
                      if rulesAllow then P.PASS else P.Str("FAIL"))
  {
    P.DocumentReadsBack(valid, Seconds(v.expiresAt), Seconds(now), AgentText(agentStatus), VaultText(v.status),
                        Vendors(v.allow), v.perTransactionLimit, v.spent, v.totalLimit, q.vendor, q.amount, rulesAllow);
  }

  /** Two-control agreement: on the document `propose_transaction` builds, the policy engine
      allows exactly when the vault rules do, the passport verifies, and the vault has not expired
      counting whole seconds.  The rules compare exact times, so within the expiry second the
      policy engine is the stricter of the two. */
  lemma TwoControlsAgree(s: State, q: SpendRequest, now: int)
    requires q.vault < |s.book.vaults|
    ensures var v := s.book.vaults[q.vault];
      PolicyDenials(s, q, now) == {}
      <==> RuleReasons(s, q, now) == {} && PassportValid(s.desk, v.agent, now) && Seconds(now) < Seconds(v.expiresAt)
  {
    var v := s.book.vaults[q.vault];
    var rulesAllow := RuleReasons(s, q, now) == {};
    var valid := PassportValid(s.desk, v.agent, now);
    ReadDocument(v, StatusOf(s.desk, v.agent), valid, q, rulesAllow, now);
    R.NoViolationMeansPermitted(LimitsOf(s, q.vault, now), ProposalOf(q), PaceNow(s, q, now), now);
    AgreementOnReading(v, StatusOf(s.desk, v.agent), valid, q, rulesAllow, now);
    P.NoDenialMeansAllowed(P.Read(DocumentOf(v, StatusOf(s.desk, v.agent), valid, q, rulesAllow, now)));
  }

  lemma AgreementOnReading(v: Vault, agentStatus: R.AgentStatus, valid: bool, q: SpendRequest, rulesAllow: bool,
                           now: int)
    requires rulesAllow ==>
      && agentStatus == R.AgentActive && Spendable(v.status) && q.vendor in Vendors(v.allow)
      && 0 < q.amount <= v.perTransactionLimit && v.spent + q.amount <= v.totalLimit
    ensures P.Reading(P.Bool(valid), P.Int(Seconds(v.expiresAt)), P.Int(Seconds(now)), AgentText(agentStatus),
                      VaultText(v.status), P.Str(q.vendor), P.List(P.Texts(Vendors(v.allow))), P.Int(q.amount),
                      P.Int(v.perTransactionLimit), P.Int(v.spent), P.Int(v.totalLimit),
                      if rulesAllow then P.PASS else P.Str("FAIL")).Allows()
         <==> rulesAllow && valid && Seconds(now) < Seconds(v.expiresAt)
  {
    TextsMember(Vendors(v.allow), q.vendor);
    SecondsOrder(Seconds(now), Seconds(v.expiresAt));
    assert |"PASS"| == 4 && "PASS"[0] == 'P' && "FAIL"[0] == 'F';
  }

  /** A proposal is approved only if both controls allow it, which comes down to rules, passport and clock. */
  lemma ApprovedMeansBoth(s: State, q: SpendRequest, now: int)
    requires q.vault < |s.book.vaults| && FindProposal(s.book.proposals, q.key).None?
    ensures var t := Propose(s, q, now).state;
      |t.book.proposals| == |s.book.proposals| + 1
      && (t.book.proposals[|s.book.proposals|].status == ProposalApproved
          <==> RuleReasons(s, q, now) == {} && PassportValid(s.desk, s.book.vaults[q.vault].agent, now)
               && Seconds(now) < Seconds(s.book.vaults[q.vault].expiresAt))
  {
    TwoControlsAgree(s, q, now);
  }

  lemma SecondsMonotone(x: int, y: int)
    requires x <= y
    ensures Seconds(x) <= Seconds(y)
  {
  }

  /** Where the two part, given a valid passport: a spend the rules allow is denied by the policy
      if and only if the vault expires within the current second. */
  lemma PolicyStricterWithinSecond(s: State, q: SpendRequest, now: int)
    requires q.vault < |s.book.vaults|
    requires RuleReasons(s, q, now) == {} && PassportValid(s.desk, s.book.vaults[q.vault].agent, now)
    ensures PolicyDenials(s, q, now) != {} <==> Seconds(now) == Seconds(s.book.vaults[q.vault].expiresAt)
  {
    TwoControlsAgree(s, q, now);
    R.NoViolationMeansPermitted(LimitsOf(s, q.vault, now), ProposalOf(q), PaceNow(s, q, now), now);
    SecondsMonotone(now, s.book.vaults[q.vault].expiresAt);
  }

  // ----- Stored passports -----

  function FaultReason(f: PassportFault): S.Reason {
    match f
    case IdentityInvalid => S.IdentityInvalid
    case NotYetValid => S.NotYetValid
    case PassportExpired => S.Expired
    case PassportRevoked => S.Revoked
  }

  /** The signed passport behind a stored row: signed under the row's key, with the row's window,
      for this issuer and audience.  `verify_stored_passport` presents it under the current key. */
  predicate Stored(c: S.Crypto, signers: nat -> S.Signer, t: S.Trust, p: S.Signed, row: Passport) {
    && p.payload.issuer == t.signer.issuer && p.payload.audience == t.audience && p.pem == t.signer.pem
    && p.signature == signers(row.key).sign(c.encode(p.payload))
    && p.payload.validFrom == S.Moment(row.validFrom, true) && p.payload.expiresAt == S.Moment(row.expiresAt, true)
  }

  /** Each key's signatures check under that key, and only under it. */
  ghost predicate KeysApart(c: S.Crypto, signers: nat -> S.Signer) {
    forall i: nat, k: nat, data: string ::
      c.decodes(signers(k).sign(data)) && (c.check(signers(i).pem, signers(k).sign(data), data) <==> i == k)
  }

  /** Verifying the agent's latest stored passport in full, signature, key, issuer and audience
      included, finds exactly the faults the service operations look at, and nothing else. */
  lemma StoredPassportFaults(c: S.Crypto, signers: nat -> S.Signer, t: S.Trust, p: S.Signed, d: Desk, agent: nat,
                             k: nat, now: int, r: S.Reason)
    requires KeysApart(c, signers) && t.signer == signers(d.signer) && t.signer.issuer in t.issuers
    requires LatestPassport(d.passports, agent) == Some(k) && Stored(c, signers, t, p, d.passports[k])
    ensures S.Flaw(r, c, t, p, IsRevoked(d, agent, k), S.Request(None, None), {}, S.Moment(now, true))
      <==> exists f :: Faulty(f, d, agent, now) && FaultReason(f) == r
  {
    var data := c.encode(p.payload);
    assert c.decodes(signers(d.passports[k].key).sign(data));
    assert c.check(signers(d.signer).pem, signers(d.passports[k].key).sign(data), data)
      <==> d.signer == d.passports[k].key;
    assert Faulty(IdentityInvalid, d, agent, now) <==> d.passports[k].key != d.signer;
    assert Faulty(NotYetValid, d, agent, now) <==> d.passports[k].validFrom > now;
    assert Faulty(PassportExpired, d, agent, now) <==> d.passports[k].expiresAt <= now;
    assert Faulty(PassportRevoked, d, agent, now) <==> IsRevoked(d, agent, k);
    assert FaultReason(NotYetValid) == S.NotYetValid && FaultReason(PassportExpired) == S.Expired
        && FaultReason(PassportRevoked) == S.Revoked && FaultReason(IdentityInvalid) == S.IdentityInvalid;
  }

  // ----- The advisory model -----

  /** The model answered and flagged no injection, and no exception cuts the evaluation short. */
  predicate Clean(g: Option<Gateway>) { Analysed(g) && !U.Flagged(g.value.analysis.value) && !Raises(g) }

  /** The same caps and limit; the verdicts differ at most between approval and review. */
  predicate SameGrant(x: Decision, y: Decision) {
    x.caps == y.caps && x.approvedLimit == y.approvedLimit
    && (x.verdict == y.verdict || (x.verdict != U.Reject && y.verdict != U.Reject))
  }

  /** The states after evaluating one application agree on everything but the verdict and what is
      recorded about it. */
  ghost predicate SameCredit(s: State, t: State, app: nat) {
    && s.book == t.book && s.vendors == t.vendors
    && s.desk.agents == t.desk.agents && s.desk.passports == t.desk.passports
    && s.desk.revocations == t.desk.revocations && s.desk.mandates == t.desk.mandates
    && s.desk.evidence == t.desk.evidence && s.desk.reviews == t.desk.reviews
    && s.desk.riskRuns == t.desk.riskRuns && s.desk.riskEvents == t.desk.riskEvents
    && |s.desk.apps| == |t.desk.apps| && s.desk.decisions.Keys == t.desk.decisions.Keys
    && (forall i :: 0 <= i < |s.desk.apps| && i != app ==> s.desk.apps[i] == t.desk.apps[i])
    && (forall i :: i in s.desk.decisions && i != app ==> s.desk.decisions[i] == t.desk.decisions[i])
    && app < |s.desk.apps| && app in s.desk.decisions
    && SameGrant(s.desk.decisions[app], t.desk.decisions[app])
  }

  lemma EngineAlike(i: U.DecisionInputs, j: U.DecisionInputs)
    requires j == i.(aiAvailable := j.aiAvailable, flags := j.flags)
    ensures SameGrant(EngineDecision(i), EngineDecision(j))
    ensures U.PdOf(i) == U.PdOf(j) && U.Limit(i) == U.Limit(j)
    ensures i.aiAvailable && !U.Flagged(i.flags) && U.VerdictOf(j) == U.Approve ==> U.VerdictOf(i) == U.Approve
  {
    U.ModelIsAdvisory(i, j);
  }

  /** The gateway reaches the engine's inputs only as availability and flags. */
  lemma InputsAlike(s: State, a: Application, g: Option<Gateway>, m: bool, h: Option<Gateway>, n: bool, now: int)
    ensures var i, j := InputsOf(s, a, g, m, now), InputsOf(s, a, h, n, now);
      j == i.(aiAvailable := j.aiAvailable, flags := j.flags)
  {
  }

  lemma AssessAlike(s: State, app: nat, g: Option<Gateway>, m: bool, h: Option<Gateway>, n: bool, now: int)
    requires app < |s.desk.apps|
    ensures var one, two := Assess(s, app, g, m, now), Assess(s, app, h, n, now);
      && one.0 == two.0.(modelRuns := one.0.modelRuns, appRecords := one.0.appRecords) && SameGrant(one.1, two.1)
      && (Clean(g) && two.1.verdict == U.Approve ==> one.1.verdict == U.Approve)
  {
    if Clean(g) { U.CorroborationKeepsFlags(g.value.analysis.value, m); }
    InputsAlike(s, s.desk.apps[app], g, m, h, n, now);
    EngineAlike(InputsOf(s, s.desk.apps[app], g, m, now), InputsOf(s, s.desk.apps[app], h, n, now));
  }

  lemma StoreAlike(s: State, app: nat, d: Desk, x: Decision, e: Desk, y: Decision)
    requires app < |d.apps| && d == e.(modelRuns := d.modelRuns, appRecords := d.appRecords) && SameGrant(x, y)
    ensures SameCredit(s.(desk := StoreDecision(d, app, x)), s.(desk := StoreDecision(e, app, y)), app)
  {
  }

  /** Advisory-model noninterference, with its exact condition: for any two gateway behaviours
      (absent, failing, flagging or not, corroborated or not) evaluating the same draft records the
      same caps, probability of default, expected loss and limit, and only approval and review can
      trade places, if and only if the model is not reached or neither behaviour raises an exception
      that nobody handles.  No behaviour gets an approval that a clean answer would not get. */
  lemma ModelCannotMoveCredit(s: State, app: nat, g: Option<Gateway>, m: bool, h: Option<Gateway>, n: bool, now: int)
    requires app < |s.desk.apps| && s.desk.apps[app].status == Draft && app !in s.desk.decisions
    ensures SameCredit(Evaluate(s, app, g, m, now).state, Evaluate(s, app, h, n, now).state, app)
      <==> !GatesPass(s, s.desk.apps[app], now) || (!Raises(g) && !Raises(h))
    ensures Clean(g) && Approves(Evaluate(s, app, h, n, now).state, app)
      ==> Approves(Evaluate(s, app, g, m, now).state, app)
  {
    AssessAlike(s, app, g, m, h, n, now);
    var one, two := Assess(s, app, g, m, now), Assess(s, app, h, n, now);
    StoreAlike(s, app, one.0, one.1, two.0, two.1);
  }

  predicate Approves(s: State, app: nat) { app in s.desk.decisions && s.desk.decisions[app].verdict == U.Approve }

  /** An exception nobody handles undoes the whole evaluation, even one of an advisory opinion:
      nothing is recorded, the draft can be evaluated again, and nothing is ever approved by it. */
  lemma RaisedEvaluationIsNoOp(s: State, app: nat, g: Option<Gateway>, m: bool, now: int)
    requires app < |s.desk.apps| && s.desk.apps[app].status == Draft
    ensures Evaluate(s, app, g, m, now) == Reply(s, Err(ModelRaised))
      <==> GatesPass(s, s.desk.apps[app], now) && Raises(g)
    ensures Evaluate(s, app, g, m, now).result != Ok(app) ==> Evaluate(s, app, g, m, now) == Reply(s, Err(ModelRaised))
  {
  }

  /** An advisory opinion degrades only its own record, whatever it is, if and only if it is not
      an unhandled exception: then the evaluation succeeds, and records the decision and risk run it
      would record with both opinions given. */
  lemma OpinionDegradesOnly(s: State, app: nat, g: Gateway, m: bool, now: int)
    requires app < |s.desk.apps| && s.desk.apps[app].status == Draft && GatesPass(s, s.desk.apps[app], now)
    requires g.analysis.Answer?
    ensures var best := g.(underwriter := Answer(()), critic := Answer(()));
      var r, ideal := Evaluate(s, app, Some(g), m, now), Evaluate(s, app, Some(best), m, now);
      && ideal.result == Ok(app)
      && (r.result == Ok(app) <==> !g.underwriter.Raised? && !g.critic.Raised?)
      && r.state == if r.result != Ok(app) then s
                    else ideal.state.(desk := ideal.state.desk.(modelRuns := r.state.desk.modelRuns))
  {
  }

  /** A missing, failing, raising or flagging model never yields an approval. */
  lemma OnlyCleanModelApproves(s: State, app: nat, g: Option<Gateway>, m: bool, now: int)
    requires app < |s.desk.apps| && s.desk.apps[app].status == Draft && app !in s.desk.decisions
    requires Approves(Evaluate(s, app, g, m, now).state, app)
    ensures Clean(g)
  {
    var i := InputsOf(s, s.desk.apps[app], g, m, now);
    U.ModelIsAdvisory(i, i);
    if Analysed(g) {
      U.CorroborationKeepsFlags(g.value.analysis.value, m);
    }
  }

  /** Whether the deterministic pattern confirms a flag never changes the verdict. */
  lemma CorroborationIsCosmetic(s: State, app: nat, g: Option<Gateway>, now: int)
    requires app < |s.desk.apps| && s.desk.apps[app].status == Draft && app !in s.desk.decisions
    ensures var r, t := Evaluate(s, app, g, true, now), Evaluate(s, app, g, false, now);
      && r.result == t.result && (app in r.state.desk.decisions <==> app in t.state.desk.decisions)
      && (app in r.state.desk.decisions ==>
            r.state.desk.decisions[app].verdict == t.state.desk.decisions[app].verdict)
  {
    if Analysed(g) {
      var i := InputsOf(s, s.desk.apps[app], g, true, now);
      U.CorroborationKeepsVerdict(i, g.value.analysis.value);
      assert InputsOf(s, s.desk.apps[app], g, false, now) == i.(flags := U.Corroborate(g.value.analysis.value, false));
    }
  }
}
