/** The services as objects that update their tables in place: credence/services/vault_ops.py,
    identity.py and credit.py.  Every method is proved to take exactly the step that Operations
    describes, so what is proved of runs of the system holds of this object. */
module Facility {
  import opened Tables
  import opened Statuses
  import opened Records
  import opened Operations
  import W = Waterfall
  import L = Ledger
  import R = Rules
  import P = Policy
  import U = Underwriting

  predicate AboutVault(op: Op) { op.OpVault? || op.OpFreeze? || op.OpClose? }

  predicate AboutSpending(op: Op) { op.OpPropose? || op.OpExecute? }

  predicate AboutRepayment(op: Op) { op.OpRevenue? || op.OpFail? }

  class CreditFacility {
    const ledger: L.LedgerService

    var vendors: map<string, string>

    var agents: seq<Agent>
    var passports: seq<Passport>
    var revocations: seq<Revocation>
    var mandates: map<nat, Mandate>
    var evidence: seq<nat>
    var apps: seq<Application>
    var decisions: map<nat, Decision>
    var reviews: seq<HumanReview>
    var verdicts: seq<DecisionEvent>
    var riskRuns: seq<RiskRun>
    var modelRuns: seq<ModelRun>
    var appRecords: seq<ApplicationRecord>
    var riskEvents: seq<RiskEvent>
    var signer: nat

    var vaults: seq<Vault>
    var proposals: seq<Proposal>
    var payments: seq<Payment>
    var revenues: seq<Revenue>
    var repayments: seq<Repayment>
    var records: seq<SpendRecord>

    function DeskNow(): Desk
      reads this
    {
      Desk(agents, passports, revocations, mandates, evidence, apps, decisions, reviews, verdicts,
           riskRuns, modelRuns, appRecords, riskEvents, signer)
    }

    function BookNow(): Book
      reads this, ledger
    {
      Book(vaults, proposals, payments, revenues, repayments, records, ledger.Tables())
    }

    function Abs(): State
      reads this, ledger
    {
      State(vendors, DeskNow(), BookNow())
    }

    constructor ()
      ensures Abs() == EMPTY && fresh(ledger)
    {
      ledger := new L.LedgerService();
      vendors, agents, passports, revocations, mandates, evidence := map[], [], [], [], map[], [];
      apps, decisions, reviews, verdicts, riskRuns, modelRuns := [], map[], [], [], [], [];
      appRecords, riskEvents, signer := [], [], 0;
      vaults, proposals, payments, revenues, repayments, records := [], [], [], [], [], [];
    }

    // ----- Registration -----

    method RegisterVendor(vendor: string, category: string) returns (r: Result)
      modifies `vendors
      ensures Reply(Abs(), r) == Operations.RegisterVendor(old(Abs()), vendor, category)
    {
      if vendor in vendors {
        return Err(Duplicate);
      }
      vendors := vendors[vendor := category];
      return Ok(0);
    }

    method RegisterAgent(now: int) returns (r: Result)
      modifies `agents
      ensures Reply(Abs(), r) == Operations.RegisterAgent(old(Abs()), now)
    {
      agents := agents + [Agent(R.AgentActive, now)];
      return Ok(|agents| - 1);
    }

    method CreateMandate(task: nat, reserveCap: int) returns (r: Result)
      modifies `mandates
      ensures Reply(Abs(), r) == Operations.CreateMandate(old(Abs()), task, reserveCap)
    {
      if task in mandates {
        return Err(Duplicate);
      }
      mandates := mandates[task := Mandate(reserveCap, false)];
      return Ok(task);
    }

    method AddEvidence(task: nat) returns (r: Result)
      modifies `evidence
      ensures Reply(Abs(), r) == Operations.AddEvidence(old(Abs()), task)
    {
      evidence := evidence + [task];
      return Ok(|evidence| - 1);
    }

    /** `create_application`. */
    method CreateApplication(a: Application) returns (r: Result)
      modifies `apps
      ensures Reply(Abs(), r) == Operations.CreateApplication(old(Abs()), a)
    {
      if a.requested <= 0 {
        return Err(PolicyDenied);
      }
      apps := apps + [a.(status := Draft, vendors := Distinct(a.vendors))];
      return Ok(|apps| - 1);
    }

    // ----- Identity -----

    /** `verify_stored_passport`: every reason the latest passport fails, and whether there is none. */
    method VerifyStoredPassport(agent: nat, now: int) returns (valid: bool, faults: seq<PassportFault>)
      ensures forall f :: f in faults <==> Faulty(f, DeskNow(), agent, now)
      ensures valid <==> PassportValid(DeskNow(), agent, now)
      ensures valid <==> faults == []
    {
      faults := [];
      var row := LatestPassport(passports, agent);
      if row.None? {
        faults := [IdentityInvalid];
      } else {
        var p := passports[row.value];
        if p.key != signer {
          faults := faults + [IdentityInvalid];
        }
        if p.validFrom > now {
          faults := faults + [NotYetValid];
        }
        if p.expiresAt <= now {
          faults := faults + [PassportExpired];
        }
        if IsRevoked(DeskNow(), agent, row.value) {
          faults := faults + [PassportRevoked];
        }
      }
      valid := faults == [];
      if faults != [] {
        assert faults[0] in faults && faults[0] in PassportFaults(DeskNow(), agent, now);
      }
    }

    /** `issue_passport`. */
    method IssuePassport(agent: nat, maxBorrowing: int, maxTransaction: int, ttlHours: int, now: int)
      returns (r: Result)
      modifies this
      ensures Reply(Abs(), r)
           == Operations.IssuePassport(old(Abs()), agent, maxBorrowing, maxTransaction, ttlHours, now)
    {
      if agent >= |agents| {
        return Err(AgentUnknown);
      }
      if agents[agent].status != R.AgentActive {
        return Err(AgentNotUsable);
      }
      if ttlHours > MAX_TTL_HOURS {
        return Err(TtlTooLong);
      }
      if maxBorrowing < 0 || maxTransaction < 0 {
        return Err(MalformedPassport);
      }
      passports := passports + [Passport(agent, now, now + ttlHours * HOUR, maxBorrowing, signer)];
      return Ok(|passports| - 1);
    }

    /** A new signer (`get_signer` after a restart). */
    method ReplaceSigner(key: nat) returns (r: Result)
      modifies `signer
      ensures Reply(Abs(), r) == Operations.ReplaceSigner(old(Abs()), key)
    {
      signer := key;
      return Ok(key);
    }

    /** `kill_switch`. */
    method KillSwitch(agent: nat, action: KillAction) returns (r: Result)
      modifies this
      ensures Reply(Abs(), r) == Operations.KillSwitch(old(Abs()), agent, action)
    {
      if agent >= |agents| {
        return Err(AgentUnknown);
      }
      match action {
        case KillFreeze =>
          agents := agents[agent := agents[agent].(status := R.AgentFrozen)];
        case KillUnfreeze =>
          if agents[agent].status == R.AgentRevoked {
            return Err(AgentRevoked);
          }
          agents := agents[agent := agents[agent].(status := R.AgentActive)];
        case KillRevoke =>
          Revoke(agent);
        case KillOther =>
          return Err(PolicyDenied);
      }
      return Ok(agent);
    }

    /** REVOKE: the agent, a revocation of all its passports, and its open vaults. */
    method Revoke(agent: nat)
      requires agent < |agents|
      modifies `agents, `revocations, `vaults
      ensures agents == old(agents)[agent := old(agents)[agent].(status := R.AgentRevoked)]
      ensures revocations == old(revocations) + [Revocation(agent, None)]
      ensures vaults == FreezeAll(old(vaults), agent)
    {
      agents := agents[agent := agents[agent].(status := R.AgentRevoked)];
      revocations := revocations + [Revocation(agent, None)];
      for i := 0 to |vaults|
        modifies `vaults
        invariant |vaults| == |old(vaults)|
        invariant forall k :: 0 <= k < |vaults| ==>
          vaults[k] == if k < i then FreezeOpen(old(vaults)[k], agent) else old(vaults)[k]
      {
        if vaults[i].agent == agent && vaults[i].status in {Created, Active, Spending} {
          vaults := vaults[i := vaults[i].(status := Frozen)];
        }
      }
    }

    // ----- Underwriting -----

    /** The identity gate: why the agent may not borrow, or nothing when it may. */
    method CheckIdentity(agent: nat, now: int) returns (reasons: set<DecisionReason>)
      ensures reasons == (
        if !PassportValid(DeskNow(), agent, now) || StatusOf(DeskNow(), agent) != R.AgentActive
        then IdentityReasons(DeskNow(), agent, now) else {})
      ensures reasons == {} <==> PassportValid(DeskNow(), agent, now) && StatusOf(DeskNow(), agent) == R.AgentActive
    {
      var valid, faults := VerifyStoredPassport(agent, now);
      if !valid {
        reasons := set f | f in faults :: Identity(f);
        assert Identity(faults[0]) in reasons;
      } else {
        reasons := if StatusOf(DeskNow(), agent) != R.AgentActive then {AgentNotActive} else {};
      }
    }

    /** `evaluate_application`: identity, evidence, advisory analysis, features, decision, record. */
    method EvaluateApplication(app: nat, gateway: Option<Gateway>, matched: bool, now: int) returns (r: Result)
      modifies this
      ensures Reply(Abs(), r) == Evaluate(old(Abs()), app, gateway, matched, now)
    {
      if app >= |apps| {
        return Err(PolicyDenied);
      }
      if apps[app].status != Draft {
        return if app in decisions then Ok(app) else Err(PolicyDenied);
      }
      var raised := Pipeline(app, gateway, matched, now);
      return if raised then Err(ModelRaised) else Ok(app);
    }

    /** The two gates before underwriting: identity and evidence. */
    method CheckGates(a: Application, now: int) returns (status: AppStatus, reasons: set<DecisionReason>)
      requires a.status == Draft
      ensures status == if reasons == {} then EvidenceReady else AppRejected
      ensures reasons == (
        if !PassportValid(DeskNow(), a.agent, now) || StatusOf(DeskNow(), a.agent) != R.AgentActive
        then IdentityReasons(DeskNow(), a.agent, now)
        else if a.task !in evidence then {InsufficientEvidence} else {})
      ensures reasons == {} <==>
        PassportValid(DeskNow(), a.agent, now) && StatusOf(DeskNow(), a.agent) == R.AgentActive && a.task in evidence
    {
      reasons := CheckIdentity(a.agent, now);
      if reasons != {} {
        status := AppTransition(a.status, AppRejected).value;
        return;
      }
      status := AppTransition(a.status, IdentityVerified).value;
      if a.task !in evidence {
        return AppTransition(status, AppRejected).value, {InsufficientEvidence};
      }
      status := AppTransition(status, EvidenceReady).value;
    }

    /** The pipeline on a draft; an exception of the model that nobody handles undoes all of it. */
    method Pipeline(app: nat, gateway: Option<Gateway>, matched: bool, now: int) returns (raised: bool)
      requires app < |apps| && apps[app].status == Draft
      modifies `modelRuns, `riskRuns, `appRecords, `apps, `decisions, `verdicts
      ensures raised <==> GatesPass(old(Abs()), old(apps)[app], now) && Raises(gateway)
      ensures raised ==> Abs() == old(Abs())
      ensures !raised ==> var (desk, decision) := Operations.Assess(old(Abs()), app, gateway, matched, now);
        && DeskNow() == Operations.StoreDecision(desk, app, decision)
        && Abs() == old(Abs()).(desk := DeskNow())
    {
      var status, decision := Assess(app, gateway, matched, now);
      if decision.None? {
        return true;
      }
      StoreDecision(app, status, decision.value);
      return false;
    }

    method Assess(app: nat, gateway: Option<Gateway>, matched: bool, now: int)
      returns (status: AppStatus, decision: Option<Decision>)
      requires app < |apps| && apps[app].status == Draft
      modifies `modelRuns, `riskRuns, `appRecords
      ensures decision.None? <==> GatesPass(old(Abs()), apps[app], now) && Raises(gateway)
      ensures decision.None? ==> DeskNow() == old(DeskNow())
      ensures decision.Some? ==>
        (DeskNow(), decision.value) == Operations.Assess(old(Abs()), app, gateway, matched, now)
      ensures decision.Some? ==> status == StatusFor(decision.value.verdict)
    {
      var ready, reasons := CheckGates(apps[app], now);
      if reasons != {} {
        return ready, Some(Decision(U.Reject, 0, None, reasons));
      }
      status := ready;
      decision := Underwrite(app, gateway, InputsOf(Abs(), apps[app], gateway, matched, now));
      if decision.Some? {
        status := Advance(ready, decision.value.verdict);
      }
    }

    /** The transitions of an application that reached underwriting. */
    method Advance(ready: AppStatus, verdict: U.Verdict) returns (status: AppStatus)
      requires ready == EvidenceReady
      ensures status == StatusFor(verdict)
    {
      status := AppTransition(ready, Underwriting).value;
      status := AppTransition(status, PolicyEvaluated).value;
      status := AppTransition(status, StatusFor(verdict)).value;
    }

    /** The underwriting half of the pipeline: advisory runs, score and decision, policy record.
        None when a role raises an exception nobody handles; the rows written so far are rolled back. */
    method Underwrite(app: nat, gateway: Option<Gateway>, i: U.DecisionInputs) returns (decision: Option<Decision>)
      modifies `modelRuns, `riskRuns, `appRecords
      ensures decision == if Raises(gateway) then None else Some(EngineDecision(i))
      ensures Raises(gateway) ==> DeskNow() == old(DeskNow())
      ensures !Raises(gateway) ==> DeskNow() == old(DeskNow()).(
        modelRuns := old(modelRuns) + ModelRuns(app, gateway),
        riskRuns := old(riskRuns) + [RiskRun(app, U.PdOf(i), U.Limit(i), U.ExpectedLoss(U.PdOf(i), U.Limit(i)))],
        appRecords := old(appRecords) + [ApplicationRecord(app, U.VerdictOf(i) == U.Approve)])
    {
      var runs, scores := modelRuns, riskRuns;
      var analysed := Analysed(gateway);
      if gateway.Some? {
        if gateway.value.analysis.Raised? {
          return None;
        }
        modelRuns := modelRuns + [ModelRun(app, Analyst, analysed)];
      }
      if analysed {
        if gateway.value.underwriter.Raised? {
          modelRuns := runs;
          return None;
        }
        modelRuns := modelRuns + [ModelRun(app, Underwriter, gateway.value.underwriter.Answer?)];
      }
      var made := Score(app, i);
      if analysed {
        if gateway.value.critic.Raised? {
          modelRuns, riskRuns := runs, scores;
          return None;
        }
        modelRuns := modelRuns + [ModelRun(app, Critic, gateway.value.critic.Answer?)];
      }
      appRecords := appRecords + [ApplicationRecord(app, made.verdict == U.Approve)];
      return Some(made);
    }

    /** The engine's decision and its risk run. */
    method Score(app: nat, i: U.DecisionInputs) returns (decision: Decision)
      modifies `riskRuns
      ensures decision == EngineDecision(i)
      ensures riskRuns ==
        old(riskRuns) + [RiskRun(app, U.PdOf(i), U.Limit(i), U.ExpectedLoss(U.PdOf(i), U.Limit(i)))]
    {
      var result := U.Decide(i);
      riskRuns := riskRuns + [RiskRun(app, result.pd, result.ead, result.expectedLoss)];
      decision := Decision(result.verdict, result.approvedLimit, Some(result.caps),
                           set x | x in result.reasons :: Engine(x));
    }

    /** The final application status and `_store_decision`. */
    method StoreDecision(app: nat, status: AppStatus, decision: Decision)
      requires app < |apps| && status == StatusFor(decision.verdict)
      modifies `apps, `decisions, `verdicts
      ensures DeskNow() == Operations.StoreDecision(old(DeskNow()), app, decision)
    {
      apps := apps[app := apps[app].(status := status)];
      decisions := decisions[app := decision];
      verdicts := verdicts + [DecisionEvent(app, decision.verdict)];
    }

    /** `review_application`. */
    method ReviewApplication(app: nat, action: ReviewAction, amount: int) returns (r: Result)
      modifies this
      ensures Reply(Abs(), r) == Operations.ReviewApplication(old(Abs()), app, action, amount)
    {
      if app >= |apps| || apps[app].status != HumanReviewRequired || app !in decisions {
        return Err(PolicyDenied);
      }
      var decision := decisions[app];
      var granted := 0;
      match action {
        case Decline =>
          apps := apps[app := apps[app].(status := AppTransition(apps[app].status, AppRejected).value)];
        case UnknownAction =>
          return Err(PolicyDenied);
        case _ =>
          var cap := decision.approvedLimit;
          granted := if action == ApproveFull then cap else amount;
          if granted <= 0 || granted > cap {
            return Err(PolicyDenied);
          }
          Grant(app, granted);
      }
      reviews := reviews + [HumanReview(app, action, granted)];
      return Ok(app);
    }

    /** The decision and status of an application a reviewer approves. */
    method Grant(app: nat, granted: int)
      requires app < |apps| && apps[app].status == HumanReviewRequired && app in decisions
      modifies `decisions, `apps
      ensures decisions == old(decisions)[app := old(decisions)[app].(approvedLimit := granted, verdict := U.Approve)]
      ensures apps == old(apps)[app := old(apps)[app].(status := AppApproved)]
    {
      decisions := decisions[app := decisions[app].(approvedLimit := granted, verdict := U.Approve)];
      apps := apps[app := apps[app].(status := AppTransition(apps[app].status, AppApproved).value)];
    }

    // ----- Vaults -----

    /** `create_vault`. */
    method CreateVault(app: nat, perTxn: Option<int>, now: int) returns (r: Result)
      modifies this, ledger
      ensures Reply(Abs(), r) == Operations.CreateVault(old(Abs()), app, perTxn, now)
    {
      if app >= |apps| || apps[app].status != AppApproved || app !in decisions {
        return Err(PolicyDenied);
      }
      if decisions[app].approvedLimit <= 0 {
        return Err(PolicyDenied);
      }
      if exists v :: v in apps[app].vendors && v !in vendors {
        return Err(VendorNotAllowed);
      }
      r := Fund(app, decisions[app].approvedLimit, perTxn, now);
    }

    /** The posting and rows of a vault that may be created. */
    method Fund(app: nat, limit: int, perTxn: Option<int>, now: int) returns (r: Result)
      requires app < |apps| && apps[app].status == AppApproved
      requires forall v :: v in apps[app].vendors ==> v in vendors
      modifies `vaults, `mandates, `apps, ledger
      ensures Reply(Abs(), r) == Operations.Fund(old(Abs()), app, limit, perTxn, now)
    {
      var vid := |vaults|;
      var posting := PostOrRollBack(DisburseKey(vid), L.Disbursement, vid, DisburseEntries(limit, apps[app].currency));
      if posting.Rejected? {
        return Err(LedgerRefused(posting.error));
      }
      OpenVault(app, limit, perTxn, now);
      return Ok(vid);
    }

    /** The rows of a new vault, the mandate lock and the application's last two transitions. */
    method OpenVault(app: nat, limit: int, perTxn: Option<int>, now: int)
      requires app < |apps| && apps[app].status == AppApproved
      requires forall v :: v in apps[app].vendors ==> v in vendors
      modifies `vaults, `mandates, `apps
      ensures BookNow() == old(BookNow()).(vaults := old(vaults) + [
                NewVault(old(apps)[app], app, limit, perTxn, AllowRows(old(apps)[app].vendors, vendors), now)])
      ensures DeskNow() == old(DeskNow()).(
                apps := old(apps)[app := old(apps)[app].(status := DisbursementEnabled)],
                mandates := Operations.LockMandate(old(mandates), old(apps)[app].task))
    {
      var a := apps[app];
      var allow := Allowlist(a.vendors);
      var vault := NewVault(a, app, limit, perTxn, allow, now);
      vaults := vaults + [vault.(status := VaultTransition(Created, Active).value)];
      LockMandate(a.task);
      EnableDisbursement(app);
    }

    method LockMandate(task: nat)
      modifies `mandates
      ensures mandates == Operations.LockMandate(old(mandates), task)
    {
      if task in mandates {
        mandates := mandates[task := mandates[task].(locked := true)];
      }
    }

    method EnableDisbursement(app: nat)
      requires app < |apps| && apps[app].status == AppApproved
      modifies `apps
      ensures apps == old(apps)[app := old(apps)[app].(status := DisbursementEnabled)]
    {
      apps := apps[app := apps[app].(status := AppTransition(apps[app].status, VaultCreated).value)];
      apps := apps[app := apps[app].(status := AppTransition(apps[app].status, DisbursementEnabled).value)];
    }

    /** The allowlist rows of known vendors, each with the vendor's category as its purpose. */
    method Allowlist(names: seq<string>) returns (allow: seq<AllowRow>)
      requires forall v :: v in names ==> v in vendors
      ensures allow == AllowRows(names, vendors)
    {
      allow := [];
      for i := 0 to |names|
        invariant allow == AllowRows(names[..i], vendors)
      {
        assert names[..i + 1][..i] == names[..i];
        allow := allow + [AllowRow(names[i], if vendors[names[i]] != "" then Some(vendors[names[i]]) else None)];
      }
      assert names[..|names|] == names;
    }

    /** Posts one journal over the completed chart; a refusal leaves the ledger as it was. */
    method PostOrRollBack(key: string, event: L.EventType, reference: nat, entries: seq<L.Entry>) returns (p: L.Posting)
      modifies ledger
      ensures p == L.Post(L.Complete(old(ledger.Tables())), key, event, reference, entries)
      ensures ledger.Tables() == if p.Posted? then p.books else old(ledger.Tables())
    {
      var chart, journal := ledger.chart, ledger.journal;
      ledger.EnsureChart();
      p := ledger.PostJournal(key, event, reference, entries);
      if p.Rejected? {
        ledger.chart, ledger.journal := chart, journal;
      }
    }

    // ----- Spending -----

    /** `_vault_limits`. */
    method VaultLimits(vid: nat, now: int) returns (limits: R.VaultLimits)
      requires vid < |vaults|
      ensures limits == LimitsOf(Abs(), vid, now)
    {
      var v := vaults[vid];
      var purposes: map<string, set<string>> := map[];
      for i := 0 to |v.allow|
        invariant purposes == VendorPurposes(v.allow[..i])
      {
        var row := v.allow[i];
        assert v.allow[..i + 1][..i] == v.allow[..i];
        if row.purpose.Some? {
          purposes := purposes[row.vendor := {row.purpose.value}];
        }
      }
      assert v.allow[..|v.allow|] == v.allow;
      var dayStart := now - now % R.DAY;
      var spentToday := Sum(Spends(payments, vid, dayStart), R.SpendAmount);
      limits := R.VaultLimits(
        v.status, StatusOf(DeskNow(), v.agent), v.currency, v.totalLimit, v.spent, v.perTransactionLimit, v.dailyLimit,
        spentToday, VendorSet(v.allow), purposes, Some(v.expiresAt), v.transactionCount, v.maxTransactions,
        R.VELOCITY_WINDOW, R.VELOCITY_MAX);
    }

    /** The deterministic rules on a request as things stand. */
    method CheckRules(q: SpendRequest, now: int) returns (reasons: set<R.Reason>)
      requires q.vault < |vaults|
      ensures reasons == RuleReasons(Abs(), q, now)
    {
      var limits := VaultLimits(q.vault, now);
      var found := R.EvaluateProposal(limits, ProposalOf(q), Spends(payments, q.vault, now - R.VELOCITY_WINDOW), now);
      reasons := set x | x in found;
    }

    /** The second control, on the document the first one's verdict goes into. */
    method CheckPolicy(q: SpendRequest, rulesAllow: bool, now: int) returns (denials: set<P.Deny>)
      requires q.vault < |vaults| && rulesAllow == (RuleReasons(Abs(), q, now) == {})
      ensures denials == PolicyDenials(Abs(), q, now)
    {
      var v := vaults[q.vault];
      var valid, _ := VerifyStoredPassport(v.agent, now);
      var found := P.EvaluateTransactionPolicy(DocumentOf(v, StatusOf(DeskNow(), v.agent), valid, q, rulesAllow, now));
      denials := set x | x in found;
    }

    /** `propose_transaction`. */
    method ProposeTransaction(q: SpendRequest, now: int) returns (r: Result)
      modifies this
      ensures Reply(Abs(), r) == Propose(old(Abs()), q, now)
    {
      var existing := FindProposal(proposals, q.key);
      if existing.Some? {
        return Ok(existing.value);
      }
      if q.vault >= |vaults| {
        return Err(PolicyDenied);
      }
      r := Ok(|proposals|);
      DecideProposal(q, now);
    }

    /** A new proposal: both controls, then the rows. */
    method DecideProposal(q: SpendRequest, now: int)
      requires q.vault < |vaults|
      modifies `proposals, `records, `riskEvents, `vaults
      ensures Abs() == Operations.RecordProposal(old(Abs()), q, RuleReasons(old(Abs()), q, now),
                                                 PolicyDenials(old(Abs()), q, now))
    {
      var rules := CheckRules(q, now);
      var denials := CheckPolicy(q, rules == {}, now);
      RecordProposal(q, rules, denials);
    }

    /** The rows of a decided proposal, and what a refusal adds. */
    method RecordProposal(q: SpendRequest, rules: set<R.Reason>, denials: set<P.Deny>)
      requires q.vault < |vaults|
      modifies `proposals, `records, `riskEvents, `vaults
      ensures DeskNow() == Operations.RecordProposal(old(Abs()), q, rules, denials).desk
      ensures BookNow() == Operations.RecordProposal(old(Abs()), q, rules, denials).book
    {
      assert vaults[q.vault := vaults[q.vault]] == vaults;
      FileProposal(q, rules, denials);
      if rules != {} || denials != {} {
        Object(q.vault, R.SplitPatternDetected in rules);
      }
    }

    /** The proposal and which engine reached which verdict on it. */
    method FileProposal(q: SpendRequest, rules: set<R.Reason>, denials: set<P.Deny>)
      modifies `proposals, `records
      ensures proposals == old(proposals) + [
        Proposal(q.vault, q.vendor, q.amount, q.currency, q.purpose, q.key,
                 if rules == {} && denials == {} then ProposalApproved else ProposalDenied, rules, denials)]
      ensures records == old(records) + [SpendRecord(|old(proposals)|, rules == {}, VaultRules),
                                         SpendRecord(|old(proposals)|, denials == {}, LocalPolicy)]
    {
      var pid := |proposals|;
      proposals := proposals + [Proposal(q.vault, q.vendor, q.amount, q.currency, q.purpose, q.key,
                                         if rules == {} && denials == {} then ProposalApproved else ProposalDenied,
                                         rules, denials)];
      records := records + [SpendRecord(pid, rules == {}, VaultRules)];
      records := records + [SpendRecord(pid, denials == {}, LocalPolicy)];
    }

    /** A refused proposal is a risk event, and a detected split freezes the vault. */
    method Object(vid: nat, split: bool)
      requires vid < |vaults|
      modifies `riskEvents, `vaults
      ensures riskEvents == old(riskEvents) + [RiskEvent(SpendBlocked, old(vaults)[vid].agent)]
      ensures var v := old(vaults)[vid];
        vaults == old(vaults)[vid := if split && Spendable(v.status) then v.(status := Frozen) else v]
    {
      riskEvents := riskEvents + [RiskEvent(SpendBlocked, vaults[vid].agent)];
      if split && Spendable(vaults[vid].status) {
        vaults := vaults[vid := vaults[vid].(status := VaultTransition(vaults[vid].status, Frozen).value)];
      }
    }

    /** `execute_transaction`: re-checks the rules and pays. */
    method ExecuteTransaction(pid: nat, caught: bool, now: int) returns (r: Result)
      modifies this, ledger
      ensures Reply(Abs(), r) == Execute(old(Abs()), pid, caught, now)
    {
      if pid >= |proposals| {
        return Err(PolicyDenied);
      }
      var existing := FindPayment(payments, pid);
      if existing.Some? {
        return Ok(existing.value);
      }
      var p := proposals[pid];
      if p.status != ProposalApproved || p.vault >= |vaults| {
        return Err(PolicyDenied);
      }
      r := RecheckAndPay(pid, caught, now);
    }

    /** An approved proposal without a payment: blocked if a rule objects now, else paid. */
    method RecheckAndPay(pid: nat, caught: bool, now: int) returns (r: Result)
      requires pid < |proposals| && proposals[pid].vault < |vaults|
      requires proposals[pid].status == ProposalApproved && FindPayment(payments, pid).None?
      modifies this, ledger
      ensures Reply(Abs(), r) == Execute(old(Abs()), pid, caught, now)
    {
      var p := proposals[pid];
      var rules := CheckRules(RequestOf(p), now);
      if rules != {} {
        if caught {
          Block(pid, rules);
        }
        return Err(PolicyDenied);
      }
      var posting := PostOrRollBack(SpendKey(pid), L.VendorPayment, pid, SpendEntries(p.amount, p.currency));
      if posting.Rejected? {
        return Err(LedgerRefused(posting.error));
      }
      Settle(pid, posting.id, now);
      return Ok(|payments| - 1);
    }

    method Block(pid: nat, rules: set<R.Reason>)
      requires pid < |proposals| && proposals[pid].vault < |vaults|
      modifies `proposals, `riskEvents
      ensures Abs() == Blocked(old(Abs()), pid, rules)
    {
      var p := proposals[pid];
      proposals := proposals[pid := p.(status := ProposalDenied, ruleReasons := rules, policyDenials := {})];
      riskEvents := riskEvents + [RiskEvent(SpendBlocked, vaults[p.vault].agent)];
    }

    method Settle(pid: nat, journal: nat, now: int)
      requires pid < |proposals| && proposals[pid].vault < |vaults|
      modifies `vaults, `proposals, `payments
      ensures BookNow() == Pay(old(BookNow()), pid, journal, now)
      ensures |payments| == |old(payments)| + 1
    {
      var p := proposals[pid];
      var v := vaults[p.vault];
      v := v.(spent := v.spent + p.amount);
      v := v.(transactionCount := v.transactionCount + 1);
      if v.status == Active {
        v := v.(status := VaultTransition(v.status, Spending).value);
      }
      vaults := vaults[p.vault := v];
      proposals := proposals[pid := p.(status := ProposalExecuted)];
      payments := payments + [Payment(p.vault, pid, p.vendor, p.amount, p.currency, journal, now)];
    }

    /** `freeze_vault` and `close_vault`. */
    method MoveVault(vid: nat, target: VaultStatus) returns (r: Result)
      modifies `vaults
      ensures Reply(Abs(), r) == Operations.MoveVault(old(Abs()), vid, target)
    {
      if vid >= |vaults| {
        return Err(PolicyDenied);
      }
      var status := VaultTransition(vaults[vid].status, target);
      if status.None? {
        return Err(PolicyDenied);
      }
      vaults := vaults[vid := vaults[vid].(status := status.value)];
      return Ok(vid);
    }

    // ----- Repayment and recovery -----

    /** `receive_revenue`. */
    method ReceiveRevenue(vid: nat, amount: int, external: string, currency: string, completed: bool)
      returns (r: Result)
      modifies this, ledger
      ensures Reply(Abs(), r) == Operations.ReceiveRevenue(old(Abs()), vid, amount, external, currency, completed)
    {
      var replay := FindRevenue(revenues, external);
      if replay.Some? {
        var latest := LatestRepayment(repayments, revenues[replay.value].vault);
        return if latest.Some? then Ok(latest.value) else Err(PolicyDenied);
      }
      if vid >= |vaults| || amount <= 0 {
        return Err(PolicyDenied);
      }
      var status := Collect(vaults[vid].status, completed);
      if status.None? {
        return Err(PolicyDenied);
      }
      r := RunWaterfall(vid, amount, external, currency, completed);
    }

    /** The transitions of a vault about to collect; None when the state machine refuses. */
    method Collect(status: VaultStatus, completed: bool) returns (r: Option<VaultStatus>)
      ensures r == Collecting(status, completed)
    {
      var done := status;
      if Spendable(status) {
        done := VaultTransition(status, if completed then TaskCompleted else TaskFailed).value;
      }
      r := VaultTransition(done, RevenueReceived);
    }

    /** Escrows the revenue and runs the waterfall over it; a refusal undoes both postings. */
    method RunWaterfall(vid: nat, amount: int, external: string, currency: string, ghost completed: bool)
      returns (r: Result)
      requires vid < |vaults| && amount > 0 && FindRevenue(revenues, external).None?
      requires Collecting(vaults[vid].status, completed).Some?
      modifies this, ledger
      ensures Reply(Abs(), r) == Operations.ReceiveRevenue(old(Abs()), vid, amount, external, currency, completed)
    {
      ghost var before := BookNow();
      var refusal, w, j, k := Escrow(vaults[vid], vid, amount, external, currency);
      if refusal.Some? {
        return Err(refusal.value);
      }
      BookRevenue(vid, amount, external, currency, w, j, k, before);
      return Ok(|repayments| - 1);
    }

    /** The two postings of a revenue, with the waterfall between them. */
    method Escrow(v: Vault, vid: nat, amount: int, external: string, currency: string)
      returns (refusal: Option<Error>, w: W.RepaymentResult, j: nat, k: nat)
      requires amount > 0
      modifies ledger
      ensures w == W.Repayment(amount, v.principal, v.feeDue, v.reserveDrawn)
      ensures refusal.Some? ==> ledger.Tables() == old(ledger.Tables())
      ensures
        match L.Post(L.Complete(old(ledger.Tables())), RevenueKey(external), L.RevenueReceipt, vid,
                     RevenueEntries(amount, currency))
        case Rejected(why) => refusal == Some(LedgerRefused(why))
        case Posted(first, id) =>
          if v.principal < 0 || v.feeDue < 0 || v.reserveDrawn < 0 then refusal == Some(NegativeAmount)
          else
            match L.Post(first, WaterfallKey(external), L.RepaymentWaterfall, vid,
                         WaterfallEntries(amount, w, currency))
            case Rejected(why) => refusal == Some(LedgerRefused(why))
            case Posted(second, id') => refusal == None && j == id && k == id' && ledger.Tables() == second
    {
      refusal, w, j, k := None, W.Repayment(amount, v.principal, v.feeDue, v.reserveDrawn), 0, 0;
      var chart, journal := ledger.chart, ledger.journal;
      var first := PostOrRollBack(RevenueKey(external), L.RevenueReceipt, vid, RevenueEntries(amount, currency));
      if first.Rejected? {
        refusal := Some(LedgerRefused(first.error));
        return;
      }
      j := first.id;
      var result := W.RunRepaymentWaterfall(amount, v.principal, v.feeDue, v.reserveDrawn);
      if result.None? {
        ledger.chart, ledger.journal := chart, journal;
        refusal := Some(NegativeAmount);
        return;
      }
      w := result.value;
      var second := ledger.PostJournal(WaterfallKey(external), L.RepaymentWaterfall, vid,
                                       WaterfallEntries(amount, w, currency));
      if second.Rejected? {
        ledger.chart, ledger.journal := chart, journal;
        refusal := Some(LedgerRefused(second.error));
        return;
      }
      k := second.id;
    }

    method BookRevenue(vid: nat, amount: int, external: string, currency: string,
                       w: W.RepaymentResult, revenueJournal: nat, waterfallJournal: nat, ghost before: Book)
      requires vid < |vaults| && BookNow() == before.(ledger := ledger.Tables())
      modifies `vaults, `revenues, `repayments
      ensures BookNow() == Operations.Collect(before, vid, amount, external, currency, w, revenueJournal,
                                              waterfallJournal)
                             .(ledger := ledger.Tables())
      ensures |repayments| == |old(repayments)| + 1
    {
      revenues := revenues + [Revenue(vid, external, amount, currency, revenueJournal)];
      var v := vaults[vid].(status := RevenueReceived);
      v := v.(principal := w.principalOutstanding);
      v := v.(feeDue := w.feeOutstanding);
      v := v.(reserveDrawn := v.reserveDrawn - w.reserveReplenished);
      var paid := v.principal == 0 && v.feeDue == 0;
      v := v.(status := VaultTransition(v.status, if paid then Repaid else PartiallyRepaid).value);
      vaults := vaults[vid := v];
      repayments := repayments + [Repayment(vid, WaterfallRun, w.allocations, w.principalRepaid, w.feePaid,
                                            w.reserveReplenished, w.ownerReleased, 0, Some(waterfallJournal))];
    }

    /** `simulate_failure`. */
    method SimulateFailure(vid: nat) returns (r: Result)
      modifies this, ledger
      ensures Reply(Abs(), r) == Operations.SimulateFailure(old(Abs()), vid)
    {
      if vid >= |vaults| || vaults[vid].status !in {Active, Spending, Frozen, Expired} {
        return Err(PolicyDenied);
      }
      r := RunRecovery(vid);
    }

    /** The recovery of a vault whose task can fail. */
    method RunRecovery(vid: nat) returns (r: Result)
      requires vid < |vaults| && vaults[vid].status in {Active, Spending, Frozen, Expired}
      modifies this, ledger
      ensures Reply(Abs(), r) == Operations.SimulateFailure(old(Abs()), vid)
    {
      var v := vaults[vid];
      var cap := ReserveCap(DeskNow(), v.task);
      var w := W.RunRecoveryWaterfall(v.principal, v.totalLimit - v.spent, 0, cap, cap);
      if w.None? {
        return Err(NegativeAmount);
      }
      assert w.value == W.Recovery(v.principal, v.totalLimit - v.spent, 0, cap, cap);
      r := RecoverWith(vid, w.value);
    }

    /** Posts and books a recovery. */
    method RecoverWith(vid: nat, w: W.RecoveryResult) returns (r: Result)
      requires vid < |vaults| && vaults[vid].status in {Active, Spending, Frozen, Expired}
      modifies `vaults, `repayments, ledger
      ensures Reply(Abs(), r) == Operations.RecoverWith(old(Abs()), vid, w)
    {
      ghost var before := BookNow();
      if w.swept + w.reserveDrawn + w.loss == 0 {
        ledger.EnsureChart();
        BookRecovery(vid, w, None, before);
        return Ok(|repayments| - 1);
      }
      var posting := PostOrRollBack(RecoveryKey(vid), L.RecoveryWaterfall, vid,
                                    RecoveryEntries(w, vaults[vid].currency));
      if posting.Rejected? {
        return Err(LedgerRefused(posting.error));
      }
      BookRecovery(vid, w, Some(posting.id), before);
      return Ok(|repayments| - 1);
    }

    method BookRecovery(vid: nat, w: W.RecoveryResult, journal: Option<nat>, ghost before: Book)
      requires vid < |vaults| && vaults[vid].status in {Active, Spending, Frozen, Expired}
      requires BookNow() == before.(ledger := ledger.Tables())
      modifies `vaults, `repayments
      ensures BookNow() == Recover(before, vid, w, journal).(ledger := ledger.Tables())
      ensures |repayments| == |old(repayments)| + 1
    {
      var v := vaults[vid];
      v := v.(status := VaultTransition(v.status, TaskFailed).value);
      v := v.(principal := 0, feeDue := 0);
      v := v.(reserveDrawn := v.reserveDrawn + w.reserveDrawn);
      v := v.(spent := v.totalLimit);
      v := v.(status := VaultTransition(v.status, if w.loss > 0 then Defaulted else Repaid).value);
      vaults := vaults[vid := v];
      repayments := repayments + [Repayment(vid, RecoveryRun, w.steps, w.swept, 0, w.reserveDrawn, 0, w.loss, journal)];
    }

    // ----- Service calls -----

    /** One service call. */
    method Serve(op: Op, now: int) returns (r: Result)
      modifies this, ledger
      ensures Reply(Abs(), r) == Perform(old(Abs()), op, now)
    {
      if AboutSpending(op) {
        r := ServeSpending(op, now);
      } else if AboutRepayment(op) {
        r := ServeRepayment(op);
      } else if AboutVault(op) {
        r := ServeVault(op, now);
      } else {
        r := ServeDesk(op, now);
      }
    }

    method ServeSpending(op: Op, now: int) returns (r: Result)
      requires AboutSpending(op)
      modifies this, ledger
      ensures Reply(Abs(), r) == Perform(old(Abs()), op, now)
    {
      match op {
        case OpPropose(request) => r := ProposeTransaction(request, now);
        case OpExecute(pid, caught) => r := ExecuteTransaction(pid, caught, now);
      }
    }

    method ServeVault(op: Op, now: int) returns (r: Result)
      requires AboutVault(op)
      modifies this, ledger
      ensures Reply(Abs(), r) == Perform(old(Abs()), op, now)
    {
      match op {
        case OpVault(app, perTxn) => r := CreateVault(app, perTxn, now);
        case OpFreeze(vid) => r := MoveVault(vid, Frozen);
        case OpClose(vid) => r := MoveVault(vid, Closed);
      }
    }

    method ServeRepayment(op: Op) returns (r: Result)
      requires AboutRepayment(op)
      modifies this, ledger
      ensures forall now :: Reply(Abs(), r) == Perform(old(Abs()), op, now)
    {
      match op {
        case OpRevenue(vid, amount, external, currency, completed) =>
          r := ReceiveRevenue(vid, amount, external, currency, completed);
        case OpFail(vid) => r := SimulateFailure(vid);
      }
    }

    method ServeDesk(op: Op, now: int) returns (r: Result)
      requires !AboutSpending(op) && !AboutRepayment(op) && !AboutVault(op)
      modifies this
      ensures Reply(Abs(), r) == Perform(old(Abs()), op, now)
    {
      match op {
        case OpVendor(vendor, category) => r := RegisterVendor(vendor, category);
        case OpAgent => r := RegisterAgent(now);
        case OpPassport(agent, maxBorrowing, maxTransaction, ttl) =>
          r := IssuePassport(agent, maxBorrowing, maxTransaction, ttl, now);
        case OpSigner(key) => r := ReplaceSigner(key);
        case OpKill(agent, action) => r := KillSwitch(agent, action);
        case OpMandate(task, cap) => r := CreateMandate(task, cap);
        case OpEvidence(task) => r := AddEvidence(task);
        case OpApply(application) => r := CreateApplication(application);
        case OpEvaluate(app, gateway, matched) => r := EvaluateApplication(app, gateway, matched, now);
        case OpReview(app, action, amount) => r := ReviewApplication(app, action, amount);
      }
    }

    /** Any number of service calls on a new facility: the object goes through the states of Run,
        about which Safety, Pacing, Provenance and RevocationSafety speak. */
    method ServeAll(events: seq<Event>) returns (clock: int)
      requires Abs() == EMPTY
      modifies this, ledger
      ensures System(clock, Abs()) == Run(START, events)
    {
      clock := 0;
      for i := 0 to |events|
        invariant System(clock, Abs()) == Run(START, events[..i])
      {
        assert events[..i + 1][..i] == events[..i];
        if events[i].now >= clock {
          var _ := Serve(events[i].op, events[i].now);
          clock := events[i].now;
        }
      }
      assert events[..|events|] == events;
    }
  }
}
