# Credence: a verified model of the credit facility

Credence lends to software agents. An agent applies for task credit, a deterministic engine decides
within caps, a vault is funded through a double-entry ledger, the agent proposes payments that two
independent controls judge, and revenue or a bounded recovery pays the vault back. This project
models that engine as one transition system, proves what holds over whole runs of it, and proves
separately that the audit chain survives concurrent writers.

Check it with `dafny verify dfyconfig.toml`.

## How it is laid out

| files | content |
|---|---|
| `Statuses`, `Ledger`, `Rules`, `Policy`, `Waterfall`, `Underwriting` | the components, as methods that work as the source does (loops, accumulators, fields updated in place), each proved against a specification stated apart from its steps |
| `Records`, `Operations` | the tables and what each service call does to them, as functions from state to state, with runs of calls (`Run`) |
| `Facility` | the services as an object whose methods update its tables step by step, each proved to take exactly the step `Operations` describes; `ServeAll` ties any number of calls to `Run` |
| `VaultFile`, `Growth`, `Postings`, `Invariants`, `Preservation`, `Provenance` | the invariants of a vault with its rows, of the ledger against the columns and of the desk, and their preservation by every operation |
| `CreditTerms`, `SpendTerms`, `DeskEffects`, `MoneyEffects` | what each call asks and what it writes, row by row: exact conditions and results in statuses, columns and sums over rows, with the program's own figures and apart from the functions the model is built from |
| `Safety`, `RevocationSafety` (in `Revocation.dfy`), `Standing`, `Exposure`, `Pacing`, `ReadModels`, `Controls` | the main theorems over runs |
| `Scenario` | one credit from registration to repayment: a run that reaches the states the theorems speak of, one on which the two spend controls disagree, and one on which the owner's cap is exceeded |
| `AuditChain`, `ChainProtocol`, `AuditTrail` | the hash chain, the locking protocol of its appenders, and what the events of a run tell about the ledger and the decisions |
| `Passports`, `Breaker`, `Telemetry` | passport issuing and verification, the circuit breaker in front of the model, nearest-rank percentiles |

## Conventions

- Money, rates and times are unbounded integers, as in Python; `//` by a positive constant is Dafny's `/`.
  Times are microseconds.
- A table is a sequence and a row's id is its index, so ids are fresh. Where the program builds an
  idempotency key from an id, the id is spelled out as text and the keys are proved injective and disjoint.
- One service call is one atomic step. A raised error leaves the state as it was, which is what
  `credence/api/deps.py:41-46` does by rolling back. The one exception the code makes visible is a refused
  execution: a caller that catches the error inside the session keeps the DENIED mark (`caught`). Both
  readings are modelled.
- The clock of a run never goes backwards; a call dated before the clock is not a behaviour and is skipped.
- The model gateway is a parameter of each evaluation: absent or, for each of the three roles, answering
  (the analyst with any flags), failing with the error its callers handle, or raising any other exception.
  Whether a deterministic pattern matched the evidence is a parameter too. Hash, canonical encoding, signing and
  signature checking are arbitrary functions; the hash is never assumed injective.

## What the proofs brought out

- Sub-ledger agreement rests on a status-conditioned fact nobody checks: while a vault is live, all of its
  limit is still owed and nothing has been drawn from the reserve. Without it a recovery would not balance.
- `agent.status` is not permanent after REVOKE: FREEZE overwrites it and UNFREEZE then makes it ACTIVE
  (`StatusIsNotPermanent`). It stays REVOKED if and only if no FREEZE of that agent follows
  (`StatusStaysRevoked`). What is permanent is the revocation row, and that is enough.
- `execute_transaction` does not look at the passport again. Revocation still holds, because the
  vaults are frozen and no later proposal is approved.
- Neither the sliding-window guarantee nor the daily limit needs the clock to be monotone
  (`WindowHoldsWithoutClock`, `DailyLimitHolds`).
- The two spend controls differ in two places: only the policy asks for a valid passport, and its document
  counts whole seconds, so within the second in which a vault expires it refuses what the rules still
  allow (`PolicyStricterWithinSecond`; `ControlsCanDisagree` reaches such a moment by a run).
- The expected-loss gate cannot fire at or below 109,092 ppm, and above 350,000 ppm it fires
  for every limit of at least 6 minor units; the probability gate by itself decides only below that.
- A FROZEN vault refuses revenue (`RevenueReceivedWhen`), and revenue is booked in the currency of the event, whatever the
  vault's currency; account balances add currencies together. The identities hold all the same.
- `credence/audit/chain.py:3-4` says any mutation or deletion breaks verification. The exact condition is
  `TamperingNoticed`: what replaces a stretch of the log goes unnoticed if and only if it links up and ends
  in the hash the next event names, or has no next event. So a log cut off at its end, or with its last
  event rewritten and re-hashed, verifies; so does one whose request ids were changed.
- `verify` consumes a request nonce even when an earlier check has already failed, but not when an
  exception cuts it short: a signature that does not decode, or a time without a zone compared with one
  that has it. Such a request is denied, its other faults are not listed and its nonce stays usable.
- A call for which no identity token can be minted, or that ends in an exception `_chat` does not catch
  (a body such as `{"message": null}` raises TypeError), is not counted by the circuit breaker. The bound on
  failing calls covers all that get through if and only if no such call does (`FailingCallsBounded`), and it
  is per breaker object: `evaluate` builds a fresh one for every request (credence/api/routes.py:397).
- The same exception is not the ModelUnavailableError an evaluation handles. It escapes and undoes the whole
  evaluation, even when it comes from an advisory opinion. So "A model failure degrades this stage only,
  never the application" (credence/services/credit.py:461) holds if and only if the failure is one that is
  handled (`OpinionDegradesOnly`), and two gateways lead to the same credit if and only if the model is not
  reached or neither raises (`ModelCannotMoveCredit`).
- The owner's exposure cap is compared with what the agent owes when an application is decided
  (`ExposureBounded`), and never again. When the vault is opened it still holds if no other vault of the agent
  was opened in between (`ExposureHolds`), and in general exactly when what is owed then and the decided limit
  fit in it (`FundingExposure`). Two applications decided before either is funded are each measured as if the
  other were not there, and together can exceed it (`ExposureCanBeExceeded`).
- A passport stored under another signing key is an invalid identity for every operation, and replacing the
  key of a running service does that to all of them at once.
- An execution refused at the re-check leaves a DENIED mark and a risk event when its caller catches the error,
  but no audit event, unlike any other change to money or credit (`SilentChange`).

## Model

| member | source | states |
|---|---|---|
| Safety.SubLedgersAgree | credence/services/vault_ops.py:433-467 | in every reachable state each of the ten platform accounts equals the vault columns or rows it accounts for (receivable, available, reserve, cash, payables, fees, owners, losses) and escrow is empty |
| Safety.LedgerStaysBalanced | credence/ledger/service.py:107-150 | in every reachable ledger the trial balance is zero in every currency, assets + expenses = liabilities + income, and no idempotency key occurs twice |
| Safety.PostingsNeverRefused | credence/ledger/service.py:44-104 | in no reachable state is a posting of any operation rejected or swallowed: each call adds exactly one journal row per new vault, payment, revenue and repayment |
| Safety.RevenueCountsOnce | credence/services/vault_ops.py:521-530 | from any state, a repeated external event id changes nothing, whatever vault, amount or currency the repeat names |
| Safety.PaymentMadeOnce | credence/services/vault_ops.py:380-386 | executing an executed proposal again returns the same payment and changes nothing |
| Safety.ProposalMadeOnce | credence/services/vault_ops.py:220-224 | one proposal per idempotency key, whatever the repeat asks for |
| Safety.SpendWithinCaps | credence/services/vault_ops.py:65-95 | over any run, payments of a vault total at most its limit, the limit is within all five caps recorded at decision time through any review, each UTC day stays within the daily limit, and spent and count equal the payment rows until recovery |
| Safety.RecoveryIsBounded | credence/services/vault_ops.py:669-773 | with the reserve cap of the task's mandate, or none, a recovery succeeds exactly for the four open statuses and a cap that is not negative, and then sweeps limit − spent, draws min(spent, cap), books only the rest as loss, and defaults exactly when there is a loss |
| Safety.RecoveredAtMostOnce | credence/services/vault_ops.py:678-681 | a vault that was recovered has that one repayment row and no revenue |
| Safety.RepaymentDependsOnTotal | credence/services/vault_ops.py:571-645 | what a vault still owes and what its repayment rows add up to depend only on the revenue total; the owner is paid at most once, by the last row, when nothing is owed |
| Safety.RevenueEventsBounded | credence/state.py:48-53 | a vault accepts at most limit + limit/20 revenue events |
| Statuses.VaultEntries | credence/state.py:41-54 | from which statuses each vault status can be entered |
| Statuses.AppEntries | credence/state.py:15-28 | from which statuses each application status can be entered |
| Growth.RunGrows | credence/services/vault_ops.py:371-486 | history is append-only: journal, payments, revenues and repayments are only extended, vault terms never change, a vault that stopped being spendable or a refused proposal stays so |
| Preservation.CreateVaultPosts | credence/services/vault_ops.py:49-151 | a vault is created if and only if the application is approved and decided, has something to lend and names known vendors only; then exactly its approved limit is owed in full and its disbursement is a new journal row, otherwise nothing changes |
| Preservation.ExecutePosts | credence/services/vault_ops.py:371-486 | money moves if and only if the proposal is approved and no rule objects now; then one new row is posted and the amount moves once, otherwise at most the proposal is marked refused |
| Preservation.ReceiveRevenuePosts | credence/services/vault_ops.py:507-666 | an accepted revenue posts exactly the escrow row and the waterfall row; a replay or refusal changes nothing |
| Preservation.SimulateFailurePosts | credence/services/vault_ops.py:669-805 | a recovery posts exactly one new row; a refusal changes nothing |
| Preservation.PerformKeeps | credence/services/vault_ops.py:49-825 | every service call keeps the invariants of vaults, ledger, justification of journal rows and sub-ledger agreement |
| Provenance.RunKeepsState | credence/services/credit.py:543-614 | over any run every vault was funded by one approved application within its recorded caps, and decisions, reviews and statuses tally |
| RevocationSafety.RevocationIsPermanent | credence/services/identity.py:242-277 | after a REVOKE, whatever follows: no payment from any vault of the agent, earlier vaults never spendable, later proposals refused, undecided applications never granted |
| RevocationSafety.RevokedHasNoPassport | credence/services/identity.py:55-67 | a revoked agent has no valid passport, whatever is issued later and whatever its status says |
| RevocationSafety.StatusIsNotPermanent | credence/services/identity.py:258-263 | the status column, by contrast, can read ACTIVE again after REVOKE, FREEZE and UNFREEZE; when exactly it stays is `StatusStep` and `StatusStaysRevoked` |
| RevocationSafety.StatusStep | credence/services/identity.py:258-265 | a status that reads REVOKED still does after any service call if and only if the call is not a FREEZE of that agent |
| RevocationSafety.StatusStaysRevoked | credence/services/identity.py:258-265 | after a REVOKE the status reads REVOKED at every moment of a run if and only if no performed call is a FREEZE of that agent |
| Standing.InactiveExecutes | credence/vault/rules.py:84-87 | while an agent's status is not ACTIVE no execution adds a payment to a vault of the agent |
| Standing.InactiveProposes | credence/services/vault_ops.py:207-362 | while an agent's status is not ACTIVE no proposal for its vaults is approved |
| Standing.InactiveEvaluates | credence/services/credit.py:259-277 | while an agent's status is not ACTIVE every draft of it that is evaluated is rejected |
| Standing.FrozenUntilUnfrozen | credence/services/identity.py:258-263 | after a FREEZE, and until an UNFREEZE of the agent is performed, no payment leaves its vaults, no proposal for them is approved and nothing undecided is granted, over any run |
| Standing.SplitStopsVault | credence/services/vault_ops.py:330-345 | a proposal that would split a payment is refused and freezes its vault, and no payment is made from that vault ever after |
| Standing.MandateBacksRecovery | credence/services/vault_ops.py:686-698 | once a mandate is created for a task, a recovery of any vault of that task, whatever happened between, succeeds exactly for the four open statuses and a cap that is not negative, draws what was spent up to the cap signed then, loses the rest and defaults exactly when there is a rest |
| Standing.NoMandateNoReserve | credence/services/vault_ops.py:686-698 | without a mandate for the task nothing is drawn and all that was spent is lost |
| Standing.RevenueReceivedWhen | credence/state.py:41-54 | in every reachable state a new revenue is collected if and only if the vault exists, the amount is positive and the vault is ACTIVE, SPENDING, EXPIRED or PARTIALLY_REPAID |
| MoneyEffects.ProposeFiles | credence/services/vault_ops.py:249-362 | everything a new proposal writes: its row, approved exactly when neither control has anything against it, with every objection and denial; both engines' records; a risk event if refused; and its own vault frozen exactly when that could spend and two or more payments to the vendor in ten minutes exceed, with the amount, the limit of one transaction |
| MoneyEffects.ProposeReplays | credence/services/vault_ops.py:220-232 | a known key answers with its proposal and an unknown vault is refused, both without a change |
| MoneyEffects.PendingExecutes | credence/services/vault_ops.py:387-486 | an approved unpaid proposal is paid exactly when no rule objects now, with every row and column written; otherwise it is refused, marked DENIED with the objections and a risk event when the caller catches the error, and unchanged when not |
| MoneyEffects.ExecuteChangesNothing | credence/services/vault_ops.py:371-392 | any other execution changes nothing, and succeeds exactly when the proposal was paid |
| MoneyEffects.CreateVaultOpens | credence/services/vault_ops.py:49-151 | when a vault is opened, and every column, allowlist row, journal entry, status and mandate lock it writes |
| MoneyEffects.VaultMoves | credence/state.py:41-54 | freezing is granted exactly from CREATED, ACTIVE and SPENDING, closing exactly from REPAID, PARTIALLY_REPAID and DEFAULTED; only that status moves |
| MoneyEffects.RevenueCollects | credence/services/vault_ops.py:532-645 | when a new revenue is collected, and the split over principal, fee and owner, the vault's columns and status, the rows and both journals it writes |
| MoneyEffects.FailureRecovers | credence/services/vault_ops.py:669-773 | when a recovery succeeds, and the sweep, draw and loss, the vault's columns and status, the row and the journal it writes |
| DeskEffects.EvaluateDecides | credence/services/credit.py:294-438 | a draft that may be scored is decided on the rows: the five caps, the least of them, the verdict and exactly the reasons; or the evaluation is undone when the model interrupts it |
| DeskEffects.EvaluateTurnsAway | credence/services/credit.py:259-292 | a draft without a usable passport, an active agent or evidence is rejected with exactly the reasons, and nothing else is written |
| DeskEffects.ExposureBounded | credence/underwriting/decision.py:66-97 | what an evaluation grants and what the agent owes on vaults not REPAID, CLOSED or DEFAULTED are together within the owner's cap |
| Exposure.ExposureHolds | credence/services/vault_ops.py:65-95 | over any run, when a vault is opened all the agent owes is within the owner's cap of its application, if no other vault of the agent was opened since the application was decided |
| Exposure.FundingExposure | credence/services/vault_ops.py:65-95 | in every reachable state the cap holds after a vault is opened if and only if what the agent owes and the decided limit fit in it |
| Exposure.OwedGrowsByVaults | credence/underwriting/features.py:67-71 | what an agent owes grows only by a vault opened for it, and then by its limit |
| Scenario.ExposureCanBeExceeded | credence/underwriting/decision.py:66-97 | a run reaches a vault whose agent owes more than the owner's cap of the application it came from |
| DeskEffects.ReviewSettles | credence/services/credit.py:543-614 | when a review succeeds, and the amount, decision, status and review row it leaves |
| DeskEffects.ReviewNeedsDecision | credence/services/credit.py:543-560 | an application without a decision cannot be reviewed |
| DeskEffects.ApplicationIsFiled | credence/services/credit.py:187-234 | an application is filed exactly for a positive amount, as a draft naming each vendor once |
| DeskEffects.MandateIsCreated | credence/services/credit.py:159-184 | one mandate per task, with the cap as signed |
| DeskEffects.VendorRegisters | credence/services/demo.py:40-55 | a vendor is known from its registration on, with its category |
| DeskEffects.PassportIsIssued | credence/services/identity.py:162-220 | when a passport is issued, and its row |
| DeskEffects.KillSwitchActs | credence/services/identity.py:242-301 | each action's effect on the agent's status, on revocations and on every vault |
| CreditTerms.FaultsOnRows | credence/passport/service.py:142-185 | what is wrong with the latest passport, in terms of its row, the agent's and the revocation rows |
| CreditTerms.FeaturesOnRows | credence/underwriting/features.py:46-71 | outstanding principal, finished and successful vaults, success rate and first credit are these sums over the agent's vaults |
| CreditTerms.RepaymentFeaturesOnRows | credence/underwriting/features.py:59-65 | repayments, those in full, their rate and the losses are these sums over the repayments of the agent's vaults |
| CreditTerms.ConductFeaturesOnRows | credence/underwriting/features.py:73-90 | blocked spends, violations and age in days from the agent's risk events and registration |
| CreditTerms.ScoreOnRows | credence/underwriting/scorecard.py:26-71 | the probability of default of an application as one formula over the rows |
| CreditTerms.FactorsOnRows | credence/underwriting/scorecard.py:26-71 | each factor is named exactly when these rows say so |
| CreditTerms.InputCapsOnRows | credence/underwriting/decision.py:66-90 | the five caps: amount, owner's cap less what the agent owes, seven tenths of the revenue, cost, and the latest passport's authority |
| SpendTerms.ReasonsOnRows | credence/services/vault_ops.py:154-200 | the fifteen rule reasons are exactly these objections on the vault, agent, allowlist and payment rows |
| SpendTerms.DenialOnRows | credence/services/vault_ops.py:249-275 | the policy's denials of a request are exactly these facts about the rows |
| SpendTerms.AllowedOnRows | credence/services/vault_ops.py:249-288 | a spend is allowed exactly when no rule objects, the passport has no fault and the vault expires in a later second |
| Pacing.SlidingWindowSafety | credence/vault/rules.py:125-136 | in every reachable state a vault makes at most 5 payments in any closed ten-minute interval, 3 or more to one vendor in it total at most the per-transaction limit, and each UTC day stays within the daily limit |
| Pacing.WindowHoldsWithoutClock | credence/vault/rules.py:125-136 | the window guarantee from any state without payments, whatever its vaults, after any calls dated in any order |
| Pacing.DailyLimitHolds | credence/services/vault_ops.py:166-174 | under the same conditions the daily check (credence/vault/rules.py:112-113) alone bounds every UTC day, for any daily limit |
| Pacing.PacedIsCalm | credence/services/vault_ops.py:193-200 | the look-back check made at each payment suffices for every interval, in whatever order payments are dated |
| Pacing.PacedDay | credence/vault/rules.py:105-116 | a daily check made at each payment bounds the whole day, in whatever order payments are dated |
| Controls.TwoControlsAgree | credence/services/vault_ops.py:249-275 | on the document the service builds, the policy allows exactly when the rules allow, the passport verifies and the vault has not expired in whole seconds |
| Controls.PolicyStricterWithinSecond | credence/services/vault_ops.py:256-258 | with a valid passport, a spend the rules allow is denied by the policy if and only if the vault expires within the current second |
| Controls.ApprovedMeansBoth | credence/services/vault_ops.py:275-288 | a new proposal is approved exactly when both controls allow it |
| Scenario.ControlsCanDisagree | credence/services/vault_ops.py:256-258 | a run reaches a state and time at which rules and passport allow a spend and the policy denies it |
| Scenario.CreditIsRepaid | credence/services/vault_ops.py:49-666 | a run reaches a vault that was opened, made a payment and was repaid with a surplus, so the theorems over runs are not about nothing |
| Controls.ModelCannotMoveCredit | credence/services/credit.py:294-438 | two gateway behaviours record the same caps, probability, expected loss and limit for a draft, with only approval and review trading places, if and only if the model is not reached or neither raises an unhandled exception; no behaviour gets an approval that a clean answer would not |
| Controls.RaisedEvaluationIsNoOp | credence/services/credit.py:294-335 | an evaluation is undone as a whole exactly when its gates pass and a role it reaches raises; nothing is recorded then, and a draft's evaluation fails in no other way |
| Controls.OpinionDegradesOnly | credence/services/credit.py:441-486 | an advisory opinion changes nothing but its own record if and only if it is not an unhandled exception |
| Controls.OnlyCleanModelApproves | credence/services/credit.py:295-335 | an absent, failing, raising or flagging model never yields an approval |
| Controls.CorroborationIsCosmetic | credence/services/credit.py:50-73 | whether the pattern matcher confirms a flag never changes the verdict |
| Controls.StoredPassportFaults | credence/services/identity.py:223-239 | verifying a stored passport in full, signature, issuer, audience and a replaced signing key included, finds exactly the faults the operations look at |
| ReadModels.RepaymentInvariantOk | credence/api/system_intelligence.py:177-223 | the checker's loop decides conservation of a repayment row: every step is known, every column is the sum of its steps and a waterfall run adds up to the revenue its journal key names |
| ReadModels.EveryRepaymentReconciles | credence/api/system_intelligence.py:341-357 | every repayment row in every reachable state passes that checker, through the journal-key round trip |
| ReadModels.BlockRateIsWhole | credence/api/system_intelligence.py:359-369 | the adversarial attempts are exactly the refused proposals, all of them terminally blocked and unpaid, so the block rate is whole whenever there were attempts |
| ReadModels.CountsAgree | credence/api/system_intelligence.py:406-433 | counts derived from audit verdicts and reviews equal the dashboard's counts by status (credence/api/read_routes.py:1182-1189), and the three partition the decisions |
| Facility.CreditFacility.CreateVault | credence/services/vault_ops.py:49-151 | the step `Operations.CreateVault` describes, with every refusal (on the rows, `MoneyEffects.CreateVaultOpens`) |
| Facility.CreditFacility.OpenVault | credence/services/vault_ops.py:72-111 | the vault row, its allowlist with each vendor's purpose, the mandate lock and the application's transitions |
| Facility.CreditFacility.VaultLimits | credence/services/vault_ops.py:154-190 | the limits the rules see, including what was spent this UTC day |
| Facility.CreditFacility.CheckRules | credence/services/vault_ops.py:233-247 | the set of rules a request violates as things stand |
| Facility.CreditFacility.CheckPolicy | credence/services/vault_ops.py:249-271 | the denials of the second control on the document built for it |
| Facility.CreditFacility.ProposeTransaction | credence/services/vault_ops.py:207-362 | the step of a proposal: replay, both controls, rows, risk event, freeze on a detected split (what it writes, on the rows, is `MoneyEffects.ProposeFiles`) |
| Facility.CreditFacility.ExecuteTransaction | credence/services/vault_ops.py:371-486 | the step of an execution: replay, re-check, refusal kept or rolled back, posting, columns (on the rows, `MoneyEffects.PendingExecutes`) |
| Facility.CreditFacility.MoveVault | credence/services/vault_ops.py:489-504 | freeze and close (credence/services/vault_ops.py:808-825) ask the state machine (when it grants, `MoneyEffects.VaultMoves`) |
| Facility.CreditFacility.ReceiveRevenue | credence/services/vault_ops.py:507-666 | the step of a revenue: replay, transitions, two postings with the waterfall between them, columns (on the rows, `MoneyEffects.RevenueCollects`) |
| Facility.CreditFacility.Escrow | credence/services/vault_ops.py:548-620 | both postings happen or neither does |
| Facility.CreditFacility.SimulateFailure | credence/services/vault_ops.py:669-805 | the step of a recovery, with and without a journal (on the rows, `MoneyEffects.FailureRecovers`) |
| Facility.CreditFacility.VerifyStoredPassport | credence/services/identity.py:223-239 | every reason the latest passport fails, a replaced signing key among them, and validity exactly when there is none; that nothing else can fail is `Controls.StoredPassportFaults` |
| Facility.CreditFacility.IssuePassport | credence/services/identity.py:162-220 | the step of issuing: refused for an unknown agent, one that is not active, a lifetime over the maximum or a negative amount |
| Facility.CreditFacility.ReplaceSigner | credence/services/identity.py:32-46 | the step of starting over with another signing key |
| Facility.CreditFacility.KillSwitch | credence/services/identity.py:242-301 | the step of each kill-switch action |
| Facility.CreditFacility.Revoke | credence/services/identity.py:264-275 | the agent revoked, all its passports revoked, exactly its open vaults frozen |
| Facility.CreditFacility.EvaluateApplication | credence/services/credit.py:236-438 | the step of an evaluation: idempotent once decided, undone when the model raises what nobody handles (on the rows, `DeskEffects.EvaluateDecides`) |
| Facility.CreditFacility.CheckGates | credence/services/credit.py:259-292 | the identity and evidence gates: why the application is refused, or nothing |
| Facility.CreditFacility.Underwrite | credence/services/credit.py:294-426 | the advisory runs, risk run and policy record of an evaluation and the engine's decision, or nothing at all when a role raises |
| Facility.CreditFacility.ReviewApplication | credence/services/credit.py:543-614 | the step of a review, never above the decided limit |
| Facility.CreditFacility.ServeAll | credence/services/vault_ops.py:49-825 | any number of calls takes the object through the states of `Run` |
| Ledger.LedgerService.EnsureChart | credence/services/accounts.py:25-53 | adds exactly the missing platform accounts |
| Ledger.LedgerService.PostJournal | credence/ledger/service.py:44-104 | replays a known key, refuses empty keys, short, non-positive, unbalanced or unknown-account lists in that order, else appends one row |
| Ledger.LedgerService.AccountBalance | credence/ledger/service.py:107-130 | the signed total of all entries on the account, on its natural side, across currencies |
| Ledger.LedgerService.Reconcile | credence/ledger/service.py:133-150 | exactly the currencies whose global net is not zero, with their net |
| Ledger.PostKeepsBooks | credence/ledger/service.py:53-104 | a posting keeps the books consistent and the rows before it, and posting under the same key again changes nothing |
| Ledger.PostsWhen | credence/ledger/service.py:53-104 | a posting without a key is refused, a known key answers with its row and changes nothing, and any other becomes the last row exactly when it has two entries or more, positive amounts, known accounts and equal debits and credits in every currency |
| Ledger.RefusalsInOrder | credence/ledger/service.py:66-85 | which refusal an unacceptable posting gets |
| Ledger.DebitsLessCredits | credence/ledger/service.py:107-150 | the net of a currency and the effect on an account are sums of debits less sums of credits |
| Ledger.TrialBalanceEmpty | credence/ledger/service.py:133-150 | a consistent ledger reconciles to nothing |
| Ledger.AccountingIdentity | credence/services/accounts.py:25-36 | assets + expenses = liabilities + income in every consistent ledger, although entries balance per currency and balances ignore currency |
| Records.KeysInjective | credence/services/vault_ops.py:114-116 | one disbursement, spend or recovery key per vault or proposal |
| Records.FamiliesApart | credence/services/vault_ops.py:549-551 | keys of the five families never collide, whatever ids they embed |
| Rules.EvaluateProposal | credence/vault/rules.py:69-138 | the reasons are exactly the violated controls, each once, and there are none exactly when everything a payment may rely on holds |
| Rules.NoViolationMeansPermitted | credence/vault/rules.py:78-138 | the fifteen controls together say exactly what a permitted payment satisfies |
| Policy.Lookup | credence/policy/engine.py:41-47 | the path walk returns the value at the path, and nothing for a missing step or a non-dictionary |
| Policy.EvaluateTransactionPolicy | credence/policy/engine.py:50-95 | the denials are exactly those due, and there are none exactly when the document says everything required |
| Policy.IllTypedDenied | credence/policy/engine.py:50-95 | any document with a missing or ill-typed required field is denied |
| Policy.MissingFieldDenied | credence/policy/engine.py:41-47 | deleting any one required field from any document denies it |
| Policy.BooleansCount | credence/policy/engine.py:50-95 | True and False count as 1 and 0 in every number of a document |
| Policy.DocumentReadsBack | credence/services/vault_ops.py:252-271 | every field the evaluator reads is where the service puts it |
| Waterfall.RunRepaymentWaterfall | credence/vault/waterfall.py:46-86 | each level receives what the revenue leaves above the claims before it; refuses exactly negative inputs |
| Waterfall.RunRecoveryWaterfall | credence/vault/waterfall.py:98-138 | sweep, revenue, capped reserve and loss, each in closed form; refuses exactly negative inputs |
| Waterfall.RepaymentConserves | credence/vault/waterfall.py:46-86 | every unit of revenue is allocated once, and a level is reached only when those before it are full |
| Waterfall.RecoveryConserves | credence/vault/waterfall.py:98-138 | recovered + loss = owed, the draw stays within pool and cap, and a loss is booked only when everything else is exhausted |
| Waterfall.PathIndependence | credence/vault/waterfall.py:46-86 | however a total is split into revenues the cumulative allocation is that of the total paid at once |
| Waterfall.Repay | scripts/verify_financial_identity.py:98-124 | the second implementation computes the same allocation |
| Waterfall.Recover | scripts/verify_financial_identity.py:127-156 | the second implementation computes the same recovery |
| Waterfall.CrossCheckRepayments | scripts/verify_financial_identity.py:267-300 | on any list of non-negative trials the comparison loop counts no mismatch |
| Waterfall.CrossCheckRecoveries | scripts/verify_financial_identity.py:302-330 | the same for recoveries, including the cap |
| Underwriting.ScorePd | credence/underwriting/scorecard.py:26-71 | the clamped score and exactly the factors that apply |
| Underwriting.Decide | credence/underwriting/decision.py:66-162 | verdict, limit, probability, loss, fee and caps, and exactly the reasons that hold |
| Underwriting.ReviewGates | credence/underwriting/decision.py:98-126 | approval exactly when no review trigger holds |
| Underwriting.ModelIsAdvisory | credence/underwriting/decision.py:94-126 | availability and flags leave caps, probability and limit alone; an unavailable or flagging model never approves |
| Underwriting.CorroborationKeepsFlags | credence/services/credit.py:50-73 | corroboration never changes whether the evidence is flagged |
| Underwriting.LossGateReach | credence/underwriting/decision.py:121-126 | some limit makes the expected-loss gate fire exactly when the probability exceeds 109,092 ppm |
| Underwriting.PdGateReach | credence/underwriting/decision.py:118-126 | above the probability threshold the expected-loss gate always fires too exactly when the limit is at least 6 |
| Underwriting.ApprovalWithinLossRatio | credence/underwriting/decision.py:81-126 | every approval is within all caps and the loss ratio, with a mandate, a clean available model and a history |
| Underwriting.RiskMonotone | credence/underwriting/scorecard.py:26-71 | worse history or lower coverage never lowers probability or loss, never turns another verdict into an approval and leaves rejection as it is |
| AuditChain.VerifyChain | credence/audit/chain.py:109-133 | intact exactly when every event links, else the number of the first event that does not |
| AuditChain.AuditLog.Append | credence/audit/chain.py:59-106 | the sealed row after the head; an intact log stays intact |
| AuditChain.ExtendsIntact | credence/audit/chain.py:79-91 | an extended chain is intact exactly when the chain is and the new event links to its head |
| AuditChain.HeadBindsHistory | credence/audit/chain.py:79-91 | two intact chains with one head hash have the same history, or the extractor returns a collision or a preimage of the genesis value |
| AuditChain.TamperingNoticed | credence/audit/chain.py:109-133 | replacing any stretch of an intact chain by any other (edit, deletion, insertion, reordering, cut) goes unnoticed if and only if the new stretch links up and ends in the hash the next event names, or has no next event; if it links up but ends elsewhere the break is reported right after it |
| AuditChain.PlainEditReported | credence/audit/chain.py:112-132 | editing covered fields or the payload of any event while leaving its stored hashes is reported at that event or exhibits a collision, and goes unnoticed if and only if both hashes collide |
| AuditChain.RehashedEditReported | credence/audit/chain.py:112-132 | an edit of one event goes unnoticed if and only if it passes its own checks and is the last event or keeps its hash; a re-hashed one is otherwise reported exactly at the next event, and one that keeps the hash changes nothing covered or exhibits a collision |
| AuditChain.DeletionReported | credence/audit/chain.py:112-132 | deleting a block of events goes unnoticed if and only if nothing follows it or the hashes before and at its end coincide; otherwise it is reported at the event after it |
| AuditChain.TruncationAndRequestIdsUnseen | credence/audit/chain.py:109-133 | cutting off the tail or changing request ids goes unnoticed |
| AuditTrail.LogExplainsLedger | credence/services/vault_ops.py:137-805 | in every reachable state the ten platform balances of the ledger are what the audit events of the run add up to |
| AuditTrail.LogTellsDecisions | credence/services/credit.py:525-612 | in every reachable state the engine verdicts and human reviews are exactly those the audit events tell, in order |
| AuditTrail.SilentChange | credence/services/vault_ops.py:408-432 | a call that changes anything leaves no audit event if and only if it registers a vendor or evidence, replaces the signing key, or is an execution refused at the re-check |
| AuditTrail.HeadFixesBalances | credence/audit/chain.py:59-106 | any intact table that ends in the head hash of a run's audit table adds up to the ledger's balances and holds the desk's verdicts and reviews, or yields a hash collision or a preimage of the genesis value |
| AuditTrail.DashboardCounts | credence/api/system_intelligence.py:409-431 | the counts from the CREDIT_DECISION rows of the audit table and the reviews equal those by application status, over any run |
| ChainProtocol.LockedAppendsVerify | credence/audit/chain.py:28-42 | from any intact log, over every interleaving of sessions that lock, read the head, insert, commit or abort, the committed chain verifies |
| ChainProtocol.StepSafe | credence/audit/chain.py:28-106 | each step keeps the protocol invariant, and the table only grows at its end by what a commit publishes |
| ChainProtocol.FreeLockAppends | credence/audit/chain.py:28-106 | once the lock is free any session's four steps put its event at the end of the committed chain and free the lock again |
| ChainProtocol.EndingFreesLock | credence/audit/chain.py:28-42 | a commit publishes what is pending, an abort forgets it, and either frees the lock |
| ChainProtocol.UnlockedAppendsFork | credence/audit/chain.py:28-42 | without the lock two concurrent appends to any intact log leave a chain that verifies if and only if the first of them hashes to the old head |
| Passports.PassportService.Issue | credence/passport/service.py:87-137 | a signed passport for this service's audience valid for the lifetime asked, refused exactly for a lifetime over the maximum or a negative amount (credence/passport/schemas.py:26-27) |
| Passports.PassportService.Verify | credence/passport/service.py:142-194 | exactly the reasons that are due; a nonce is consumed whatever else failed, except when an exception (a signature that does not decode, a time without a zone) cuts the verification short |
| Passports.AcceptedMeansAllHolds | credence/passport/service.py:151-194 | fail closed: nothing is found wrong if and only if the verification ran to its end and every check holds |
| Passports.IssuedFailsOnlyInUse | credence/passport/service.py:142-194 | an issued passport fails exactly for its window, revocation, scope or nonce, and for nothing else unless issuing and verifying clocks differ in writing zones |
| Passports.NonceGoodOnce | credence/passport/service.py:186-192 | over any run a verification that runs to its end finds its nonce replayed exactly when it is empty or an earlier one that ran to its end carried it; one cut short neither checks nor spends it |
| Passports.NonceAcceptedOnce | credence/passport/service.py:51-59 | no nonce is accepted twice |
| Passports.InMemoryRevocationStore.Revoke | credence/passport/service.py:35-48 | revokes one passport, or with the empty nonce the agent, and never un-revokes |
| Passports.InMemoryNonceStore.Consume | credence/passport/service.py:51-59 | true exactly for an unseen nonce, which is then seen |
| Breaker.CircuitBreaker.BeforeCall | credence/modelgw/gateway.py:99-112 | a call is admitted exactly when the circuit is closed or has cooled down |
| Breaker.CircuitBreaker.RecordFailure | credence/modelgw/gateway.py:119-127 | counts the failure and opens the circuit from the threshold on |
| Breaker.CircuitBreaker.Chat | credence/modelgw/gateway.py:395-455 | only transport errors are retried; a reply closes the circuit, transport errors throughout or a malformed reply count as one failure, and a failed token or an uncaught exception leaves the breaker as it was |
| Breaker.FailingCallsBounded | credence/modelgw/gateway.py:79-127 | between two replies one caller of one breaker gets at most threshold + ⌊T/reset⌋ counted failures through in a span T; these are all the calls that get through if and only if no call the breaker is not told about finds it closed or cooled down |
| Breaker.OpenExactlyWhen | credence/modelgw/gateway.py:99-127 | after a reply that got through the circuit is open exactly from the threshold-th counted failure on, for the cool-down after the latest |
| Breaker.UncountedCallsUnbounded | credence/modelgw/gateway.py:399-455 | calls the breaker is not told about all get through a closed circuit, however many |
| Telemetry.PercentileIsLeastCover | credence/telemetry.py:147-155 | the least sample that at least pct percent of the samples do not exceed; it exists exactly for a non-empty sample and pct ≤ 100 |

## Left out

- Facility.CreditFacility.VerifyStoredPassport: the source reads the wall clock there, the model the time of the call.
- Operations.SimulateFailure: the DEFAULT_LOSS and VAULT_FROZEN risk events are not recorded, because nothing that is modelled reads them.
- Passports.PassportService.Verify: a revocation or nonce store that raises, and a payload that cannot be encoded, would cut the verification short as well; both stores are the in-memory ones.
- ChainProtocol.LockedAppendsVerify: models PostgreSQL's advisory lock; SQLite, which takes none and has a single writer, is the case of one session.
- Policy.EvaluateTransactionPolicy: NaN and infinite floats in a hand-made document.
- Safety.RevenueCountsOnce: claims only that the state is unchanged; the row a replay returns is the vault's latest repayment, not the original one.
- AuditTrail.LogExplainsLedger: the events are those of the calls of `Run`; `Facility` takes the same calls but does not write the table itself. Payload fields no theorem uses are left to the encoding.
- Interleaving of two service calls inside one another (row locks, isolation levels) and database limits (column lengths, uniqueness of event hashes, integer width).
- Organizations, tenants, users and authentication: every lookup is within one organization.
- The order of reason codes as stored and of vendor lists: reasons are sets, and vendor lists keep their first order.
- Events of kind POLICY_VIOLATION: the scorecard counts them, but no operation of the program writes one, so their count stays zero.
- Unfreezing and expiring a vault: both are in the transition table, but no operation of the program performs them. The invariants allow EXPIRED all the same.
- Time-window filters of the read models (`_since`): the theorems are about full history. Telemetry stages and the composite score are left out.
- HTTP routes, demo scenarios, front end, voice, prompts, regular expressions, JSON and Ed25519 internals, migrations, the evaluation corpus and decimal parsing.
