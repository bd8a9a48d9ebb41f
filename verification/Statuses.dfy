/** The two state machines of credence/state.py. */
module Statuses {
  import opened Tables

  datatype AppStatus =
    | Draft | IdentityVerified | EvidenceReady | Underwriting | PolicyEvaluated
    | HumanReviewRequired | AppApproved | VaultCreated | DisbursementEnabled | AppRejected

  datatype VaultStatus =
    | Created | Active | Spending | Frozen | Expired | TaskCompleted | TaskFailed
    | RevenueReceived | Repaid | PartiallyRepaid | Defaulted | Closed

  function AppTargets(s: AppStatus): set<AppStatus> {
    match s
    case Draft => {IdentityVerified, AppRejected}
    case IdentityVerified => {EvidenceReady, AppRejected}
    case EvidenceReady => {Underwriting, AppRejected}
    case Underwriting => {PolicyEvaluated, AppRejected}
    case PolicyEvaluated => {HumanReviewRequired, AppApproved, AppRejected}
    case HumanReviewRequired => {AppApproved, AppRejected}
    case AppApproved => {VaultCreated}
    case VaultCreated => {DisbursementEnabled}
    case DisbursementEnabled => {}
    case AppRejected => {}
  }

  function VaultTargets(s: VaultStatus): set<VaultStatus> {
    match s
    case Created => {Active, Frozen, Expired}
    case Active => {Spending, TaskCompleted, TaskFailed, Frozen, Expired}
    case Spending => {Spending, TaskCompleted, TaskFailed, Frozen, Expired}
    case Frozen => {Active, TaskFailed, Expired}
    case Expired => {RevenueReceived, TaskFailed}
    case TaskCompleted => {RevenueReceived}
    case TaskFailed => {RevenueReceived, Defaulted, PartiallyRepaid, Repaid}
    case RevenueReceived => {Repaid, PartiallyRepaid, Defaulted, RevenueReceived}
    case Repaid => {Closed}
    case PartiallyRepaid => {RevenueReceived, Defaulted, Closed}
    case Defaulted => {Closed}
    case Closed => {}
  }

  /** The tables read backwards: from which statuses each status can be entered. */
  lemma VaultEntries(s: VaultStatus)
    ensures Created !in VaultTargets(s)
    ensures Active in VaultTargets(s) <==> s == Created || s == Frozen
    ensures Spending in VaultTargets(s) <==> s == Active || s == Spending
    ensures Frozen in VaultTargets(s) <==> s == Created || s == Active || s == Spending
    ensures Expired in VaultTargets(s) <==> s == Created || s == Active || s == Spending || s == Frozen
    ensures TaskCompleted in VaultTargets(s) <==> s == Active || s == Spending
    ensures TaskFailed in VaultTargets(s) <==> s == Active || s == Spending || s == Frozen || s == Expired
    ensures RevenueReceived in VaultTargets(s)
      <==> s == Expired || s == TaskCompleted || s == TaskFailed || s == RevenueReceived || s == PartiallyRepaid
    ensures Repaid in VaultTargets(s) <==> s == TaskFailed || s == RevenueReceived
    ensures PartiallyRepaid in VaultTargets(s) <==> s == TaskFailed || s == RevenueReceived
    ensures Defaulted in VaultTargets(s) <==> s == TaskFailed || s == RevenueReceived || s == PartiallyRepaid
    ensures Closed in VaultTargets(s) <==> s == Repaid || s == PartiallyRepaid || s == Defaulted
  {
  }

  lemma AppEntries(s: AppStatus)
    ensures Draft !in AppTargets(s)
    ensures IdentityVerified in AppTargets(s) <==> s == Draft
    ensures EvidenceReady in AppTargets(s) <==> s == IdentityVerified
    ensures Underwriting in AppTargets(s) <==> s == EvidenceReady
    ensures PolicyEvaluated in AppTargets(s) <==> s == Underwriting
    ensures HumanReviewRequired in AppTargets(s) <==> s == PolicyEvaluated
    ensures AppApproved in AppTargets(s) <==> s == PolicyEvaluated || s == HumanReviewRequired
    ensures VaultCreated in AppTargets(s) <==> s == AppApproved
    ensures DisbursementEnabled in AppTargets(s) <==> s == VaultCreated
    ensures AppRejected in AppTargets(s)
      <==> s != AppApproved && s != VaultCreated && s != DisbursementEnabled && s != AppRejected
  {
  }

  /** `transition()`: the target when the table allows it, None for InvalidTransitionError. */
  function AppTransition(current: AppStatus, target: AppStatus): Option<AppStatus> {
    if target in AppTargets(current) then Some(target) else None
  }

  function VaultTransition(current: VaultStatus, target: VaultStatus): Option<VaultStatus> {
    if target in VaultTargets(current) then Some(target) else None
  }

  predicate ApprovedStatus(s: AppStatus) {
    s.AppApproved? || s.VaultCreated? || s.DisbursementEnabled?
  }

  predicate Spendable(s: VaultStatus) { s.Active? || s.Spending? }

  /** Statuses in which the whole limit is still owed and no recovery has happened. */
  predicate Live(s: VaultStatus) { s.Created? || s.Active? || s.Spending? || s.Frozen? || s.Expired? }
}
