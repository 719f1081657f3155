/** The App Framework's phase bookkeeping: phases, status codes, scopes and custom-resource kinds. */
module AppTypes {

  datatype Option<+T> = None | Some(value: T)

  datatype Phase = Download | PodCopy | Install

  datatype Status =
    | DownloadPending | DownloadInProgress | DownloadComplete | DownloadError
    | PodCopyPending | PodCopyInProgress | PodCopyComplete | MissingFromOperator | PodCopyError
    | InstallPending | InstallInProgress | InstallComplete | MissingOnPod | InstallError

  datatype PhaseInfo = PhaseInfo(phase: Phase, status: Status, failCount: nat)

  datatype Scope = Local | PremiumApps | Cluster

  datatype Kind =
    | Standalone | IngestorCluster | LicenseManager | LicenseMaster | SearchHeadCluster
    | IndexerCluster | ClusterMaster | ClusterManager | MonitoringConsole

  // How far the push of cluster-scoped apps has come.
  datatype Stage = Uninitialized | Pending | InProgress | Complete

  // Fail counts are 32-bit unsigned integers.
  const UINT32: nat := 0x1_0000_0000

  function Bump(failCount: nat): nat {
    (failCount + 1) % UINT32
  }

  predicate IsFanOut(kind: Kind) {
    kind.Standalone? || kind.IngestorCluster?
  }

  predicate IsClusterScoped(kind: Kind) {
    kind.ClusterMaster? || kind.ClusterManager? || kind.SearchHeadCluster?
  }

  predicate CanInstall(scope: Scope) {
    scope.Local? || scope.PremiumApps?
  }

  /** The phase a status code belongs to (1xx download, 2xx pod copy, 3xx install). */
  function StatusPhase(status: Status): Phase {
    match status
    case DownloadPending | DownloadInProgress | DownloadComplete | DownloadError => Download
    case PodCopyPending | PodCopyInProgress | PodCopyComplete | MissingFromOperator | PodCopyError => PodCopy
    case InstallPending | InstallInProgress | InstallComplete | MissingOnPod | InstallError => Install
  }

  predicate Coherent(info: PhaseInfo) {
    StatusPhase(info.status) == info.phase
  }

  function PendingStatus(phase: Phase): Status {
    match phase
    case Download => DownloadPending
    case PodCopy => PodCopyPending
    case Install => InstallPending
  }

  function CompleteStatus(phase: Phase): Status {
    match phase
    case Download => DownloadComplete
    case PodCopy => PodCopyComplete
    case Install => InstallComplete
  }

  function ErrorStatus(phase: Phase): Status {
    match phase
    case Download => DownloadError
    case PodCopy => PodCopyError
    case Install => InstallError
  }

  function NewContext(phase: Phase): PhaseInfo {
    PhaseInfo(phase, PendingStatus(phase), 0)
  }

  predicate IsComplete(info: PhaseInfo) {
    info.status == CompleteStatus(info.phase)
  }

  predicate Exhausted(maxRetries: nat, info: PhaseInfo) {
    maxRetries < info.failCount
  }

  /** Whether a reconcile entry still has work for an app (or replica) in this state. */
  predicate EligibleAtEntry(maxRetries: nat, scope: Scope, info: PhaseInfo) {
    && !Exhausted(maxRetries, info)
    && !(info.phase == Install && info.status == InstallComplete)
    && !(scope == Cluster && info.phase == PodCopy && info.status == PodCopyComplete)
  }

  /** Nothing is left to do for an app: done for its scope, or out of retries. */
  predicate Settled(maxRetries: nat, scope: Scope, info: PhaseInfo) {
    || Exhausted(maxRetries, info)
    || (info.phase == Install && info.status == InstallComplete)
    || (scope == Cluster && info.phase == PodCopy && info.status == PodCopyComplete)
  }
}
