/** The App Framework scheduler as a state machine. Three phases run concurrently; each has a manager
    goroutine that visits the workers of its queue, a handler goroutine that takes workers from the phase's
    channel, and one goroutine per run. One action is one step of one goroutine. Remote outcomes are part of
    the action, so every outcome and every interleaving is a run of the machine. */
module Scheduler {
  import opened AppTypes

  datatype Worker = Seed(app: nat) | Replica(app: nat, ordinal: nat)

  datatype Key = Main(app: nat) | Aux(app: nat, ordinal: nat)

  datatype Config = Config(kind: Kind, replicas: nat, maxRetries: nat, maxConcurrent: nat, scopes: seq<Scope>) {
    predicate FanOut() { IsFanOut(kind) }

    predicate Valid() {
      && maxRetries < UINT32
      && (FanOut() ==> forall a :: 0 <= a < |scopes| ==> scopes[a] != Cluster)
      && (!FanOut() ==> replicas >= 1)
    }
  }

  // Parallel installs allowed on one pod.
  const POD_LIMIT: nat := 1

  // A manager is between two visits (Looping), has taken an install slot and is about to send (Reserved), has
  // sent a worker and not yet marked it active (Marking), or has appended a worker to another queue and not
  // yet removed it from its own (Moving).
  datatype Manager = Looping | Reserved(w: Worker) | Marking(w: Worker) | Moving(w: Worker) | Closing | Finished

  datatype Handler = HIdle | HToken | HWork(w: Worker) | HCluster | HDrain(leaked: bool) | HDone(leaked: bool)

  datatype PhaseState = PhaseState(
    q: multiset<Worker>,
    mgr: Manager,
    chan: seq<Worker>,
    closed: bool,
    hnd: Handler,
    pool: nat,
    runs: seq<Worker>,
    cleaning: seq<Worker>)

  datatype PerPhase<T> = PerPhase(download: T, podCopy: T, install: T) {
    function At(p: Phase): T {
      match p
      case Download => download
      case PodCopy => podCopy
      case Install => install
    }

    function With(p: Phase, v: T): PerPhase<T> {
      match p
      case Download => PerPhase(v, podCopy, install)
      case PodCopy => PerPhase(download, v, install)
      case Install => PerPhase(download, podCopy, v)
    }
  }

  datatype Yield = NotStarted | Watching | Yielded

  datatype Entry = Creating(todo: set<nat>) | Waiting | Returned(revisit: bool)

  datatype State = State(
    info: map<Key, PhaseInfo>,
    created: set<Worker>,
    active: set<Worker>,
    waiter: map<Worker, Phase>,
    ph: PerPhase<PhaseState>,
    workerWaiter: PerPhase<int>,
    handlerWaiter: PerPhase<int>,
    slots: seq<nat>,
    packages: set<nat>,
    stage: Stage,
    phaseWaiter: int,
    sigTermCloses: nat,
    yield_: Yield,
    entry: Entry,
    cancelled: bool)

  datatype DownloadVerdict = AlreadyThere | NoStorage | MkdirFailed | ClientFailed | StartDownload

  datatype CopyOutcome = Copied | CopyFailed | PackageMissing

  datatype InstallOutcome = Counted | Uncounted | NotOnPod

  datatype Action =
    // reconcile entry
    | Create(app: nat) | StartYield | YieldNow | Cancel | Return
    // managers
    | Visit(p: Phase, w: Worker) | Send | Mark(p: Phase) | Detach(p: Phase) | Stop(p: Phase) | Join(p: Phase)
    // handlers
    | Acquire(p: Phase) | Release(p: Phase) | Receive(p: Phase) | HandlerClosed(p: Phase) | HandlerCancelled(p: Phase)
    | HandleDownload(verdict: DownloadVerdict) | StartRun(p: Phase) | RefuseInstall
    | WriteStage(stage: Stage) | LeaveCluster | HandlerExit(p: Phase)
    // runs
    | FinishDownload(k: nat, ok: bool, removed: bool) | FinishCopy(k: nat, copy: CopyOutcome)
    | FailInstall(k: nat, install: InstallOutcome) | MarkInstalled(k: nat)
    | FinishInstall(k: nat, cleaned: bool, deleted: bool)
    // environment
    | PackageVanishes(app: nat)

  /******* Workers and their phase records *******/

  function Pod(w: Worker): nat {
    match w
    case Seed(_) => 0
    case Replica(_, i) => i
  }

  /** The record that tracks a worker: the app's main record, or its replica's auxiliary one. */
  function Own(w: Worker): Key {
    match w
    case Seed(a) => Main(a)
    case Replica(a, i) => Aux(a, i)
  }

  /** The record a phase manager or run of phase p looks at for a worker. */
  function KeyFor(cfg: Config, w: Worker, p: Phase): Key {
    if p != Download && cfg.FanOut() then Aux(w.app, Pod(w)) else Main(w.app)
  }

  /** The record a plain (not fan-out) transition resets. */
  function TransitionKey(cfg: Config, w: Worker): Key {
    if cfg.FanOut() then Aux(w.app, Pod(w)) else Main(w.app)
  }

  predicate IsFanOutSeed(cfg: Config, w: Worker) {
    w.Seed? && cfg.FanOut()
  }

  predicate IsAuxOf(k: Key, a: nat) {
    k.Aux? && k.app == a
  }

  /** The app is installed on every replica that has a record. */
  predicate AllInstalled(info: map<Key, PhaseInfo>, a: nat) {
    forall k :: k in info && IsAuxOf(k, a) ==> info[k].phase == Install && info[k].status == InstallComplete
  }

  function Capacity(cfg: Config, p: Phase): nat {
    if p == Install then cfg.replicas else 1
  }

  function RemoveAt<T>(s: seq<T>, k: nat): seq<T>
    requires k < |s|
  {
    s[..k] + s[k + 1..]
  }

  /******* State transformers *******/

  function SetPhase(s: State, p: Phase, ps: PhaseState): State {
    s.(ph := s.ph.With(p, ps))
  }

  function SetManager(s: State, p: Phase, m: Manager): State {
    SetPhase(s, p, s.ph.At(p).(mgr := m))
  }

  function SetHandler(s: State, p: Phase, h: Handler): State {
    SetPhase(s, p, s.ph.At(p).(hnd := h))
  }

  function Enqueue(s: State, p: Phase, ws: multiset<Worker>): State {
    SetPhase(s, p, s.ph.At(p).(q := s.ph.At(p).q + ws))
  }

  function Dequeue(s: State, p: Phase, w: Worker): State {
    SetPhase(s, p, s.ph.At(p).(q := s.ph.At(p).q - multiset{w}))
  }

  function SetStatus(s: State, k: Key, status: Status): State
    requires k in s.info
  {
    s.(info := s.info[k := s.info[k].(status := status)])
  }

  function FreshAux(cfg: Config, a: nat): map<Key, PhaseInfo> {
    map i | 0 <= i < cfg.replicas :: Aux(a, i) := NewContext(PodCopy)
  }

  function Replicas(cfg: Config, a: nat): set<Worker> {
    set i | 0 <= i < cfg.replicas :: Replica(a, i)
  }

  predicate HasWork(cfg: Config, a: nat, i: PhaseInfo) {
    a < |cfg.scopes| && EligibleAtEntry(cfg.maxRetries, cfg.scopes[a], i)
  }

  predicate NoReplicaRecords(info: map<Key, PhaseInfo>, a: nat) {
    forall k :: k in info ==> !IsAuxOf(k, a)
  }

  /** The records after an app has been split over its replicas: new ones if it has none, else those with work left are
      set back to pending in their phase. */
  function SplitInfo(cfg: Config, info: map<Key, PhaseInfo>, a: nat): map<Key, PhaseInfo> {
    if NoReplicaRecords(info, a) then info + FreshAux(cfg, a)
    else
      map k | k in info ::
        if IsAuxOf(k, a) && HasWork(cfg, a, info[k]) then info[k].(status := PendingStatus(info[k].phase)) else info[k]
  }

  /** The workers the split puts into the queue of a phase. */
  function Joins(cfg: Config, info: map<Key, PhaseInfo>, a: nat, p: Phase): set<Worker> {
    if NoReplicaRecords(info, a) then if p == PodCopy then Replicas(cfg, a) else {}
    else set k | k in info && IsAuxOf(k, a) && HasWork(cfg, a, info[k]) && info[k].phase == p :: Replica(a, k.ordinal)
  }

  /** The split of a downloaded app, up to the removal of its seed. */
  function Split(cfg: Config, s: State, a: nat): State {
    var copies, installs := Joins(cfg, s.info, a, PodCopy), Joins(cfg, s.info, a, Install);
    Enqueue(Enqueue(s.(info := SplitInfo(cfg, s.info, a), created := s.created + copies + installs), PodCopy, multiset(copies)),
            Install, multiset(installs))
  }

  /** First half of a transition: reset the record, append to the next queue. The removal from the current
      queue is the manager's next step. */
  function BeginMove(cfg: Config, s: State, p: Phase, w: Worker, next: Phase): State {
    var s1 := s.(active := s.active - {w}, waiter := s.waiter - {w});
    var s2 :=
      if IsFanOutSeed(cfg, w) then
        if p == Download then Split(cfg, s1, w.app) else s1
      else
        Enqueue(s1.(info := s1.info[TransitionKey(cfg, w) := NewContext(next)]), next, multiset{w});
    SetManager(s2, p, Moving(w))
  }

  function DropExhausted(cfg: Config, s: State, p: Phase, w: Worker): State
    requires KeyFor(cfg, w, p) in s.info && Main(w.app) in s.info
  {
    var phase := s.info[KeyFor(cfg, w, p)].phase;
    var s1 :=
      if p != Install then SetStatus(s, Main(w.app), ErrorStatus(p))
      else
        var s2 := SetStatus(s, KeyFor(cfg, w, p), InstallError);
        if cfg.FanOut() then
          s2.(info := s2.info[Main(w.app) := s2.info[Main(w.app)].(phase := Install, status := InstallError)])
        else s2;
    Dequeue(s1, phase, w)
  }

  predicate EligibleForRun(cfg: Config, s: State, p: Phase, w: Worker, i: PhaseInfo) {
    w !in s.active && !Exhausted(cfg.maxRetries, i) && i.status != CompleteStatus(p)
  }

  function Dispatch(cfg: Config, s: State, p: Phase, w: Worker): State
    requires p == Install ==> Pod(w) < |s.slots|
  {
    var ps := s.ph.At(p);
    if p == Install then
      if s.slots[Pod(w)] < POD_LIMIT then
        SetManager(s.(slots := s.slots[Pod(w) := s.slots[Pod(w)] + 1]), p, Reserved(w))
      else s
    else if |ps.chan| < Capacity(cfg, p) then
      SetPhase(s.(waiter := s.waiter[w := p]), p, ps.(chan := ps.chan + [w], mgr := Marking(w)))
    else s.(waiter := s.waiter - {w})
  }

  function DoVisit(cfg: Config, s: State, p: Phase, w: Worker): State
    requires w.app < |cfg.scopes| && KeyFor(cfg, w, p) in s.info && Main(w.app) in s.info
    requires p == Install ==> Pod(w) < |s.slots|
  {
    var i := s.info[KeyFor(cfg, w, p)];
    var scope := cfg.scopes[w.app];
    if p == Install && !CanInstall(scope) then s
    else if Exhausted(cfg.maxRetries, i) then DropExhausted(cfg, s, p, w)
    else if IsComplete(i) then
      if p == Download then BeginMove(cfg, s, p, w, PodCopy)
      else if p == PodCopy && scope != Cluster then BeginMove(cfg, s, p, w, Install)
      else Dequeue(s, i.phase, w)
    else if p == PodCopy && i.status == MissingFromOperator then BeginMove(cfg, s, p, w, Download)
    else if p == Install && i.status == MissingOnPod then BeginMove(cfg, s, p, w, PodCopy)
    else if EligibleForRun(cfg, s, p, w, i) then Dispatch(cfg, s, p, w)
    else s
  }

  function DoSend(cfg: Config, s: State): State
    requires s.ph.install.mgr.Reserved? && Pod(s.ph.install.mgr.w) < |s.slots|
    requires s.slots[Pod(s.ph.install.mgr.w)] > 0
  {
    var ps := s.ph.install;
    var w := ps.mgr.w;
    if |ps.chan| < Capacity(cfg, Install) then
      SetPhase(s.(waiter := s.waiter[w := Install]), Install, ps.(chan := ps.chan + [w], mgr := Marking(w)))
    else
      SetManager(s.(slots := s.slots[Pod(w) := s.slots[Pod(w)] - 1], waiter := s.waiter - {w}), Install, Looping)
  }

  function AddToWaiter(s: State, w: Worker, delta: int): State
    requires w in s.waiter
  {
    s.(workerWaiter := s.workerWaiter.With(s.waiter[w], s.workerWaiter.At(s.waiter[w]) + delta))
  }

  function DoHandleDownload(s: State, w: Worker, v: DownloadVerdict): State
    requires Main(w.app) in s.info && w in s.waiter && s.ph.download.pool > 0
  {
    var i := s.info[Main(w.app)];
    var ps := s.ph.download.(hnd := HIdle);
    var back := SetPhase(s, Download, ps.(pool := ps.pool - 1));
    match v
    case AlreadyThere => back.(info := s.info[Main(w.app) := i.(status := DownloadComplete, failCount := 0)])
    case NoStorage => back.(active := s.active - {w})
    case MkdirFailed =>
      back.(info := s.info[Main(w.app) := i.(status := DownloadPending, failCount := Bump(i.failCount))])
    case ClientFailed =>
      back.(info := s.info[Main(w.app) := i.(status := DownloadError, failCount := Bump(i.failCount))])
    case StartDownload =>
      AddToWaiter(SetPhase(s.(info := s.info[Main(w.app) := i.(status := DownloadInProgress)]), Download,
                           ps.(runs := ps.runs + [w])), w, 1)
  }

  function DoStartRun(s: State, p: Phase, w: Worker): State
    requires w in s.waiter
  {
    AddToWaiter(SetPhase(s, p, s.ph.At(p).(hnd := HIdle, runs := s.ph.At(p).runs + [w])), w, 1)
  }

  function DoFinishDownload(s: State, k: nat, ok: bool, removed: bool): State
    requires k < |s.ph.download.runs| && Main(s.ph.download.runs[k].app) in s.info
    requires s.ph.download.runs[k] in s.waiter && s.ph.download.pool > 0
  {
    var ps := s.ph.download;
    var w := ps.runs[k];
    var i := s.info[Main(w.app)];
    var i' := if ok then i.(status := DownloadComplete, failCount := 0)
              else i.(status := DownloadPending, failCount := Bump(i.failCount));
    var packages := if ok then s.packages + {w.app} else if removed then s.packages - {w.app} else s.packages;
    AddToWaiter(SetPhase(s.(info := s.info[Main(w.app) := i'], active := s.active - {w}, packages := packages), Download,
                         ps.(pool := ps.pool - 1, runs := RemoveAt(ps.runs, k))), w, -1)
  }

  function DoFinishCopy(cfg: Config, s: State, k: nat, o: CopyOutcome): State
    requires k < |s.ph.podCopy.runs|
    requires var w := s.ph.podCopy.runs[k];
      w in s.waiter && s.ph.podCopy.pool > 0 && KeyFor(cfg, w, PodCopy) in s.info && w.app < |cfg.scopes|
  {
    var ps := s.ph.podCopy;
    var w := ps.runs[k];
    var key := KeyFor(cfg, w, PodCopy);
    var i := s.info[key];
    var i' := match o
      case Copied => i.(status := PodCopyComplete)
      case CopyFailed => i.(failCount := Bump(i.failCount))
      case PackageMissing => i.(status := MissingFromOperator);
    var packages := if o == Copied && cfg.scopes[w.app] == Cluster then s.packages - {w.app} else s.packages;
    AddToWaiter(SetPhase(s.(info := s.info[key := i'], active := s.active - {w}, packages := packages), PodCopy,
                         ps.(pool := ps.pool - 1, runs := RemoveAt(ps.runs, k))), w, -1)
  }

  function FreeSlot(s: State, w: Worker): State
    requires Pod(w) < |s.slots| && s.slots[Pod(w)] > 0
  {
    s.(slots := s.slots[Pod(w) := s.slots[Pod(w)] - 1])
  }

  function DoFailInstall(cfg: Config, s: State, k: nat, o: InstallOutcome): State
    requires k < |s.ph.install.runs|
    requires var w := s.ph.install.runs[k];
      w in s.waiter && KeyFor(cfg, w, Install) in s.info && Pod(w) < |s.slots| && s.slots[Pod(w)] > 0
  {
    var ps := s.ph.install;
    var w := ps.runs[k];
    var key := KeyFor(cfg, w, Install);
    var i := s.info[key];
    var i' := match o
      case Counted => i.(failCount := Bump(i.failCount))
      case Uncounted => i
      case NotOnPod => i.(status := MissingOnPod);
    AddToWaiter(FreeSlot(SetPhase(s.(info := s.info[key := i'], active := s.active - {w}), Install,
                                  ps.(runs := RemoveAt(ps.runs, k))), w), w, -1)
  }

  /** The install command succeeded: the record becomes complete while the run goes on to clean up. */
  function DoMarkInstalled(cfg: Config, s: State, k: nat): State
    requires k < |s.ph.install.runs|
    requires var w := s.ph.install.runs[k]; KeyFor(cfg, w, Install) in s.info && Main(w.app) in s.info
  {
    var ps := s.ph.install;
    var w := ps.runs[k];
    var key := KeyFor(cfg, w, Install);
    var info1 := s.info[key := s.info[key].(status := InstallComplete, failCount := 0)];
    var info2 :=
      if cfg.FanOut() && AllInstalled(info1, w.app) then
        info1[Main(w.app) := info1[Main(w.app)].(phase := Install, status := InstallComplete)]
      else info1;
    SetPhase(s.(info := info2), Install, ps.(runs := RemoveAt(ps.runs, k), cleaning := ps.cleaning + [w]))
  }

  function DoFinishInstall(cfg: Config, s: State, k: nat, cleaned: bool, deleted: bool): State
    requires k < |s.ph.install.cleaning|
    requires var w := s.ph.install.cleaning[k];
      w in s.waiter && w.app < |cfg.scopes| && Pod(w) < |s.slots| && s.slots[Pod(w)] > 0
  {
    var ps := s.ph.install;
    var w := ps.cleaning[k];
    var mayDelete := cleaned && deleted && (cfg.FanOut() ==> AllInstalled(s.info, w.app));
    var packages := if mayDelete then s.packages - {w.app} else s.packages;
    var stage := if cleaned && cfg.scopes[w.app] == PremiumApps && cfg.kind == SearchHeadCluster then Pending else s.stage;
    AddToWaiter(FreeSlot(SetPhase(s.(active := s.active - {w}, packages := packages, stage := stage), Install,
                                  ps.(cleaning := RemoveAt(ps.cleaning, k))), w), w, -1)
  }

  /** A finished bundle push marks every copied cluster-scoped app as installed. */
  function AdoptClusterApps(cfg: Config, info: map<Key, PhaseInfo>): map<Key, PhaseInfo> {
    map k | k in info ::
      if k.Main? && k.app < |cfg.scopes| && cfg.scopes[k.app] == Cluster
         && info[k].phase == PodCopy && info[k].status == PodCopyComplete
      then info[k].(phase := Install, status := InstallComplete)
      else info[k]
  }

  /******* Result of the reconcile entry *******/

  predicate PipelineEmpty(s: State) {
    s.ph.download.q == multiset{} && s.ph.podCopy.q == multiset{} && s.ph.install.q == multiset{}
  }

  predicate ClusterWorkPending(cfg: Config, s: State) {
    IsClusterScoped(cfg.kind) && s.stage != Complete && s.stage != Uninitialized
  }

  /** The value the entry returns: first the progress flag is cleared if everything is done, then it is read. */
  function NeedsRevisit(cfg: Config, s: State, inProgress: bool): bool {
    var inProgress' := if PipelineEmpty(s) && !ClusterWorkPending(cfg, s) then false else inProgress;
    !PipelineEmpty(s) || inProgress' || ClusterWorkPending(cfg, s)
  }

  /******* Guards *******/

  predicate HandlerWaits(ps: PhaseState, p: Phase) {
    if p == Install then ps.hnd == HIdle else ps.hnd == HToken
  }

  /** When the code takes the step. */
  predicate Ready(cfg: Config, s: State, a: Action) {
    match a
    case Create(app) => s.entry.Creating? && app in s.entry.todo
    case StartYield => s.entry.Creating?
    case YieldNow => s.yield_ == Watching
    case Cancel => true
    case Return => s.entry == Waiting && s.phaseWaiter == 0
    case Visit(p, w) => s.ph.At(p).mgr == Looping && w in s.ph.At(p).q
    case Send => s.ph.install.mgr.Reserved?
    case Mark(p) => s.ph.At(p).mgr.Marking?
    case Detach(p) => s.ph.At(p).mgr.Moving?
    case Stop(p) => s.ph.At(p).mgr == Looping && (s.sigTermCloses > 0 || s.cancelled)
    case Join(p) => s.ph.At(p).mgr == Closing && s.handlerWaiter.At(p) == 0
    case Acquire(p) => p != Install && s.ph.At(p).hnd == HIdle && s.ph.At(p).pool < cfg.maxConcurrent
    case Release(p) => s.ph.At(p).hnd == HToken && s.ph.At(p).chan == [] && !s.ph.At(p).closed
    case Receive(p) => HandlerWaits(s.ph.At(p), p) && s.ph.At(p).chan != []
    case HandlerClosed(p) => HandlerWaits(s.ph.At(p), p) && s.ph.At(p).chan == [] && s.ph.At(p).closed
    case HandlerCancelled(p) => s.ph.At(p).hnd == HIdle && s.cancelled
    case HandleDownload(v) =>
      && s.ph.download.hnd.HWork?
      && (v == AlreadyThere ==> s.ph.download.hnd.w.app in s.packages)
    case StartRun(p) =>
      && p != Download && s.ph.At(p).hnd.HWork?
      && (p == Install ==> s.ph.install.hnd.w.app < |cfg.scopes| && CanInstall(cfg.scopes[s.ph.install.hnd.w.app]))
    case RefuseInstall =>
      s.ph.install.hnd.HWork? && s.ph.install.hnd.w.app < |cfg.scopes| && !CanInstall(cfg.scopes[s.ph.install.hnd.w.app])
    case WriteStage(_) => s.ph.install.hnd == HCluster && ClusterWorkPending(cfg, s)
    case LeaveCluster => s.ph.install.hnd == HCluster
    case HandlerExit(p) => s.ph.At(p).hnd.HDrain? && s.workerWaiter.At(p) == 0
    case FinishDownload(k, _, _) => k < |s.ph.download.runs|
    case FinishCopy(k, o) =>
      && k < |s.ph.podCopy.runs|
      && (o == PackageMissing && cfg.FanOut() ==> s.ph.podCopy.runs[k].app !in s.packages)
    case FailInstall(k, _) => k < |s.ph.install.runs|
    case MarkInstalled(k) => k < |s.ph.install.runs|
    case FinishInstall(k, _, _) => k < |s.ph.install.cleaning|
    case PackageVanishes(_) => !cfg.FanOut()
  }

  /** What the code silently relies on: records exist, indexes are in range, wait-group pointers are set, and a
      token is there to be taken back. */
  predicate Safe(cfg: Config, s: State, a: Action) {
    match a
    case Create(app) => Main(app) in s.info && app < |cfg.scopes|
    case Visit(p, w) =>
      && w.app < |cfg.scopes| && KeyFor(cfg, w, p) in s.info && Main(w.app) in s.info
      && (p == Install ==> Pod(w) < |s.slots|)
    case Send =>
      s.ph.install.mgr.Reserved? && Pod(s.ph.install.mgr.w) < |s.slots| && s.slots[Pod(s.ph.install.mgr.w)] > 0
    case Mark(p) => s.ph.At(p).mgr.Marking?
    case Detach(p) => s.ph.At(p).mgr.Moving?
    case Release(p) => s.ph.At(p).pool > 0
    case Receive(p) => s.ph.At(p).chan != []
    case HandleDownload(_) =>
      && s.ph.download.hnd.HWork? && Main(s.ph.download.hnd.w.app) in s.info
      && s.ph.download.hnd.w in s.waiter && s.ph.download.pool > 0
    case StartRun(p) => s.ph.At(p).hnd.HWork? && s.ph.At(p).hnd.w in s.waiter
    case RefuseInstall =>
      s.ph.install.hnd.HWork? && Pod(s.ph.install.hnd.w) < |s.slots| && s.slots[Pod(s.ph.install.hnd.w)] > 0
    case HandlerExit(p) => s.ph.At(p).hnd.HDrain?
    case FinishDownload(k, _, _) =>
      && k < |s.ph.download.runs| && Main(s.ph.download.runs[k].app) in s.info
      && s.ph.download.runs[k] in s.waiter && s.ph.download.pool > 0
    case FinishCopy(k, _) =>
      && k < |s.ph.podCopy.runs|
      && var w := s.ph.podCopy.runs[k];
         w in s.waiter && s.ph.podCopy.pool > 0 && KeyFor(cfg, w, PodCopy) in s.info && w.app < |cfg.scopes|
    case FailInstall(k, _) =>
      && k < |s.ph.install.runs|
      && var w := s.ph.install.runs[k];
         w in s.waiter && KeyFor(cfg, w, Install) in s.info && Pod(w) < |s.slots| && s.slots[Pod(w)] > 0
    case MarkInstalled(k) =>
      && k < |s.ph.install.runs|
      && var w := s.ph.install.runs[k]; KeyFor(cfg, w, Install) in s.info && Main(w.app) in s.info
    case FinishInstall(k, _, _) =>
      && k < |s.ph.install.cleaning|
      && var w := s.ph.install.cleaning[k];
         w in s.waiter && w.app < |cfg.scopes| && Pod(w) < |s.slots| && s.slots[Pod(w)] > 0
    case _ => true
  }

  /******* Steps *******/

  function DoCreate(cfg: Config, s: State, app: nat): State
    requires s.entry.Creating? && Main(app) in s.info && app < |cfg.scopes|
  {
    var s1 := s.(entry := Creating(s.entry.todo - {app}));
    var i := s.info[Main(app)];
    if EligibleAtEntry(cfg.maxRetries, cfg.scopes[app], i) then
      Enqueue(s1.(created := s.created + {Seed(app)}), i.phase, multiset{Seed(app)})
    else s1
  }

  function DoReceive(s: State, p: Phase): State
    requires s.ph.At(p).chan != []
  {
    var ps := s.ph.At(p);
    SetPhase(s, p, ps.(chan := ps.chan[1..], hnd := HWork(ps.chan[0])))
  }

  function Apply(cfg: Config, s: State, a: Action): State
    requires Ready(cfg, s, a) && Safe(cfg, s, a)
  {
    match a
    case Create(app) => DoCreate(cfg, s, app)
    case StartYield => s.(entry := Waiting, yield_ := Watching, phaseWaiter := s.phaseWaiter + 1)
    case YieldNow => s.(yield_ := Yielded, sigTermCloses := s.sigTermCloses + 1, phaseWaiter := s.phaseWaiter - 1)
    case Cancel => s.(cancelled := true)
    case Return => s.(entry := Returned(NeedsRevisit(cfg, s, true)))
    case Visit(p, w) => DoVisit(cfg, s, p, w)
    case Send => DoSend(cfg, s)
    case Mark(p) => SetManager(s.(active := s.active + {s.ph.At(p).mgr.w}), p, Looping)
    case Detach(p) => SetManager(Dequeue(s, p, s.ph.At(p).mgr.w), p, Looping)
    case Stop(p) => SetPhase(s, p, s.ph.At(p).(mgr := Closing, closed := true))
    case Join(p) => SetManager(s.(phaseWaiter := s.phaseWaiter - 1), p, Finished)
    case Acquire(p) => SetPhase(s, p, s.ph.At(p).(hnd := HToken, pool := s.ph.At(p).pool + 1))
    case Release(p) => SetPhase(s, p, s.ph.At(p).(hnd := HIdle, pool := s.ph.At(p).pool - 1))
    case Receive(p) => DoReceive(s, p)
    case HandlerClosed(p) => SetHandler(s, p, if p == Install then HCluster else HDrain(true))
    case HandlerCancelled(p) => SetHandler(s, p, HDrain(false))
    case HandleDownload(v) => DoHandleDownload(s, s.ph.download.hnd.w, v)
    case StartRun(p) => DoStartRun(s, p, s.ph.At(p).hnd.w)
    case RefuseInstall => FreeSlot(SetHandler(s, Install, HIdle), s.ph.install.hnd.w)
    case WriteStage(stage) =>
      s.(stage := stage, info := if stage == Complete then AdoptClusterApps(cfg, s.info) else s.info)
    case LeaveCluster => SetHandler(s, Install, HDrain(false))
    case HandlerExit(p) =>
      SetHandler(s.(handlerWaiter := s.handlerWaiter.With(p, s.handlerWaiter.At(p) - 1)), p,
                 HDone(s.ph.At(p).hnd.leaked))
    case FinishDownload(k, ok, removed) => DoFinishDownload(s, k, ok, removed)
    case FinishCopy(k, o) => DoFinishCopy(cfg, s, k, o)
    case FailInstall(k, o) => DoFailInstall(cfg, s, k, o)
    case MarkInstalled(k) => DoMarkInstalled(cfg, s, k)
    case FinishInstall(k, cleaned, deleted) => DoFinishInstall(cfg, s, k, cleaned, deleted)
    case PackageVanishes(app) => s.(packages := s.packages - {app})
  }

  /******* Runs *******/

  function NewPhase(): PhaseState {
    PhaseState(multiset{}, Looping, [], false, HIdle, 0, [], [])
  }

  /** The three managers have been started, no worker exists yet. For a fan-out kind every app with work left starts with
      its download, a finished download has left its package on the operator, and replica records, if there are any from
      an earlier entry, are within the replica count. */
  ghost predicate Init(cfg: Config, s: State) {
    && (forall a :: 0 <= a < |cfg.scopes| ==> Main(a) in s.info && Coherent(s.info[Main(a)]))
    && (cfg.FanOut() ==> forall a :: 0 <= a < |cfg.scopes| ==> FanOutEntry(cfg, s, a))
    && s.created == {} && s.active == {} && s.waiter == map[]
    && s.ph == PerPhase(NewPhase(), NewPhase(), NewPhase())
    && s.workerWaiter == PerPhase(0, 0, 0) && s.handlerWaiter == PerPhase(1, 1, 1)
    && s.slots == seq(cfg.replicas, i => 0)
    && s.phaseWaiter == 3 && s.sigTermCloses == 0 && s.yield_ == NotStarted
    && s.entry.Creating? && (forall a :: a in s.entry.todo ==> a < |cfg.scopes|)
  }

  ghost predicate FanOutEntry(cfg: Config, s: State, a: nat)
    requires a < |cfg.scopes|
  {
    Main(a) in s.info && EligibleAtEntry(cfg.maxRetries, cfg.scopes[a], s.info[Main(a)]) ==>
      && s.info[Main(a)].phase == Download && (s.info[Main(a)].status == DownloadComplete ==> a in s.packages)
      && RecordsInRange(cfg, s.info, a)
  }

  ghost predicate RecordsInRange(cfg: Config, info: map<Key, PhaseInfo>, a: nat) {
    forall i: nat :: Aux(a, i) in info ==> i < cfg.replicas
  }

  /** A run takes each action when its guard holds. After a step that is not Safe anything could follow. */
  ghost predicate IsRun(cfg: Config, states: seq<State>, actions: seq<Action>) {
    && |states| == |actions| + 1
    && forall n :: 0 <= n < |actions| ==>
         && Ready(cfg, states[n], actions[n])
         && (Safe(cfg, states[n], actions[n]) ==> states[n + 1] == Apply(cfg, states[n], actions[n]))
  }
}
