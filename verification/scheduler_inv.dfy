/** What every step of the scheduler keeps. */
module SchedulerInv {
  import opened AppTypes
  import opened Scheduler

  /******* One worker's view of the state *******/

  // What a phase manager is doing with the worker.
  datatype Stance = Away | Leaving | Sent | Held

  // A worker's place in one phase: copies in the queue, dispatches with an open outcome (in the channel, with
  // the handler, or running), and runs that have installed the app and are cleaning up.
  datatype Spot = Spot(queued: nat, stance: Stance, open: nat, cleaning: nat)

  datatype View = View(created: bool, info: Option<PhaseInfo>, active: bool, waiter: Option<Phase>, at: PerPhase<Spot>)

  function StanceOf(m: Manager, w: Worker): Stance {
    match m
    case Moving(v) => if v == w then Leaving else Away
    case Marking(v) => if v == w then Sent else Away
    case Reserved(v) => if v == w then Held else Away
    case _ => Away
  }

  function Handed(h: Handler): multiset<Worker> {
    if h.HWork? then multiset{h.w} else multiset{}
  }

  function Open(ps: PhaseState): multiset<Worker> {
    multiset(ps.chan) + Handed(ps.hnd) + multiset(ps.runs)
  }

  function SpotOf(ps: PhaseState, w: Worker): Spot {
    Spot(ps.q[w], StanceOf(ps.mgr, w), Open(ps)[w], multiset(ps.cleaning)[w])
  }

  function Lookup<K, V>(m: map<K, V>, k: K): Option<V> {
    if k in m then Some(m[k]) else None
  }

  function ViewOf(s: State, w: Worker): View {
    View(w in s.created, Lookup(s.info, Own(w)), w in s.active, Lookup(s.waiter, w),
         PerPhase(SpotOf(s.ph.download, w), SpotOf(s.ph.podCopy, w), SpotOf(s.ph.install, w)))
  }

  /******* What holds of each worker *******/

  /** In the queue, not counting a copy that only waits for the second half of a transition. */
  predicate Listed(sp: Spot) {
    sp.queued > (if sp.stance == Leaving then 1 else 0)
  }

  predicate InQueue(s: State, p: Phase, w: Worker) {
    Listed(SpotOf(s.ph.At(p), w))
  }

  /** The queue a listed worker must be in. A copied cluster-scoped app that a finished bundle push has marked
      installed keeps its place in the pod-copy queue. */
  function Home(scope: Scope, i: PhaseInfo): Phase {
    if scope == Cluster && i.phase == Install && i.status == InstallComplete then PodCopy else i.phase
  }

  predicate Runnable(cfg: Config, i: PhaseInfo, p: Phase) {
    && i.phase == p && i.failCount <= cfg.maxRetries
    && i.status != CompleteStatus(p) && i.status != MissingFromOperator && i.status != MissingOnPod
  }

  predicate Engaged(v: View, p: Phase) {
    v.waiter == Some(p) && (v.active || v.at.At(p).stance == Sent)
  }

  /** A worker's place in phase p: listed at most once, and then p is the queue its record asks for; dispatched at
      most once, and then p is its phase, it can run, and nobody else will dispatch it. */
  predicate SpotOk(cfg: Config, w: Worker, v: View, p: Phase)
    requires v.created ==> w.app < |cfg.scopes| && v.info.Some?
  {
    var sp := v.at.At(p);
    && (sp.stance != Away || sp.queued > 0 ==> v.created)
    && (sp.stance == Leaving ==> sp.queued >= 1 && (p == Install ==> CanInstall(cfg.scopes[w.app])))
    && (sp.stance == Sent ==> Listed(sp))
    && sp.queued <= (if sp.stance == Leaving then 2 else 1)
    && (Listed(sp) ==>
          && v.created && Home(cfg.scopes[w.app], v.info.value) == p && KeyFor(cfg, w, p) == Own(w) && Coherent(v.info.value)
          && (IsComplete(v.info.value) ==> !Exhausted(cfg.maxRetries, v.info.value)))
    && sp.open + sp.cleaning <= 1
    && (sp.open > 0 || sp.cleaning > 0 ==>
          v.created && Engaged(v, p) && KeyFor(cfg, w, p) == Own(w) && (p == Install ==> CanInstall(cfg.scopes[w.app])))
    && (sp.open > 0 ==> Listed(sp) && Runnable(cfg, v.info.value, p))
    && (sp.cleaning > 0 ==> p == Install && v.info.value.phase == Install && v.info.value.status == InstallComplete)
    && (sp.stance == Held ==>
          && p == Install && Listed(sp) && Runnable(cfg, v.info.value, p)
          && !v.active && CanInstall(cfg.scopes[w.app]))
  }

  predicate Queued(v: View) {
    Listed(v.at.download) || Listed(v.at.podCopy) || Listed(v.at.install)
  }

  predicate ViewOk(cfg: Config, w: Worker, v: View) {
    && (v.created ==>
          && w.app < |cfg.scopes| && v.info.Some?
          && (w.Replica? ==> cfg.FanOut() && w.ordinal < cfg.replicas)
          && v.info.value.failCount <= cfg.maxRetries + 1)
    && (v.active || v.waiter.Some? ==> v.created)
    && SpotOk(cfg, w, v, Download) && SpotOk(cfg, w, v, PodCopy) && SpotOk(cfg, w, v, Install)
    && (v.created && !cfg.FanOut() ==> Queued(v) || Settled(cfg.maxRetries, cfg.scopes[w.app], v.info.value))
  }

  ghost predicate Workers(cfg: Config, s: State) {
    forall w :: ViewOk(cfg, w, ViewOf(s, w))
  }

  /** Apps the entry has not looked at yet. */
  ghost predicate Untouched(cfg: Config, s: State) {
    && (forall a :: 0 <= a < |cfg.scopes| ==> Main(a) in s.info)
    && (s.entry.Creating? ==> forall a :: a in s.entry.todo ==>
          a < |cfg.scopes| && Seed(a) !in s.created && Coherent(s.info[Main(a)])
          && (cfg.FanOut() ==> FanOutEntry(cfg, s, a)))
  }

  /******* Tokens, slots, wait groups *******/

  function Pods(ws: seq<Worker>): (pods: seq<nat>)
    ensures |pods| == |ws|
  {
    seq(|ws|, i requires 0 <= i < |ws| => Pod(ws[i]))
  }

  /** For each pod, the install workers that were given one of its slots and have not finished. */
  function PodLoad(ps: PhaseState): multiset<nat> {
    multiset(Pods(ps.chan)) + multiset(Pods(ps.runs)) + multiset(Pods(ps.cleaning))
    + (if ps.hnd.HWork? then multiset{Pod(ps.hnd.w)} else multiset{})
    + (if ps.mgr.Reserved? then multiset{Pod(ps.mgr.w)} else multiset{})
  }

  function TokenHeld(h: Handler): nat {
    match h
    case HToken => 1
    case HWork(_) => 1
    case HDrain(leaked) => if leaked then 1 else 0
    case HDone(leaked) => if leaked then 1 else 0
    case _ => 0
  }

  /** Run-pool tokens: one per run, one in the handler's hand or lost when the closed channel stopped it. */
  predicate Tokens(cfg: Config, p: Phase, ps: PhaseState) {
    && ps.pool <= cfg.maxConcurrent
    && (p != Install ==> ps.pool == |ps.runs| + TokenHeld(ps.hnd) && ps.cleaning == [] && ps.hnd != HCluster)
    && (p == Install ==> ps.pool == 0 && ps.hnd != HToken)
  }

  /** Install slots taken on each pod. */
  predicate Slots(cfg: Config, slots: seq<nat>, ps: PhaseState) {
    && |slots| == cfg.replicas
    && forall j :: 0 <= j < |slots| ==> slots[j] == PodLoad(ps)[j] && slots[j] <= POD_LIMIT
  }

  /** The wait group of a phase's runs and the one of its handler. */
  predicate Groups(ps: PhaseState, working: int, handling: int) {
    && working == |ps.runs| + |ps.cleaning|
    && handling == (if ps.hnd.HDone? then 0 else 1)
    && (ps.hnd.HDone? ==> ps.runs == [] && ps.cleaning == [])
    && (ps.closed <==> ps.mgr == Closing || ps.mgr == Finished)
    && (ps.mgr == Finished ==> ps.hnd.HDone?)
  }

  function Unfinished(ps: PhaseState): nat {
    if ps.mgr == Finished then 0 else 1
  }

  predicate Control(s: State) {
    && s.phaseWaiter == Unfinished(s.ph.download) + Unfinished(s.ph.podCopy) + Unfinished(s.ph.install)
                        + (if s.yield_ == Watching then 1 else 0)
    && s.sigTermCloses == (if s.yield_ == Yielded then 1 else 0)
    && (s.yield_ == NotStarted <==> s.entry.Creating?)
    && (s.entry.Returned? ==> s.phaseWaiter == 0)
  }

  predicate Bounded(cfg: Config, s: State) {
    && Tokens(cfg, Download, s.ph.download) && Tokens(cfg, PodCopy, s.ph.podCopy) && Tokens(cfg, Install, s.ph.install)
    && Groups(s.ph.download, s.workerWaiter.download, s.handlerWaiter.download)
    && Groups(s.ph.podCopy, s.workerWaiter.podCopy, s.handlerWaiter.podCopy)
    && Groups(s.ph.install, s.workerWaiter.install, s.handlerWaiter.install)
    && Slots(cfg, s.slots, s.ph.install)
    && Control(s)
  }

  predicate MainInstalled(s: State, a: nat) {
    Main(a) in s.info && s.info[Main(a)].phase == Install && s.info[Main(a)].status == InstallComplete
  }

  // A replica's record that needs no worker.
  predicate Unattended(cfg: Config, a: nat, i: PhaseInfo) {
    i.phase == Download || !HasWork(cfg, a, i)
  }

  /** One fan-out app: until the split its seed is in the download queue; after it, every replica with work left has a
      worker, the package stays until all replicas are done, and the main record says so exactly then. */
  ghost predicate FanOutApp(cfg: Config, s: State, a: nat) {
    && (InQueue(s, Download, Seed(a)) ==>
          && (forall i :: Replica(a, i) !in s.created) && RecordsInRange(cfg, s.info, a)
          && (Main(a) in s.info && s.info[Main(a)].status == DownloadComplete ==> a in s.packages))
    && (forall i :: Replica(a, i) in s.created ==>
          && Seed(a) in s.created
          && (AllInstalled(s.info, a) || a in s.packages)
          && (MainInstalled(s, a) <==> AllInstalled(s.info, a))
          && Aux(a, i) in s.info
          && s.info[Aux(a, i)].phase != Download && s.info[Aux(a, i)].status != MissingFromOperator)
    && (forall i, j :: Replica(a, i) in s.created && Aux(a, j) in s.info && Replica(a, j) !in s.created ==>
          Unattended(cfg, a, s.info[Aux(a, j)]))
    && (Seed(a) in s.created && (forall i :: Replica(a, i) !in s.created) ==> Main(a) in s.info && s.info[Main(a)].phase == Download)
  }

  ghost predicate FanOutInv(cfg: Config, s: State) {
    cfg.FanOut() ==> forall a :: 0 <= a < |cfg.scopes| ==> FanOutApp(cfg, s, a)
  }

  ghost predicate Inv(cfg: Config, s: State) {
    cfg.Valid() && Workers(cfg, s) && Untouched(cfg, s) && Bounded(cfg, s) && FanOutInv(cfg, s)
  }
}
