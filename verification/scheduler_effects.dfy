/** What the steps do, in every reached state and for every kind: which visits dispatch, move or drop a worker, what the end
    of a run leaves behind, and what changes the bundle-push stage. */
module SchedulerEffects {
  import opened AppTypes
  import opened Scheduler
  import opened SchedulerInv
  import opened SchedulerFrames
  import opened SchedulerWorkers
  import opened SchedulerBounds
  import opened SchedulerSteps
  import opened SchedulerRecords
  import opened SchedulerQueues
  import opened SchedulerTheorems
  import opened SchedulerRuns
  import BundlePush

  /******* Visits *******/

  // What is known of a visited worker.
  lemma Visited(cfg: Config, s: State, p: Phase, w: Worker)
    requires Reached(cfg, s) && Ready(cfg, s, Visit(p, w))
    ensures Safe(cfg, s, Visit(p, w)) && KeyFor(cfg, w, p) == Own(w) && Own(w) in s.info && w in s.created
    ensures !cfg.FanOut() ==> w.Seed?
    ensures cfg.FanOut() ==> (w.Seed? <==> p == Download)
    ensures Home(cfg.scopes[w.app], s.info[Own(w)]) == p && Coherent(s.info[Own(w)])
  {
    hide Reached, ViewOk, SpotOf, PodLoad, Tokens, Groups, Control, FanOutInv, Listed;
    ReachedKeeps(cfg, s);
    BoundedAt(cfg, s, p);
    VisitFacts(cfg, s, p, w);
    ReplicaFacts(cfg, s, p, w);
  }

  predicate Visitable(cfg: Config, s: State, p: Phase, w: Worker) {
    && Safe(cfg, s, Visit(p, w)) && KeyFor(cfg, w, p) == Own(w) && Own(w) in s.info && s.ph.At(p).mgr == Looping
    && (!cfg.FanOut() ==> w.Seed?) && (cfg.FanOut() ==> (w.Seed? <==> p == Download))
  }

  /** A worker that can run and is not active is dispatched: for download and pod copy if the channel is empty, for install if
      its pod has a free slot. Nothing else happens to it. */
  lemma DispatchesRunnable(cfg: Config, s: State, p: Phase, w: Worker)
    requires Reached(cfg, s) && Ready(cfg, s, Visit(p, w)) && Own(w) in s.info && w.app < |cfg.scopes|
    requires w !in s.active && Runnable(cfg, s.info[Own(w)], p) && (p == Install ==> cfg.scopes[w.app] != Cluster)
    ensures Safe(cfg, s, Visit(p, w))
    ensures var s' := Apply(cfg, s, Visit(p, w));
      && s'.info == s.info && s'.created == s.created && s'.active == s.active && s'.ph.At(p).q == s.ph.At(p).q
      && (p != Install && s.ph.At(p).chan == [] ==>
            s'.ph.At(p).chan == [w] && s'.ph.At(p).mgr == Marking(w) && w in s'.waiter && s'.waiter[w] == p)
      && (p != Install && s.ph.At(p).chan != [] ==> s'.ph == s.ph && w !in s'.waiter)
      && (p == Install && Pod(w) < |s.slots| && s.slots[Pod(w)] == 0 ==>
            s'.ph.install.mgr == Reserved(w) && s'.slots == s.slots[Pod(w) := 1])
      && (p == Install && Pod(w) < |s.slots| && s.slots[Pod(w)] > 0 ==> s' == s)
  {
    Visited(cfg, s, p, w);
    hide Reached, Coherent, Home;
    DispatchOf(cfg, s, p, w, Apply(cfg, s, Visit(p, w)));
    hide DoVisit;
  }

  lemma DispatchOf(cfg: Config, s: State, p: Phase, w: Worker, s': State)
    requires Visitable(cfg, s, p, w) && s' == DoVisit(cfg, s, p, w)
    requires w !in s.active && Runnable(cfg, s.info[Own(w)], p) && (p == Install ==> cfg.scopes[w.app] != Cluster)
    ensures s'.info == s.info && s'.created == s.created && s'.active == s.active && s'.ph.At(p).q == s.ph.At(p).q
    ensures p != Install && s.ph.At(p).chan == [] ==>
      s'.ph.At(p).chan == [w] && s'.ph.At(p).mgr == Marking(w) && w in s'.waiter && s'.waiter[w] == p
    ensures p != Install && s.ph.At(p).chan != [] ==> s'.ph == s.ph && w !in s'.waiter
    ensures p == Install && s.slots[Pod(w)] == 0 ==> s'.ph.install.mgr == Reserved(w) && s'.slots == s.slots[Pod(w) := 1]
    ensures p == Install && s.slots[Pod(w)] > 0 ==> s' == s
  {
    hide BeginMove, DropExhausted;
  }

  /** Where a visit sends a worker, by its record: on when its phase is complete, back when its package is missing. */
  predicate GoesOn(scope: Scope, i: PhaseInfo, p: Phase, next: Phase) {
    || (p == Download && i.status == DownloadComplete && next == PodCopy)
    || (p == PodCopy && i.status == PodCopyComplete && scope != Cluster && next == Install)
    || (p == PodCopy && i.status == MissingFromOperator && next == Download)
    || (p == Install && i.status == MissingOnPod && scope != Cluster && next == PodCopy)
  }

  /** A worker whose phase is complete, or whose package is missing, gets a fresh record in the next queue, is inactive, and is
      still to be removed from this one. */
  lemma MovesOn(cfg: Config, s: State, p: Phase, w: Worker, next: Phase)
    requires Reached(cfg, s) && Ready(cfg, s, Visit(p, w)) && Own(w) in s.info && w.app < |cfg.scopes|
    requires s.info[Own(w)].failCount <= cfg.maxRetries && GoesOn(cfg.scopes[w.app], s.info[Own(w)], p, next)
    requires p == Download ==> cfg.kind != Standalone && cfg.kind != IngestorCluster
    ensures Safe(cfg, s, Visit(p, w))
    ensures var s' := Apply(cfg, s, Visit(p, w));
      && s'.info == s.info[Own(w) := PhaseInfo(next, PendingStatus(next), 0)] && s'.created == s.created
      && s'.ph.At(next).q == s.ph.At(next).q + multiset{w} && s'.ph.At(p).q == s.ph.At(p).q
      && s'.ph.At(p).mgr == Moving(w) && s'.active == s.active - {w} && w !in s'.waiter
  {
    Visited(cfg, s, p, w);
    hide Reached;
    MoveOf(cfg, s, p, w, next, Apply(cfg, s, Visit(p, w)));
    hide DoVisit;
  }

  lemma MoveOf(cfg: Config, s: State, p: Phase, w: Worker, next: Phase, s': State)
    requires Visitable(cfg, s, p, w) && s' == DoVisit(cfg, s, p, w) && !(cfg.FanOut() && p == Download)
    requires Home(cfg.scopes[w.app], s.info[Own(w)]) == p && Coherent(s.info[Own(w)])
    requires s.info[Own(w)].failCount <= cfg.maxRetries && GoesOn(cfg.scopes[w.app], s.info[Own(w)], p, next)
    ensures s'.info == s.info[Own(w) := PhaseInfo(next, PendingStatus(next), 0)] && s'.created == s.created
    ensures s'.ph.At(next).q == s.ph.At(next).q + multiset{w} && s'.ph.At(p).q == s.ph.At(p).q
    ensures s'.ph.At(p).mgr == Moving(w) && s'.active == s.active - {w} && w !in s'.waiter
  {
    hide DropExhausted, Dispatch, Split;
  }

  /** A downloaded fan-out app is split: the workers that join go to the queues of their records' phases. */
  lemma SplitsDownloaded(cfg: Config, s: State, w: Worker)
    requires Reached(cfg, s) && Ready(cfg, s, Visit(Download, w)) && Own(w) in s.info && w.app < |cfg.scopes|
    requires cfg.kind == Standalone || cfg.kind == IngestorCluster
    requires s.info[Own(w)].failCount <= cfg.maxRetries && s.info[Own(w)].status == DownloadComplete
    ensures Safe(cfg, s, Visit(Download, w))
    ensures var s' := Apply(cfg, s, Visit(Download, w));
      && s'.info == SplitInfo(cfg, s.info, w.app) && s'.ph.download.q == s.ph.download.q && s'.ph.download.mgr == Moving(w)
      && s'.ph.podCopy.q == s.ph.podCopy.q + multiset(Joins(cfg, s.info, w.app, PodCopy))
      && s'.ph.install.q == s.ph.install.q + multiset(Joins(cfg, s.info, w.app, Install))
      && s'.active == s.active - {w} && w !in s'.waiter
  {
    Visited(cfg, s, Download, w);
    hide Reached;
    SplitOf(cfg, s, w, Apply(cfg, s, Visit(Download, w)));
    hide DoVisit, SplitInfo, Joins;
  }

  lemma SplitOf(cfg: Config, s: State, w: Worker, s': State)
    requires Visitable(cfg, s, Download, w) && s' == DoVisit(cfg, s, Download, w) && cfg.FanOut()
    requires Home(cfg.scopes[w.app], s.info[Own(w)]) == Download && Coherent(s.info[Own(w)])
    requires s.info[Own(w)].failCount <= cfg.maxRetries && s.info[Own(w)].status == DownloadComplete
    ensures s'.info == SplitInfo(cfg, s.info, w.app) && s'.ph.download.q == s.ph.download.q && s'.ph.download.mgr == Moving(w)
    ensures s'.ph.podCopy.q == s.ph.podCopy.q + multiset(Joins(cfg, s.info, w.app, PodCopy))
    ensures s'.ph.install.q == s.ph.install.q + multiset(Joins(cfg, s.info, w.app, Install))
    ensures s'.active == s.active - {w} && w !in s'.waiter
  {
    hide DropExhausted, Dispatch, SplitInfo, Joins;
  }

  /** A worker out of retries leaves its queue with an error on record: on the app's main record in the first two phases, on
      its own and, if it is a replica, on the main record as well in the last. */
  lemma DropsExhausted(cfg: Config, s: State, p: Phase, w: Worker)
    requires Reached(cfg, s) && Ready(cfg, s, Visit(p, w)) && Own(w) in s.info && w.app < |cfg.scopes|
    requires s.info[Own(w)].failCount > cfg.maxRetries && (p == Install ==> cfg.scopes[w.app] != Cluster)
    ensures Safe(cfg, s, Visit(p, w)) && Main(w.app) in s.info
    ensures var s' := Apply(cfg, s, Visit(p, w));
      && s'.ph == s.ph.With(p, s.ph.At(p).(q := s.ph.At(p).q - multiset{w})) && s'.active == s.active
      && (p != Install ==> s'.info == s.info[Main(w.app) := s.info[Main(w.app)].(status := ErrorStatus(p))])
      && (p == Install ==> Own(w) in s'.info && s'.info[Own(w)] == s.info[Own(w)].(status := InstallError))
      && (p == Install && w.Replica? ==>
            Main(w.app) in s'.info && s'.info[Main(w.app)].phase == Install && s'.info[Main(w.app)].status == InstallError)
  {
    Visited(cfg, s, p, w);
    RetriesKept(cfg, s, p, w);
    hide Reached;
    DropOf(cfg, s, p, w, Apply(cfg, s, Visit(p, w)));
    hide DoVisit;
  }

  // An adopted app is not out of retries.
  lemma RetriesKept(cfg: Config, s: State, p: Phase, w: Worker)
    requires Reached(cfg, s) && Ready(cfg, s, Visit(p, w)) && Own(w) in s.info
    ensures IsComplete(s.info[Own(w)]) ==> !Exhausted(cfg.maxRetries, s.info[Own(w)])
  {
    hide Reached, ViewOk, SpotOf, PodLoad, Tokens, Groups, Control, FanOutInv, Listed;
    ReachedKeeps(cfg, s);
    BoundedAt(cfg, s, p);
    VisitFacts(cfg, s, p, w);
  }

  lemma DropOf(cfg: Config, s: State, p: Phase, w: Worker, s': State)
    requires Visitable(cfg, s, p, w) && s' == DoVisit(cfg, s, p, w) && s.info[Own(w)].failCount > cfg.maxRetries
    requires Home(cfg.scopes[w.app], s.info[Own(w)]) == p && Coherent(s.info[Own(w)]) && !IsComplete(s.info[Own(w)])
    requires p == Install ==> cfg.scopes[w.app] != Cluster
    ensures s'.ph == s.ph.With(p, s.ph.At(p).(q := s.ph.At(p).q - multiset{w})) && s'.active == s.active
    ensures p != Install ==> s'.info == s.info[Main(w.app) := s.info[Main(w.app)].(status := ErrorStatus(p))]
    ensures p == Install ==> Own(w) in s'.info && s'.info[Own(w)] == s.info[Own(w)].(status := InstallError)
    ensures p == Install && w.Replica? ==>
      Main(w.app) in s'.info && s'.info[Main(w.app)].phase == Install && s'.info[Main(w.app)].status == InstallError
  {
    hide BeginMove, Dispatch;
  }

  /** An installed worker, and a copied one of a cluster-scoped app, leaves its queue with its record as it is. */
  lemma RemovesDone(cfg: Config, s: State, p: Phase, w: Worker)
    requires Reached(cfg, s) && Ready(cfg, s, Visit(p, w)) && Own(w) in s.info && w.app < |cfg.scopes|
    requires s.info[Own(w)].failCount <= cfg.maxRetries
    requires || (p == Install && s.info[Own(w)].status == InstallComplete && cfg.scopes[w.app] != Cluster)
             || (p == PodCopy && s.info[Own(w)].status == PodCopyComplete && cfg.scopes[w.app] == Cluster)
    ensures Safe(cfg, s, Visit(p, w))
    ensures Apply(cfg, s, Visit(p, w)) == s.(ph := s.ph.With(p, s.ph.At(p).(q := s.ph.At(p).q - multiset{w})))
  {
    Visited(cfg, s, p, w);
    hide Reached;
    RemoveOf(cfg, s, p, w, Apply(cfg, s, Visit(p, w)));
    hide DoVisit;
  }

  lemma RemoveOf(cfg: Config, s: State, p: Phase, w: Worker, s': State)
    requires Visitable(cfg, s, p, w) && s' == DoVisit(cfg, s, p, w) && s.info[Own(w)].failCount <= cfg.maxRetries
    requires Home(cfg.scopes[w.app], s.info[Own(w)]) == p && Coherent(s.info[Own(w)])
    requires || (p == Install && s.info[Own(w)].status == InstallComplete && cfg.scopes[w.app] != Cluster)
             || (p == PodCopy && s.info[Own(w)].status == PodCopyComplete && cfg.scopes[w.app] == Cluster)
    ensures s' == s.(ph := s.ph.With(p, s.ph.At(p).(q := s.ph.At(p).q - multiset{w})))
  {
    hide BeginMove, Dispatch, DropExhausted;
  }

  /** A worker that is active and can run is left alone. */
  lemma LeavesActive(cfg: Config, s: State, p: Phase, w: Worker)
    requires Reached(cfg, s) && Ready(cfg, s, Visit(p, w)) && Own(w) in s.info
    requires w in s.active && Runnable(cfg, s.info[Own(w)], p)
    ensures Safe(cfg, s, Visit(p, w)) && Apply(cfg, s, Visit(p, w)) == s
  {
    Visited(cfg, s, p, w);
    hide Reached, BeginMove, DropExhausted, Dispatch;
  }

  /******* Runs *******/

  // What is known of a running worker.
  lemma Runs(cfg: Config, s: State, p: Phase, k: nat)
    requires Reached(cfg, s) && k < |s.ph.At(p).runs|
    ensures var w := s.ph.At(p).runs[k];
      && Own(w) in s.info && Main(w.app) in s.info && w.app < |cfg.scopes| && KeyFor(cfg, w, p) == Own(w)
      && s.info[Own(w)].phase == p && (p == Download ==> w.Seed?) && (!cfg.FanOut() ==> w.Seed?)
  {
    hide Reached, SpotOf;
    ReachedKeeps(cfg, s);
    RunFacts(cfg, s, p, k);
    hide Inv;
  }

  // 32-bit increment.
  function Next32(failCount: nat): nat {
    if failCount == 0xFFFF_FFFF then 0 else failCount + 1
  }

  lemma BumpIs(failCount: nat)
    requires failCount < UINT32
    ensures Bump(failCount) == Next32(failCount)
  {
  }

  /** A download that ends records success with a clean count and leaves the package on the operator; or it counts a failure,
      waits again, and takes a partial file away if it can. */
  lemma DownloadEnds(cfg: Config, s: State, k: nat, ok: bool, removed: bool)
    requires Reached(cfg, s) && k < |s.ph.download.runs|
    ensures Safe(cfg, s, FinishDownload(k, ok, removed))
    ensures var w, s' := s.ph.download.runs[k], Apply(cfg, s, FinishDownload(k, ok, removed));
      && w.Seed? && Own(w) in s.info
      && s'.info == s.info[Own(w) := if ok then PhaseInfo(Download, DownloadComplete, 0)
                                     else PhaseInfo(Download, DownloadPending, Next32(s.info[Own(w)].failCount))]
      && s'.active == s.active - {w} && s'.stage == s.stage
      && s'.packages == (if ok then s.packages + {w.app} else if removed then s.packages - {w.app} else s.packages)
  {
    Runs(cfg, s, Download, k);
    FailCountFits(cfg, s, Download, k);
    NeverCrashes(cfg, s, FinishDownload(k, ok, removed));
    hide Reached, RemoveAt;
    BumpIs(s.info[Own(s.ph.download.runs[k])].failCount);
    hide Bump;
  }

  lemma FailCountFits(cfg: Config, s: State, p: Phase, k: nat)
    requires Reached(cfg, s) && k < |s.ph.At(p).runs|
    ensures Own(s.ph.At(p).runs[k]) in s.info && s.info[Own(s.ph.At(p).runs[k])].failCount < UINT32
  {
    hide Reached, SpotOf;
    ReachedKeeps(cfg, s);
    RunFacts(cfg, s, p, k);
  }

  /** A copy that ends records, on the record of its own replica or app, that it is done, that it failed once more, or that
      the operator has lost the package. A cluster-scoped app needs no package on the operator after it. */
  lemma CopyEnds(cfg: Config, s: State, k: nat, o: CopyOutcome)
    requires Reached(cfg, s) && Ready(cfg, s, FinishCopy(k, o))
    ensures Safe(cfg, s, FinishCopy(k, o))
    ensures var w, s' := s.ph.podCopy.runs[k], Apply(cfg, s, FinishCopy(k, o));
      && Own(w) in s.info && w.app < |cfg.scopes|
      && var i := s.info[Own(w)];
         && s'.info == s.info[Own(w) := match o
                                        case Copied => PhaseInfo(PodCopy, PodCopyComplete, i.failCount)
                                        case CopyFailed => PhaseInfo(PodCopy, i.status, Next32(i.failCount))
                                        case PackageMissing => PhaseInfo(PodCopy, MissingFromOperator, i.failCount)]
         && s'.active == s.active - {w} && s'.stage == s.stage
         && s'.packages == (if o == Copied && cfg.scopes[w.app] == Cluster then s.packages - {w.app} else s.packages)
  {
    Runs(cfg, s, PodCopy, k);
    FailCountFits(cfg, s, PodCopy, k);
    NeverCrashes(cfg, s, FinishCopy(k, o));
    hide Reached, RemoveAt;
    BumpIs(s.info[Own(s.ph.podCopy.runs[k])].failCount);
    hide Bump;
  }

  /** An install that fails counts, or does not, or finds the package missing on its pod; the slot of the pod is free. */
  lemma InstallFails(cfg: Config, s: State, k: nat, o: InstallOutcome)
    requires Reached(cfg, s) && k < |s.ph.install.runs|
    ensures Safe(cfg, s, FailInstall(k, o))
    ensures var w, s' := s.ph.install.runs[k], Apply(cfg, s, FailInstall(k, o));
      && Own(w) in s.info && Pod(w) < |s.slots| && s.slots[Pod(w)] == 1
      && var i := s.info[Own(w)];
         && s'.info == s.info[Own(w) := match o
                                        case Counted => PhaseInfo(Install, i.status, Next32(i.failCount))
                                        case Uncounted => i
                                        case NotOnPod => PhaseInfo(Install, MissingOnPod, i.failCount)]
         && s'.active == s.active - {w} && s'.stage == s.stage && s'.packages == s.packages
         && s'.slots == s.slots[Pod(w) := 0]
  {
    Runs(cfg, s, Install, k);
    FailCountFits(cfg, s, Install, k);
    NeverCrashes(cfg, s, FailInstall(k, o));
    SlotsOne(cfg, s);
    hide Reached, RemoveAt;
    BumpIs(s.info[Own(s.ph.install.runs[k])].failCount);
    hide Bump;
  }

  lemma SlotsOne(cfg: Config, s: State)
    requires Reached(cfg, s)
    ensures forall j :: 0 <= j < |s.slots| ==> s.slots[j] <= 1
  {
    hide Reached, PodLoad, Workers, FanOutInv;
    ReachedKeeps(cfg, s);
    BoundedAt(cfg, s, Install);
  }

  /** The main record of app x says installed exactly if all replica records do, and is as before otherwise. */
  predicate MainFollows(s: State, s': State, x: nat) {
    && Main(x) in s.info && Main(x) in s'.info
    && s'.info[Main(x)] == if AllInstalled(s'.info, x) then s.info[Main(x)].(phase := Install, status := InstallComplete)
                           else s.info[Main(x)]
  }

  /** An install that succeeds is on the record of its own replica or app, with a clean count, while the run cleans up; the
      main record of a fan-out app follows exactly if it was the last replica. */
  lemma InstallSucceeds(cfg: Config, s: State, k: nat)
    requires Reached(cfg, s) && k < |s.ph.install.runs|
    ensures Safe(cfg, s, MarkInstalled(k))
    ensures var w, s' := s.ph.install.runs[k], Apply(cfg, s, MarkInstalled(k));
      && Own(w) in s'.info && s'.info[Own(w)] == PhaseInfo(Install, InstallComplete, 0)
      && (forall key :: key != Own(w) && !(cfg.FanOut() && key == Main(w.app)) ==> Lookup(s'.info, key) == Lookup(s.info, key))
      && (cfg.FanOut() ==> MainFollows(s, s', w.app))
      && w in s'.ph.install.cleaning && s'.active == s.active && s'.packages == s.packages && s'.stage == s.stage
  {
    Runs(cfg, s, Install, k);
    NeverCrashes(cfg, s, MarkInstalled(k));
    hide Reached;
    InstalledOf(cfg, s, k, Apply(cfg, s, MarkInstalled(k)));
    hide DoMarkInstalled;
  }

  lemma InstalledOf(cfg: Config, s: State, k: nat, s': State)
    requires k < |s.ph.install.runs| && Safe(cfg, s, MarkInstalled(k)) && s' == DoMarkInstalled(cfg, s, k)
    requires var w := s.ph.install.runs[k];
      KeyFor(cfg, w, Install) == Own(w) && s.info[Own(w)].phase == Install && (cfg.FanOut() ==> w.Replica?) && (!cfg.FanOut() ==> w.Seed?)
    ensures var w := s.ph.install.runs[k];
      && Own(w) in s'.info && s'.info[Own(w)] == PhaseInfo(Install, InstallComplete, 0)
      && (forall key :: key != Own(w) && !(cfg.FanOut() && key == Main(w.app)) ==> Lookup(s'.info, key) == Lookup(s.info, key))
      && (cfg.FanOut() ==> MainFollows(s, s', w.app))
      && w in s'.ph.install.cleaning && s'.active == s.active && s'.packages == s.packages && s'.stage == s.stage
  {
    hide RemoveAt;
    var w := s.ph.install.runs[k];
    var info1 := s.info[Own(w) := s.info[Own(w)].(status := InstallComplete, failCount := 0)];
    assert AllInstalled(s'.info, w.app) <==> AllInstalled(info1, w.app);
    hide AllInstalled;
  }

  /** Clean-up after an install ends the run: the slot is free, the worker inactive, the package gone if it was cleaned up and
      no replica needs it, and a premium app on a search-head cluster asks for a bundle push. */
  lemma CleanUpEnds(cfg: Config, s: State, k: nat, cleaned: bool, deleted: bool)
    requires Reached(cfg, s) && k < |s.ph.install.cleaning|
    ensures Safe(cfg, s, FinishInstall(k, cleaned, deleted))
    ensures var w, s' := s.ph.install.cleaning[k], Apply(cfg, s, FinishInstall(k, cleaned, deleted));
      && w.app < |cfg.scopes| && Pod(w) < |s.slots| && s.slots[Pod(w)] == 1
      && s'.info == s.info && s'.active == s.active - {w} && s'.slots == s.slots[Pod(w) := 0]
      && (w.app in s'.packages <==> w.app in s.packages && !(cleaned && deleted && (cfg.FanOut() ==> AllInstalled(s.info, w.app))))
      && (forall x :: x != w.app ==> (x in s'.packages <==> x in s.packages))
      && s'.stage == (if cleaned && cfg.scopes[w.app] == PremiumApps && cfg.kind == SearchHeadCluster then Pending else s.stage)
  {
    NeverCrashes(cfg, s, FinishInstall(k, cleaned, deleted));
    SlotsOne(cfg, s);
    hide Reached, RemoveAt, AllInstalled;
  }

  /******* Handlers and entry *******/

  /** What the download handler makes of a worker it has taken from the channel. */
  lemma HandlerDecides(cfg: Config, s: State, v: DownloadVerdict)
    requires Reached(cfg, s) && Ready(cfg, s, HandleDownload(v))
    ensures Safe(cfg, s, HandleDownload(v))
    ensures var w, s' := s.ph.download.hnd.w, Apply(cfg, s, HandleDownload(v));
      && w.Seed? && Own(w) in s.info && s'.ph.download.hnd == HIdle
      && s'.info == s.info[Own(w) := match v
                                     case AlreadyThere => PhaseInfo(Download, DownloadComplete, 0)
                                     case NoStorage => s.info[Own(w)]
                                     case MkdirFailed => PhaseInfo(Download, DownloadPending, Next32(s.info[Own(w)].failCount))
                                     case ClientFailed => PhaseInfo(Download, DownloadError, Next32(s.info[Own(w)].failCount))
                                     case StartDownload => s.info[Own(w)].(status := DownloadInProgress)]
      && s'.ph.download.runs == s.ph.download.runs + (if v == StartDownload then [w] else [])
      && s'.active == (if v == NoStorage then s.active - {w} else s.active) && s'.packages == s.packages
  {
    NeverCrashes(cfg, s, HandleDownload(v));
    Handles(cfg, s);
    hide Reached;
    BumpIs(s.info[Own(s.ph.download.hnd.w)].failCount);
    HandleOf(s, v, s.ph.download.hnd.w, Apply(cfg, s, HandleDownload(v)));
    hide DoHandleDownload;
  }

  lemma Handles(cfg: Config, s: State)
    requires Reached(cfg, s) && s.ph.download.hnd.HWork?
    ensures var w := s.ph.download.hnd.w;
      w.Seed? && Own(w) in s.info && s.info[Own(w)].phase == Download && s.info[Own(w)].failCount < UINT32
  {
    hide Reached, SpotOf, Listed;
    ReachedKeeps(cfg, s);
    HandleFacts(cfg, s);
  }

  lemma HandleOf(s: State, v: DownloadVerdict, w: Worker, s': State)
    requires Main(w.app) in s.info && w in s.waiter && s.ph.download.pool > 0 && s' == DoHandleDownload(s, w, v)
    requires w.Seed? && s.info[Main(w.app)].phase == Download && s.info[Main(w.app)].failCount < UINT32
    ensures s'.ph.download.hnd == HIdle
    ensures s'.info == s.info[Own(w) := match v
                                        case AlreadyThere => PhaseInfo(Download, DownloadComplete, 0)
                                        case NoStorage => s.info[Own(w)]
                                        case MkdirFailed => PhaseInfo(Download, DownloadPending, Next32(s.info[Own(w)].failCount))
                                        case ClientFailed => PhaseInfo(Download, DownloadError, Next32(s.info[Own(w)].failCount))
                                        case StartDownload => s.info[Own(w)].(status := DownloadInProgress)]
    ensures s'.ph.download.runs == s.ph.download.runs + (if v == StartDownload then [w] else [])
    ensures s'.active == (if v == NoStorage then s.active - {w} else s.active) && s'.packages == s.packages
  {
    BumpIs(s.info[Own(w)].failCount);
    hide Bump;
  }

  /** The other handlers start a run of the worker they have taken. */
  lemma HandlerStarts(cfg: Config, s: State, p: Phase)
    requires Reached(cfg, s) && Ready(cfg, s, StartRun(p))
    ensures Safe(cfg, s, StartRun(p))
    ensures var s' := Apply(cfg, s, StartRun(p));
      && s'.ph == s.ph.With(p, s.ph.At(p).(hnd := HIdle, runs := s.ph.At(p).runs + [s.ph.At(p).hnd.w]))
      && s'.info == s.info && s'.active == s.active && s'.workerWaiter == s.workerWaiter.With(p, s.workerWaiter.At(p) + 1)
  {
    NeverCrashes(cfg, s, StartRun(p));
    StartsHere(cfg, s, p);
    hide Reached;
  }

  lemma StartsHere(cfg: Config, s: State, p: Phase)
    requires Reached(cfg, s) && s.ph.At(p).hnd.HWork?
    ensures s.ph.At(p).hnd.w in s.waiter && s.waiter[s.ph.At(p).hnd.w] == p
  {
    hide Reached, SpotOf, Bounded, FanOutInv, Listed, Runnable;
    ReachedKeeps(cfg, s);
    HandledSpot(s.ph.At(p), s.ph.At(p).(hnd := HIdle));
    OpenFacts(cfg, s, p, s.ph.At(p).hnd.w);
  }

  /** The entry gives an app a worker, in the queue its record names, exactly if work is left for it. */
  lemma CreatesWorker(cfg: Config, s: State, app: nat)
    requires Reached(cfg, s) && Ready(cfg, s, Create(app))
    ensures Safe(cfg, s, Create(app))
    ensures var s', i := Apply(cfg, s, Create(app)), s.info[Main(app)];
      && s'.entry == Creating(s.entry.todo - {app}) && s'.info == s.info
      && if Settled(cfg.maxRetries, cfg.scopes[app], i) then s'.ph == s.ph && s'.created == s.created
         else s'.created == s.created + {Seed(app)}
              && s'.ph == s.ph.With(i.phase, s.ph.At(i.phase).(q := s.ph.At(i.phase).q + multiset{Seed(app)}))
  {
    NeverCrashes(cfg, s, Create(app));
    hide Reached;
  }

  /******* Records of replicas *******/

  /** A step that is no split changes no replica's record but that of the worker it is about. */
  lemma ReplicaRecordsKept(cfg: Config, s: State, a: Action, x: nat, i: nat)
    requires Reached(cfg, s) && Ready(cfg, s, a) && Subject(s, a) != Some(Replica(x, i))
    requires !(cfg.FanOut() && a == Visit(Download, Seed(x)))
    ensures Safe(cfg, s, a) && Lookup(Apply(cfg, s, a).info, Aux(x, i)) == Lookup(s.info, Aux(x, i))
  {
    NeverCrashes(cfg, s, a);
    hide Reached, Lookup, Apply, Ready, Safe;
    match a
    case Visit(p, w) => VisitKeepsAux(cfg, s, p, w, x, i);
    case FinishDownload(k, ok, removed) => DownloadKeepsAux(cfg, s, a, x, i);
    case HandleDownload(_) => DownloadKeepsAux(cfg, s, a, x, i);
    case FinishCopy(k, o) => RunKeepsAux(cfg, s, a, x, i);
    case FailInstall(k, o) => RunKeepsAux(cfg, s, a, x, i);
    case MarkInstalled(k) => RunKeepsAux(cfg, s, a, x, i);
    case WriteStage(_) => StageKeepsAux(cfg, s, a, x, i);
    case _ => RecordsKept(cfg, s, a);
  }

  lemma StageKeepsAux(cfg: Config, s: State, a: Action, x: nat, i: nat)
    requires Ready(cfg, s, a) && a.WriteStage?
    ensures Lookup(Apply(cfg, s, a).info, Aux(x, i)) == Lookup(s.info, Aux(x, i))
  {
  }

  lemma DownloadKeepsAux(cfg: Config, s: State, a: Action, x: nat, i: nat)
    requires Ready(cfg, s, a) && Safe(cfg, s, a) && (a.FinishDownload? || a.HandleDownload?)
    ensures Lookup(Apply(cfg, s, a).info, Aux(x, i)) == Lookup(s.info, Aux(x, i))
  {
    hide RemoveAt, Bump;
  }

  lemma RunKeepsAux(cfg: Config, s: State, a: Action, x: nat, i: nat)
    requires Reached(cfg, s) && Ready(cfg, s, a) && Safe(cfg, s, a) && (a.FinishCopy? || a.FailInstall? || a.MarkInstalled?)
    requires Subject(s, a) != Some(Replica(x, i))
    ensures Lookup(Apply(cfg, s, a).info, Aux(x, i)) == Lookup(s.info, Aux(x, i))
  {
    Runs(cfg, s, if a.FinishCopy? then PodCopy else Install, a.k);
    hide Reached, RemoveAt, Bump, AllInstalled;
  }

  lemma VisitKeepsAux(cfg: Config, s: State, p: Phase, w: Worker, x: nat, i: nat)
    requires Reached(cfg, s) && Ready(cfg, s, Visit(p, w)) && Safe(cfg, s, Visit(p, w)) && w != Replica(x, i)
    requires !(cfg.FanOut() && p == Download && w == Seed(x))
    ensures Lookup(Apply(cfg, s, Visit(p, w)).info, Aux(x, i)) == Lookup(s.info, Aux(x, i))
  {
    Visited(cfg, s, p, w);
    hide Reached, Lookup;
    VisitKeepsAuxOf(cfg, s, p, w, Apply(cfg, s, Visit(p, w)), x, i);
    hide DoVisit;
  }

  lemma VisitKeepsAuxOf(cfg: Config, s: State, p: Phase, w: Worker, s': State, x: nat, i: nat)
    requires Visitable(cfg, s, p, w) && s' == DoVisit(cfg, s, p, w) && w != Replica(x, i)
    requires !(cfg.FanOut() && p == Download && w == Seed(x))
    ensures Lookup(s'.info, Aux(x, i)) == Lookup(s.info, Aux(x, i))
  {
    hide Lookup, BeginMove, DropExhausted;
    MoveKeepsAux(cfg, s, p, w, Download, x, i);
    MoveKeepsAux(cfg, s, p, w, PodCopy, x, i);
    MoveKeepsAux(cfg, s, p, w, Install, x, i);
    DropKeepsAux(cfg, s, p, w, x, i);
  }

  lemma MoveKeepsAux(cfg: Config, s: State, p: Phase, w: Worker, next: Phase, x: nat, i: nat)
    requires KeyFor(cfg, w, p) == Own(w) && w != Replica(x, i) && !(cfg.FanOut() && p == Download && w == Seed(x))
    requires (!cfg.FanOut() ==> w.Seed?) && (cfg.FanOut() ==> (w.Seed? <==> p == Download))
    ensures Lookup(BeginMove(cfg, s, p, w, next).info, Aux(x, i)) == Lookup(s.info, Aux(x, i))
  {
    hide Joins;
  }

  lemma DropKeepsAux(cfg: Config, s: State, p: Phase, w: Worker, x: nat, i: nat)
    requires Safe(cfg, s, Visit(p, w)) && KeyFor(cfg, w, p) == Own(w) && w != Replica(x, i)
    ensures Lookup(DropExhausted(cfg, s, p, w).info, Aux(x, i)) == Lookup(s.info, Aux(x, i))
  {
  }

  /******* The bundle-push stage *******/

  /** A premium install that is cleaned up on a search-head cluster. */
  predicate AsksForPush(cfg: Config, s: State, a: Action) {
    && a.FinishInstall? && a.k < |s.ph.install.cleaning| && a.cleaned && cfg.kind == SearchHeadCluster
    && s.ph.install.cleaning[a.k].app < |cfg.scopes| && cfg.scopes[s.ph.install.cleaning[a.k].app] == PremiumApps
  }

  /** Only such an install, which sets the stage to Pending, and the bundle-push playbook change the stage. */
  lemma StageChanges(cfg: Config, s: State, a: Action)
    requires Reached(cfg, s) && Ready(cfg, s, a)
    ensures Safe(cfg, s, a)
    ensures Apply(cfg, s, a).stage == if AsksForPush(cfg, s, a) then Pending else if a.WriteStage? then a.stage else s.stage
  {
    NeverCrashes(cfg, s, a);
    hide Reached;
    match a
    case FinishInstall(k, cleaned, deleted) => hide AllInstalled, RemoveAt;
    case Visit(p, w) => VisitKeepsStage(cfg, s, p, w); hide DoVisit;
    case WriteStage(_) => hide AdoptClusterApps;
    case _ => StageKept(cfg, s, a); hide Apply, Ready, Safe;
  }

  lemma VisitKeepsStage(cfg: Config, s: State, p: Phase, w: Worker)
    requires Safe(cfg, s, Visit(p, w))
    ensures DoVisit(cfg, s, p, w).stage == s.stage
  {
    hide SplitInfo, Joins;
  }

  lemma StageKept(cfg: Config, s: State, a: Action)
    requires Ready(cfg, s, a) && Safe(cfg, s, a) && !a.FinishInstall? && !a.Visit? && !a.WriteStage?
    ensures Apply(cfg, s, a).stage == s.stage
  {
    hide NeedsRevisit, RemoveAt, AllInstalled, Bump;
  }

  /** That install is the reset the bundle-push machine leaves to chance. */
  lemma AskIsReset(cfg: Config, s: State, a: Action, call: BundlePush.Call)
    requires Reached(cfg, s) && Ready(cfg, s, a) && AsksForPush(cfg, s, a)
    ensures Safe(cfg, s, a)
    ensures Apply(cfg, s, a).stage ==
            BundlePush.Next(BundlePush.SearchHeads, BundlePush.State(s.stage, call), BundlePush.PremiumReset).stage
  {
    StageChanges(cfg, s, a);
  }

  predicate Done(stage: Stage) {
    stage == Complete || stage == Uninitialized
  }

  lemma {:induction false} DoneByWrite(cfg: Config, states: seq<State>, actions: seq<Action>, m: nat, n: nat) returns (k: nat)
    requires Run(cfg, states, actions) && m <= n < |states| && !Done(states[m].stage) && Done(states[n].stage)
    ensures m <= k < n && k < |actions| && actions[k].WriteStage? && Done(actions[k].stage)
  {
    hide Ready, Safe, Apply, Inv, Init;
    if n == m {
      assert false;
    } else {
      RunKeeps(cfg, states, actions, n - 1);
      assert Reached(cfg, states[n - 1]);
      StageChanges(cfg, states[n - 1], actions[n - 1]);
      if Done(states[n - 1].stage) { k := DoneByWrite(cfg, states, actions, m, n - 1); } else { k := n - 1; }
    }
  }

  /** If the entry returns false, every premium install that was cleaned up on a search-head cluster was followed by a
      playbook that found the push done. */
  lemma PremiumPushed(cfg: Config, states: seq<State>, actions: seq<Action>, m: nat, n: nat) returns (k: nat)
    requires Run(cfg, states, actions) && m < n < |states| && |states| == |actions| + 1 && AsksForPush(cfg, states[m], actions[m])
    requires states[n].entry == Returned(false)
    ensures m < k < n && actions[k].WriteStage? && Done(actions[k].stage)
  {
    hide Ready, Safe, Apply, Inv;
    RunKeeps(cfg, states, actions, m);
    assert Reached(cfg, states[m]);
    StageChanges(cfg, states[m], actions[m]);
    ReturnExactly(cfg, states, actions, n);
    hide Init;
    k := DoneByWrite(cfg, states, actions, m + 1, n);
  }
}
