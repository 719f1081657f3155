/** A fan-out app that comes back with its main record at an install error. Its seed enters the install queue and works on the
    first replica's record; no other replica gets a worker, in this entry or in any later one. */
module SchedulerStarved {
  import opened AppTypes
  import opened Scheduler
  import opened SchedulerInv
  import opened SchedulerFrames
  import opened SchedulerFanOut
  import opened SchedulerWorkers
  import opened SchedulerQueues

  /** How an app gets there: a replica out of retries sets the main record to an install error, but not its fail count, so
      the next entry still has work for the app. */
  lemma ExhaustedReplicaReenters(cfg: Config, s: State, w: Worker)
    requires cfg.FanOut() && Safe(cfg, s, Visit(Install, w)) && w.Replica? && s.info[Main(w.app)].failCount <= cfg.maxRetries
    ensures var main := DropExhausted(cfg, s, Install, w).info[Main(w.app)];
      main.phase == Install && main.status == InstallError && EligibleAtEntry(cfg.maxRetries, cfg.scopes[w.app], main)
  {
  }

  /** The entry has started with the main record of x in phase install. */
  ghost predicate Starts(cfg: Config, s: State, x: nat) {
    && cfg.FanOut() && s.created == {} && s.ph == PerPhase(NewPhase(), NewPhase(), NewPhase())
    && Main(x) in s.info && s.info[Main(x)].phase == Install
  }

  /** A run in which nothing has crashed. */
  ghost predicate SafeRun(cfg: Config, states: seq<State>, actions: seq<Action>) {
    IsRun(cfg, states, actions) && forall n :: 0 <= n < |actions| ==> Safe(cfg, states[n], actions[n])
  }

  /******* Who is where *******/

  predicate ManagerHas(m: Manager, w: Worker) {
    m == Reserved(w) || m == Marking(w) || m == Moving(w)
  }

  /** The worker is in the queue, in the channel, in a hand or in a run of the phase. */
  predicate Here(ps: PhaseState, w: Worker) {
    w in ps.q || w in ps.chan || w in ps.runs || w in ps.cleaning || ps.hnd == HWork(w) || ManagerHas(ps.mgr, w)
  }

  // Nobody comes into a phase.
  ghost predicate NobodyNew(ps: PhaseState, ps': PhaseState) {
    forall w :: Here(ps', w) ==> Here(ps, w)
  }

  lemma HandFreed(ps: PhaseState, ps': PhaseState)
    requires ps' == ps.(hnd := ps'.hnd, pool := ps'.pool) && !ps'.hnd.HWork?
    ensures NobodyNew(ps, ps')
  {
  }

  lemma RunStarts(ps: PhaseState, ps': PhaseState)
    requires ps.hnd.HWork? && ps' == ps.(hnd := HIdle, runs := ps.runs + [ps.hnd.w])
    ensures NobodyNew(ps, ps')
  {
  }

  lemma RunLeaves(ps: PhaseState, ps': PhaseState, k: nat)
    requires k < |ps.runs| && ps' == ps.(runs := RemoveAt(ps.runs, k), pool := ps'.pool)
    ensures NobodyNew(ps, ps')
  {
  }

  lemma RunCleans(ps: PhaseState, ps': PhaseState, k: nat)
    requires k < |ps.runs| && ps' == ps.(runs := RemoveAt(ps.runs, k), cleaning := ps.cleaning + [ps.runs[k]])
    ensures NobodyNew(ps, ps')
  {
  }

  lemma CleanerLeaves(ps: PhaseState, ps': PhaseState, k: nat)
    requires k < |ps.cleaning| && ps' == ps.(cleaning := RemoveAt(ps.cleaning, k))
    ensures NobodyNew(ps, ps')
  {
  }

  lemma HandTakes(ps: PhaseState, ps': PhaseState)
    requires ps.chan != [] && ps' == ps.(chan := ps.chan[1..], hnd := HWork(ps.chan[0]))
    ensures NobodyNew(ps, ps')
  {
  }

  lemma ManagerActs(ps: PhaseState, ps': PhaseState, w: Worker)
    requires Here(ps, w) && ps' == ps.(q := ps'.q, mgr := ps'.mgr, chan := ps'.chan, closed := ps'.closed)
    requires ps'.q <= ps.q && (ps'.chan == ps.chan || ps'.chan == ps.chan + [w])
    requires ps'.mgr in {Looping, Closing, Finished, Reserved(w), Marking(w), Moving(w)}
    ensures NobodyNew(ps, ps')
  {
    forall u | Here(ps', u) ensures Here(ps, u) { if u in ps'.q { assert u in ps.q; } }
  }

  lemma ManagerRests(ps: PhaseState, ps': PhaseState)
    requires ps' == ps.(q := ps'.q, mgr := ps'.mgr, closed := ps'.closed) && ps'.q <= ps.q
    requires ps'.mgr in {Looping, Closing, Finished}
    ensures NobodyNew(ps, ps')
  {
    forall u | Here(ps', u) ensures Here(ps, u) { if u in ps'.q { assert u in ps.q; } }
  }

  /** A step in one phase that brings nobody new. */
  ghost predicate Contained(s: State, s': State) {
    && NobodyNew(s.ph.download, s'.ph.download) && NobodyNew(s.ph.podCopy, s'.ph.podCopy)
    && NobodyNew(s.ph.install, s'.ph.install) && s'.created == s.created
  }

  lemma ContainedIn(s: State, s': State, p: Phase)
    requires s'.ph == s.ph.With(p, s'.ph.At(p)) && NobodyNew(s.ph.At(p), s'.ph.At(p)) && s'.created == s.created
    ensures Contained(s, s')
  {
    hide Here;
  }

  /** The phase a run's or handler's step is in. */
  function PhaseOf(a: Action): Phase {
    match a
    case HandleDownload(_) => Download
    case FinishDownload(_, _, _) => Download
    case FinishCopy(_, _) => PodCopy
    case StartRun(p) => p
    case Receive(p) => p
    case Acquire(p) => p
    case Release(p) => p
    case HandlerClosed(p) => p
    case HandlerCancelled(p) => p
    case HandlerExit(p) => p
    case Mark(p) => p
    case Detach(p) => p
    case Stop(p) => p
    case Join(p) => p
    case _ => Install
  }

  lemma StartContained(cfg: Config, s: State, a: Action, s': State)
    requires Ready(cfg, s, a) && Safe(cfg, s, a) && s' == Apply(cfg, s, a)
    requires a.HandleDownload? || a.StartRun?
    ensures Contained(s, s')
  {
    hide NobodyNew, Contained, Here, DoHandleDownload;
    if a.HandleDownload? {
      HandleContained(s, a.verdict, s.ph.download.hnd.w, s');
    } else {
      RunStarts(s.ph.At(a.p), s'.ph.At(a.p));
      ContainedIn(s, s', a.p);
    }
  }

  lemma HandleContained(s: State, v: DownloadVerdict, w: Worker, s': State)
    requires s.ph.download.hnd == HWork(w) && Main(w.app) in s.info && w in s.waiter && s.ph.download.pool > 0
    requires s' == DoHandleDownload(s, w, v)
    ensures Contained(s, s')
  {
    hide NobodyNew, Contained, Here, Bump;
    if v == StartDownload {
      RunStarts(s.ph.download, s'.ph.download);
    } else {
      HandFreed(s.ph.download, s'.ph.download);
    }
    ContainedIn(s, s', Download);
  }

  lemma EndContained(cfg: Config, s: State, a: Action, s': State)
    requires Ready(cfg, s, a) && Safe(cfg, s, a) && s' == Apply(cfg, s, a)
    requires a.FinishDownload? || a.FinishCopy?
    ensures Contained(s, s')
  {
    hide NobodyNew, Contained, Here, RemoveAt, Bump, AllInstalled, Ready;
    var p := PhaseOf(a);
    var ps, ps' := s.ph.At(p), s'.ph.At(p);
    match a {
      case FinishDownload(k, _, _) => RunLeaves(ps, ps', k);
      case FinishCopy(k, _) => RunLeaves(ps, ps', k);
    }
    ContainedIn(s, s', p);
  }

  lemma InstallContained(cfg: Config, s: State, a: Action, s': State)
    requires Ready(cfg, s, a) && Safe(cfg, s, a) && s' == Apply(cfg, s, a)
    requires a.FailInstall? || a.MarkInstalled? || a.FinishInstall?
    ensures Contained(s, s')
  {
    hide NobodyNew, Contained, Here, RemoveAt, Bump, AllInstalled, Ready;
    var p := PhaseOf(a);
    var ps, ps' := s.ph.At(p), s'.ph.At(p);
    match a {
      case FailInstall(k, _) => RunLeaves(ps, ps', k);
      case MarkInstalled(k) => RunCleans(ps, ps', k);
      case FinishInstall(k, _, _) => CleanerLeaves(ps, ps', k);
    }
    ContainedIn(s, s', p);
  }

  lemma SendContained(cfg: Config, s: State, s': State)
    requires Ready(cfg, s, Send) && Safe(cfg, s, Send) && s' == Apply(cfg, s, Send)
    ensures Contained(s, s')
  {
    hide NobodyNew, Contained;
    ManagerActs(s.ph.install, s'.ph.install, s.ph.install.mgr.w);
    ContainedIn(s, s', Install);
  }

  lemma ManagerContained(cfg: Config, s: State, a: Action, s': State)
    requires Ready(cfg, s, a) && Safe(cfg, s, a) && s' == Apply(cfg, s, a)
    requires a.Mark? || a.Stop? || a.Join?
    ensures Contained(s, s')
  {
    hide NobodyNew, Contained, Here;
    var p := PhaseOf(a);
    ManagerRests(s.ph.At(p), s'.ph.At(p));
    ContainedIn(s, s', p);
  }

  lemma DetachContained(cfg: Config, s: State, a: Action, s': State)
    requires Ready(cfg, s, a) && Safe(cfg, s, a) && s' == Apply(cfg, s, a)
    requires a.Detach?
    ensures Contained(s, s')
  {
    hide NobodyNew, Contained, Here;
    var p := PhaseOf(a);
    ManagerRests(s.ph.At(p), s'.ph.At(p));
    ContainedIn(s, s', p);
  }

  lemma HandlerContained(cfg: Config, s: State, a: Action, s': State)
    requires Ready(cfg, s, a) && Safe(cfg, s, a) && s' == Apply(cfg, s, a)
    requires a.Receive? || a.Acquire? || a.Release? || a.HandlerClosed? || a.HandlerCancelled? || a.HandlerExit? || a.LeaveCluster? || a.RefuseInstall?
    ensures Contained(s, s')
  {
    hide NobodyNew, Contained, Here;
    var p := PhaseOf(a);
    var ps, ps' := s.ph.At(p), s'.ph.At(p);
    match a {
      case Receive(_) => HandTakes(ps, ps');
      case _ => HandFreed(ps, ps');
    }
    ContainedIn(s, s', p);
  }

  lemma AlwaysContained(cfg: Config, s: State, a: Action, s': State)
    requires Ready(cfg, s, a) && Safe(cfg, s, a) && s' == Apply(cfg, s, a) && !a.Visit? && !a.Create?
    ensures Contained(s, s')
  {
    hide Contained;
    if a.HandleDownload? || a.StartRun? {
      StartContained(cfg, s, a, s');
    } else if a.FinishDownload? || a.FinishCopy? {
      EndContained(cfg, s, a, s');
    } else if a.FailInstall? || a.MarkInstalled? || a.FinishInstall? {
      InstallContained(cfg, s, a, s');
    } else if a.Send? {
      SendContained(cfg, s, s');
    } else if a.Mark? || a.Stop? || a.Join? {
      ManagerContained(cfg, s, a, s');
    } else if a.Detach? {
      DetachContained(cfg, s, a, s');
    } else if a.StartYield? || a.YieldNow? || a.Cancel? || a.Return? || a.WriteStage? || a.PackageVanishes? {
      hide NeedsRevisit, AdoptClusterApps, Safe, Ready;
      NothingMoved(s, s');
    } else {
      HandlerContained(cfg, s, a, s');
    }
    hide Apply, Ready, Safe;
  }

  lemma NothingMoved(s: State, s': State)
    requires s'.ph == s.ph && s'.created == s.created
    ensures Contained(s, s')
  {
  }

  /******* App x is spared *******/

  // Of app x only the seed is there, and only in the install phase.
  predicate Spare(ps: PhaseState, x: nat, seed: bool, w: Worker) {
    Here(ps, w) && w.app == x ==> seed && w == Seed(x)
  }

  ghost predicate Spared(s: State, x: nat) {
    && (forall w :: Spare(s.ph.download, x, false, w)) && (forall w :: Spare(s.ph.podCopy, x, false, w))
    && (forall w :: Spare(s.ph.install, x, true, w)) && (forall i :: Replica(x, i) !in s.created)
  }

  lemma ContainedSpared(s: State, s': State, x: nat)
    requires Contained(s, s') && Spared(s, x)
    ensures Spared(s', x)
  {
    hide Here;
    forall w
      ensures Spare(s'.ph.download, x, false, w) && Spare(s'.ph.podCopy, x, false, w) && Spare(s'.ph.install, x, true, w)
    {
      assert Spare(s.ph.download, x, false, w) && Spare(s.ph.podCopy, x, false, w) && Spare(s.ph.install, x, true, w);
    }
  }

  // Somebody else joins a queue.
  lemma JoinsSpared(s: State, s': State, x: nat, p: Phase, ws: multiset<Worker>)
    requires Spared(s, x) && s'.ph == s.ph.With(p, s.ph.At(p).(q := s.ph.At(p).q + ws))
    requires forall w :: w in ws && w.app == x ==> p == Install && w == Seed(x)
    requires forall u: Worker :: u.Replica? && u.app == x && u in s'.created ==> u in s.created
    ensures Spared(s', x)
  {
    forall w
      ensures Spare(s'.ph.download, x, false, w) && Spare(s'.ph.podCopy, x, false, w) && Spare(s'.ph.install, x, true, w)
    {
      assert Spare(s.ph.download, x, false, w) && Spare(s.ph.podCopy, x, false, w) && Spare(s.ph.install, x, true, w);
    }
  }

  lemma CreateSpared(cfg: Config, s: State, app: nat, s': State, x: nat)
    requires Safe(cfg, s, Create(app)) && s.entry.Creating? && s' == DoCreate(cfg, s, app) && Spared(s, x)
    requires app == x ==> s.info[Main(x)].phase == Install
    ensures Spared(s', x)
  {
    hide Spared, Contained;
    if EligibleAtEntry(cfg.maxRetries, cfg.scopes[app], s.info[Main(app)]) {
      JoinsSpared(s, s', x, s.info[Main(app)].phase, multiset{Seed(app)});
    } else {
      NothingMoved(s, s');
      ContainedSpared(s, s', x);
    }
  }

  lemma DequeueSpared(s: State, s': State, x: nat, p: Phase, w: Worker)
    requires Spared(s, x) && s'.ph == Dequeue(s, p, w).ph && s'.created == s.created
    ensures Spared(s', x)
  {
    hide Spared;
    var ps, ps' := s.ph.At(p), s'.ph.At(p);
    forall u | Here(ps', u) ensures Here(ps, u) { if u in ps'.q { assert u in ps.q; } }
    ContainedIn(s, s', p);
    ContainedSpared(s, s', x);
  }

  lemma DispatchSpared(cfg: Config, s: State, p: Phase, w: Worker, s': State, x: nat)
    requires Spared(s, x) && w in s.ph.At(p).q && s.ph.At(p).mgr == Looping && (p == Install ==> Pod(w) < |s.slots|)
    requires s' == Dispatch(cfg, s, p, w)
    ensures Spared(s', x)
  {
    hide Spared, NobodyNew, Contained;
    if s'.ph == s.ph {
      NothingMoved(s, s');
    } else {
      ManagerActs(s.ph.At(p), s'.ph.At(p), w);
      ContainedIn(s, s', p);
    }
    ContainedSpared(s, s', x);
  }

  lemma MoveSpared(cfg: Config, s: State, p: Phase, w: Worker, next: Phase, s': State, x: nat)
    requires Spared(s, x) && w in s.ph.At(p).q && s.ph.At(p).mgr == Looping && cfg.FanOut() && s' == BeginMove(cfg, s, p, w, next)
    ensures Spared(s', x)
  {
    Visitor(s, p, w, x);
    hide Spared, NobodyNew, Contained, Joins, SplitInfo;
    var s1 := s'.(ph := s'.ph.With(p, s'.ph.At(p).(mgr := Looping)));
    if w.Replica? {
      JoinsSpared(s, s1, x, next, multiset{w});
    } else if p == Download {
      SplitSpared(cfg, s, s1, w.app, x);
    } else {
      NothingMoved(s, s1);
      ContainedSpared(s, s1, x);
    }
    ManagerActs(s1.ph.At(p), s'.ph.At(p), w);
    ContainedIn(s1, s', p);
    ContainedSpared(s1, s', x);
  }

  lemma Visitor(s: State, p: Phase, w: Worker, x: nat)
    requires Spared(s, x) && w in s.ph.At(p).q
    ensures w.app == x ==> w == Seed(x) && p == Install
  {
    assert Spare(s.ph.download, x, false, w) && Spare(s.ph.podCopy, x, false, w) && Spare(s.ph.install, x, true, w);
  }

  lemma SplitSpared(cfg: Config, s: State, s': State, b: nat, x: nat)
    requires Spared(s, x) && b != x && s'.ph == Split(cfg, s, b).ph && s'.created == Split(cfg, s, b).created
    ensures Spared(s', x)
  {
    hide Spared, Joins, SplitInfo;
    var copies, installs := Joins(cfg, s.info, b, PodCopy), Joins(cfg, s.info, b, Install);
    forall u | u in copies || u in installs ensures u.Replica? && u.app == b { JoinersOf(cfg, s.info, b, u); }
    var s1 := SetPhase(s, PodCopy, s.ph.podCopy.(q := s.ph.podCopy.q + multiset(copies)));
    JoinsSpared(s, s1, x, PodCopy, multiset(copies));
    JoinsSpared(s1, s', x, Install, multiset(installs));
  }

  lemma VisitSpared(cfg: Config, s: State, p: Phase, w: Worker, s': State, x: nat)
    requires Spared(s, x) && w in s.ph.At(p).q && s.ph.At(p).mgr == Looping && cfg.FanOut()
    requires Safe(cfg, s, Visit(p, w)) && s' == DoVisit(cfg, s, p, w)
    ensures Spared(s', x)
  {
    hide Spared, BeginMove, Dispatch;
    var i := s.info[KeyFor(cfg, w, p)];
    MoveSpared(cfg, s, p, w, Download, BeginMove(cfg, s, p, w, Download), x);
    MoveSpared(cfg, s, p, w, PodCopy, BeginMove(cfg, s, p, w, PodCopy), x);
    MoveSpared(cfg, s, p, w, Install, BeginMove(cfg, s, p, w, Install), x);
    DispatchSpared(cfg, s, p, w, Dispatch(cfg, s, p, w), x);
    DequeueSpared(s, Dequeue(s, i.phase, w), x, i.phase, w);
    DequeueSpared(s, DropExhausted(cfg, s, p, w), x, i.phase, w);
    hide DropExhausted, Dequeue;
  }

  /******* The records of app x *******/

  /** The main record stays in phase install, and the records of all replicas but the first are left alone. */
  ghost predicate RecordsStay(s: State, s': State, x: nat) {
    && Main(x) in s'.info && s'.info[Main(x)].phase == Install
    && forall i: nat :: i != 0 ==> Lookup(s'.info, Aux(x, i)) == Lookup(s.info, Aux(x, i))
  }

  lemma MainOnly(s: State, s': State, x: nat, b: nat, main: PhaseInfo)
    requires RecordsStay(s, s, x) && b != x && s'.info == s.info[Main(b) := main]
    ensures RecordsStay(s, s', x)
  {
  }

  lemma RunRecords(cfg: Config, s: State, a: Action, s': State, x: nat)
    requires Ready(cfg, s, a) && Safe(cfg, s, a) && s' == Apply(cfg, s, a) && AboutRun(a) && cfg.FanOut()
    requires Spared(s, x) && RecordsStay(s, s, x)
    ensures RecordsStay(s, s', x)
  {
    hide RecordsStay, Spared, Here;
    if a.StartRun? || a.FinishInstall? {
      KeepsRecords(cfg, s, a, s', x);
    } else if a.HandleDownload? || a.FinishDownload? || a.FinishCopy? {
      EarlyRecords(cfg, s, a, s', x);
    } else {
      InstallRecords(cfg, s, a, s', x);
    }
    hide Apply, Ready, Safe;
  }

  // Where the worker of a step is, and what that means for app x.
  lemma WhoIsHere(s: State, p: Phase, w: Worker, x: nat)
    requires Spared(s, x) && (w in s.ph.At(p).runs || s.ph.At(p).hnd == HWork(w))
    ensures w.app == x ==> w == Seed(x) && p == Install
  {
    assert Spare(s.ph.download, x, false, w) && Spare(s.ph.podCopy, x, false, w) && Spare(s.ph.install, x, true, w);
  }

  lemma KeepsRecords(cfg: Config, s: State, a: Action, s': State, x: nat)
    requires Ready(cfg, s, a) && Safe(cfg, s, a) && s' == Apply(cfg, s, a) && (a.StartRun? || a.FinishInstall?)
    requires RecordsStay(s, s, x)
    ensures RecordsStay(s, s', x)
  {
    hide RecordsStay, RemoveAt, AllInstalled, Ready;
    SameRecords(s, s', x);
  }

  lemma EarlyRecords(cfg: Config, s: State, a: Action, s': State, x: nat)
    requires Ready(cfg, s, a) && Safe(cfg, s, a) && s' == Apply(cfg, s, a) && cfg.FanOut()
    requires a.HandleDownload? || a.FinishDownload? || a.FinishCopy?
    requires Spared(s, x) && RecordsStay(s, s, x)
    ensures RecordsStay(s, s', x)
  {
    hide RecordsStay, Spared, DoHandleDownload, DoFinishDownload, DoFinishCopy;
    match a
    case HandleDownload(v) =>
      WhoIsHere(s, Download, s.ph.download.hnd.w, x);
      HandleRecords(s, v, s.ph.download.hnd.w, s', x);
    case FinishDownload(k, ok, removed) =>
      WhoIsHere(s, Download, s.ph.download.runs[k], x);
      DownloadRecords(s, k, ok, removed, s', x);
    case FinishCopy(k, o) =>
      WhoIsHere(s, PodCopy, s.ph.podCopy.runs[k], x);
      CopyRecords(cfg, s, k, o, s', x);
  }

  lemma InstallRecords(cfg: Config, s: State, a: Action, s': State, x: nat)
    requires Ready(cfg, s, a) && Safe(cfg, s, a) && s' == Apply(cfg, s, a) && cfg.FanOut() && (a.FailInstall? || a.MarkInstalled?)
    requires Spared(s, x) && RecordsStay(s, s, x)
    ensures RecordsStay(s, s', x)
  {
    hide RecordsStay, Spared, DoFailInstall, DoMarkInstalled;
    match a
    case FailInstall(k, o) =>
      WhoIsHere(s, Install, s.ph.install.runs[k], x);
      FailRecords(cfg, s, k, o, s', x);
    case MarkInstalled(k) =>
      WhoIsHere(s, Install, s.ph.install.runs[k], x);
      MarkRecords(cfg, s, k, s', x);
  }

  lemma SameRecords(s: State, s': State, x: nat)
    requires RecordsStay(s, s, x) && s'.info == s.info
    ensures RecordsStay(s, s', x)
  {
  }

  lemma HandleRecords(s: State, v: DownloadVerdict, w: Worker, s': State, x: nat)
    requires Main(w.app) in s.info && w in s.waiter && s.ph.download.pool > 0 && s' == DoHandleDownload(s, w, v)
    requires RecordsStay(s, s, x) && w.app != x
    ensures RecordsStay(s, s', x)
  {
    hide RecordsStay, Bump;
    if v == NoStorage { SameRecords(s, s', x); } else { MainOnly(s, s', x, w.app, s'.info[Main(w.app)]); }
  }

  lemma DownloadRecords(s: State, k: nat, ok: bool, removed: bool, s': State, x: nat)
    requires k < |s.ph.download.runs| && Main(s.ph.download.runs[k].app) in s.info
    requires s.ph.download.runs[k] in s.waiter && s.ph.download.pool > 0 && s' == DoFinishDownload(s, k, ok, removed)
    requires RecordsStay(s, s, x) && s.ph.download.runs[k].app != x
    ensures RecordsStay(s, s', x)
  {
    hide RecordsStay, Bump, RemoveAt;
    var b := s.ph.download.runs[k].app;
    MainOnly(s, s', x, b, s'.info[Main(b)]);
  }

  lemma CopyRecords(cfg: Config, s: State, k: nat, o: CopyOutcome, s': State, x: nat)
    requires Safe(cfg, s, FinishCopy(k, o)) && s' == DoFinishCopy(cfg, s, k, o) && cfg.FanOut()
    requires RecordsStay(s, s, x) && s.ph.podCopy.runs[k].app != x
    ensures RecordsStay(s, s', x)
  {
    hide Bump, RemoveAt;
  }

  lemma FailRecords(cfg: Config, s: State, k: nat, o: InstallOutcome, s': State, x: nat)
    requires Safe(cfg, s, FailInstall(k, o)) && s' == DoFailInstall(cfg, s, k, o) && cfg.FanOut()
    requires RecordsStay(s, s, x) && (s.ph.install.runs[k].app == x ==> s.ph.install.runs[k] == Seed(x))
    ensures RecordsStay(s, s', x)
  {
    hide Bump, RemoveAt;
  }

  lemma MarkRecords(cfg: Config, s: State, k: nat, s': State, x: nat)
    requires Safe(cfg, s, MarkInstalled(k)) && s' == DoMarkInstalled(cfg, s, k) && cfg.FanOut()
    requires RecordsStay(s, s, x) && (s.ph.install.runs[k].app == x ==> s.ph.install.runs[k] == Seed(x))
    ensures RecordsStay(s, s', x)
  {
    hide AllInstalled, RemoveAt;
  }

  lemma OtherRecords(cfg: Config, s: State, a: Action, s': State, x: nat)
    requires Ready(cfg, s, a) && Safe(cfg, s, a) && s' == Apply(cfg, s, a) && !AboutRun(a) && !a.Visit?
    requires RecordsStay(s, s, x)
    ensures RecordsStay(s, s', x)
  {
    hide NeedsRevisit;
  }

  lemma VisitRecords(cfg: Config, s: State, p: Phase, w: Worker, s': State, x: nat)
    requires Safe(cfg, s, Visit(p, w)) && s' == DoVisit(cfg, s, p, w) && cfg.FanOut() && RecordsStay(s, s, x)
    requires w.app == x ==> w == Seed(x) && p == Install
    ensures RecordsStay(s, s', x)
  {
    hide RecordsStay, BeginMove, DropExhausted;
    MoveRecords(cfg, s, p, w, Download, x);
    MoveRecords(cfg, s, p, w, PodCopy, x);
    MoveRecords(cfg, s, p, w, Install, x);
    DropRecords(cfg, s, p, w, x);
    if s'.info == s.info { SameRecords(s, s', x); }
  }

  lemma MoveRecords(cfg: Config, s: State, p: Phase, w: Worker, next: Phase, x: nat)
    requires cfg.FanOut() && RecordsStay(s, s, x) && (w.app == x ==> w == Seed(x) && p == Install)
    ensures RecordsStay(s, BeginMove(cfg, s, p, w, next), x)
  {
    if w.Seed? && p == Download { SplitRecords(cfg, s.info, w.app); }
    hide SplitInfo, Joins;
  }

  lemma DropRecords(cfg: Config, s: State, p: Phase, w: Worker, x: nat)
    requires Safe(cfg, s, Visit(p, w)) && cfg.FanOut() && RecordsStay(s, s, x) && (w.app == x ==> w == Seed(x) && p == Install)
    ensures RecordsStay(s, DropExhausted(cfg, s, p, w), x)
  {
  }

  /******* Every run *******/

  lemma StarvedStep(cfg: Config, s: State, a: Action, s': State, x: nat)
    requires Ready(cfg, s, a) && Safe(cfg, s, a) && s' == Apply(cfg, s, a) && cfg.FanOut()
    requires Spared(s, x) && RecordsStay(s, s, x)
    ensures Spared(s', x) && RecordsStay(s, s', x)
  {
    hide Spared, RecordsStay, DoVisit, DoCreate;
    if a.Visit? {
      Visitor(s, a.p, a.w, x);
      VisitSpared(cfg, s, a.p, a.w, s', x);
      VisitRecords(cfg, s, a.p, a.w, s', x);
    } else {
      if a.Create? {
        InstallPhase(s, x);
        CreateSpared(cfg, s, a.app, s', x);
      } else {
        AlwaysContained(cfg, s, a, s');
        ContainedSpared(s, s', x);
      }
      hide Apply, Ready, Safe;
      if AboutRun(a) { RunRecords(cfg, s, a, s', x); } else { OtherRecords(cfg, s, a, s', x); }
    }
  }

  lemma InstallPhase(s: State, x: nat)
    requires RecordsStay(s, s, x)
    ensures Main(x) in s.info && s.info[Main(x)].phase == Install
  {
  }

  /** From an entry with the main record in phase install, as long as nothing crashes: no replica of the app gets a worker,
      no replica's record but the first one's changes, and the main record stays in phase install, so that the next entry
      starts the same way. */
  lemma {:induction false} OtherReplicasStarve(cfg: Config, states: seq<State>, actions: seq<Action>, n: nat, x: nat)
    requires SafeRun(cfg, states, actions) && Starts(cfg, states[0], x) && n < |states|
    ensures Spared(states[n], x) && RecordsStay(states[0], states[n], x)
  {
    hide Ready, Safe, Apply;
    if n == 0 {
    } else {
      hide Spared;
      OtherReplicasStarve(cfg, states, actions, n - 1, x);
      StarvedStep(cfg, states[n - 1], actions[n - 1], states[n], x);
      forall i: nat | i != 0 ensures Lookup(states[n].info, Aux(x, i)) == Lookup(states[0].info, Aux(x, i)) {
        assert Lookup(states[n - 1].info, Aux(x, i)) == Lookup(states[0].info, Aux(x, i));
      }
    }
  }

  /******* Such a run *******/

  const CONFIG: Config := Config(Standalone, 2, 0, 1, [Local])

  // The first replica is out of retries, the second still has to be copied to.
  function T0(): State {
    State(map[Main(0) := PhaseInfo(Install, InstallError, 0), Aux(0, 0) := PhaseInfo(Install, InstallError, 1),
              Aux(0, 1) := NewContext(PodCopy)],
          {}, {}, map[], PerPhase(NewPhase(), NewPhase(), NewPhase()), PerPhase(0, 0, 0), PerPhase(1, 1, 1), [0, 0], {0},
          Uninitialized, 3, 0, NotStarted, Creating({0}), false)
  }

  function T1(): State {
    var s := T0();
    s.(entry := Creating({}), created := {Seed(0)}, ph := s.ph.(install := s.ph.install.(q := multiset{Seed(0)})))
  }

  function T2(): State {
    T0().(entry := Creating({}), created := {Seed(0)})
  }

  /** The entry has nothing left to do and will not ask for another visit, with the second replica still to be copied to. */
  lemma StarvedReplica() returns (states: seq<State>, actions: seq<Action>)
    ensures SafeRun(CONFIG, states, actions) && Starts(CONFIG, states[0], 0) && |states| == 3
    ensures PipelineEmpty(states[2]) && !NeedsRevisit(CONFIG, states[2], true) && Aux(0, 1) in states[2].info
    ensures states[2].info[Aux(0, 1)] == NewContext(PodCopy) && states[2].entry == Creating({})
  {
    states, actions := [T0(), T1(), T2()], [Create(0), Visit(Install, Seed(0))];
    StarvedSteps();
    hide T0, T1;
  }

  lemma StarvedSteps()
    ensures Ready(CONFIG, T0(), Create(0)) && Safe(CONFIG, T0(), Create(0)) && T1() == Apply(CONFIG, T0(), Create(0))
    ensures Ready(CONFIG, T1(), Visit(Install, Seed(0))) && Safe(CONFIG, T1(), Visit(Install, Seed(0)))
    ensures T2() == Apply(CONFIG, T1(), Visit(Install, Seed(0)))
  {
    var none: set<Worker>, todo: set<nat>, empty: multiset<Worker> := {}, {0}, multiset{};
    assert none + {Seed(0)} == {Seed(0)} && todo - {0} == {} && empty + multiset{Seed(0)} == multiset{Seed(0)};
    assert multiset{Seed(0)} - multiset{Seed(0)} == empty;
    var s := T1();
    var info := s.info[Aux(0, 0) := s.info[Aux(0, 0)].(status := InstallError)];
    assert info[Main(0) := info[Main(0)].(phase := Install, status := InstallError)] == s.info;
  }
}
