/** Every step keeps each worker in its place. */
module SchedulerWorkers {
  import opened AppTypes
  import opened Scheduler
  import opened SchedulerInv
  import opened SchedulerFrames
  import opened SchedulerViews
  import opened SchedulerFanOut

  lemma VisitFacts(cfg: Config, s: State, p: Phase, w: Worker)
    requires Workers(cfg, s) && Slots(cfg, s.slots, s.ph.install) && cfg.Valid() && Untouched(cfg, s)
    requires s.ph.At(p).mgr == Looping && w in s.ph.At(p).q
    ensures Safe(cfg, s, Visit(p, w))
    ensures w in s.created && KeyFor(cfg, w, p) == Own(w) && Own(w) in s.info
    ensures Home(cfg.scopes[w.app], s.info[Own(w)]) == p && Coherent(s.info[Own(w)])
    ensures IsComplete(s.info[Own(w)]) ==> !Exhausted(cfg.maxRetries, s.info[Own(w)])
    ensures ViewOk(cfg, w, ViewOf(s, w)) && Listed(ViewOf(s, w).at.At(p)) && ViewOf(s, w).at.At(p).stance == Away
  {
    assert ViewOk(cfg, w, ViewOf(s, w));
  }

  /** A worker is dispatched at most once in a phase. */
  lemma OpenOnce(cfg: Config, w: Worker, v: View, p: Phase)
    requires ViewOk(cfg, w, v)
    ensures v.at.At(p).open + v.at.At(p).cleaning <= 1
    ensures v.at.At(p).open > 0 ==>
      v.created && v.info.Some? && Runnable(cfg, v.info.value, p) && Coherent(v.info.value) && v.waiter == Some(p)
      && KeyFor(cfg, w, p) == Own(w) && w.app < |cfg.scopes| && (p == Install ==> CanInstall(cfg.scopes[w.app]))
    ensures v.at.At(p).cleaning > 0 ==>
      v.created && v.info.Some? && v.waiter == Some(p) && KeyFor(cfg, w, p) == Own(w) && w.app < |cfg.scopes|
  {
  }

  /******* Managers *******/

  lemma SendWorkers(cfg: Config, s: State, s': State, p: Phase, w: Worker)
    requires Workers(cfg, s) && w in s.ph.At(p).q && (s.ph.At(p).mgr == Looping || s.ph.At(p).mgr == Reserved(w))
    requires w in s.created && Own(w) in s.info && Runnable(cfg, s.info[Own(w)], p) && w !in s.active
    requires w.app < |cfg.scopes| && (p == Install ==> CanInstall(cfg.scopes[w.app]))
    requires s' == SetPhase(s.(waiter := s.waiter[w := p]), p,
                            s.ph.At(p).(chan := s.ph.At(p).chan + [w], mgr := Marking(w)))
    ensures Workers(cfg, s')
    ensures forall u :: u != w ==> ViewOf(s', u) == ViewOf(s, u)
  {
    hide ViewOk, SpotOf;
    var ps := s.ph.At(p);
    var ps' := ps.(chan := ps.chan + [w], mgr := Marking(w));
    var v := ViewOf(s, w);
    assert ViewOk(cfg, w, v);
    SpotAt(s, p, w);
    SpotBasics(ps, w);
    forall u ensures u != w ==> SpotOf(ps', u) == SpotOf(ps, u) { SendSpot(ps, w, u); }
    SendSpot(ps, w, w);
    SendView(cfg, w, v, p);
    assert s'.waiter - {w} == s.waiter - {w};
    assert NewView(s, s', p, ps', w) == SetSpot(v.(waiter := Some(p)), p, SpotOf(ps', w));
    WorkersStep(cfg, s, s', p, ps', w);
  }

  lemma HoldWorkers(cfg: Config, s: State, s': State, w: Worker)
    requires Workers(cfg, s) && w in s.ph.install.q && s.ph.install.mgr == Looping
    requires w in s.created && Own(w) in s.info && Runnable(cfg, s.info[Own(w)], Install) && w !in s.active
    requires w.app < |cfg.scopes| && CanInstall(cfg.scopes[w.app])
    requires s' == SetManager(s.(slots := s'.slots), Install, Reserved(w))
    ensures Workers(cfg, s')
    ensures forall u :: u != w ==> ViewOf(s', u) == ViewOf(s, u)
  {
    hide ViewOk, SpotOf;
    var ps := s.ph.install;
    var ps' := ps.(mgr := Reserved(w));
    var v := ViewOf(s, w);
    assert ViewOk(cfg, w, v);
    SpotAt(s, Install, w);
    SpotBasics(ps, w);
    forall u ensures u != w ==> SpotOf(ps', u) == SpotOf(ps, u) { ManagerSpot(ps, Reserved(w), u); SpotBasics(ps, u); }
    ManagerSpot(ps, Reserved(w), w);
    HoldView(cfg, w, v);
    assert NewView(s, s', Install, ps', w) == SetSpot(v, Install, SpotOf(ps', w));
    WorkersStep(cfg, s, s', Install, ps', w);
  }

  lemma NoRoomWorkers(cfg: Config, s: State, s': State, p: Phase, w: Worker)
    requires Workers(cfg, s) && w in s.ph.At(p).q && (s.ph.At(p).mgr == Looping || s.ph.At(p).mgr == Reserved(w))
    requires w in s.created && Own(w) in s.info && Runnable(cfg, s.info[Own(w)], p) && w !in s.active
    requires s' == SetManager(s.(slots := s'.slots, waiter := s.waiter - {w}), p, Looping)
    ensures Workers(cfg, s')
    ensures forall u :: u != w ==> ViewOf(s', u) == ViewOf(s, u)
  {
    hide ViewOk, SpotOf;
    var ps := s.ph.At(p);
    var ps' := ps.(mgr := Looping);
    var v := ViewOf(s, w);
    assert ViewOk(cfg, w, v);
    SpotAt(s, p, w);
    SpotBasics(ps, w);
    forall u ensures u != w ==> SpotOf(ps', u) == SpotOf(ps, u) { ManagerSpot(ps, Looping, u); SpotBasics(ps, u); }
    ManagerSpot(ps, Looping, w);
    NoRoomView(cfg, w, v, p);
    assert NewView(s, s', p, ps', w) == SetSpot(v.(waiter := None), p, SpotOf(ps', w));
    WorkersStep(cfg, s, s', p, ps', w);
  }

  lemma MarkWorkers(cfg: Config, s: State, s': State, p: Phase)
    requires Workers(cfg, s) && s.ph.At(p).mgr.Marking?
    requires s' == SetManager(s.(active := s.active + {s.ph.At(p).mgr.w}), p, Looping)
    ensures Workers(cfg, s')
    ensures forall u :: u != s.ph.At(p).mgr.w ==> ViewOf(s', u) == ViewOf(s, u)
  {
    hide ViewOk, SpotOf;
    var ps, w := s.ph.At(p), s.ph.At(p).mgr.w;
    var ps' := ps.(mgr := Looping);
    var v := ViewOf(s, w);
    assert ViewOk(cfg, w, v);
    SpotAt(s, p, w);
    SpotBasics(ps, w);
    forall u ensures u != w ==> SpotOf(ps', u) == SpotOf(ps, u) { ManagerSpot(ps, Looping, u); SpotBasics(ps, u); }
    ManagerSpot(ps, Looping, w);
    MarkView(cfg, w, v, p);
    assert s'.active - {w} == s.active - {w};
    assert NewView(s, s', p, ps', w) == SetSpot(v.(active := true), p, SpotOf(ps', w));
    WorkersStep(cfg, s, s', p, ps', w);
  }

  lemma DetachWorkers(cfg: Config, s: State, s': State, p: Phase)
    requires Workers(cfg, s) && s.ph.At(p).mgr.Moving?
    requires s' == SetManager(Dequeue(s, p, s.ph.At(p).mgr.w), p, Looping)
    ensures Workers(cfg, s')
    ensures forall u :: u != s.ph.At(p).mgr.w ==> ViewOf(s', u) == ViewOf(s, u)
  {
    hide ViewOk, SpotOf;
    var ps, w := s.ph.At(p), s.ph.At(p).mgr.w;
    var ps' := ps.(q := ps.q - multiset{w}, mgr := Looping);
    var v := ViewOf(s, w);
    assert ViewOk(cfg, w, v);
    SpotAt(s, p, w);
    SpotBasics(ps, w);
    DetachView(cfg, w, v, p);
    forall u ensures u != w ==> SpotOf(ps', u) == SpotOf(ps, u) { DetachSpot(ps, w, u); }
    DetachSpot(ps, w, w);
    assert NewView(s, s', p, ps', w) == SetSpot(v, p, SpotOf(ps', w));
    WorkersStep(cfg, s, s', p, ps', w);
  }

  lemma MoveWorkers(cfg: Config, s: State, s': State, p: Phase, w: Worker, next: Phase)
    requires Workers(cfg, s) && w in s.ph.At(p).q && s.ph.At(p).mgr == Looping && p != next
    requires w in s.created && Own(w) in s.info && s.info[Own(w)].phase == p && !Runnable(cfg, s.info[Own(w)], p)
    requires w.app < |cfg.scopes| && (p == Install ==> !IsComplete(s.info[Own(w)]) && CanInstall(cfg.scopes[w.app]))
    requires KeyFor(cfg, w, next) == Own(w) && TransitionKey(cfg, w) == Own(w) && !IsFanOutSeed(cfg, w)
    requires s' == BeginMove(cfg, s, p, w, next)
    ensures Workers(cfg, s')
    ensures forall u :: u != w ==> ViewOf(s', u) == ViewOf(s, u)
  {
    hide ViewOk, SpotOf;
    var v, ps, pn := ViewOf(s, w), s.ph.At(p), s.ph.At(next);
    var ps', pn' := ps.(mgr := Moving(w)), pn.(q := pn.q + multiset{w});
    var s1 := s.(active := s.active - {w}, waiter := s.waiter - {w}, info := s.info[Own(w) := NewContext(next)]);
    var s2 := SetPhase(s1, next, pn');
    assert s' == SetPhase(s2, p, ps');
    assert s'.info - {Own(w)} == s.info - {Own(w)} && s'.waiter - {w} == s.waiter - {w};
    assert ViewOk(cfg, w, v);
    SpotAt(s, p, w);
    SpotBasics(ps, w);
    MoveView(cfg, w, v, p, next);
    forall u
      ensures u != w ==> ViewOf(s', u) == ViewOf(s, u)
      ensures u == w ==> ViewOk(cfg, w, ViewOf(s', w))
    {
      SpotAt(s, p, u);
      SpotAt(s, next, u);
      QueueSpot(pn, pn'.q, u);
      SpotBasics(pn, u);
      ManagerSpot(ps, Moving(w), u);
      SpotBasics(ps, u);
      PhaseView(s1, next, pn', u);
      PhaseView(s2, p, ps', u);
      if u != w {
        FieldsOfOthers(s, s', w, u);
        SameSpot(ViewOf(s, u), next);
        SameSpot(ViewOf(s, u), p);
      }
    }
    WorkersKept(cfg, s, s', w);
  }

  lemma DropWorkers(cfg: Config, s: State, s': State, p: Phase, w: Worker, i: PhaseInfo)
    requires Workers(cfg, s) && w in s.ph.At(p).q && s.ph.At(p).mgr == Looping
    requires w in s.created && Own(w) in s.info && s.info[Own(w)].phase == p && !Runnable(cfg, s.info[Own(w)], p)
    requires i == s.info[Own(w)] || (Exhausted(cfg.maxRetries, i) && i == s.info[Own(w)].(status := i.status))
    requires w.app < |cfg.scopes| && Settled(cfg.maxRetries, cfg.scopes[w.app], i)
    requires s' == Dequeue(s.(info := s.info[Own(w) := i]), p, w)
    ensures Workers(cfg, s')
    ensures forall u :: u != w ==> ViewOf(s', u) == ViewOf(s, u)
  {
    hide ViewOk, SpotOf;
    var v, ps := ViewOf(s, w), s.ph.At(p);
    var ps' := ps.(q := ps.q - multiset{w});
    assert ViewOk(cfg, w, v);
    SpotAt(s, p, w);
    SpotBasics(ps, w);
    forall u ensures u != w ==> SpotOf(ps', u) == SpotOf(ps, u) { DequeueSpot(ps, w, u); }
    DequeueSpot(ps, w, w);
    DropView(cfg, w, v, p, i);
    assert s'.info - {Own(w)} == s.info - {Own(w)};
    assert NewView(s, s', p, ps', w) == SetSpot(v.(info := Some(i)), p, SpotOf(ps', w));
    WorkersStep(cfg, s, s', p, ps', w);
  }

  /** The main record of a fan-out app whose seed has left the queues. */
  lemma RetiredSeedWorkers(cfg: Config, s: State, s': State, a: nat, i: PhaseInfo)
    requires Workers(cfg, s) && cfg.FanOut() && !Queued(ViewOf(s, Seed(a))) && i.failCount <= cfg.maxRetries + 1
    requires s' == s.(info := s.info[Main(a) := i])
    ensures Workers(cfg, s')
    ensures forall u :: u != Seed(a) ==> ViewOf(s', u) == ViewOf(s, u)
    ensures ViewOf(s', Seed(a)) == ViewOf(s, Seed(a)).(info := Some(i))
  {
    hide ViewOk, SpotOf;
    var w := Seed(a);
    assert ViewOk(cfg, w, ViewOf(s, w));
    RetiredSeedView(cfg, w, ViewOf(s, w), i);
    WorkersKept(cfg, s, s', w);
  }

  /** A download of a fan-out app finished: the seed leaves and one worker per replica appears. */
  lemma SplitWorkers(cfg: Config, s: State, s': State, w: Worker)
    requires Workers(cfg, s) && cfg.FanOut() && w.Seed? && w in s.ph.download.q && s.ph.download.mgr == Looping
    requires w in s.created && Own(w) in s.info && IsComplete(s.info[Own(w)]) && w.app < |cfg.scopes|
    requires (forall i :: Replica(w.app, i) !in s.created) && RecordsInRange(cfg, s.info, w.app)
    requires s' == BeginMove(cfg, s, Download, w, PodCopy)
    ensures Workers(cfg, s')
    ensures forall u: Worker :: u.Seed? && u != w ==> ViewOf(s', u) == ViewOf(s, u)
    ensures ViewOf(s', w) == SetSpot(ViewOf(s, w).(active := false, waiter := None), Download,
                                     ViewOf(s, w).at.download.(stance := Leaving))
  {
    hide ViewOk, SpotOf, BeginMove, Joins, SplitInfo;
    forall u ensures ViewOk(cfg, u, ViewOf(s', u)) && (u.Seed? && u != w ==> ViewOf(s', u) == ViewOf(s, u)) {
      var v := ViewOf(s, u);
      assert ViewOk(cfg, u, v);
      SplitPlaces(cfg, s, s', w, u);
      if u == w {
        SpotBasics(s.ph.download, w);
        SplitView(cfg, w, v);
      } else if u in Joins(cfg, s.info, w.app, PodCopy) {
        JoinerRecord(cfg, s.info, w.app, PodCopy, u);
        NewReplicaView(cfg, u, v, PodCopy, SplitInfo(cfg, s.info, w.app)[Own(u)]);
      } else if u in Joins(cfg, s.info, w.app, Install) {
        JoinerRecord(cfg, s.info, w.app, Install, u);
        NewReplicaView(cfg, u, v, Install, SplitInfo(cfg, s.info, w.app)[Own(u)]);
      } else if u.Replica? && u.app == w.app {
        AbsentView(cfg, u, v, Lookup(SplitInfo(cfg, s.info, w.app), Own(u)));
      }
    }
    SplitPlaces(cfg, s, s', w, w);
  }

  // The split in the views: the seed is leaving, the workers that join a queue are new there, other replicas of the app
  // only get a record, nobody else is concerned.
  lemma SplitPlaces(cfg: Config, s: State, s': State, w: Worker, u: Worker)
    requires cfg.FanOut() && w.Seed? && s.ph.download.mgr == Looping && s' == BeginMove(cfg, s, Download, w, PodCopy)
    ensures ViewOf(s', u) == SplitViewOf(cfg, s, w, u)
  {
    hide SpotOf, Joins, SplitInfo;
    var info := s.info;
    var copies, installs := Joins(cfg, info, w.app, PodCopy), Joins(cfg, info, w.app, Install);
    var ps, pc, pi := s.ph.download, s.ph.podCopy, s.ph.install;
    var ps', pc', pi' := ps.(mgr := Moving(w)), pc.(q := pc.q + multiset(copies)), pi.(q := pi.q + multiset(installs));
    assert s'.ph == PerPhase(ps', pc', pi') && s'.info == SplitInfo(cfg, info, w.app) && s'.created == s.created + copies + installs
           && s'.active == s.active - {w} && s'.waiter == s.waiter - {w};
    hide BeginMove;
    QueueSpot(pc, pc'.q, u);
    QueueSpot(pi, pi'.q, u);
    SpotBasics(pc, u);
    SpotBasics(pi, u);
    ManagerSpot(ps, Moving(w), u);
    SpotBasics(ps, u);
    SplitRecords(cfg, info, w.app);
    JoinersOf(cfg, info, w.app, u);
  }

  lemma JoinersOf(cfg: Config, info: map<Key, PhaseInfo>, b: nat, u: Worker)
    ensures u in Joins(cfg, info, b, PodCopy) || u in Joins(cfg, info, b, Install) ==>
      u.Replica? && u.app == b && Own(u) in SplitInfo(cfg, info, b)
    ensures u in Joins(cfg, info, b, PodCopy) ==> u !in Joins(cfg, info, b, Install)
  {
    if u in Joins(cfg, info, b, PodCopy) { JoinerRecord(cfg, info, b, PodCopy, u); }
    if u in Joins(cfg, info, b, Install) { JoinerRecord(cfg, info, b, Install, u); }
    hide Joins, SplitInfo;
  }

  function Joined(cfg: Config, s: State, a: nat, v: View, p: Phase, u: Worker): View {
    SetSpot(v.(created := true, info := Lookup(SplitInfo(cfg, s.info, a), Own(u))), p,
            v.at.At(p).(queued := v.at.At(p).queued + 1))
  }

  function SplitViewOf(cfg: Config, s: State, w: Worker, u: Worker): View {
    var v := ViewOf(s, u);
    if u == w then SetSpot(v.(active := false, waiter := None), Download, v.at.download.(stance := Leaving))
    else if u in Joins(cfg, s.info, w.app, PodCopy) then Joined(cfg, s, w.app, v, PodCopy, u)
    else if u in Joins(cfg, s.info, w.app, Install) then Joined(cfg, s, w.app, v, Install, u)
    else if u.Replica? && u.app == w.app then v.(info := Lookup(SplitInfo(cfg, s.info, w.app), Own(u)))
    else v
  }

  lemma CreateWorkers(cfg: Config, s: State, s': State, a: nat)
    requires Workers(cfg, s) && Seed(a) !in s.created && Main(a) in s.info && a < |cfg.scopes|
    requires EligibleAtEntry(cfg.maxRetries, cfg.scopes[a], s.info[Main(a)]) && Coherent(s.info[Main(a)])
    requires cfg.FanOut() ==> s.info[Main(a)].phase == Download
    requires s' == Enqueue(s.(entry := s'.entry, created := s.created + {Seed(a)}), s.info[Main(a)].phase, multiset{Seed(a)})
    ensures Workers(cfg, s')
    ensures forall u :: u != Seed(a) ==> ViewOf(s', u) == ViewOf(s, u)
  {
    hide ViewOk, SpotOf;
    var w, i := Seed(a), s.info[Main(a)];
    var v, ps := ViewOf(s, w), s.ph.At(i.phase);
    var ps' := ps.(q := ps.q + multiset{w});
    assert ViewOk(cfg, w, v);
    SpotAt(s, i.phase, w);
    SpotBasics(ps, w);
    forall u ensures u != w ==> SpotOf(ps', u) == SpotOf(ps, u) { QueueSpot(ps, ps'.q, u); SpotBasics(ps, u); }
    QueueSpot(ps, ps'.q, w);
    CreateView(cfg, w, v, i);
    assert s'.created - {w} == s.created - {w};
    assert NewView(s, s', i.phase, ps', w) == SetSpot(v.(created := true), i.phase, SpotOf(ps', w));
    WorkersStep(cfg, s, s', i.phase, ps', w);
  }

  /******* Handlers and runs *******/

  /** A dispatch ends: the worker's record becomes i, it stays in its queue. */
  lemma CloseWorkers(cfg: Config, s: State, s': State, p: Phase, ps': PhaseState, w: Worker, i: PhaseInfo)
    requires Workers(cfg, s) && SpotOf(s.ph.At(p), w).open > 0
    requires Closes(s.ph.At(p), ps', w)
    requires s'.ph == s.ph.With(p, ps') && s'.info == s.info[Own(w) := i] && s'.created == s.created
    requires s'.waiter == s.waiter && (s'.active == s.active || s'.active == s.active - {w})
    requires i.phase == p && Coherent(i) && i.failCount <= cfg.maxRetries + 1 && i.status != InstallComplete
    requires IsComplete(i) ==> !Exhausted(cfg.maxRetries, i)
    ensures Workers(cfg, s')
    ensures forall u :: u != w ==> ViewOf(s', u) == ViewOf(s, u)
    ensures ViewOf(s', w).at.download.queued == ViewOf(s, w).at.download.queued
    ensures ViewOf(s', w).at.download.stance == ViewOf(s, w).at.download.stance
  {
    hide ViewOk, SpotOf;
    var v := ViewOf(s, w);
    assert ViewOk(cfg, w, v);
    SpotAt(s, p, w);
    OpenOnce(cfg, w, v, p);
    CloseView(cfg, w, v, p, i, w in s'.active);
    assert s'.info - {Own(w)} == s.info - {Own(w)};
    assert s'.active - {w} == s.active - {w};
    assert NewView(s, s', p, ps', w) == SetSpot(v.(info := Some(i), active := w in s'.active), p, SpotOf(ps', w));
    WorkersStep(cfg, s, s', p, ps', w);
    NewViewOf(s, s', p, ps', w);
  }

  lemma StartDownloadWorkers(cfg: Config, s: State, s': State, ps': PhaseState, w: Worker)
    requires Workers(cfg, s) && SpotOf(s.ph.download, w).open > 0 && Own(w) in s.info
    requires forall u :: SpotOf(ps', u) == SpotOf(s.ph.download, u)
    requires s'.ph == s.ph.With(Download, ps') && s'.created == s.created && s'.waiter == s.waiter && s'.active == s.active
    requires s'.info == s.info[Own(w) := s.info[Own(w)].(status := DownloadInProgress)]
    ensures Workers(cfg, s')
    ensures forall u :: u != w ==> ViewOf(s', u) == ViewOf(s, u)
    ensures ViewOf(s', w).at == ViewOf(s, w).at
  {
    hide ViewOk, SpotOf;
    var v := ViewOf(s, w);
    assert ViewOk(cfg, w, v);
    OpenOnce(cfg, w, v, Download);
    StartDownloadView(cfg, w, v);
    SameSpot(v, Download);
    assert s'.info - {Own(w)} == s.info - {Own(w)};
    assert NewView(s, s', Download, ps', w) == v.(info := Lookup(s'.info, Own(w)));
    WorkersStep(cfg, s, s', Download, ps', w);
    NewViewOf(s, s', Download, ps', w);
  }

  /** A step that only passes a worker along keeps all views. */
  lemma PassWorkers(cfg: Config, s: State, s': State, p: Phase, ps': PhaseState)
    requires Workers(cfg, s) && s'.ph == s.ph.With(p, ps')
    requires forall u :: SpotOf(ps', u) == SpotOf(s.ph.At(p), u)
    requires s'.created == s.created && s'.active == s.active && s'.info == s.info && s'.waiter == s.waiter
    ensures Workers(cfg, s')
    ensures forall u :: ViewOf(s', u) == ViewOf(s, u)
  {
    hide ViewOk, SpotOf;
    forall u ensures ViewOk(cfg, u, ViewOf(s', u)) && ViewOf(s', u) == ViewOf(s, u) {
      NewViewOf(s, s', p, ps', u);
      SpotAt(s, p, u);
      SameSpot(ViewOf(s, u), p);
      assert ViewOk(cfg, u, ViewOf(s, u));
    }
  }

  lemma InstalledWorkers(cfg: Config, s: State, s': State, k: nat)
    requires Workers(cfg, s) && k < |s.ph.install.runs|
    requires var ps := s.ph.install; var w := ps.runs[k];
      && Own(w) in s.info
      && s' == SetPhase(s.(info := s.info[Own(w) := s.info[Own(w)].(status := InstallComplete, failCount := 0)]),
                        Install, ps.(runs := RemoveAt(ps.runs, k), cleaning := ps.cleaning + [w]))
    ensures Workers(cfg, s')
    ensures forall u :: u != s.ph.install.runs[k] ==> ViewOf(s', u) == ViewOf(s, u)
    ensures ViewOf(s', s.ph.install.runs[k]).at.download == ViewOf(s, s.ph.install.runs[k]).at.download
  {
    hide ViewOk, SpotOf;
    var ps, w := s.ph.install, s.ph.install.runs[k];
    var v, ps' := ViewOf(s, w), ps.(runs := RemoveAt(ps.runs, k), cleaning := ps.cleaning + [w]);
    assert ViewOk(cfg, w, v);
    forall u ensures u != w ==> SpotOf(ps', u) == SpotOf(ps, u) { InstalledSpot(ps, k, u); }
    InstalledSpot(ps, k, w);
    OpenOnce(cfg, w, v, Install);
    InstalledView(cfg, w, v);
    assert s'.info - {Own(w)} == s.info - {Own(w)};
    assert NewView(s, s', Install, ps', w) == SetSpot(v.(info := Lookup(s'.info, Own(w))), Install, SpotOf(ps', w));
    WorkersStep(cfg, s, s', Install, ps', w);
    NewViewOf(s, s', Install, ps', w);
  }

  lemma CleanedWorkers(cfg: Config, s: State, s': State, k: nat)
    requires Workers(cfg, s) && k < |s.ph.install.cleaning|
    requires s'.ph == s.ph.With(Install, s.ph.install.(cleaning := RemoveAt(s.ph.install.cleaning, k)))
    requires s'.created == s.created && s'.info == s.info && s'.waiter == s.waiter
    requires s'.active == s.active - {s.ph.install.cleaning[k]}
    ensures Workers(cfg, s')
    ensures forall u :: u != s.ph.install.cleaning[k] ==> ViewOf(s', u) == ViewOf(s, u)
    ensures ViewOf(s', s.ph.install.cleaning[k]).at.download == ViewOf(s, s.ph.install.cleaning[k]).at.download
  {
    hide ViewOk, SpotOf;
    var ps, w := s.ph.install, s.ph.install.cleaning[k];
    var v, ps' := ViewOf(s, w), ps.(cleaning := RemoveAt(ps.cleaning, k));
    assert ViewOk(cfg, w, v);
    forall u ensures u != w ==> SpotOf(ps', u) == SpotOf(ps, u) { CleanedSpot(ps, k, u); }
    CleanedSpot(ps, k, w);
    OpenOnce(cfg, w, v, Install);
    CleanedView(cfg, w, v);
    assert s'.active - {w} == s.active - {w};
    assert NewView(s, s', Install, ps', w) == SetSpot(v.(active := false), Install, SpotOf(ps', w));
    WorkersStep(cfg, s, s', Install, ps', w);
    NewViewOf(s, s', Install, ps', w);
  }

  lemma AdoptWorkers(cfg: Config, s: State, s': State)
    requires cfg.Valid() && Workers(cfg, s)
    requires s' == s.(stage := s'.stage, info := AdoptClusterApps(cfg, s.info))
    ensures Workers(cfg, s')
    ensures forall u :: ViewOf(s', u).at == ViewOf(s, u).at
  {
    hide ViewOk, SpotOf;
    forall u ensures ViewOk(cfg, u, ViewOf(s', u)) && ViewOf(s', u).at == ViewOf(s, u).at {
      var v := ViewOf(s, u);
      assert ViewOk(cfg, u, v);
      if v.info.Some? { AdoptView(cfg, u, v); }
    }
  }
}
