/** Every step keeps the scheduler's invariant, and none of them crashes. */
module SchedulerSteps {
  import opened AppTypes
  import opened Scheduler
  import opened SchedulerInv
  import opened SchedulerFrames
  import opened SchedulerViews
  import opened SchedulerWorkers
  import opened SchedulerBounds
  import opened SchedulerFanOut

  /** Apps the entry has not reached keep their records. */
  lemma UntouchedStep(cfg: Config, s: State, s': State)
    requires Untouched(cfg, s)
    requires forall a: nat :: Main(a) in s.info ==> Main(a) in s'.info
    requires s'.entry == s.entry || !s'.entry.Creating? || (s.entry.Creating? && s'.entry.todo <= s.entry.todo)
    requires s'.entry.Creating? ==> forall a :: a in s'.entry.todo ==> Seed(a) !in s'.created
    requires s'.entry.Creating? ==> forall a :: a in s'.entry.todo && Main(a) in s.info ==> s'.info[Main(a)] == s.info[Main(a)]
    requires cfg.FanOut() && s'.entry.Creating? ==> forall a :: a in s'.entry.todo && a in s.packages ==> a in s'.packages
    requires cfg.FanOut() && s'.entry.Creating? ==>
      forall a: nat, i: nat :: a in s'.entry.todo && Aux(a, i) in s'.info ==> Aux(a, i) in s.info
    ensures Untouched(cfg, s')
  {
  }

  // The seed of a fan-out app is listed in the download queue only.
  lemma ListedSeed(s: State, s': State)
    requires forall u :: Listed(ViewOf(s', u).at.download) ==> Listed(ViewOf(s, u).at.download)
    ensures forall a :: InQueue(s', Download, Seed(a)) ==> InQueue(s, Download, Seed(a))
  {
    hide SpotOf, Listed;
    forall a: nat | InQueue(s', Download, Seed(a)) ensures InQueue(s, Download, Seed(a)) {
      SpotAt(s', Download, Seed(a));
      SpotAt(s, Download, Seed(a));
    }
  }

  /******* Quiet steps *******/

  lemma QuietKeeps(cfg: Config, s: State, s': State, p: Phase, ps: PhaseState)
    requires Inv(cfg, s) && s'.ph == s.ph.With(p, ps) && Quiet(s.ph.At(p), ps)
    requires s'.created == s.created && s'.active == s.active && s'.info == s.info && s'.waiter == s.waiter
    requires s'.packages == s.packages && s'.slots == s.slots
    requires s'.entry == s.entry
    requires Control(s') && Tokens(cfg, p, ps) && Groups(ps, s'.workerWaiter.At(p), s'.handlerWaiter.At(p))
    requires s'.workerWaiter == s.workerWaiter
    requires s'.handlerWaiter == s.handlerWaiter.With(p, s'.handlerWaiter.At(p))
    ensures Inv(cfg, s')
  {
    hide ViewOk, SpotOf, Tokens, Groups, Slots, Control, FanOutApp, Listed;
    QuietStep(cfg, s, s', p, ps);
    BoundedAt(cfg, s, p);
    if p == Install {
      SlotSame(cfg, s.slots, s.ph.install, ps);
    }
    BoundedStep(cfg, s, s', p, ps);
    UntouchedStep(cfg, s, s');
    ListedSeed(s, s');
    FanOutFrame(cfg, s, s');
  }

  lemma StopKeeps(cfg: Config, s: State, p: Phase)
    requires Inv(cfg, s) && s.ph.At(p).mgr == Looping
    ensures Inv(cfg, SetPhase(s, p, s.ph.At(p).(mgr := Closing, closed := true)))
  {
    hide ViewOk, SpotOf, Slots, FanOutInv, Workers, Untouched;
    var ps := s.ph.At(p).(mgr := Closing, closed := true);
    BoundedAt(cfg, s, p);
    ControlStep(s, SetPhase(s, p, ps), p, ps);
    QuietKeeps(cfg, s, SetPhase(s, p, ps), p, ps);
  }

  lemma JoinKeeps(cfg: Config, s: State, p: Phase)
    requires Inv(cfg, s) && s.ph.At(p).mgr == Closing && s.handlerWaiter.At(p) == 0
    ensures Inv(cfg, SetManager(s.(phaseWaiter := s.phaseWaiter - 1), p, Finished))
  {
    hide ViewOk, SpotOf, Slots, FanOutInv, Workers, Untouched;
    var ps := s.ph.At(p).(mgr := Finished);
    var s' := SetManager(s.(phaseWaiter := s.phaseWaiter - 1), p, Finished);
    BoundedAt(cfg, s, p);
    assert Unfinished(s.ph.At(p)) == 1 && s.phaseWaiter > 0;
    ControlStep(s, s', p, ps);
    QuietKeeps(cfg, s, s', p, ps);
  }

  /** Handler steps that hold no worker. */
  lemma HandlerKeeps(cfg: Config, s: State, s': State, p: Phase, ps: PhaseState)
    requires Inv(cfg, s) && s'.ph == s.ph.With(p, ps) && !s.ph.At(p).hnd.HWork? && !ps.hnd.HWork?
    requires ps == s.ph.At(p).(hnd := ps.hnd, pool := ps.pool) && Tokens(cfg, p, ps)
    requires s' == s.(ph := s'.ph, handlerWaiter := s'.handlerWaiter)
    requires s'.handlerWaiter == s.handlerWaiter.With(p, s'.handlerWaiter.At(p))
    requires !s.ph.At(p).hnd.HDone?
    requires ps.hnd.HDone? ==> s.workerWaiter.At(p) == 0 && s'.handlerWaiter.At(p) == s.handlerWaiter.At(p) - 1
    requires !ps.hnd.HDone? ==> s'.handlerWaiter == s.handlerWaiter
    ensures Inv(cfg, s')
  {
    hide ViewOk, SpotOf, Slots, Tokens, FanOutInv, Workers, Untouched;
    BoundedAt(cfg, s, p);
    ControlStep(s, s', p, ps);
    QuietKeeps(cfg, s, s', p, ps);
  }

  /** Entry and yield steps. */
  lemma EntryKeeps(cfg: Config, s: State, s': State)
    requires Inv(cfg, s) && s' == s.(entry := s'.entry, yield_ := s'.yield_, phaseWaiter := s'.phaseWaiter,
                                     sigTermCloses := s'.sigTermCloses, cancelled := s'.cancelled)
    requires Control(s') && (s'.entry == s.entry || !s'.entry.Creating?)
    ensures Inv(cfg, s')
  {
    hide ViewOk, SpotOf, Slots, Tokens, Groups, Control, FanOutApp;
    forall u ensures ViewOf(s', u) == ViewOf(s, u) { }
    forall u ensures ViewOk(cfg, u, ViewOf(s', u)) { assert ViewOk(cfg, u, ViewOf(s, u)); }
    UntouchedStep(cfg, s, s');
    FanOutFrame(cfg, s, s');
  }

  lemma VanishKeeps(cfg: Config, s: State, a: nat)
    requires Inv(cfg, s) && !cfg.FanOut()
    ensures Inv(cfg, s.(packages := s.packages - {a}))
  {
    hide ViewOk, SpotOf, Slots, Tokens, Groups, FanOutApp;
    var s' := s.(packages := s.packages - {a});
    forall u ensures ViewOf(s', u) == ViewOf(s, u) { }
    forall u ensures ViewOk(cfg, u, ViewOf(s', u)) { assert ViewOk(cfg, u, ViewOf(s, u)); }
    UntouchedStep(cfg, s, s');
    FanOutFrame(cfg, s, s');
  }

  lemma CreateKeeps(cfg: Config, s: State, a: nat)
    requires Inv(cfg, s) && s.entry.Creating? && a in s.entry.todo
    ensures Main(a) in s.info && a < |cfg.scopes| && Inv(cfg, DoCreate(cfg, s, a))
  {
    hide ViewOk, SpotOf, Slots, Tokens, Groups, FanOutApp;
    var s', i := DoCreate(cfg, s, a), s.info[Main(a)];
    if EligibleAtEntry(cfg.maxRetries, cfg.scopes[a], i) {
      CreateWorkers(cfg, s, s', a);
      var ps := s.ph.At(i.phase).(q := s.ph.At(i.phase).q + multiset{Seed(a)});
      BoundedAt(cfg, s, i.phase);
      QueueBounds(cfg, s, s', i.phase, ps);
      UntouchedStep(cfg, s, s');
      assert forall b :: b != a && InQueue(s', Download, Seed(b)) ==> InQueue(s, Download, Seed(b)) by {
        forall b: nat | b != a ensures InQueue(s', Download, Seed(b)) ==> InQueue(s, Download, Seed(b)) {
          assert ViewOf(s', Seed(b)) == ViewOf(s, Seed(b));
        }
      }
      CreateFanOut(cfg, s, s', a);
    } else {
      forall u ensures ViewOf(s', u) == ViewOf(s, u) { }
      forall u ensures ViewOk(cfg, u, ViewOf(s', u)) { assert ViewOk(cfg, u, ViewOf(s, u)); }
      UntouchedStep(cfg, s, s');
      FanOutFrame(cfg, s, s');
    }
  }

  /** A change of the queue or of what an idle manager does concerns no account. */
  lemma QueueBounds(cfg: Config, s: State, s': State, p: Phase, ps: PhaseState)
    requires Bounded(cfg, s) && s'.ph == s.ph.With(p, ps)
    requires ps == s.ph.At(p).(q := ps.q, mgr := ps.mgr)
    requires ps.mgr == s.ph.At(p).mgr || (Busy(ps.mgr) && Busy(s.ph.At(p).mgr))
    requires s'.workerWaiter == s.workerWaiter && s'.handlerWaiter == s.handlerWaiter && s'.slots == s.slots
    requires s'.phaseWaiter == s.phaseWaiter && s'.sigTermCloses == s.sigTermCloses && s'.yield_ == s.yield_
    requires s'.entry == s.entry || (s.entry.Creating? && s'.entry.Creating?)
    ensures Bounded(cfg, s')
  {
    BoundedAt(cfg, s, p);
    QueueAccounts(cfg, p, s.ph.At(p), ps, s.workerWaiter.At(p), s.handlerWaiter.At(p));
    hide Bounded, Slots, Tokens, Groups, PodLoad;
    SettledBounds(cfg, s, s', p, ps);
  }

  lemma QueueAccounts(cfg: Config, p: Phase, ps: PhaseState, ps': PhaseState, working: int, handling: int)
    requires Tokens(cfg, p, ps) && Groups(ps, working, handling) && ps' == ps.(q := ps'.q, mgr := ps'.mgr)
    requires ps'.mgr == ps.mgr || (Busy(ps'.mgr) && Busy(ps.mgr))
    ensures Tokens(cfg, p, ps') && Groups(ps', working, handling) && PodLoad(ps') == PodLoad(ps)
    ensures Unfinished(ps') == Unfinished(ps)
  {
  }

  predicate Busy(m: Manager) {
    m == Looping || m.Marking? || m.Moving?
  }

  /******* Manager steps *******/

  lemma MarkKeeps(cfg: Config, s: State, s': State, p: Phase)
    requires Inv(cfg, s) && s.ph.At(p).mgr.Marking?
    requires s' == SetManager(s.(active := s.active + {s.ph.At(p).mgr.w}), p, Looping)
    ensures Inv(cfg, s')
  {
    hide ViewOk, SpotOf, Slots, Tokens, Groups, FanOutApp;
    MarkWorkers(cfg, s, s', p);
    QueueBounds(cfg, s, s', p, s.ph.At(p).(mgr := Looping));
    UntouchedStep(cfg, s, s');
    SamePlaces(s, s', p, Looping, s.ph.At(p).q);
    FanOutFrame(cfg, s, s');
  }

  // A manager that stops marking or leaving lists nobody new.
  lemma SamePlaces(s: State, s': State, p: Phase, m: Manager, q: multiset<Worker>)
    requires s'.ph == s.ph.With(p, s.ph.At(p).(q := q, mgr := m))
    requires q == if s.ph.At(p).mgr.Moving? then s.ph.At(p).q - multiset{s.ph.At(p).mgr.w} else s.ph.At(p).q
    ensures forall a :: InQueue(s', Download, Seed(a)) ==> InQueue(s, Download, Seed(a))
  {
    hide SpotOf;
    forall a: nat | InQueue(s', Download, Seed(a)) ensures InQueue(s, Download, Seed(a)) {
      SpotBasics(s.ph.download, Seed(a));
      SpotBasics(s'.ph.download, Seed(a));
    }
  }

  lemma DetachKeeps(cfg: Config, s: State, s': State, p: Phase)
    requires Inv(cfg, s) && s.ph.At(p).mgr.Moving?
    requires s' == SetManager(Dequeue(s, p, s.ph.At(p).mgr.w), p, Looping)
    ensures Inv(cfg, s')
  {
    hide ViewOk, SpotOf, Slots, Tokens, Groups, FanOutApp;
    DetachWorkers(cfg, s, s', p);
    var q := s.ph.At(p).q - multiset{s.ph.At(p).mgr.w};
    QueueBounds(cfg, s, s', p, s.ph.At(p).(q := q, mgr := Looping));
    UntouchedStep(cfg, s, s');
    SamePlaces(s, s', p, Looping, q);
    FanOutFrame(cfg, s, s');
  }

  // Nobody is newly listed for download if only w moved and w is not newly listed there.
  lemma ListedElsewhere(s: State, s': State, w: Worker)
    requires forall u :: u != w ==> ViewOf(s', u) == ViewOf(s, u)
    requires Listed(ViewOf(s', w).at.download) ==> Listed(ViewOf(s, w).at.download)
    ensures forall a :: InQueue(s', Download, Seed(a)) ==> InQueue(s, Download, Seed(a))
  {
    hide SpotOf;
    forall u ensures Listed(ViewOf(s', u).at.download) ==> Listed(ViewOf(s, u).at.download) {
      if u != w { assert ViewOf(s', u) == ViewOf(s, u); }
    }
    ListedSeed(s, s');
  }

  // A dispatched worker was already listed in its phase.
  lemma ListedDispatch(s: State, s': State, p: Phase, w: Worker)
    requires forall u :: u != w ==> ViewOf(s', u) == ViewOf(s, u)
    requires Listed(ViewOf(s, w).at.At(p)) && (p != Download ==> s'.ph.download == s.ph.download)
    ensures forall a :: InQueue(s', Download, Seed(a)) ==> InQueue(s, Download, Seed(a))
  {
    hide SpotOf;
    ListedElsewhere(s, s', w);
  }

  lemma ReserveKeeps(cfg: Config, s: State, s': State, w: Worker)
    requires Inv(cfg, s) && s.ph.install.mgr == Looping && w in s.ph.install.q
    requires w in s.created && Own(w) in s.info && Runnable(cfg, s.info[Own(w)], Install) && w !in s.active
    requires w.app < |cfg.scopes| && CanInstall(cfg.scopes[w.app]) && Pod(w) < |s.slots|
    requires Listed(ViewOf(s, w).at.install) && s.slots[Pod(w)] < POD_LIMIT
    requires s' == SetManager(s.(slots := s.slots[Pod(w) := s.slots[Pod(w)] + 1]), Install, Reserved(w))
    ensures Inv(cfg, s')
  {
    hide ViewOk, SpotOf, FanOutApp, Slots, PodLoad;
    var ps, ps' := s.ph.install, s.ph.install.(mgr := Reserved(w));
    BoundedAt(cfg, s, Install);
    HoldWorkers(cfg, s, s', w);
    ReserveLoad(ps, w);
    SlotTaken(cfg, s.slots, ps, ps', Pod(w));
    ControlStep(s, s', Install, ps');
    BoundedStep(cfg, s, s', Install, ps');
    ListedDispatch(s, s', Install, w);
    UntouchedStep(cfg, s, s');
    FanOutFrame(cfg, s, s');
  }

  lemma DispatchKeeps(cfg: Config, s: State, p: Phase, w: Worker)
    requires Inv(cfg, s) && s.ph.At(p).mgr == Looping && w in s.ph.At(p).q && p != Install
    requires w in s.created && Own(w) in s.info && Runnable(cfg, s.info[Own(w)], p) && w !in s.active
    requires w.app < |cfg.scopes| && Listed(ViewOf(s, w).at.At(p))
    ensures Inv(cfg, Dispatch(cfg, s, p, w))
  {
    hide ViewOk, SpotOf, FanOutApp, Slots, PodLoad;
    var s', ps := Dispatch(cfg, s, p, w), s.ph.At(p);
    if |ps.chan| < Capacity(cfg, p) {
      SendWorkers(cfg, s, s', p, w);
      var ps' := ps.(chan := ps.chan + [w], mgr := Marking(w));
      BoundedAt(cfg, s, p);
      ControlStep(s, s', p, ps');
      BoundedStep(cfg, s, s', p, ps');
    } else {
      assert s' == SetManager(s.(slots := s'.slots, waiter := s.waiter - {w}), p, Looping);
      NoRoomWorkers(cfg, s, s', p, w);
      QueueBounds(cfg, s, s', p, ps);
    }
    ListedDispatch(s, s', p, w);
    UntouchedStep(cfg, s, s');
    FanOutFrame(cfg, s, s');
  }

  lemma SendKeeps(cfg: Config, s: State)
    requires Inv(cfg, s) && s.ph.install.mgr.Reserved?
    ensures Safe(cfg, s, Send) && Inv(cfg, DoSend(cfg, s))
  {
    hide Inv, DoSend;
    SendFacts(cfg, s);
    SendStep(cfg, s, DoSend(cfg, s));
  }

  lemma SendStep(cfg: Config, s: State, s': State)
    requires Inv(cfg, s) && s.ph.install.mgr.Reserved? && Pod(s.ph.install.mgr.w) < |s.slots|
    requires s.slots[Pod(s.ph.install.mgr.w)] > 0 && s' == DoSend(cfg, s)
    ensures Inv(cfg, s')
  {
    hide Inv, SpotOf, ViewOf, Runnable, Listed;
    SendFacts(cfg, s);
    if |s.ph.install.chan| < Capacity(cfg, Install) {
      SentKeeps(cfg, s, s', s.ph.install.mgr.w);
    } else {
      UnsentKeeps(cfg, s, s', s.ph.install.mgr.w);
    }
  }

  // What the manager knows of the worker it holds a slot for.
  lemma SendFacts(cfg: Config, s: State)
    requires Inv(cfg, s) && s.ph.install.mgr.Reserved?
    ensures var w := s.ph.install.mgr.w;
      && w in s.ph.install.q && Listed(ViewOf(s, w).at.install)
      && w in s.created && Own(w) in s.info && Runnable(cfg, s.info[Own(w)], Install) && w !in s.active
      && w.app < |cfg.scopes| && CanInstall(cfg.scopes[w.app]) && Pod(w) < |s.slots| && s.slots[Pod(w)] > 0
  {
    hide SpotOf, FanOutApp, Slots, PodLoad;
    var ps, w := s.ph.install, s.ph.install.mgr.w;
    assert ViewOk(cfg, w, ViewOf(s, w));
    SpotAt(s, Install, w);
    SpotBasics(ps, w);
    HeldFacts(cfg, w, ViewOf(s, w));
    hide ViewOk, Runnable;
    BoundedAt(cfg, s, Install);
    hide Inv;
    UnreserveLoad(ps, Looping);
    SlotCount(cfg, s.slots, ps);
    SlotFreed(cfg, s.slots, ps, ps.(mgr := Looping), Pod(w));
  }

  lemma SentKeeps(cfg: Config, s: State, s': State, w: Worker)
    requires Inv(cfg, s) && s.ph.install.mgr == Reserved(w) && w in s.ph.install.q && Listed(ViewOf(s, w).at.install)
    requires w in s.created && Own(w) in s.info && Runnable(cfg, s.info[Own(w)], Install) && w !in s.active
    requires w.app < |cfg.scopes| && CanInstall(cfg.scopes[w.app])
    requires s' == SetPhase(s.(waiter := s.waiter[w := Install]), Install,
                            s.ph.install.(chan := s.ph.install.chan + [w], mgr := Marking(w)))
    ensures Inv(cfg, s')
  {
    hide ViewOk, SpotOf, FanOutApp, Slots, PodLoad;
    var ps, ps' := s.ph.install, s'.ph.install;
    BoundedAt(cfg, s, Install);
    SendWorkers(cfg, s, s', Install, w);
    SendLoad(ps, w);
    SlotSame(cfg, s.slots, ps, ps');
    ControlStep(s, s', Install, ps');
    BoundedStep(cfg, s, s', Install, ps');
    ListedDispatch(s, s', Install, w);
    UntouchedStep(cfg, s, s');
    FanOutFrame(cfg, s, s');
  }

  lemma UnsentKeeps(cfg: Config, s: State, s': State, w: Worker)
    requires Inv(cfg, s) && s.ph.install.mgr == Reserved(w) && w in s.ph.install.q && Listed(ViewOf(s, w).at.install)
    requires w in s.created && Own(w) in s.info && Runnable(cfg, s.info[Own(w)], Install) && w !in s.active
    requires Pod(w) < |s.slots| && s.slots[Pod(w)] > 0
    requires s' == SetManager(s.(slots := s.slots[Pod(w) := s.slots[Pod(w)] - 1], waiter := s.waiter - {w}), Install, Looping)
    ensures Inv(cfg, s')
  {
    hide ViewOk, SpotOf, FanOutApp, Slots, PodLoad;
    var ps, ps' := s.ph.install, s'.ph.install;
    BoundedAt(cfg, s, Install);
    UnreserveLoad(ps, Looping);
    SlotFreed(cfg, s.slots, ps, ps', Pod(w));
    NoRoomWorkers(cfg, s, s', Install, w);
    ControlStep(s, s', Install, ps');
    BoundedStep(cfg, s, s', Install, ps');
    ListedDispatch(s, s', Install, w);
    UntouchedStep(cfg, s, s');
    FanOutFrame(cfg, s, s');
  }

  lemma SlotCount(cfg: Config, slots: seq<nat>, ps: PhaseState)
    requires Slots(cfg, slots, ps)
    ensures |slots| == cfg.replicas
  {
  }

  lemma HeldFacts(cfg: Config, w: Worker, v: View)
    requires cfg.Valid() && ViewOk(cfg, w, v) && v.at.install.stance == Held
    ensures v.created && v.info.Some? && Runnable(cfg, v.info.value, Install) && !v.active && Pod(w) < cfg.replicas
    ensures w.app < |cfg.scopes| && CanInstall(cfg.scopes[w.app]) && v.at.install.queued > 0 && Listed(v.at.install)
  {
  }

  lemma MoveKeeps(cfg: Config, s: State, p: Phase, w: Worker, next: Phase)
    requires Inv(cfg, s) && s.ph.At(p).mgr == Looping && w in s.ph.At(p).q && p != next
    requires w in s.created && Own(w) in s.info && s.info[Own(w)].phase == p && !Runnable(cfg, s.info[Own(w)], p)
    requires w.app < |cfg.scopes| && (p == Install ==> !IsComplete(s.info[Own(w)]) && CanInstall(cfg.scopes[w.app]))
    requires KeyFor(cfg, w, p) == Own(w) && Main(w.app) in s.info && w.app < |cfg.scopes|
    requires p == Download ==> next == PodCopy && !cfg.FanOut()
    requires cfg.FanOut() ==> w.Replica? && w.ordinal < cfg.replicas && next != Download
    requires !cfg.FanOut() ==> w.Seed?
    ensures Inv(cfg, BeginMove(cfg, s, p, w, next))
  {
    hide ViewOk, SpotOf, FanOutApp, Slots, PodLoad, Tokens, Groups;
    var s' := BeginMove(cfg, s, p, w, next);
    MoveWorkers(cfg, s, s', p, w, next);
    var pn, ps := s.ph.At(next).(q := s.ph.At(next).q + multiset{w}), s.ph.At(p).(mgr := Moving(w));
    var s1 := SetPhase(s.(active := s.active - {w}, waiter := s.waiter - {w}, info := s.info[Own(w) := NewContext(next)]), next, pn);
    QueueBounds(cfg, s, s1, next, pn);
    QueueBounds(cfg, s1, s', p, ps);
    UntouchedStep(cfg, s, s');
    if cfg.FanOut() {
      ListedElsewhereReplica(s, s', w);
      assert s'.info == s.info[Own(w) := NewContext(next)][Main(w.app) := s.info[Main(w.app)]];
      ReplicaFanOut(cfg, s, s', w, NewContext(next), s.info[Main(w.app)]);
    }
  }

  lemma ListedElsewhereReplica(s: State, s': State, w: Worker)
    requires forall u :: u != w ==> ViewOf(s', u) == ViewOf(s, u)
    requires w.Replica?
    ensures forall a :: InQueue(s', Download, Seed(a)) ==> InQueue(s, Download, Seed(a))
  {
    hide SpotOf;
    forall a: nat | InQueue(s', Download, Seed(a)) ensures InQueue(s, Download, Seed(a)) {
      assert ViewOf(s', Seed(a)) == ViewOf(s, Seed(a));
    }
  }

  lemma SplitKeeps(cfg: Config, s: State, w: Worker)
    requires Inv(cfg, s) && s.ph.download.mgr == Looping && w in s.ph.download.q && cfg.FanOut() && w.Seed?
    requires w in s.created && Own(w) in s.info && w.app < |cfg.scopes|
    requires s.info[Own(w)].phase == Download && s.info[Own(w)].status == DownloadComplete
    requires Listed(ViewOf(s, w).at.download)
    ensures Inv(cfg, BeginMove(cfg, s, Download, w, PodCopy))
  {
    hide ViewOk, SpotOf, Bounded, Untouched, Joins, SplitInfo;
    var s' := BeginMove(cfg, s, Download, w, PodCopy);
    assert FanOutApp(cfg, s, w.app);
    assert InQueue(s, Download, w);
    SplitWorkers(cfg, s, s', w);
    SplitBounds(cfg, s, s', w);
    SplitUntouched(cfg, s, s', w);
    SplitListing(cfg, s, s', w);
    SplitFanOut(cfg, s, s', w);
  }

  lemma SplitBounds(cfg: Config, s: State, s': State, w: Worker)
    requires Bounded(cfg, s) && s.ph.download.mgr == Looping && cfg.FanOut() && w.Seed?
    requires s' == BeginMove(cfg, s, Download, w, PodCopy)
    ensures Bounded(cfg, s')
  {
    hide Bounded, Joins, SplitInfo;
    var copies, installs := Joins(cfg, s.info, w.app, PodCopy), Joins(cfg, s.info, w.app, Install);
    var s0 := s.(active := s.active - {w}, waiter := s.waiter - {w}, info := SplitInfo(cfg, s.info, w.app),
                 created := s.created + copies + installs);
    var pc, pi := s.ph.podCopy.(q := s.ph.podCopy.q + multiset(copies)), s.ph.install.(q := s.ph.install.q + multiset(installs));
    var s1 := SetPhase(s0, PodCopy, pc);
    var s2 := SetPhase(s1, Install, pi);
    QueueBounds(cfg, s, s1, PodCopy, pc);
    QueueBounds(cfg, s1, s2, Install, pi);
    QueueBounds(cfg, s2, s', Download, s.ph.download.(mgr := Moving(w)));
  }

  lemma SplitUntouched(cfg: Config, s: State, s': State, w: Worker)
    requires Untouched(cfg, s) && cfg.FanOut() && w.Seed? && w in s.created && s' == BeginMove(cfg, s, Download, w, PodCopy)
    ensures Untouched(cfg, s')
  {
    hide Joins, SplitInfo;
    SplitRecords(cfg, s.info, w.app);
    forall a: nat | Seed(a) in s'.created ensures Seed(a) in s.created { JoinersOf(cfg, s.info, w.app, Seed(a)); }
    assert s'.info == SplitInfo(cfg, s.info, w.app) && s'.entry == s.entry && s'.packages == s.packages;
    hide BeginMove;
    forall k: Key | k.app != w.app || k.Main?
      ensures (k in s'.info <==> k in s.info) && (k in s.info ==> s'.info[k] == s.info[k])
    {
      assert Lookup(s'.info, k) == Lookup(s.info, k);
    }
    UntouchedStep(cfg, s, s');
  }

  lemma SplitListing(cfg: Config, s: State, s': State, w: Worker)
    requires Workers(cfg, s) && w in s.ph.download.q && s.ph.download.mgr == Looping && w.Seed?
    requires forall u: Worker :: u.Seed? && u != w ==> ViewOf(s', u) == ViewOf(s, u)
    requires ViewOf(s', w) == SetSpot(ViewOf(s, w).(active := false, waiter := None), Download,
                                      ViewOf(s, w).at.download.(stance := Leaving))
    ensures !InQueue(s', Download, w)
    ensures forall a :: InQueue(s', Download, Seed(a)) ==> InQueue(s, Download, Seed(a))
  {
    hide ViewOk, SpotOf;
    SpotAt(s, Download, w);
    SpotAt(s', Download, w);
    SpotBasics(s.ph.download, w);
    assert ViewOk(cfg, w, ViewOf(s, w));
    ListedOnce(cfg, w, ViewOf(s, w));
    forall a: nat | InQueue(s', Download, Seed(a)) ensures InQueue(s, Download, Seed(a)) {
      if Seed(a) != w { assert ViewOf(s', Seed(a)) == ViewOf(s, Seed(a)); }
    }
  }

  lemma ListedOnce(cfg: Config, w: Worker, v: View)
    requires ViewOk(cfg, w, v) && v.at.download.stance == Away
    ensures v.at.download.queued <= 1
  {
  }

  lemma DropKeeps(cfg: Config, s: State, p: Phase, w: Worker)
    requires Inv(cfg, s) && s.ph.At(p).mgr == Looping && w in s.ph.At(p).q
    requires w in s.created && Own(w) in s.info && s.info[Own(w)].phase == p && IsComplete(s.info[Own(w)])
    requires w.app < |cfg.scopes| && Settled(cfg.maxRetries, cfg.scopes[w.app], s.info[Own(w)])
    ensures Inv(cfg, Dequeue(s, p, w))
  {
    hide ViewOk, SpotOf, FanOutApp, Slots, PodLoad, Tokens, Groups;
    var s' := Dequeue(s, p, w);
    assert s' == Dequeue(s.(info := s.info[Own(w) := s.info[Own(w)]]), p, w);
    DropWorkers(cfg, s, s', p, w, s.info[Own(w)]);
    QueueBounds(cfg, s, s', p, s.ph.At(p).(q := s.ph.At(p).q - multiset{w}));
    UntouchedStep(cfg, s, s');
    FewerListed(s, s', p, w);
    FanOutFrame(cfg, s, s');
  }

  lemma FewerListed(s: State, s': State, p: Phase, w: Worker)
    requires s'.ph == s.ph.With(p, s.ph.At(p).(q := s.ph.At(p).q - multiset{w}))
    ensures forall a :: InQueue(s', Download, Seed(a)) ==> InQueue(s, Download, Seed(a))
  {
  }

  /** Once an app has replica workers its seed is in no queue. */
  lemma SeedRetired(cfg: Config, s: State, w: Worker)
    requires Inv(cfg, s) && cfg.FanOut() && w.Replica? && w in s.created && w.app < |cfg.scopes|
    ensures !Queued(ViewOf(s, Seed(w.app))) && Seed(w.app) in s.created
    ensures Main(w.app) in s.info && s.info[Main(w.app)].failCount <= cfg.maxRetries + 1
  {
    assert FanOutApp(cfg, s, w.app);
    assert w == Replica(w.app, w.ordinal);
    assert ViewOk(cfg, Seed(w.app), ViewOf(s, Seed(w.app)));
  }

  lemma ExhaustedKeeps(cfg: Config, s: State, p: Phase, w: Worker)
    requires Inv(cfg, s) && s.ph.At(p).mgr == Looping && w in s.ph.At(p).q
    requires w in s.created && Own(w) in s.info && s.info[Own(w)].phase == p && Exhausted(cfg.maxRetries, s.info[Own(w)])
    requires KeyFor(cfg, w, p) == Own(w) && Main(w.app) in s.info && w.app < |cfg.scopes| && w.Seed?
    requires Listed(ViewOf(s, w).at.At(p))
    ensures Inv(cfg, DropExhausted(cfg, s, p, w))
  {
    hide ViewOk, SpotOf, FanOutApp, Slots, PodLoad, Tokens, Groups;
    var s', i := DropExhausted(cfg, s, p, w), s.info[Own(w)].(status := ErrorStatus(p));
    assert s' == Dequeue(s.(info := s.info[Own(w) := i]), p, w);
    DropWorkers(cfg, s, s', p, w, i);
    QueueBounds(cfg, s, s', p, s.ph.At(p).(q := s.ph.At(p).q - multiset{w}));
    UntouchedStep(cfg, s, s');
    FewerListed(s, s', p, w);
    if cfg.FanOut() { SeedFanOut(cfg, s, s', w, i); }
  }

  lemma ExhaustedReplicaKeeps(cfg: Config, s: State, p: Phase, w: Worker)
    requires Inv(cfg, s) && s.ph.At(p).mgr == Looping && w in s.ph.At(p).q && cfg.FanOut() && p != Download
    requires w in s.created && Own(w) in s.info && s.info[Own(w)].phase == p && Exhausted(cfg.maxRetries, s.info[Own(w)])
    requires KeyFor(cfg, w, p) == Own(w) && Main(w.app) in s.info && w.app < |cfg.scopes|
    requires w.Replica? && w.ordinal < cfg.replicas
    requires !IsComplete(s.info[Own(w)])
    requires s.info[Own(w)].status != MissingFromOperator
    ensures Inv(cfg, DropExhausted(cfg, s, p, w))
  {
    hide ViewOk, SpotOf, FanOutApp, Slots, PodLoad, Tokens, Groups;
    var s' := DropExhausted(cfg, s, p, w);
    var i := if p == Install then s.info[Own(w)].(status := InstallError) else s.info[Own(w)];
    var main := if p == Install then s.info[Main(w.app)].(phase := Install, status := InstallError)
                else s.info[Main(w.app)].(status := PodCopyError);
    var s1 := Dequeue(s.(info := s.info[Own(w) := i]), p, w);
    assert s.info[Own(w) := s.info[Own(w)]] == s.info;
    assert s' == s1.(info := s1.info[Main(w.app) := main]);
    DropWorkers(cfg, s, s1, p, w, i);
    SeedRetired(cfg, s, w);
    assert ViewOf(s1, Seed(w.app)) == ViewOf(s, Seed(w.app));
    RetiredSeedWorkers(cfg, s1, s', w.app, main);
    QueueBounds(cfg, s, s', p, s.ph.At(p).(q := s.ph.At(p).q - multiset{w}));
    UntouchedStep(cfg, s, s');
    FewerListed(s, s', p, w);
    ReplicaFanOut(cfg, s, s', w, i, main);
  }

  /** What holds of a replica that a manager visits. */
  lemma ReplicaFacts(cfg: Config, s: State, p: Phase, w: Worker)
    requires Inv(cfg, s) && w in s.created && w.app < |cfg.scopes| && KeyFor(cfg, w, p) == Own(w)
    ensures !cfg.FanOut() ==> w.Seed?
    ensures cfg.FanOut() ==> (w.Seed? <==> p == Download)
    ensures w.Replica? ==>
      && w.ordinal < cfg.replicas && Own(w) in s.info
      && s.info[Own(w)].status != MissingFromOperator && s.info[Own(w)].phase != Download
      && (AllInstalled(s.info, w.app) || w.app in s.packages)
  {
    assert ViewOk(cfg, w, ViewOf(s, w));
    if w.Replica? {
      assert FanOutApp(cfg, s, w.app);
      assert w == Replica(w.app, w.ordinal);
    }
  }

  lemma VisitKeeps(cfg: Config, s: State, p: Phase, w: Worker)
    requires Inv(cfg, s) && s.ph.At(p).mgr == Looping && w in s.ph.At(p).q
    ensures Safe(cfg, s, Visit(p, w)) && Inv(cfg, DoVisit(cfg, s, p, w))
  {
    hide ViewOk, SpotOf, ViewOf, FanOutApp, Slots, PodLoad, Tokens, Groups, Control, BeginMove, DropExhausted, Dispatch;
    BoundedAt(cfg, s, p);
    VisitFacts(cfg, s, p, w);
    ReplicaFacts(cfg, s, p, w);
    var i, scope := s.info[Own(w)], cfg.scopes[w.app];
    if p == Install && !CanInstall(scope) {
    } else if Exhausted(cfg.maxRetries, i) {
      if w.Seed? { ExhaustedKeeps(cfg, s, p, w); } else { ExhaustedReplicaKeeps(cfg, s, p, w); }
    } else if IsComplete(i) {
      if p == Download {
        if cfg.FanOut() { SplitKeeps(cfg, s, w); } else { MoveKeeps(cfg, s, p, w, PodCopy); }
      } else if p == PodCopy && scope != Cluster {
        MoveKeeps(cfg, s, p, w, Install);
      } else if i.phase == p {
        DropKeeps(cfg, s, p, w);
      } else {
        AdoptedStays(cfg, s, w);
      }
    } else if p == PodCopy && i.status == MissingFromOperator {
      MoveKeeps(cfg, s, p, w, Download);
    } else if p == Install && i.status == MissingOnPod {
      MoveKeeps(cfg, s, p, w, PodCopy);
    } else if EligibleForRun(cfg, s, p, w, i) {
      if p != Install {
        DispatchKeeps(cfg, s, p, w);
      } else {
        ReserveOrNot(cfg, s, w);
      }
    }
  }

  lemma ReserveOrNot(cfg: Config, s: State, w: Worker)
    requires Inv(cfg, s) && s.ph.install.mgr == Looping && w in s.ph.install.q
    requires w in s.created && Own(w) in s.info && Runnable(cfg, s.info[Own(w)], Install) && w !in s.active
    requires w.app < |cfg.scopes| && CanInstall(cfg.scopes[w.app]) && Pod(w) < |s.slots|
    requires Listed(ViewOf(s, w).at.install)
    ensures Inv(cfg, Dispatch(cfg, s, Install, w))
  {
    hide Inv, ViewOf;
    if s.slots[Pod(w)] < POD_LIMIT {
      ReserveKeeps(cfg, s, Dispatch(cfg, s, Install, w), w);
    }
  }

  /** The pod-copy manager's removal of an app adopted by a bundle push looks in the install queue and finds nothing. */
  lemma AdoptedStays(cfg: Config, s: State, w: Worker)
    requires Inv(cfg, s) && w in s.ph.podCopy.q && s.ph.podCopy.mgr == Looping
    requires w in s.created && Own(w) in s.info && w.app < |cfg.scopes| && cfg.scopes[w.app] == Cluster
    requires s.info[Own(w)].phase == Install && s.info[Own(w)].status == InstallComplete
    ensures Inv(cfg, Dequeue(s, Install, w))
    ensures !InQueue(s, Install, w)
  {
    assert ViewOk(cfg, w, ViewOf(s, w));
    assert w !in s.ph.install.q;
    hide Inv;
    assert s.ph.install.q - multiset{w} == s.ph.install.q;
    assert Dequeue(s, Install, w) == s;
  }

  /******* Handler and run steps *******/

  lemma OpenFacts(cfg: Config, s: State, p: Phase, w: Worker)
    requires Workers(cfg, s) && Untouched(cfg, s) && cfg.Valid()
    requires SpotOf(s.ph.At(p), w).open > 0 || SpotOf(s.ph.At(p), w).cleaning > 0
    ensures w in s.created && Own(w) in s.info && w in s.waiter && s.waiter[w] == p && KeyFor(cfg, w, p) == Own(w)
    ensures w.app < |cfg.scopes| && Main(w.app) in s.info && (p == Install ==> Pod(w) < cfg.replicas && CanInstall(cfg.scopes[w.app]))
    ensures SpotOf(s.ph.At(p), w).open > 0 ==>
      && Runnable(cfg, s.info[Own(w)], p) && Coherent(s.info[Own(w)]) && Listed(SpotOf(s.ph.At(p), w))
    ensures SpotOf(s.ph.At(p), w).cleaning > 0 ==> s.info[Own(w)].phase == Install && s.info[Own(w)].status == InstallComplete
  {
    hide SpotOf;
    SpotAt(s, p, w);
    assert ViewOk(cfg, w, ViewOf(s, w));
  }

  lemma PassKeeps(cfg: Config, s: State, s': State, p: Phase, ps: PhaseState)
    requires Inv(cfg, s) && s'.ph == s.ph.With(p, ps)
    requires forall u :: SpotOf(ps, u) == SpotOf(s.ph.At(p), u)
    requires s' == s.(ph := s'.ph, workerWaiter := s'.workerWaiter)
    requires s'.workerWaiter == s.workerWaiter.With(p, s'.workerWaiter.At(p))
    requires Tokens(cfg, p, ps) && Groups(ps, s'.workerWaiter.At(p), s.handlerWaiter.At(p))
    requires Unfinished(ps) == Unfinished(s.ph.At(p)) && PodLoad(ps) == PodLoad(s.ph.At(p))
    ensures Inv(cfg, s')
  {
    hide ViewOk, SpotOf, FanOutApp, Slots, PodLoad, Tokens, Groups, Control, Listed;
    PassWorkers(cfg, s, s', p, ps);
    BoundedAt(cfg, s, p);
    ControlStep(s, s', p, ps);
    if p == Install { SlotSame(cfg, s.slots, s.ph.install, ps); }
    BoundedStep(cfg, s, s', p, ps);
    UntouchedStep(cfg, s, s');
    ListedSeed(s, s');
    FanOutFrame(cfg, s, s');
  }

  lemma ReceiveKeeps(cfg: Config, s: State, p: Phase)
    requires Inv(cfg, s) && HandlerWaits(s.ph.At(p), p) && s.ph.At(p).chan != []
    ensures Inv(cfg, DoReceive(s, p))
  {
    hide ViewOk, SpotOf, Slots, PodLoad, FanOutInv, Workers, Untouched, Control;
    var ps := s.ph.At(p);
    var ps' := ps.(chan := ps.chan[1..], hnd := HWork(ps.chan[0]));
    forall u ensures SpotOf(ps', u) == SpotOf(ps, u) { ReceiveSpot(ps, u); }
    ReceiveLoad(ps);
    BoundedAt(cfg, s, p);
    PassKeeps(cfg, s, DoReceive(s, p), p, ps');
  }

  lemma StartRunKeeps(cfg: Config, s: State, p: Phase)
    requires Inv(cfg, s) && s.ph.At(p).hnd.HWork?
    ensures s.ph.At(p).hnd.w in s.waiter && Inv(cfg, DoStartRun(s, p, s.ph.At(p).hnd.w))
  {
    hide ViewOk, SpotOf, Slots, PodLoad, FanOutInv, Workers, Untouched, Control;
    var ps, w := s.ph.At(p), s.ph.At(p).hnd.w;
    var ps' := ps.(hnd := HIdle, runs := ps.runs + [w]);
    forall u ensures SpotOf(ps', u) == SpotOf(ps, u) { StartSpot(ps, u); }
    StartSpot(ps, w);
    OpenFacts(cfg, s, p, w);
    StartLoad(ps);
    BoundedAt(cfg, s, p);
    PassKeeps(cfg, s, DoStartRun(s, p, w), p, ps');
  }

  // The accounts of a phase from which worker w departs; in the install phase its slot is given back.
  predicate Departs(cfg: Config, s: State, s': State, p: Phase, ps: PhaseState, w: Worker) {
    && s'.ph == s.ph.With(p, ps)
    && s'.workerWaiter == s.workerWaiter.With(p, s'.workerWaiter.At(p)) && s'.handlerWaiter == s.handlerWaiter
    && Tokens(cfg, p, ps) && Groups(ps, s'.workerWaiter.At(p), s.handlerWaiter.At(p))
    && ps.mgr == s.ph.At(p).mgr
    && s'.phaseWaiter == s.phaseWaiter && s'.sigTermCloses == s.sigTermCloses && s'.yield_ == s.yield_ && s'.entry == s.entry
    && (if p == Install then
          && PodLoad(ps) == PodLoad(s.ph.install) - multiset{Pod(w)} && Pod(w) in PodLoad(s.ph.install)
          && Pod(w) < |s.slots| && s.slots[Pod(w)] > 0 && s'.slots == s.slots[Pod(w) := s.slots[Pod(w)] - 1]
        else s'.slots == s.slots)
  }

  lemma DepartBounds(cfg: Config, s: State, s': State, p: Phase, ps: PhaseState, w: Worker)
    requires Bounded(cfg, s) && Departs(cfg, s, s', p, ps, w)
    ensures Bounded(cfg, s')
  {
    hide Tokens, Groups, Slots, PodLoad;
    BoundedAt(cfg, s, p);
    ControlStep(s, s', p, ps);
    if p == Install { SlotFreed(cfg, s.slots, s.ph.install, ps, Pod(w)); }
    BoundedStep(cfg, s, s', p, ps);
  }

  /** A dispatch of a seed ends with record i. */
  lemma CloseSeedKeeps(cfg: Config, s: State, s': State, p: Phase, ps: PhaseState, w: Worker, i: PhaseInfo)
    requires Inv(cfg, s) && SpotOf(s.ph.At(p), w).open > 0 && w.Seed? && Departs(cfg, s, s', p, ps, w)
    requires Closes(s.ph.At(p), ps, w)
    requires s'.info == s.info[Own(w) := i] && s'.created == s.created && s'.waiter == s.waiter
    requires s'.active == s.active || s'.active == s.active - {w}
    requires i.phase == p && Coherent(i) && i.failCount <= cfg.maxRetries + 1 && i.status != InstallComplete
    requires IsComplete(i) ==> !Exhausted(cfg.maxRetries, i)
    requires s'.packages - {w.app} == s.packages - {w.app}
    requires cfg.FanOut() ==> p == Download && (i.status == DownloadComplete ==> w.app in s'.packages)
    ensures Inv(cfg, s')
  {
    hide ViewOk, SpotOf, FanOutApp, Slots, PodLoad, Tokens, Groups, Departs;
    OpenFacts(cfg, s, p, w);
    assert s'.ph == s.ph.With(p, ps) && s'.entry == s.entry by { DepartShape(cfg, s, s', p, ps, w); }
    CloseWorkers(cfg, s, s', p, ps, w, i);
    DepartBounds(cfg, s, s', p, ps, w);
    assert cfg.FanOut() && s.entry.Creating? ==> forall a :: a in s.entry.todo && a in s.packages ==> a in s'.packages by {
      forall a | s.entry.Creating? && a in s.entry.todo && a in s.packages ensures a in s'.packages {
        assert a != w.app;
        assert a in s.packages - {w.app};
      }
    }
    UntouchedStep(cfg, s, s');
    if cfg.FanOut() {
      assert InQueue(s, Download, w);
      ListedElsewhere(s, s', w);
      SeedFanOut(cfg, s, s', w, i);
    }
  }

  lemma DepartShape(cfg: Config, s: State, s': State, p: Phase, ps: PhaseState, w: Worker)
    requires Departs(cfg, s, s', p, ps, w)
    ensures s'.ph == s.ph.With(p, ps) && s'.entry == s.entry
  {
  }

  /** A dispatch of a replica ends with record i, which is not an installed one. */
  lemma CloseReplicaKeeps(cfg: Config, s: State, s': State, p: Phase, ps: PhaseState, w: Worker, i: PhaseInfo)
    requires Inv(cfg, s) && SpotOf(s.ph.At(p), w).open > 0 && w.Replica? && Departs(cfg, s, s', p, ps, w)
    requires Closes(s.ph.At(p), ps, w)
    requires s'.info == s.info[Own(w) := i] && s'.created == s.created && s'.waiter == s.waiter
    requires s'.active == s.active - {w} && s'.packages == s.packages
    requires i.phase == p && Coherent(i) && i.failCount <= cfg.maxRetries + 1 && i.status != InstallComplete
    requires IsComplete(i) ==> !Exhausted(cfg.maxRetries, i)
    requires i.status != MissingFromOperator
    ensures Inv(cfg, s')
  {
    hide ViewOk, SpotOf, FanOutApp, Slots, PodLoad, Tokens, Groups, Departs;
    OpenFacts(cfg, s, p, w);
    ReplicaFacts(cfg, s, p, w);
    DepartShape(cfg, s, s', p, ps, w);
    CloseWorkers(cfg, s, s', p, ps, w, i);
    DepartBounds(cfg, s, s', p, ps, w);
    UntouchedStep(cfg, s, s');
    ListedElsewhereReplica(s, s', w);
    ReplicaKind(cfg, s, w);
    assert s'.info == s.info[Own(w) := i][Main(w.app) := s.info[Main(w.app)]];
    ReplicaFanOut(cfg, s, s', w, i, s.info[Main(w.app)]);
  }

  lemma ReplicaKind(cfg: Config, s: State, w: Worker)
    requires Workers(cfg, s) && w in s.created && w.Replica?
    ensures cfg.FanOut() && w.ordinal < cfg.replicas
  {
    assert ViewOk(cfg, w, ViewOf(s, w));
  }

  lemma BumpBound(cfg: Config, failCount: nat)
    requires cfg.Valid() && failCount <= cfg.maxRetries
    ensures Bump(failCount) <= cfg.maxRetries + 1
  {
  }

  lemma HandleFacts(cfg: Config, s: State)
    requires Inv(cfg, s) && s.ph.download.hnd.HWork?
    ensures var w := s.ph.download.hnd.w;
      && w in s.created && Main(w.app) in s.info && w in s.waiter && s.waiter[w] == Download && w.Seed?
      && w.app < |cfg.scopes| && SpotOf(s.ph.download, w).open > 0 && Listed(SpotOf(s.ph.download, w))
      && Runnable(cfg, s.info[Main(w.app)], Download) && Coherent(s.info[Main(w.app)])
      && Bump(s.info[Main(w.app)].failCount) <= cfg.maxRetries + 1 && s.ph.download.pool > 0
  {
    hide ViewOk, SpotOf, Slots, PodLoad, FanOutInv, Control;
    var ps, w := s.ph.download, s.ph.download.hnd.w;
    HandledSpot(ps, ps.(hnd := HIdle));
    OpenFacts(cfg, s, Download, w);
    ReplicaFacts(cfg, s, Download, w);
    BoundedAt(cfg, s, Download);
    BumpBound(cfg, s.info[Main(w.app)].failCount);
  }

  lemma StartDownloadKeeps(cfg: Config, s: State)
    requires Inv(cfg, s) && s.ph.download.hnd.HWork?
    ensures Safe(cfg, s, HandleDownload(StartDownload)) && Inv(cfg, DoHandleDownload(s, s.ph.download.hnd.w, StartDownload))
  {
    hide ViewOk, SpotOf, Slots, PodLoad, FanOutApp;
    HandleFacts(cfg, s);
    var ps, w := s.ph.download, s.ph.download.hnd.w;
    var ps' := ps.(hnd := HIdle, runs := ps.runs + [w]);
    var s', i := DoHandleDownload(s, w, StartDownload), s.info[Main(w.app)];
    forall u ensures SpotOf(ps', u) == SpotOf(ps, u) { StartSpot(ps, u); }
    StartDownloadWorkers(cfg, s, s', ps', w);
    BoundedAt(cfg, s, Download);
    ControlStep(s, s', Download, ps');
    BoundedStep(cfg, s, s', Download, ps');
    UntouchedStep(cfg, s, s');
    ListedElsewhere(s, s', w);
    assert InQueue(s, Download, w);
    SeedFanOut(cfg, s, s', w, i.(status := DownloadInProgress));
  }

  lemma HandleDeparts(cfg: Config, s: State, s': State, ps: PhaseState)
    requires Inv(cfg, s) && s.ph.download.hnd.HWork? && s.ph.download.pool > 0
    requires ps == s.ph.download.(hnd := HIdle, pool := s.ph.download.pool - 1)
    requires s'.ph == s.ph.With(Download, ps) && s'.workerWaiter == s.workerWaiter && s'.handlerWaiter == s.handlerWaiter
    requires s'.phaseWaiter == s.phaseWaiter && s'.sigTermCloses == s.sigTermCloses && s'.yield_ == s.yield_
    requires s'.entry == s.entry && s'.slots == s.slots
    ensures Departs(cfg, s, s', Download, ps, s.ph.download.hnd.w)
    ensures Closes(s.ph.download, ps, s.ph.download.hnd.w)
  {
    hide ViewOk, SpotOf, Slots, PodLoad, FanOutInv, Control, Workers, Untouched;
    BoundedAt(cfg, s, Download);
    HandledSpot(s.ph.download, ps);
  }

  lemma HandleDownloadKeeps(cfg: Config, s: State, verdict: DownloadVerdict)
    requires Inv(cfg, s) && s.ph.download.hnd.HWork? && verdict != StartDownload
    requires verdict == AlreadyThere ==> s.ph.download.hnd.w.app in s.packages
    ensures Safe(cfg, s, HandleDownload(verdict)) && Inv(cfg, DoHandleDownload(s, s.ph.download.hnd.w, verdict))
  {
    hide Inv, SpotOf, Closes, Departs, Runnable;
    HandleFacts(cfg, s);
    var w := s.ph.download.hnd.w;
    var s', ps' := DoHandleDownload(s, w, verdict), s.ph.download.(hnd := HIdle, pool := s.ph.download.pool - 1);
    HandleDeparts(cfg, s, s', ps');
    OfPhase(cfg, s.info[Own(w)], Download);
    assert s.info == s.info[Own(w) := s.info[Own(w)]];
    CloseSeedKeeps(cfg, s, s', Download, ps', w, s'.info[Main(w.app)]);
  }

  /** A run of phase p ends: what its worker is known to satisfy, and that the run pool has a token to take back. */
  lemma RunFacts(cfg: Config, s: State, p: Phase, k: nat)
    requires Inv(cfg, s) && k < |s.ph.At(p).runs|
    ensures var w := s.ph.At(p).runs[k];
      && w in s.created && Own(w) in s.info && w in s.waiter && s.waiter[w] == p && KeyFor(cfg, w, p) == Own(w)
      && w.app < |cfg.scopes| && Main(w.app) in s.info && SpotOf(s.ph.At(p), w).open > 0
      && Runnable(cfg, s.info[Own(w)], p) && Coherent(s.info[Own(w)]) && Bump(s.info[Own(w)].failCount) <= cfg.maxRetries + 1
      && (p != Install ==> s.ph.At(p).pool > 0)
      && (p == Install ==> Pod(w) < |s.slots| && s.slots[Pod(w)] > 0 && CanInstall(cfg.scopes[w.app]))
      && (!cfg.FanOut() ==> w.Seed?) && (cfg.FanOut() ==> (w.Seed? <==> p == Download))
      && (w.Replica? ==> w.ordinal < cfg.replicas)
  {
    hide ViewOk, SpotOf, Slots, PodLoad, FanOutInv, Control;
    var ps, w := s.ph.At(p), s.ph.At(p).runs[k];
    RunEndSpot(ps, ps.(runs := RemoveAt(ps.runs, k)), k);
    OpenFacts(cfg, s, p, w);
    ReplicaFacts(cfg, s, p, w);
    BoundedAt(cfg, s, p);
    BumpBound(cfg, s.info[Own(w)].failCount);
    if p == Install {
      SlotCount(cfg, s.slots, ps);
      RunEndLoad(ps, k);
      SlotFreed(cfg, s.slots, ps, ps.(runs := RemoveAt(ps.runs, k)), Pod(w));
    }
  }

  // The phase after run k has ended.
  function AfterRun(p: Phase, ps: PhaseState, k: nat): PhaseState
    requires k < |ps.runs| && (p != Install ==> ps.pool > 0)
  {
    ps.(runs := RemoveAt(ps.runs, k), pool := if p == Install then ps.pool else ps.pool - 1)
  }

  lemma RunDeparts(cfg: Config, s: State, s': State, p: Phase, k: nat)
    requires Inv(cfg, s) && k < |s.ph.At(p).runs| && (p != Install ==> s.ph.At(p).pool > 0)
    requires var w := s.ph.At(p).runs[k];
      && s'.ph == s.ph.With(p, AfterRun(p, s.ph.At(p), k))
      && s'.workerWaiter == s.workerWaiter.With(p, s.workerWaiter.At(p) - 1) && s'.handlerWaiter == s.handlerWaiter
      && s'.phaseWaiter == s.phaseWaiter && s'.sigTermCloses == s.sigTermCloses && s'.yield_ == s.yield_ && s'.entry == s.entry
      && (if p == Install then Pod(w) < |s.slots| && s.slots[Pod(w)] > 0 && s'.slots == s.slots[Pod(w) := s.slots[Pod(w)] - 1]
          else s'.slots == s.slots)
    ensures Departs(cfg, s, s', p, AfterRun(p, s.ph.At(p), k), s.ph.At(p).runs[k])
    ensures Closes(s.ph.At(p), AfterRun(p, s.ph.At(p), k), s.ph.At(p).runs[k])
  {
    hide ViewOk, SpotOf, Slots, PodLoad, FanOutInv, Control, Workers, Untouched;
    var ps := s.ph.At(p);
    BoundedAt(cfg, s, p);
    if p == Install { RunEndLoad(ps, k); }
    RemoveAtMultiset(ps.runs, k);
    RunEndSpot(ps, AfterRun(p, ps, k), k);
  }

  lemma FinishDownloadKeeps(cfg: Config, s: State, k: nat, ok: bool, removed: bool)
    requires Inv(cfg, s) && k < |s.ph.download.runs|
    ensures Safe(cfg, s, FinishDownload(k, ok, removed)) && Inv(cfg, DoFinishDownload(s, k, ok, removed))
  {
    hide Inv, SpotOf, Closes, Departs, RemoveAt, Runnable;
    RunFacts(cfg, s, Download, k);
    var s', w := DoFinishDownload(s, k, ok, removed), s.ph.download.runs[k];
    RunDeparts(cfg, s, s', Download, k);
    assert s'.packages - {w.app} == s.packages - {w.app};
    OfPhase(cfg, s.info[Own(w)], Download);
    CloseSeedKeeps(cfg, s, s', Download, AfterRun(Download, s.ph.download, k), w, s'.info[Main(w.app)]);
  }

  lemma OfPhase(cfg: Config, i: PhaseInfo, p: Phase)
    requires Runnable(cfg, i, p)
    ensures i.phase == p && i.failCount <= cfg.maxRetries && i.status != CompleteStatus(p)
    ensures i.status != MissingFromOperator
  {
  }

  lemma FinishCopyKeeps(cfg: Config, s: State, k: nat, o: CopyOutcome)
    requires Inv(cfg, s) && k < |s.ph.podCopy.runs|
    requires o == PackageMissing && cfg.FanOut() ==> s.ph.podCopy.runs[k].app !in s.packages
    ensures Safe(cfg, s, FinishCopy(k, o)) && Inv(cfg, DoFinishCopy(cfg, s, k, o))
  {
    hide Inv, SpotOf, Closes, Departs, RemoveAt, Runnable;
    RunFacts(cfg, s, PodCopy, k);
    FinishCopyStep(cfg, s, k, o, DoFinishCopy(cfg, s, k, o));
    hide DoFinishCopy;
  }

  lemma FinishCopyStep(cfg: Config, s: State, k: nat, o: CopyOutcome, s': State)
    requires Inv(cfg, s) && k < |s.ph.podCopy.runs| && Safe(cfg, s, FinishCopy(k, o)) && s' == DoFinishCopy(cfg, s, k, o)
    requires o == PackageMissing && cfg.FanOut() ==> s.ph.podCopy.runs[k].app !in s.packages
    ensures Inv(cfg, s')
  {
    hide Inv, SpotOf, Closes, Departs, RemoveAt, Runnable;
    RunFacts(cfg, s, PodCopy, k);
    var w := s.ph.podCopy.runs[k];
    RunDeparts(cfg, s, s', PodCopy, k);
    OfPhase(cfg, s.info[Own(w)], PodCopy);
    if w.Seed? {
      assert s'.packages - {w.app} == s.packages - {w.app};
      CloseSeedKeeps(cfg, s, s', PodCopy, AfterRun(PodCopy, s.ph.podCopy, k), w, s'.info[Own(w)]);
    } else {
      CopyFindsPackage(cfg, s, k);
      FanOutScopes(cfg, s);
      CloseReplicaKeeps(cfg, s, s', PodCopy, AfterRun(PodCopy, s.ph.podCopy, k), w, s'.info[Own(w)]);
    }
  }

  lemma FanOutScopes(cfg: Config, s: State)
    requires Inv(cfg, s)
    ensures cfg.Valid()
  {
  }

  /** While a replica's copy runs, the operator still has the package. */
  lemma CopyFindsPackage(cfg: Config, s: State, k: nat)
    requires Inv(cfg, s) && cfg.FanOut() && k < |s.ph.podCopy.runs|
    ensures s.ph.podCopy.runs[k].app in s.packages && s.ph.podCopy.runs[k].Replica?
  {
    hide ViewOk, SpotOf, Slots, PodLoad, FanOutInv, Bounded;
    var ps, w := s.ph.podCopy, s.ph.podCopy.runs[k];
    RunEndSpot(ps, ps.(runs := RemoveAt(ps.runs, k)), k);
    OpenFacts(cfg, s, PodCopy, w);
    ReplicaFacts(cfg, s, PodCopy, w);
    assert Own(w) == Aux(w.app, w.ordinal);
    assert !AllInstalled(s.info, w.app);
  }

  lemma FailInstallKeeps(cfg: Config, s: State, k: nat, o: InstallOutcome)
    requires Inv(cfg, s) && k < |s.ph.install.runs|
    ensures Safe(cfg, s, FailInstall(k, o)) && Inv(cfg, DoFailInstall(cfg, s, k, o))
  {
    hide Inv, SpotOf, Closes, Departs, RemoveAt, Runnable;
    RunFacts(cfg, s, Install, k);
    FailInstallStep(cfg, s, k, o, DoFailInstall(cfg, s, k, o));
    hide DoFailInstall;
  }

  lemma FailInstallStep(cfg: Config, s: State, k: nat, o: InstallOutcome, s': State)
    requires Inv(cfg, s) && k < |s.ph.install.runs| && Safe(cfg, s, FailInstall(k, o)) && s' == DoFailInstall(cfg, s, k, o)
    ensures Inv(cfg, s')
  {
    hide Inv, SpotOf, Closes, Departs, RemoveAt, Runnable;
    RunFacts(cfg, s, Install, k);
    var w := s.ph.install.runs[k];
    RunDeparts(cfg, s, s', Install, k);
    OfPhase(cfg, s.info[Own(w)], Install);
    if w.Seed? {
      CloseSeedKeeps(cfg, s, s', Install, AfterRun(Install, s.ph.install, k), w, s'.info[Own(w)]);
    } else {
      CloseReplicaKeeps(cfg, s, s', Install, AfterRun(Install, s.ph.install, k), w, s'.info[Own(w)]);
    }
  }

  lemma MarkInstalledKeeps(cfg: Config, s: State, k: nat)
    requires Inv(cfg, s) && k < |s.ph.install.runs|
    ensures Safe(cfg, s, MarkInstalled(k)) && Inv(cfg, DoMarkInstalled(cfg, s, k))
  {
    hide Inv, SpotOf, Runnable;
    RunFacts(cfg, s, Install, k);
    MarkInstalledStep(cfg, s, k, DoMarkInstalled(cfg, s, k));
    hide DoMarkInstalled;
  }

  lemma MarkInstalledStep(cfg: Config, s: State, k: nat, s': State)
    requires Inv(cfg, s) && k < |s.ph.install.runs| && Safe(cfg, s, MarkInstalled(k)) && s' == DoMarkInstalled(cfg, s, k)
    ensures Inv(cfg, s')
  {
    hide ViewOk, SpotOf, Slots, PodLoad, FanOutApp, Control, AllInstalled;
    var ps, w := s.ph.install, s.ph.install.runs[k];
    var ps' := ps.(runs := RemoveAt(ps.runs, k), cleaning := ps.cleaning + [w]);
    InstalledSpot(ps, k, w);
    OpenFacts(cfg, s, Install, w);
    ReplicaFacts(cfg, s, Install, w);
    var s1 := SetPhase(s.(info := s.info[Own(w) := s.info[Own(w)].(status := InstallComplete, failCount := 0)]), Install, ps');
    MarkWorkersInstalled(cfg, s, s1, s', k);
    BoundedAt(cfg, s, Install);
    InstalledLoad(ps, k);
    RemoveAtMultiset(ps.runs, k);
    hide RemoveAt;
    SettledBounds(cfg, s, s', Install, ps');
    UntouchedStep(cfg, s, s');
    if cfg.FanOut() {
      ReplicaKind(cfg, s, w);
      InstalledFanOut(cfg, s, s', w);
    }
  }

  lemma MarkWorkersInstalled(cfg: Config, s: State, s1: State, s': State, k: nat)
    requires Inv(cfg, s) && k < |s.ph.install.runs| && Safe(cfg, s, MarkInstalled(k)) && s' == DoMarkInstalled(cfg, s, k)
    requires var ps, w := s.ph.install, s.ph.install.runs[k];
      && Own(w) in s.info && KeyFor(cfg, w, Install) == Own(w)
      && s1 == SetPhase(s.(info := s.info[Own(w) := s.info[Own(w)].(status := InstallComplete, failCount := 0)]), Install,
                        ps.(runs := RemoveAt(ps.runs, k), cleaning := ps.cleaning + [w]))
    ensures Workers(cfg, s') && Seed(s.ph.install.runs[k].app) in s.created
    ensures cfg.FanOut() ==> forall a :: InQueue(s', Download, Seed(a)) ==> InQueue(s, Download, Seed(a))
  {
    hide ViewOk, SpotOf, Slots, PodLoad, FanOutApp, Bounded, AllInstalled;
    var ps, w := s.ph.install, s.ph.install.runs[k];
    InstalledSpot(ps, k, w);
    OpenFacts(cfg, s, Install, w);
    ReplicaFacts(cfg, s, Install, w);
    InstalledWorkers(cfg, s, s1, k);
    hide RemoveAt;
    if cfg.FanOut() {
      SeedRetired(cfg, s, w);
      assert ViewOf(s1, Seed(w.app)) == ViewOf(s, Seed(w.app));
      if AllInstalled(s1.info, w.app) {
        var main := s1.info[Main(w.app)].(phase := Install, status := InstallComplete);
        RetiredSeedWorkers(cfg, s1, s', w.app, main);
      }
      ListedElsewhereReplica(s, s1, w);
    }
  }

  lemma CleaningFacts(cfg: Config, s: State, k: nat)
    requires Inv(cfg, s) && k < |s.ph.install.cleaning|
    ensures var ps, w := s.ph.install, s.ph.install.cleaning[k];
      && w in s.created && Own(w) in s.info && w in s.waiter && s.waiter[w] == Install && w.app < |cfg.scopes|
      && Pod(w) < |s.slots| && s.slots[Pod(w)] > 0
      && PodLoad(ps.(cleaning := RemoveAt(ps.cleaning, k))) == PodLoad(ps) - multiset{Pod(w)} && Pod(w) in PodLoad(ps)
      && (cfg.FanOut() ==> w.Replica?)
  {
    hide ViewOk, SpotOf, Slots, PodLoad, FanOutInv, Control;
    var ps, w := s.ph.install, s.ph.install.cleaning[k];
    CleanedSpot(ps, k, w);
    OpenFacts(cfg, s, Install, w);
    ReplicaFacts(cfg, s, Install, w);
    BoundedAt(cfg, s, Install);
    SlotCount(cfg, s.slots, ps);
    CleanedLoad(ps, k);
    SlotFreed(cfg, s.slots, ps, ps.(cleaning := RemoveAt(ps.cleaning, k)), Pod(w));
  }

  lemma CleaningDeparts(cfg: Config, s: State, s': State, k: nat)
    requires Inv(cfg, s) && k < |s.ph.install.cleaning|
    requires var w := s.ph.install.cleaning[k];
      && s'.ph == s.ph.With(Install, s.ph.install.(cleaning := RemoveAt(s.ph.install.cleaning, k)))
      && s'.workerWaiter == s.workerWaiter.With(Install, s.workerWaiter.install - 1) && s'.handlerWaiter == s.handlerWaiter
      && s'.phaseWaiter == s.phaseWaiter && s'.sigTermCloses == s.sigTermCloses && s'.yield_ == s.yield_ && s'.entry == s.entry
      && Pod(w) < |s.slots| && s.slots[Pod(w)] > 0 && s'.slots == s.slots[Pod(w) := s.slots[Pod(w)] - 1]
    ensures Bounded(cfg, s')
  {
    hide Workers, Slots, PodLoad, FanOutInv, Untouched, Control;
    CleaningFacts(cfg, s, k);
    var ps := s.ph.install;
    BoundedAt(cfg, s, Install);
    RemoveAtMultiset(ps.cleaning, k);
    DepartBounds(cfg, s, s', Install, ps.(cleaning := RemoveAt(ps.cleaning, k)), ps.cleaning[k]);
  }

  lemma FinishInstallKeeps(cfg: Config, s: State, k: nat, cleaned: bool, deleted: bool)
    requires Inv(cfg, s) && k < |s.ph.install.cleaning|
    ensures Safe(cfg, s, FinishInstall(k, cleaned, deleted)) && Inv(cfg, DoFinishInstall(cfg, s, k, cleaned, deleted))
  {
    hide ViewOk, SpotOf, Bounded, FanOutApp, AllInstalled, PodLoad, RemoveAt;
    CleaningFacts(cfg, s, k);
    var s', w := DoFinishInstall(cfg, s, k, cleaned, deleted), s.ph.install.cleaning[k];
    CleanedWorkers(cfg, s, s', k);
    CleaningDeparts(cfg, s, s', k);
    if cfg.FanOut() { SeedRetired(cfg, s, w); }
    UntouchedStep(cfg, s, s');
    ListedElsewhere(s, s', w);
    if cfg.FanOut() {
      assert !InQueue(s, Download, Seed(w.app));
      CleanedFanOut(cfg, s, s', w.app);
    }
  }

  lemma WriteStageKeeps(cfg: Config, s: State, s': State)
    requires Inv(cfg, s) && !cfg.FanOut()
    requires s' == s.(stage := s'.stage, info := AdoptClusterApps(cfg, s.info))
    ensures Inv(cfg, s')
  {
    hide ViewOk, SpotOf, Slots, Tokens, Groups;
    AdoptWorkers(cfg, s, s');
    assert forall a :: 0 <= a < |cfg.scopes| ==> Main(a) in s'.info;
    assert Untouched(cfg, s');
  }

  /** The scheduler refuses no worker it has dispatched. */
  lemma NeverRefuses(cfg: Config, s: State)
    requires Inv(cfg, s)
    ensures !Ready(cfg, s, RefuseInstall)
  {
    hide ViewOk, SpotOf, Slots, PodLoad, FanOutInv, Bounded;
    var ps := s.ph.install;
    if ps.hnd.HWork? {
      HandledSpot(ps, ps.(hnd := HIdle));
      OpenFacts(cfg, s, Install, ps.hnd.w);
    }
  }

  lemma TokenStepKeeps(cfg: Config, s: State, a: Action)
    requires Inv(cfg, s) && Ready(cfg, s, a) && (a.Acquire? || a.Release?)
    ensures Safe(cfg, s, a) && Inv(cfg, Apply(cfg, s, a))
  {
    hide Workers, Untouched, FanOutInv, Slots, Control, Groups;
    BoundedAt(cfg, s, a.p);
    var ps := s.ph.At(a.p);
    var ps' := if a.Acquire? then ps.(hnd := HToken, pool := ps.pool + 1) else ps.(hnd := HIdle, pool := ps.pool - 1);
    HandlerKeeps(cfg, s, SetPhase(s, a.p, ps'), a.p, ps');
  }

  /** A handler leaves its loop. */
  lemma LeaveLoopKeeps(cfg: Config, s: State, p: Phase, h: Handler)
    requires Inv(cfg, s) && TokenHeld(h) == TokenHeld(s.ph.At(p).hnd) && !s.ph.At(p).hnd.HWork?
    requires (h == HCluster && p == Install) || h.HDrain?
    requires s.ph.At(p).hnd == HIdle || s.ph.At(p).hnd == HToken || s.ph.At(p).hnd == HCluster
    ensures Inv(cfg, SetHandler(s, p, h))
  {
    hide Workers, Untouched, FanOutInv, Slots, Control, Groups;
    BoundedAt(cfg, s, p);
    HandlerKeeps(cfg, s, SetHandler(s, p, h), p, s.ph.At(p).(hnd := h));
  }

  lemma ExitKeeps(cfg: Config, s: State, p: Phase)
    requires Inv(cfg, s) && s.ph.At(p).hnd.HDrain? && s.workerWaiter.At(p) == 0
    ensures Inv(cfg, SetHandler(s.(handlerWaiter := s.handlerWaiter.With(p, s.handlerWaiter.At(p) - 1)), p,
                                HDone(s.ph.At(p).hnd.leaked)))
  {
    hide Workers, Untouched, FanOutInv, Slots, Control, Groups;
    BoundedAt(cfg, s, p);
    var ps := s.ph.At(p).(hnd := HDone(s.ph.At(p).hnd.leaked));
    HandlerKeeps(cfg, s, SetPhase(s.(handlerWaiter := s.handlerWaiter.With(p, s.handlerWaiter.At(p) - 1)), p, ps), p, ps);
  }

  lemma EntryStepKeeps(cfg: Config, s: State, a: Action)
    requires Inv(cfg, s) && Ready(cfg, s, a)
    requires a.StartYield? || a.YieldNow? || a.Cancel? || a.Return?
    ensures Safe(cfg, s, a) && Inv(cfg, Apply(cfg, s, a))
  {
    hide Workers, Untouched, FanOutInv, Slots, Tokens, Groups, NeedsRevisit;
    EntryKeeps(cfg, s, Apply(cfg, s, a));
  }

  lemma StageStepKeeps(cfg: Config, s: State, stage: Stage)
    requires Inv(cfg, s) && Ready(cfg, s, WriteStage(stage))
    ensures Inv(cfg, Apply(cfg, s, WriteStage(stage)))
  {
    hide Workers, Untouched, Slots, Tokens, Groups, FanOutApp, AdoptClusterApps;
    var s' := Apply(cfg, s, WriteStage(stage));
    if stage == Complete {
      WriteStageKeeps(cfg, s, s');
    } else {
      StageOnly(cfg, s, s');
    }
  }

  lemma StageOnly(cfg: Config, s: State, s': State)
    requires Inv(cfg, s) && s' == s.(stage := s'.stage)
    ensures Inv(cfg, s')
  {
    hide ViewOk, SpotOf, Slots, Tokens, Groups, FanOutApp;
    forall u ensures ViewOf(s', u) == ViewOf(s, u) { }
    forall u ensures ViewOk(cfg, u, ViewOf(s', u)) { assert ViewOk(cfg, u, ViewOf(s, u)); }
    UntouchedStep(cfg, s, s');
    FanOutFrame(cfg, s, s');
  }

  /** No step of the scheduler crashes, and every step keeps the invariant. */
  lemma StepKeeps(cfg: Config, s: State, a: Action)
    requires Inv(cfg, s) && Ready(cfg, s, a)
    ensures Safe(cfg, s, a) && Inv(cfg, Apply(cfg, s, a))
  {
    hide Inv, DoVisit, DoSend, DoCreate, DoReceive, DoHandleDownload, DoStartRun, DoFinishDownload, DoFinishCopy,
      DoFailInstall, DoMarkInstalled, DoFinishInstall, AdoptClusterApps, NeedsRevisit;
    match a
    case Create(app) => CreateKeeps(cfg, s, app);
    case Visit(p, w) => VisitKeeps(cfg, s, p, w);
    case Send => SendKeeps(cfg, s);
    case Mark(p) => MarkKeeps(cfg, s, Apply(cfg, s, a), p);
    case Detach(p) => DetachKeeps(cfg, s, Apply(cfg, s, a), p);
    case Stop(p) => StopKeeps(cfg, s, p);
    case Join(p) => JoinKeeps(cfg, s, p);
    case Receive(p) => ReceiveKeeps(cfg, s, p);
    case HandleDownload(v) => if v == StartDownload { StartDownloadKeeps(cfg, s); } else { HandleDownloadKeeps(cfg, s, v); }
    case StartRun(p) => StartRunKeeps(cfg, s, p);
    case RefuseInstall => NeverRefuses(cfg, s);
    case WriteStage(stage) => StageStepKeeps(cfg, s, stage);
    case FinishDownload(k, ok, removed) => FinishDownloadKeeps(cfg, s, k, ok, removed);
    case FinishCopy(k, o) => FinishCopyKeeps(cfg, s, k, o);
    case FailInstall(k, o) => FailInstallKeeps(cfg, s, k, o);
    case MarkInstalled(k) => MarkInstalledKeeps(cfg, s, k);
    case FinishInstall(k, cleaned, deleted) => FinishInstallKeeps(cfg, s, k, cleaned, deleted);
    case PackageVanishes(app) => VanishKeeps(cfg, s, app);
    case StartYield => EntryStepKeeps(cfg, s, a);
    case YieldNow => EntryStepKeeps(cfg, s, a);
    case Cancel => EntryStepKeeps(cfg, s, a);
    case Return => EntryStepKeeps(cfg, s, a);
    case Acquire(_) => TokenStepKeeps(cfg, s, a);
    case Release(_) => TokenStepKeeps(cfg, s, a);
    case HandlerClosed(p) => LeaveLoopKeeps(cfg, s, p, if p == Install then HCluster else HDrain(true));
    case HandlerCancelled(p) => LeaveLoopKeeps(cfg, s, p, HDrain(false));
    case LeaveCluster => LeaveLoopKeeps(cfg, s, Install, HDrain(false));
    case HandlerExit(p) => ExitKeeps(cfg, s, p);
  }

  lemma InitHolds(cfg: Config, s: State)
    requires cfg.Valid() && Init(cfg, s)
    ensures Inv(cfg, s)
  {
    hide Inv, Workers, Untouched, Bounded, FanOutInv;
    InitWorkers(cfg, s);
    InitUntouched(cfg, s);
    InitBounded(cfg, s);
    InitFanOut(cfg, s);
    InvOf(cfg, s);
  }

  lemma InvOf(cfg: Config, s: State)
    requires cfg.Valid() && Workers(cfg, s) && Untouched(cfg, s) && Bounded(cfg, s) && FanOutInv(cfg, s)
    ensures Inv(cfg, s)
  {
    hide Workers, Untouched, Bounded, FanOutInv;
  }

  lemma InitWorkers(cfg: Config, s: State)
    requires cfg.Valid() && Init(cfg, s)
    ensures Workers(cfg, s)
  {
    forall w ensures ViewOk(cfg, w, ViewOf(s, w)) {
      var v := ViewOf(s, w);
      assert !v.created && !v.active && v.waiter == None;
      assert v.at.download == v.at.podCopy == v.at.install == Spot(0, Away, 0, 0);
      hide Init, ViewOf;
    }
  }

  lemma InitUntouched(cfg: Config, s: State)
    requires cfg.Valid() && Init(cfg, s)
    ensures Untouched(cfg, s)
  {
    hide FanOutEntry, Coherent;
  }

  lemma InitBounded(cfg: Config, s: State)
    requires cfg.Valid() && Init(cfg, s)
    ensures Bounded(cfg, s)
  {
    hide FanOutEntry, Coherent;
  }

  lemma InitFanOut(cfg: Config, s: State)
    requires cfg.Valid() && Init(cfg, s)
    ensures FanOutInv(cfg, s)
  {
    hide FanOutEntry, Coherent, AllInstalled, Unattended, RecordsInRange;
    forall a: nat ensures !InQueue(s, Download, Seed(a)) { }
    hide InQueue;
  }

  /** The invariant holds in every state of every run, and every step of it is safe. */
  lemma {:induction false} RunsKeep(cfg: Config, states: seq<State>, actions: seq<Action>, n: nat)
    requires cfg.Valid() && IsRun(cfg, states, actions) && Init(cfg, states[0]) && n < |states|
    ensures Inv(cfg, states[n])
    ensures n < |actions| ==> Safe(cfg, states[n], actions[n]) && states[n + 1] == Apply(cfg, states[n], actions[n])
  {
    hide Inv, Ready, Safe, Apply, Init;
    if n == 0 {
      InitHolds(cfg, states[0]);
    } else {
      RunsKeep(cfg, states, actions, n - 1);
      StepKeeps(cfg, states[n - 1], actions[n - 1]);
    }
    if n < |actions| { StepKeeps(cfg, states[n], actions[n]); }
  }
}
