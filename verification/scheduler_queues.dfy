/** Queues and records over every run: which queue a worker is in, and when its record disagrees. */
module SchedulerQueues {
  import opened AppTypes
  import opened Scheduler
  import opened SchedulerInv
  import opened SchedulerFrames
  import opened SchedulerViews
  import opened SchedulerWorkers
  import opened SchedulerBounds
  import opened SchedulerSteps
  import opened SchedulerRecords

  /** A run from a valid start. */
  ghost predicate Run(cfg: Config, states: seq<State>, actions: seq<Action>) {
    cfg.Valid() && IsRun(cfg, states, actions) && Init(cfg, states[0])
  }

  /** A state of some run. */
  ghost predicate Reached(cfg: Config, s: State) {
    exists states, actions, n :: Run(cfg, states, actions) && 0 <= n < |states| && states[n] == s
  }

  lemma ReachedKeeps(cfg: Config, s: State)
    requires Reached(cfg, s)
    ensures Inv(cfg, s)
  {
    hide Run, Inv;
    var states, actions, n :| Run(cfg, states, actions) && 0 <= n < |states| && states[n] == s;
    RunKeeps(cfg, states, actions, n);
  }

  lemma RunKeeps(cfg: Config, states: seq<State>, actions: seq<Action>, n: nat)
    requires Run(cfg, states, actions) && n < |states|
    ensures Inv(cfg, states[n])
    ensures n < |actions| ==>
      Ready(cfg, states[n], actions[n]) && Safe(cfg, states[n], actions[n]) && states[n + 1] == Apply(cfg, states[n], actions[n])
  {
    hide Inv, Init, Ready, Safe, Apply;
    RunsKeep(cfg, states, actions, n);
  }

  /** No step of any run dereferences a missing record or wait group, indexes out of range, or takes back a token
      that is not there; and its result is reached again. */
  lemma NeverCrashes(cfg: Config, s: State, a: Action)
    requires Reached(cfg, s) && Ready(cfg, s, a)
    ensures Safe(cfg, s, a) && Reached(cfg, Apply(cfg, s, a))
  {
    hide Inv, Init, Ready, Safe, Apply;
    ReachedKeeps(cfg, s);
    StepKeeps(cfg, s, a);
    var states, actions, n :| Run(cfg, states, actions) && 0 <= n < |states| && states[n] == s;
    Extends(cfg, states, actions, n, a);
  }

  lemma Extends(cfg: Config, states: seq<State>, actions: seq<Action>, n: nat, a: Action)
    requires Run(cfg, states, actions) && n < |states| && Ready(cfg, states[n], a) && Safe(cfg, states[n], a)
    ensures Reached(cfg, Apply(cfg, states[n], a))
  {
    hide Init, Ready, Safe, Apply;
    var states', actions' := states[..n + 1] + [Apply(cfg, states[n], a)], actions[..n] + [a];
    assert states'[n + 1] == Apply(cfg, states[n], a);
    assert Run(cfg, states', actions');
  }

  /******* Queues and records *******/

  function Copies(s: State, w: Worker): nat {
    s.ph.download.q[w] + s.ph.podCopy.q[w] + s.ph.install.q[w]
  }

  function MovesOf(s: State, w: Worker): nat {
    (if s.ph.download.mgr == Moving(w) then 1 else 0) + (if s.ph.podCopy.mgr == Moving(w) then 1 else 0)
    + (if s.ph.install.mgr == Moving(w) then 1 else 0)
  }

  /** A copied cluster-scoped app that a bundle push marked installed before the pod-copy manager removed it. */
  predicate Stranded(cfg: Config, s: State, w: Worker) {
    && InQueue(s, PodCopy, w) && w.app < |cfg.scopes| && cfg.scopes[w.app] == Cluster && Own(w) in s.info
    && s.info[Own(w)].phase == Install && s.info[Own(w)].status == InstallComplete
  }

  /** A copied cluster-scoped app the pod-copy manager has not removed yet. */
  predicate CopiedInQueue(cfg: Config, s: State, w: Worker) {
    && InQueue(s, PodCopy, w) && w.app < |cfg.scopes| && cfg.scopes[w.app] == Cluster && Own(w) in s.info
    && s.info[Own(w)].phase == PodCopy && s.info[Own(w)].status == PodCopyComplete
  }

  /** Each worker is in exactly one queue while work is left for it, with one extra copy per transition in progress,
      and never in none. */
  lemma ExactlyOneQueue(cfg: Config, s: State, w: Worker)
    requires Reached(cfg, s) && !cfg.FanOut()
    ensures Copies(s, w) == MovesOf(s, w) + (if Queued(ViewOf(s, w)) then 1 else 0)
    ensures w in s.created ==>
      && Own(w) in s.info && w.app < |cfg.scopes|
      && (Queued(ViewOf(s, w)) || Settled(cfg.maxRetries, cfg.scopes[w.app], s.info[Own(w)]))
  {
    hide Reached, SpotOf, ViewOk, Listed, StanceOf, Settled;
    ReachedKeeps(cfg, s);
    assert ViewOk(cfg, w, ViewOf(s, w));
    hide Inv;
    SpotBasics(s.ph.download, w);
    SpotBasics(s.ph.podCopy, w);
    SpotBasics(s.ph.install, w);
    MovingIsLeaving(s.ph.download.mgr, w);
    MovingIsLeaving(s.ph.podCopy.mgr, w);
    MovingIsLeaving(s.ph.install.mgr, w);
    CountedPlaces(cfg, w, ViewOf(s, w));
  }

  function Leaves(sp: Spot): nat { if sp.stance == Leaving then 1 else 0 }

  lemma CountedPlaces(cfg: Config, w: Worker, v: View)
    requires ViewOk(cfg, w, v)
    ensures v.at.download.queued + v.at.podCopy.queued + v.at.install.queued ==
      Leaves(v.at.download) + Leaves(v.at.podCopy) + Leaves(v.at.install) + (if Queued(v) then 1 else 0)
    ensures v.created ==> v.info.Some? && w.app < |cfg.scopes|
    ensures v.created && !cfg.FanOut() ==> Queued(v) || Settled(cfg.maxRetries, cfg.scopes[w.app], v.info.value)
  {
    hide Settled, Runnable, Coherent, IsComplete, Exhausted, Engaged;
  }

  /** In one queue a worker is at most once, or twice while that queue's manager is moving it: the copy that is to go, and
      one that came back meanwhile. */
  lemma CopiesPerQueue(cfg: Config, s: State, p: Phase, w: Worker)
    requires Reached(cfg, s)
    ensures s.ph.At(p).q[w] <= if s.ph.At(p).mgr == Moving(w) then 2 else 1
    ensures s.ph.At(p).mgr == Moving(w) ==> s.ph.At(p).q[w] >= 1
  {
    hide Reached, SpotOf, ViewOk, Listed, StanceOf;
    ReachedKeeps(cfg, s);
    assert ViewOk(cfg, w, ViewOf(s, w));
    hide Inv;
    SpotAt(s, p, w);
    SpotBasics(s.ph.At(p), w);
    MovingIsLeaving(s.ph.At(p).mgr, w);
    CopiesAtSpot(cfg, w, ViewOf(s, w), p);
    hide ViewOf;
  }

  lemma MovingIsLeaving(m: Manager, w: Worker)
    ensures StanceOf(m, w) == Leaving <==> m == Moving(w)
  {
  }

  lemma CopiesAtSpot(cfg: Config, w: Worker, v: View, p: Phase)
    requires ViewOk(cfg, w, v)
    ensures v.at.At(p).queued <= if v.at.At(p).stance == Leaving then 2 else 1
    ensures v.at.At(p).stance == Leaving ==> v.at.At(p).queued >= 1
  {
    AllSpots(cfg, w, v, p);
    hide ViewOk;
  }

  /** The queue a worker is in is the one its record names, and the status code belongs to that phase, exactly
      unless the worker is stranded. */
  lemma QueueNamesPhase(cfg: Config, s: State, p: Phase, w: Worker)
    requires Reached(cfg, s) && !cfg.FanOut() && InQueue(s, p, w)
    ensures w in s.created && Own(w) in s.info && Coherent(s.info[Own(w)])
    ensures s.info[Own(w)].phase == p <==> !Stranded(cfg, s, w)
  {
    ReachedKeeps(cfg, s);
    hide Reached;
    assert ViewOk(cfg, w, ViewOf(s, w));
    hide Inv;
  }

  /** When a manager takes a worker out through the phase named in its record, that is the manager's own queue,
      unless the worker is stranded; then the visit changes nothing. */
  lemma RemovalHitsOwnQueue(cfg: Config, s: State, p: Phase, w: Worker)
    requires Reached(cfg, s) && !cfg.FanOut() && Ready(cfg, s, Visit(p, w))
    ensures Safe(cfg, s, Visit(p, w)) && KeyFor(cfg, w, p) == Own(w)
    ensures if Stranded(cfg, s, w) then p == PodCopy && Apply(cfg, s, Visit(p, w)) == s
            else s.info[KeyFor(cfg, w, p)].phase == p
  {
    ReachedKeeps(cfg, s);
    NeverCrashes(cfg, s, Visit(p, w));
    VisitedPhase(cfg, s, p, w);
    hide Reached, Inv;
    if Stranded(cfg, s, w) { StrandedVisit(cfg, s, w); }
  }

  lemma VisitedPhase(cfg: Config, s: State, p: Phase, w: Worker)
    requires Inv(cfg, s) && Ready(cfg, s, Visit(p, w))
    ensures KeyFor(cfg, w, p) == Own(w) && Own(w) in s.info && w in s.created && w.app < |cfg.scopes|
    ensures if Stranded(cfg, s, w) then p == PodCopy else s.info[Own(w)].phase == p
  {
    hide ViewOk, Tokens, Groups, Control, FanOutInv, PodLoad;
    BoundedAt(cfg, s, p);
    VisitFacts(cfg, s, p, w);
    SpotAt(s, p, w);
    hide ViewOf, SpotOf, Inv;
  }

  lemma StrandedVisit(cfg: Config, s: State, w: Worker)
    requires Inv(cfg, s) && Stranded(cfg, s, w) && s.ph.podCopy.mgr == Looping && w in s.ph.podCopy.q
    requires Safe(cfg, s, Visit(PodCopy, w)) && KeyFor(cfg, w, PodCopy) == Own(w) && w in s.created
    ensures DoVisit(cfg, s, PodCopy, w) == s
  {
    hide SpotOf, DoVisit, Safe;
    assert ViewOk(cfg, w, ViewOf(s, w));
    hide Inv;
    SpotBasics(s.ph.install, w);
    StrandedView(cfg, w, ViewOf(s, w));
    hide ViewOk;
    StrandedStays(cfg, s, w);
  }

  lemma StrandedView(cfg: Config, w: Worker, v: View)
    requires ViewOk(cfg, w, v) && Listed(v.at.podCopy) && v.created && w.app < |cfg.scopes| && cfg.scopes[w.app] == Cluster
    requires v.info.Some? && v.info.value.phase == Install && v.info.value.status == InstallComplete
    ensures v.at.install.queued == 0 && v.info.value.failCount <= cfg.maxRetries
  {
  }

  lemma StrandedStays(cfg: Config, s: State, w: Worker)
    requires Safe(cfg, s, Visit(PodCopy, w)) && KeyFor(cfg, w, PodCopy) == Own(w) && w !in s.ph.install.q
    requires s.info[Own(w)].phase == Install && s.info[Own(w)].status == InstallComplete
    requires s.info[Own(w)].failCount <= cfg.maxRetries && cfg.scopes[w.app] == Cluster
    ensures DoVisit(cfg, s, PodCopy, w) == s
  {
    assert s.ph.install.q - multiset{w} == s.ph.install.q;
    assert Dequeue(s, Install, w) == s;
  }

  /******* When queue and record disagree *******/

  // The pod-copy queue lists the same workers.
  lemma SameListing(s: State, s': State, w: Worker)
    requires s'.ph.podCopy.q[w] == s.ph.podCopy.q[w]
    requires s'.ph.podCopy.mgr == Moving(w) <==> s.ph.podCopy.mgr == Moving(w)
    ensures InQueue(s', PodCopy, w) <==> InQueue(s, PodCopy, w)
  {
  }

  ghost predicate SameCopyQueue(s: State, s': State) {
    && s'.ph.podCopy.q == s.ph.podCopy.q
    && (s'.ph.podCopy.mgr == s.ph.podCopy.mgr || (!s'.ph.podCopy.mgr.Moving? && !s.ph.podCopy.mgr.Moving?))
  }

  predicate AboutRun(a: Action) {
    || a.HandleDownload? || a.StartRun? || a.FinishDownload? || a.FinishCopy? || a.FailInstall? || a.MarkInstalled?
    || a.FinishInstall?
  }

  lemma RunQueueEffect(cfg: Config, s: State, a: Action, s': State)
    requires Ready(cfg, s, a) && Safe(cfg, s, a) && s' == Apply(cfg, s, a) && AboutRun(a)
    ensures SameCopyQueue(s, s')
  {
    hide SameCopyQueue;
    match a
    case FinishCopy(k, o) => CopyQueueEffect(cfg, s, k, o, s');
    case HandleDownload(_) => StartQueueEffect(cfg, s, a, s'); hide Apply, Ready, Safe;
    case StartRun(_) => StartQueueEffect(cfg, s, a, s'); hide Apply, Ready, Safe;
    case _ => EndQueueEffect(cfg, s, a, s'); hide Apply, Ready, Safe;
  }

  lemma StartQueueEffect(cfg: Config, s: State, a: Action, s': State)
    requires Ready(cfg, s, a) && Safe(cfg, s, a) && s' == Apply(cfg, s, a) && (a.HandleDownload? || a.StartRun?)
    ensures SameCopyQueue(s, s')
  {
    hide Bump, Ready;
  }

  lemma CopyQueueEffect(cfg: Config, s: State, k: nat, o: CopyOutcome, s': State)
    requires Safe(cfg, s, FinishCopy(k, o)) && s' == DoFinishCopy(cfg, s, k, o)
    ensures SameCopyQueue(s, s')
  {
    hide RemoveAt, Bump;
  }

  lemma EndQueueEffect(cfg: Config, s: State, a: Action, s': State)
    requires Ready(cfg, s, a) && Safe(cfg, s, a) && s' == Apply(cfg, s, a)
    requires a.FinishDownload? || a.FailInstall? || a.MarkInstalled? || a.FinishInstall?
    ensures SameCopyQueue(s, s')
  {
    hide RemoveAt, AllInstalled, Bump, Ready;
  }

  lemma OtherQueueEffect(cfg: Config, s: State, a: Action, s': State)
    requires Ready(cfg, s, a) && Safe(cfg, s, a) && s' == Apply(cfg, s, a)
    requires !a.Create? && !a.Visit? && !a.Detach? && !AboutRun(a)
    ensures SameCopyQueue(s, s')
  {
    hide AdoptClusterApps, NeedsRevisit, RemoveAt;
  }

  lemma DetachEffect(cfg: Config, s: State, p: Phase, s': State, w: Worker)
    requires Inv(cfg, s) && Ready(cfg, s, Detach(p)) && s' == Apply(cfg, s, Detach(p))
    ensures InQueue(s', PodCopy, w) <==> InQueue(s, PodCopy, w)
  {
    hide SpotOf, ViewOk;
    var ps, u := s.ph.podCopy, s.ph.podCopy.mgr;
    if p == PodCopy {
      assert SpotOf(ps, u.w).queued > 0 by {
        assert ViewOk(cfg, u.w, ViewOf(s, u.w));
        SpotBasics(ps, u.w);
        DetachView(cfg, u.w, ViewOf(s, u.w), p);
      }
      hide Inv;
      DetachSpot(ps, u.w, w);
      SpotBasics(ps, w);
    }
  }

  ghost predicate SameListed(s: State, s': State, w: Worker) {
    && s'.ph.podCopy.q[w] == s.ph.podCopy.q[w]
    && (s'.ph.podCopy.mgr == Moving(w) <==> s.ph.podCopy.mgr == Moving(w))
  }

  lemma VisitEffect(cfg: Config, s: State, p: Phase, u: Worker, s': State, w: Worker)
    requires Ready(cfg, s, Visit(p, u)) && Safe(cfg, s, Visit(p, u)) && s' == Apply(cfg, s, Visit(p, u)) && u != w && !cfg.FanOut()
    ensures SameListed(s, s', w)
  {
    hide SameListed;
    DoVisitListed(cfg, s, p, u, s', w);
    hide DoVisit;
  }

  lemma DoVisitListed(cfg: Config, s: State, p: Phase, u: Worker, s': State, w: Worker)
    requires Safe(cfg, s, Visit(p, u)) && s.ph.At(p).mgr == Looping && s' == DoVisit(cfg, s, p, u) && u != w && !cfg.FanOut()
    ensures SameListed(s, s', w)
  {
    hide SameListed, BeginMove, DropExhausted, Dispatch, Dequeue;
    var i := s.info[KeyFor(cfg, u, p)];
    MoveListed(cfg, s, p, u, Download, w);
    MoveListed(cfg, s, p, u, PodCopy, w);
    MoveListed(cfg, s, p, u, Install, w);
    DequeueListed(s, i.phase, u, w);
    DispatchListed(cfg, s, p, u, w);
    DropListed(cfg, s, p, u, w);
  }

  lemma DropListed(cfg: Config, s: State, p: Phase, u: Worker, w: Worker)
    requires Safe(cfg, s, Visit(p, u)) && u != w
    ensures SameListed(s, DropExhausted(cfg, s, p, u), w)
  {
  }

  lemma MoveListed(cfg: Config, s: State, p: Phase, u: Worker, next: Phase, w: Worker)
    requires u != w && !cfg.FanOut() && s.ph.At(p).mgr == Looping
    ensures SameListed(s, BeginMove(cfg, s, p, u, next), w)
  {
  }

  lemma DequeueListed(s: State, p: Phase, u: Worker, w: Worker)
    requires u != w
    ensures SameListed(s, Dequeue(s, p, u), w) && SameListed(s, s, w)
  {
  }

  lemma DispatchListed(cfg: Config, s: State, p: Phase, u: Worker, w: Worker)
    requires Safe(cfg, s, Visit(p, u)) && u != w && s.ph.At(p).mgr == Looping
    ensures SameListed(s, Dispatch(cfg, s, p, u), w)
  {
  }

  lemma CreateEffect(cfg: Config, s: State, x: nat, s': State, w: Worker)
    requires Ready(cfg, s, Create(x)) && Safe(cfg, s, Create(x)) && s' == Apply(cfg, s, Create(x)) && x != w.app
    ensures SameListed(s, s', w)
  {
  }

  /** Only a visit of the worker itself or its creation changes whether it is listed for pod copy. */
  lemma QueueEffect(cfg: Config, s: State, a: Action, s': State, w: Worker)
    requires Inv(cfg, s) && Ready(cfg, s, a) && Safe(cfg, s, a) && s' == Apply(cfg, s, a) && !cfg.FanOut()
    requires !(a.Visit? && a.w == w) && a != Create(w.app)
    ensures InQueue(s', PodCopy, w) <==> InQueue(s, PodCopy, w)
  {
    hide Inv, InQueue, Safe, Apply, Ready;
    match a
    case Detach(p) => DetachEffect(cfg, s, p, s', w);
    case Visit(p, u) => VisitEffect(cfg, s, p, u, s', w); SameListing(s, s', w);
    case Create(x) => CreateEffect(cfg, s, x, s', w); SameListing(s, s', w);
    case _ =>
      if AboutRun(a) { RunQueueEffect(cfg, s, a, s'); } else { OtherQueueEffect(cfg, s, a, s'); }
      SameListing(s, s', w);
  }

  predicate Adoptable(cfg: Config, s: State, x: nat) {
    && x < |cfg.scopes| && cfg.scopes[x] == Cluster && Main(x) in s.info
    && s.info[Main(x)].phase == PodCopy && s.info[Main(x)].status == PodCopyComplete
  }

  predicate ClusterInstalled(cfg: Config, s: State, x: nat) {
    && x < |cfg.scopes| && cfg.scopes[x] == Cluster && Main(x) in s.info
    && s.info[Main(x)].phase == Install && s.info[Main(x)].status == InstallComplete
  }

  /** Only a finished bundle push makes a cluster-scoped app installed. */
  lemma InstalledByPush(cfg: Config, s: State, a: Action, s': State, x: nat)
    requires Effect(cfg, s, a, s', x) && a != WriteStage(Complete)
    ensures ClusterInstalled(cfg, s', x) ==> ClusterInstalled(cfg, s, x)
    ensures !(a.Visit? && a.w == Seed(x)) ==> (ClusterInstalled(cfg, s', x) <==> ClusterInstalled(cfg, s, x))
  {
  }

  lemma PushInstalls(cfg: Config, s: State, s': State, x: nat)
    requires Effect(cfg, s, WriteStage(Complete), s', x)
    ensures ClusterInstalled(cfg, s', x) <==> ClusterInstalled(cfg, s, x) || Adoptable(cfg, s, x)
  {
  }

  /** A queue stops naming the phase of a worker's record exactly when a bundle push finishes while the copied app
      is still in the pod-copy queue, and then for good. */
  lemma StrandedStep(cfg: Config, s: State, a: Action, s': State, x: nat)
    requires Inv(cfg, s) && Ready(cfg, s, a) && Safe(cfg, s, a) && s' == Apply(cfg, s, a) && !cfg.FanOut() && x < |cfg.scopes|
    ensures Stranded(cfg, s', Seed(x)) <==>
      Stranded(cfg, s, Seed(x)) || (a == WriteStage(Complete) && CopiedInQueue(cfg, s, Seed(x)))
  {
    RecordEffect(cfg, s, a, x);
    var w := Seed(x);
    hide Inv, Effect, Apply, Stranded, CopiedInQueue, Ready, Safe;
    if a.Visit? && a.w == w {
      StrandedVisited(cfg, s, a.p, s', x);
    } else if a == Create(x) {
      StrandedCreated(cfg, s, s', x);
    } else {
      StrandedElsewhere(cfg, s, a, s', x);
    }
  }

  lemma StrandedElsewhere(cfg: Config, s: State, a: Action, s': State, x: nat)
    requires Inv(cfg, s) && Ready(cfg, s, a) && Safe(cfg, s, a) && s' == Apply(cfg, s, a) && !cfg.FanOut()
    requires !(a.Visit? && a.w == Seed(x)) && a != Create(x) && Effect(cfg, s, a, s', x)
    ensures Stranded(cfg, s', Seed(x)) <==>
      Stranded(cfg, s, Seed(x)) || (a == WriteStage(Complete) && CopiedInQueue(cfg, s, Seed(x)))
  {
    hide Inv, Effect, Apply, InQueue, Ready, Safe, Subject;
    QueueEffect(cfg, s, a, s', Seed(x));
    if a == WriteStage(Complete) {
      PushInstalls(cfg, s, s', x);
    } else {
      InstalledByPush(cfg, s, a, s', x);
    }
  }

  lemma StrandedCreated(cfg: Config, s: State, s': State, x: nat)
    requires Inv(cfg, s) && Ready(cfg, s, Create(x)) && Safe(cfg, s, Create(x)) && s' == Apply(cfg, s, Create(x)) && !cfg.FanOut()
    ensures Stranded(cfg, s', Seed(x)) <==> Stranded(cfg, s, Seed(x))
  {
    assert s' == DoCreate(cfg, s, x);
    hide SpotOf, Apply, Ready;
    assert ViewOk(cfg, Seed(x), ViewOf(s, Seed(x)));
    hide Inv;
    SpotBasics(s.ph.podCopy, Seed(x));
  }

  lemma StrandedVisited(cfg: Config, s: State, p: Phase, s': State, x: nat)
    requires Inv(cfg, s) && Ready(cfg, s, Visit(p, Seed(x))) && Safe(cfg, s, Visit(p, Seed(x))) && !cfg.FanOut()
    requires s' == Apply(cfg, s, Visit(p, Seed(x))) && Effect(cfg, s, Visit(p, Seed(x)), s', x)
    ensures Stranded(cfg, s', Seed(x)) <==> Stranded(cfg, s, Seed(x))
  {
    var w := Seed(x);
    hide Inv, Effect, InQueue, DoVisit;
    VisitedPhase(cfg, s, p, w);
    InstalledByPush(cfg, s, Visit(p, w), s', x);
    if Stranded(cfg, s, w) {
      StrandedVisit(cfg, s, w);
    } else if Stranded(cfg, s', w) {
      PassedOver(cfg, s, w);
    }
  }

  lemma PassedOver(cfg: Config, s: State, w: Worker)
    requires Safe(cfg, s, Visit(Install, w)) && !CanInstall(cfg.scopes[w.app])
    ensures DoVisit(cfg, s, Install, w) == s
  {
  }

  /** A bundle push finishes at step m while app x, already copied, is still in the pod-copy queue. */
  ghost predicate PushRacesCopy(cfg: Config, states: seq<State>, actions: seq<Action>, m: nat, x: nat)
    requires m < |actions| && m < |states|
  {
    actions[m] == WriteStage(Complete) && CopiedInQueue(cfg, states[m], Seed(x))
  }

  lemma {:induction false} StrandedHistory(cfg: Config, states: seq<State>, actions: seq<Action>, n: nat, x: nat)
    requires Run(cfg, states, actions) && !cfg.FanOut() && n < |states| && x < |cfg.scopes|
    ensures Stranded(cfg, states[n], Seed(x)) <==> exists m :: 0 <= m < n && PushRacesCopy(cfg, states, actions, m, x)
  {
    hide Apply, Ready, Safe, Inv, Stranded, CopiedInQueue, Init;
    if n == 0 {
      NotStrandedAtStart(cfg, states[0], x);
    } else {
      StrandedHistory(cfg, states, actions, n - 1, x);
      RunKeeps(cfg, states, actions, n - 1);
      StrandedStep(cfg, states[n - 1], actions[n - 1], states[n], x);
      assert PushRacesCopy(cfg, states, actions, n - 1, x) <==>
             actions[n - 1] == WriteStage(Complete) && CopiedInQueue(cfg, states[n - 1], Seed(x));
    }
  }

  lemma NotStrandedAtStart(cfg: Config, s: State, x: nat)
    requires Init(cfg, s)
    ensures !Stranded(cfg, s, Seed(x))
  {
  }

  ghost predicate QueuesNamePhases(s: State) {
    forall p, w :: InQueue(s, p, w) ==> Own(w) in s.info && s.info[Own(w)].phase == p
  }

  /** Every queue agrees with its workers' records at every point of a run, unless and exactly from when a bundle push
      has finished while a copied app was still in the pod-copy queue. */
  lemma QueuesAgreeExactly(cfg: Config, states: seq<State>, actions: seq<Action>, n: nat)
    requires Run(cfg, states, actions) && !cfg.FanOut() && n < |states|
    ensures QueuesNamePhases(states[n]) <==>
      !exists m, x :: 0 <= m < n && 0 <= x < |cfg.scopes| && PushRacesCopy(cfg, states, actions, m, x)
  {
    assert |states| == |actions| + 1;
    hide Apply, Ready, Safe, Inv, Stranded, InQueue, Init, Run, CopiedInQueue;
    var s := states[n];
    assert Reached(cfg, s);
    StrandedOrAgree(cfg, s);
    forall x | 0 <= x < |cfg.scopes|
      ensures Stranded(cfg, s, Seed(x)) <==> exists m :: 0 <= m < n && PushRacesCopy(cfg, states, actions, m, x)
    {
      StrandedHistory(cfg, states, actions, n, x);
    }
  }

  lemma StrandedOrAgree(cfg: Config, s: State)
    requires Reached(cfg, s) && !cfg.FanOut()
    ensures QueuesNamePhases(s) <==> !exists x :: 0 <= x < |cfg.scopes| && Stranded(cfg, s, Seed(x))
  {
    hide Reached, InQueue, Coherent;
    forall p, w | InQueue(s, p, w)
      ensures Own(w) in s.info && (s.info[Own(w)].phase == p <==> !Stranded(cfg, s, w))
      ensures w.Seed? && w.app < |cfg.scopes|
    {
      hide Stranded;
      QueueNamesPhase(cfg, s, p, w);
      OnlySeeds(cfg, s, w);
    }
    forall x | 0 <= x < |cfg.scopes| && Stranded(cfg, s, Seed(x)) ensures !QueuesNamePhases(s) {
      assert InQueue(s, PodCopy, Seed(x));
    }
  }

  lemma OnlySeeds(cfg: Config, s: State, w: Worker)
    requires Reached(cfg, s) && !cfg.FanOut() && w in s.created
    ensures w.Seed? && w.app < |cfg.scopes|
  {
    ReachedKeeps(cfg, s);
    hide Reached;
    assert ViewOk(cfg, w, ViewOf(s, w));
    hide SpotOk;
  }

  /** A stranded app is never lost: the reconcile asks to be called again. */
  lemma StrandedRevisits(cfg: Config, s: State, w: Worker, inProgress: bool)
    requires Stranded(cfg, s, w)
    ensures NeedsRevisit(cfg, s, inProgress)
  {
    assert w in s.ph.podCopy.q;
  }

  lemma Follow(cfg: Config, s: State, a: Action, s': State)
    requires Reached(cfg, s) && Ready(cfg, s, a) && (Safe(cfg, s, a) ==> s' == Apply(cfg, s, a))
    ensures Reached(cfg, s')
  {
    hide Reached, Ready, Safe, Apply;
    NeverCrashes(cfg, s, a);
  }

  lemma StartReached(cfg: Config, s: State)
    requires cfg.Valid() && Init(cfg, s)
    ensures Reached(cfg, s)
  {
    hide Init;
    assert Run(cfg, [s], []);
    assert [s][0] == s;
  }
}
