/** Fan-out apps over every run, from a first split or from replica records an earlier entry left. */
module SchedulerReplicas {
  import opened AppTypes
  import opened Scheduler
  import opened SchedulerInv
  import opened SchedulerFrames
  import opened SchedulerWorkers
  import opened SchedulerBounds
  import opened SchedulerFanOut
  import opened SchedulerSteps
  import opened SchedulerRecords
  import opened SchedulerQueues
  import opened SchedulerRuns

  /** While a replica's copy runs the operator still has the package, so no copy of any run finds it missing. */
  lemma CopyNeverMissesPackage(cfg: Config, s: State, k: nat)
    requires Reached(cfg, s) && cfg.FanOut() && k < |s.ph.podCopy.runs|
    ensures s.ph.podCopy.runs[k].app in s.packages && s.ph.podCopy.runs[k].Replica?
    ensures !Ready(cfg, s, FinishCopy(k, PackageMissing))
  {
    hide Reached;
    ReachedKeeps(cfg, s);
    CopyFindsPackage(cfg, s, k);
    hide Inv;
  }

  /** Once an app has a replica worker, its package is removed only in a step after which it is installed on all replicas
      with a record; its main record says installed exactly when it is; and every replica with work left has a worker. */
  lemma PackageOutlivesReplicas(cfg: Config, s: State, a: Action, x: nat, i: nat)
    requires Reached(cfg, s) && cfg.FanOut() && Ready(cfg, s, a) && x < |cfg.scopes| && Replica(x, i) in s.created
    ensures MainInstalled(s, x) <==> AllInstalled(s.info, x)
    ensures forall j :: Aux(x, j) in s.info ==> Replica(x, j) in s.created || Unattended(cfg, x, s.info[Aux(x, j)])
    ensures i < cfg.replicas && Safe(cfg, s, a)
    ensures x in s.packages && x !in Apply(cfg, s, a).packages ==> AllInstalled(Apply(cfg, s, a).info, x)
    ensures !AllInstalled(s.info, x) ==> x in s.packages
  {
    hide Apply, Ready, Safe, Reached, AllInstalled, InQueue, Unattended, RecordsInRange;
    ReachedKeeps(cfg, s);
    StepKeeps(cfg, s, a);
    var s' := Apply(cfg, s, a);
    WorkersGrow(cfg, s, a, s');
    FanOutHere(cfg, s, x);
    FanOutHere(cfg, s', x);
    ReplicaInRange(cfg, s, x, i);
    hide Inv, MainInstalled;
  }

  lemma FanOutHere(cfg: Config, s: State, x: nat)
    requires Inv(cfg, s) && cfg.FanOut() && x < |cfg.scopes|
    ensures FanOutApp(cfg, s, x)
  {
    hide FanOutApp, Workers, Untouched, Bounded;
  }

  lemma ReplicaInRange(cfg: Config, s: State, x: nat, i: nat)
    requires Inv(cfg, s) && Replica(x, i) in s.created
    ensures i < cfg.replicas
  {
    hide Untouched, Bounded, FanOutInv, SpotOk;
    assert ViewOk(cfg, Replica(x, i), ViewOf(s, Replica(x, i)));
  }

  /******* The first split *******/

  /** An app that has not been split, or all of whose replicas have a worker. */
  ghost predicate Whole(cfg: Config, s: State, x: nat) {
    || (NoReplicaRecords(s.info, x) && forall i :: Replica(x, i) !in s.created)
    || Replicas(cfg, x) <= s.created
  }

  ghost predicate SameReplicas(s: State, s': State) {
    s'.info.Keys == s.info.Keys && forall u: Worker :: u.Replica? ==> (u in s'.created <==> u in s.created)
  }

  lemma RunReplicas(cfg: Config, s: State, a: Action, s': State)
    requires Ready(cfg, s, a) && Safe(cfg, s, a) && s' == Apply(cfg, s, a) && AboutRun(a)
    ensures SameReplicas(s, s')
  {
    hide SameReplicas, Apply, Ready, Safe;
    if a.HandleDownload? || a.StartRun? || a.FinishDownload? {
      DownloadReplicas(cfg, s, a, s');
    } else {
      RunEndReplicas(cfg, s, a, s');
    }
  }

  lemma DownloadReplicas(cfg: Config, s: State, a: Action, s': State)
    requires Ready(cfg, s, a) && Safe(cfg, s, a) && s' == Apply(cfg, s, a) && (a.HandleDownload? || a.StartRun? || a.FinishDownload?)
    ensures SameReplicas(s, s')
  {
    hide RemoveAt, Bump, Ready;
  }

  lemma RunEndReplicas(cfg: Config, s: State, a: Action, s': State)
    requires Ready(cfg, s, a) && Safe(cfg, s, a) && s' == Apply(cfg, s, a)
    requires a.FinishCopy? || a.FailInstall? || a.MarkInstalled? || a.FinishInstall?
    ensures SameReplicas(s, s')
  {
    hide RemoveAt, AllInstalled, Bump, Ready;
  }

  lemma OtherReplicas(cfg: Config, s: State, a: Action, s': State)
    requires Ready(cfg, s, a) && Safe(cfg, s, a) && s' == Apply(cfg, s, a) && !a.Visit? && !AboutRun(a)
    ensures SameReplicas(s, s')
  {
    hide NeedsRevisit;
  }

  /** A visit that is no split. */
  lemma PlainReplicas(cfg: Config, s: State, p: Phase, w: Worker, s': State)
    requires Safe(cfg, s, Visit(p, w)) && s' == DoVisit(cfg, s, p, w) && !(w.Seed? && cfg.FanOut() && p == Download)
    requires KeyFor(cfg, w, p) == Own(w) && Own(w) in s.info
    ensures SameReplicas(s, s')
  {
    hide SameReplicas, BeginMove, DropExhausted, Dispatch, Dequeue;
    PlainMove(cfg, s, p, w, Download);
    PlainMove(cfg, s, p, w, PodCopy);
    PlainMove(cfg, s, p, w, Install);
    PlainOther(cfg, s, p, w);
  }

  lemma PlainMove(cfg: Config, s: State, p: Phase, w: Worker, next: Phase)
    requires !(w.Seed? && cfg.FanOut() && p == Download) && KeyFor(cfg, w, p) == Own(w) && Own(w) in s.info
    ensures SameReplicas(s, BeginMove(cfg, s, p, w, next))
  {
    hide Split;
  }

  lemma PlainOther(cfg: Config, s: State, p: Phase, w: Worker)
    requires Safe(cfg, s, Visit(p, w))
    ensures SameReplicas(s, DropExhausted(cfg, s, p, w)) && SameReplicas(s, Dispatch(cfg, s, p, w)) && SameReplicas(s, s)
    ensures SameReplicas(s, Dequeue(s, s.info[KeyFor(cfg, w, p)].phase, w))
  {
  }

  ghost predicate IsSplit(cfg: Config, s: State, s': State, b: nat) {
    && s'.info == SplitInfo(cfg, s.info, b)
    && s'.created == s.created + Joins(cfg, s.info, b, PodCopy) + Joins(cfg, s.info, b, Install)
  }

  lemma SeedVisit(cfg: Config, s: State, w: Worker, s': State)
    requires Safe(cfg, s, Visit(Download, w)) && s' == DoVisit(cfg, s, Download, w) && w.Seed? && cfg.FanOut()
    ensures SameReplicas(s, s') || IsSplit(cfg, s, s', w.app)
  {
    PlainOther(cfg, s, Download, w);
    hide SameReplicas, DropExhausted, Dispatch, Dequeue, Joins, SplitInfo;
  }

  lemma SameWhole(cfg: Config, s: State, s': State, x: nat)
    requires Whole(cfg, s, x) && SameReplicas(s, s')
    ensures Whole(cfg, s', x)
  {
  }

  lemma SplitWhole(cfg: Config, s: State, s': State, b: nat, x: nat)
    requires Whole(cfg, s, x) && IsSplit(cfg, s, s', b)
    ensures Whole(cfg, s', x)
  {
    if Replicas(cfg, x) <= s.created {
    } else if b == x {
      assert Joins(cfg, s.info, x, PodCopy) == Replicas(cfg, x);
    } else {
      hide Joins, SplitInfo, Replicas;
      SplitRecords(cfg, s.info, b);
      forall k: Key | IsAuxOf(k, x) ensures k !in s'.info { assert Lookup(s'.info, k) == Lookup(s.info, k); }
      forall i: nat ensures Replica(x, i) !in s'.created { JoinersOf(cfg, s.info, b, Replica(x, i)); }
    }
  }

  lemma WholeStep(cfg: Config, s: State, a: Action, s': State, x: nat)
    requires Inv(cfg, s) && Ready(cfg, s, a) && Safe(cfg, s, a) && s' == Apply(cfg, s, a) && cfg.FanOut() && Whole(cfg, s, x)
    ensures Whole(cfg, s', x)
  {
    hide Inv, Whole, SameReplicas, IsSplit, DoVisit;
    if a.Visit? {
      VisitedPhase(cfg, s, a.p, a.w);
      hide Safe;
      if a.w.Seed? && a.p == Download { SeedVisit(cfg, s, a.w, s'); } else { PlainReplicas(cfg, s, a.p, a.w, s'); }
    } else {
      hide Apply, Ready, Safe;
      if AboutRun(a) { RunReplicas(cfg, s, a, s'); } else { OtherReplicas(cfg, s, a, s'); }
    }
    if SameReplicas(s, s') { SameWhole(cfg, s, s', x); } else { SplitWhole(cfg, s, s', a.w.app, x); }
  }

  lemma {:induction false} StaysWhole(cfg: Config, states: seq<State>, actions: seq<Action>, n: nat, x: nat)
    requires Run(cfg, states, actions) && cfg.FanOut() && n < |states| && NoReplicaRecords(states[0].info, x)
    ensures Whole(cfg, states[n], x)
  {
    hide Inv, Ready, Safe, Apply, NoReplicaRecords;
    if n == 0 {
    } else {
      hide Init, Whole;
      StaysWhole(cfg, states, actions, n - 1, x);
      RunKeeps(cfg, states, actions, n - 1);
      WholeStep(cfg, states[n - 1], actions[n - 1], states[n], x);
    }
  }

  /** An app that starts without replica records is split over all replicas at once: as soon as one of them has a worker,
      all have. */
  lemma FirstSplitCoversAll(cfg: Config, states: seq<State>, actions: seq<Action>, n: nat, x: nat, i: nat)
    requires Run(cfg, states, actions) && cfg.FanOut() && n < |states| && NoReplicaRecords(states[0].info, x)
    requires Replica(x, i) in states[n].created
    ensures Replicas(cfg, x) <= states[n].created
  {
    hide Run, NoReplicaRecords;
    StaysWhole(cfg, states, actions, n, x);
  }

  /******* The main record *******/

  /** The app has replica records, and all say installed. */
  ghost predicate RecordedInstalled(info: map<Key, PhaseInfo>, x: nat) {
    (exists i: nat :: Aux(x, i) in info) && AllInstalled(info, x)
  }

  ghost predicate NoReplicas(s: State, x: nat) {
    forall i :: Replica(x, i) !in s.created
  }

  // The replica records of x are those of before.
  ghost predicate SameAux(s: State, s': State, x: nat) {
    forall i: nat :: Lookup(s'.info, Aux(x, i)) == Lookup(s.info, Aux(x, i))
  }

  lemma SameAuxInstalled(s: State, s': State, x: nat)
    requires SameAux(s, s', x)
    ensures RecordedInstalled(s'.info, x) <==> RecordedInstalled(s.info, x)
  {
    forall k | IsAuxOf(k, x) ensures (k in s'.info <==> k in s.info) && (k in s.info ==> s'.info[k] == s.info[k]) {
      assert k == Aux(x, k.ordinal);
      assert Lookup(s'.info, Aux(x, k.ordinal)) == Lookup(s.info, Aux(x, k.ordinal));
    }
  }

  /** The record of an app or of its own replica is all a run's step touches. */
  lemma RunAux(cfg: Config, s: State, a: Action, s': State, x: nat)
    requires Inv(cfg, s) && Ready(cfg, s, a) && Safe(cfg, s, a) && s' == Apply(cfg, s, a) && AboutRun(a) && NoReplicas(s, x)
    ensures SameAux(s, s', x)
  {
    hide SameAux;
    match a
    case FinishCopy(k, o) => RunFacts(cfg, s, PodCopy, k); hide Inv; CopyAux(cfg, s, k, o, s', x);
    case FailInstall(k, o) => RunFacts(cfg, s, Install, k); hide Inv; FailAux(cfg, s, k, o, s', x);
    case MarkInstalled(k) => RunFacts(cfg, s, Install, k); hide Inv; MarkAux(cfg, s, k, s', x);
    case _ => hide Inv; DownloadAux(cfg, s, a, s', x); hide Apply, Ready, Safe;
  }

  lemma CopyAux(cfg: Config, s: State, k: nat, o: CopyOutcome, s': State, x: nat)
    requires Safe(cfg, s, FinishCopy(k, o)) && s' == DoFinishCopy(cfg, s, k, o) && NoReplicas(s, x)
    requires var w := s.ph.podCopy.runs[k]; KeyFor(cfg, w, PodCopy) == Own(w) && w in s.created
    ensures SameAux(s, s', x)
  {
    hide RemoveAt, Bump;
  }

  lemma FailAux(cfg: Config, s: State, k: nat, o: InstallOutcome, s': State, x: nat)
    requires Safe(cfg, s, FailInstall(k, o)) && s' == DoFailInstall(cfg, s, k, o) && NoReplicas(s, x)
    requires var w := s.ph.install.runs[k]; KeyFor(cfg, w, Install) == Own(w) && w in s.created
    ensures SameAux(s, s', x)
  {
    hide RemoveAt, Bump;
  }

  lemma MarkAux(cfg: Config, s: State, k: nat, s': State, x: nat)
    requires Safe(cfg, s, MarkInstalled(k)) && s' == DoMarkInstalled(cfg, s, k) && NoReplicas(s, x)
    requires var w := s.ph.install.runs[k]; KeyFor(cfg, w, Install) == Own(w) && w in s.created
    ensures SameAux(s, s', x)
  {
    hide RemoveAt, AllInstalled;
  }

  lemma DownloadAux(cfg: Config, s: State, a: Action, s': State, x: nat)
    requires Ready(cfg, s, a) && Safe(cfg, s, a) && s' == Apply(cfg, s, a)
    requires a.HandleDownload? || a.StartRun? || a.FinishDownload? || a.FinishInstall?
    ensures SameAux(s, s', x)
  {
    hide RemoveAt, AllInstalled, Bump, Ready;
  }

  lemma OtherAux(cfg: Config, s: State, a: Action, s': State, x: nat)
    requires Ready(cfg, s, a) && Safe(cfg, s, a) && s' == Apply(cfg, s, a) && !a.Visit? && !AboutRun(a)
    ensures SameAux(s, s', x)
  {
    hide NeedsRevisit;
  }

  /** A visit that is no split. */
  lemma PlainAux(cfg: Config, s: State, p: Phase, w: Worker, s': State, x: nat)
    requires Safe(cfg, s, Visit(p, w)) && s' == DoVisit(cfg, s, p, w) && !(w.Seed? && cfg.FanOut() && p == Download)
    requires KeyFor(cfg, w, p) == Own(w) && Own(w) in s.info && w in s.created && NoReplicas(s, x)
    ensures SameAux(s, s', x)
  {
    hide SameAux, BeginMove, DropExhausted, Dispatch, Dequeue;
    PlainMoveAux(cfg, s, p, w, Download, x);
    PlainMoveAux(cfg, s, p, w, PodCopy, x);
    PlainMoveAux(cfg, s, p, w, Install, x);
    PlainOtherAux(cfg, s, p, w, x);
  }

  lemma PlainMoveAux(cfg: Config, s: State, p: Phase, w: Worker, next: Phase, x: nat)
    requires !(w.Seed? && cfg.FanOut() && p == Download) && KeyFor(cfg, w, p) == Own(w) && w in s.created && NoReplicas(s, x)
    ensures SameAux(s, BeginMove(cfg, s, p, w, next), x)
  {
    hide Split;
  }

  lemma PlainOtherAux(cfg: Config, s: State, p: Phase, w: Worker, x: nat)
    requires Safe(cfg, s, Visit(p, w)) && KeyFor(cfg, w, p) == Own(w) && w in s.created && NoReplicas(s, x)
    ensures SameAux(s, DropExhausted(cfg, s, p, w), x) && SameAux(s, Dispatch(cfg, s, p, w), x) && SameAux(s, s, x)
    ensures SameAux(s, Dequeue(s, s.info[KeyFor(cfg, w, p)].phase, w), x)
  {
  }

  /** A split that makes no worker for its app leaves it as installed as it was; and it makes none if all records say
      installed. */
  lemma SplitAux(cfg: Config, s: State, s': State, b: nat, x: nat)
    requires IsSplit(cfg, s, s', b) && NoReplicas(s, x)
    ensures NoReplicas(s', x) ==> (RecordedInstalled(s'.info, x) <==> RecordedInstalled(s.info, x))
    ensures RecordedInstalled(s.info, x) ==> NoReplicas(s', x)
  {
    if b != x {
      hide Joins, SplitInfo;
      SplitRecords(cfg, s.info, b);
      SameAuxInstalled(s, s', x);
      forall i: nat ensures Replica(x, i) !in s'.created { JoinersOf(cfg, s.info, b, Replica(x, i)); }
    } else if NoReplicaRecords(s.info, x) {
      forall i: nat ensures Aux(x, i) !in s.info { assert IsAuxOf(Aux(x, i), x); }
      if NoReplicas(s', x) {
        forall i: nat ensures Aux(x, i) !in s'.info { assert Replica(x, i) !in s'.created; }
      }
    } else {
      forall k | k in s.info && IsAuxOf(k, x)
        ensures InstalledRecord(s'.info[k]) <==> InstalledRecord(s.info[k])
        ensures RecordedInstalled(s.info, x) ==> !HasWork(cfg, x, s.info[k])
      {
      }
      assert forall i: nat :: Aux(x, i) in s'.info <==> Aux(x, i) in s.info;
    }
  }

  lemma NoReplicasStep(cfg: Config, s: State, a: Action, s': State, x: nat)
    requires Inv(cfg, s) && Ready(cfg, s, a) && Safe(cfg, s, a) && s' == Apply(cfg, s, a) && cfg.FanOut() && NoReplicas(s, x)
    ensures NoReplicas(s', x) ==> (RecordedInstalled(s'.info, x) <==> RecordedInstalled(s.info, x))
    ensures RecordedInstalled(s.info, x) ==> NoReplicas(s', x)
  {
    hide Inv, NoReplicas, RecordedInstalled, SameReplicas, SameAux, IsSplit, DoVisit;
    if a.Visit? {
      VisitedPhase(cfg, s, a.p, a.w);
      hide Safe;
      if a.w.Seed? && a.p == Download {
        SeedVisitAux(cfg, s, a.w, s', x);
        if IsSplit(cfg, s, s', a.w.app) { SplitAux(cfg, s, s', a.w.app, x); }
      } else {
        PlainReplicas(cfg, s, a.p, a.w, s');
        PlainAux(cfg, s, a.p, a.w, s', x);
      }
    } else {
      hide Apply, Ready, Safe;
      if AboutRun(a) {
        RunReplicas(cfg, s, a, s');
        RunAux(cfg, s, a, s', x);
      } else {
        OtherReplicas(cfg, s, a, s');
        OtherAux(cfg, s, a, s', x);
      }
    }
    if SameReplicas(s, s') && SameAux(s, s', x) {
      SameAuxInstalled(s, s', x);
      NoneStill(s, s', x);
    }
  }

  lemma SeedVisitAux(cfg: Config, s: State, w: Worker, s': State, x: nat)
    requires Safe(cfg, s, Visit(Download, w)) && s' == DoVisit(cfg, s, Download, w) && w.Seed? && cfg.FanOut()
    requires w in s.created && NoReplicas(s, x)
    ensures (SameReplicas(s, s') && SameAux(s, s', x)) || IsSplit(cfg, s, s', w.app)
  {
    PlainOther(cfg, s, Download, w);
    PlainOtherAux(cfg, s, Download, w, x);
    hide SameReplicas, SameAux, DropExhausted, Dispatch, Dequeue, Joins, SplitInfo;
  }

  lemma NoneStill(s: State, s': State, x: nat)
    requires SameReplicas(s, s') && NoReplicas(s, x)
    ensures NoReplicas(s', x)
  {
  }

  /** Without replica workers an app is as installed as at the start; and with all records installed at the start it never
      gets any. */
  lemma {:induction false} AsInstalledAsAtStart(cfg: Config, states: seq<State>, actions: seq<Action>, n: nat, x: nat)
    requires Run(cfg, states, actions) && cfg.FanOut() && n < |states|
    ensures NoReplicas(states[n], x) ==> (RecordedInstalled(states[n].info, x) <==> RecordedInstalled(states[0].info, x))
    ensures RecordedInstalled(states[0].info, x) ==> NoReplicas(states[n], x)
  {
    hide Inv, Ready, Safe, Apply, RecordedInstalled;
    if n == 0 {
    } else {
      hide Init;
      AsInstalledAsAtStart(cfg, states, actions, n - 1, x);
      RunKeeps(cfg, states, actions, n - 1);
      WorkersGrow(cfg, states[n - 1], actions[n - 1], states[n]);
      if NoReplicas(states[n - 1], x) { NoReplicasStep(cfg, states[n - 1], actions[n - 1], states[n], x); }
    }
  }

  /** Over any run, the main record of an app that the entry took up says installed exactly when it has replica records
      and all of them do, if and only if that was not so of its records at the start. */
  lemma MainRecordExactly(cfg: Config, states: seq<State>, actions: seq<Action>, n: nat, x: nat)
    requires Run(cfg, states, actions) && cfg.FanOut() && n < |states| && x < |cfg.scopes| && Seed(x) in states[n].created
    ensures (MainInstalled(states[n], x) <==> RecordedInstalled(states[n].info, x)) <==> !RecordedInstalled(states[0].info, x)
  {
    AsInstalledAsAtStart(cfg, states, actions, n, x);
    RunKeeps(cfg, states, actions, n);
    hide Run, Ready, Safe, Apply, AllInstalled, InQueue, Unattended;
    FanOutHere(cfg, states[n], x);
    hide Inv;
  }

  /******* An app with nothing left to split *******/

  const CONFIG: Config := Config(Standalone, 1, 1, 1, [Local])

  // The second replica was scaled away before it had the app; the first one has it.
  function N0(): State {
    State(map[Main(0) := PhaseInfo(Download, DownloadComplete, 0), Aux(0, 0) := PhaseInfo(Install, InstallComplete, 0)],
          {}, {}, map[], PerPhase(NewPhase(), NewPhase(), NewPhase()), PerPhase(0, 0, 0), PerPhase(1, 1, 1), [0], {0},
          Uninitialized, 3, 0, NotStarted, Creating({0}), false)
  }

  function N1(): State {
    var s := N0();
    s.(entry := Creating({}), created := {Seed(0)}, ph := s.ph.(download := s.ph.download.(q := multiset{Seed(0)})))
  }

  function N2(): State {
    var s := N1();
    s.(ph := s.ph.(download := s.ph.download.(mgr := Moving(Seed(0)))))
  }

  function N3(): State {
    N0().(entry := Creating({}), created := {Seed(0)})
  }

  lemma NStep1()
    ensures Reached(CONFIG, N1())
  {
    hide Reached;
    StartReached(CONFIG, N0());
    var none: set<Worker>, todo: set<nat>, empty: multiset<Worker> := {}, {0}, multiset{};
    assert none + {Seed(0)} == {Seed(0)} && todo - {0} == {} && empty + multiset{Seed(0)} == multiset{Seed(0)};
    Follow(CONFIG, N0(), Create(0), N1());
  }

  lemma NoJoiners()
    ensures Joins(CONFIG, N1().info, 0, PodCopy) == {} && Joins(CONFIG, N1().info, 0, Install) == {}
    ensures SplitInfo(CONFIG, N1().info, 0) == N1().info
  {
    assert IsAuxOf(Aux(0, 0), 0) && Aux(0, 0) in N1().info;
  }

  lemma NStep2()
    requires Reached(CONFIG, N1())
    ensures Reached(CONFIG, N2())
  {
    hide Reached;
    NoJoiners();
    hide Joins, SplitInfo;
    var none: set<Worker>, empty: multiset<Worker>, nowhere: map<Worker, Phase> := {}, multiset{}, map[];
    assert none - {Seed(0)} == {} && nowhere - {Seed(0)} == map[] && empty + multiset(none) == empty;
    assert N1().created + none + none == N1().created;
    Follow(CONFIG, N1(), Visit(Download, Seed(0)), N2());
  }

  lemma NStep3()
    requires Reached(CONFIG, N2())
    ensures Reached(CONFIG, N3())
  {
    hide Reached;
    assert multiset{Seed(0)} - multiset{Seed(0)} == multiset{};
    Follow(CONFIG, N2(), Detach(Download), N3());
  }

  /** If all replica records are installed when the app comes back, the split makes no worker, and nobody sets the main
      record: the queues are empty with the app installed everywhere and its main record still at the download. */
  lemma InstalledButNotRecorded() returns (s: State)
    ensures Reached(CONFIG, s) && CONFIG.FanOut() && PipelineEmpty(s) && Seed(0) in s.created
    ensures AllInstalled(s.info, 0) && Aux(0, 0) in s.info && !MainInstalled(s, 0)
  {
    s := N3();
    NStep1();
    NStep2();
    NStep3();
    hide Reached;
  }
}
