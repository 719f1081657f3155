/** The retry bound is attained: for every limit there is a run in which an app is downloaded, copied and installed with as
    many runs as the bound allows. */
module SchedulerAttained {
  import opened AppTypes
  import opened Scheduler
  import opened SchedulerInv
  import opened SchedulerRecords
  import opened SchedulerQueues
  import opened SchedulerRetries

  const APP: Worker := Seed(0)

  function Limit(max: nat): Config {
    Config(LicenseManager, 1, max, 1, [Local])
  }

  /******* Runs that are counted *******/

  /** A state of some run in which app 0 has made r runs, all of them counted. */
  ghost predicate ReachedWith(cfg: Config, s: State, r: nat) {
    exists states, actions, n: nat :: Counts(cfg, states, actions, n, s, r)
  }

  ghost predicate Counts(cfg: Config, states: seq<State>, actions: seq<Action>, n: nat, s: State, r: nat) {
    && Run(cfg, states, actions) && |states| == |actions| + 1 && n == |actions| && states[n] == s
    && RunsOf(cfg, states, actions, n, 0) == r && CountedOnly(cfg, states, actions, n, 0)
  }

  lemma {:induction false} SamePrefix(cfg: Config, states: seq<State>, actions: seq<Action>, s: State, a: Action, n: nat)
    requires |states| == |actions| + 1 && n <= |actions|
    ensures RunsOf(cfg, states + [s], actions + [a], n, 0) == RunsOf(cfg, states, actions, n, 0)
  {
    if n == 0 {
    } else {
      SamePrefix(cfg, states, actions, s, a, n - 1);
      assert (states + [s])[n - 1] == states[n - 1] && (actions + [a])[n - 1] == actions[n - 1];
    }
  }

  // Whether the step ends a run of app 0.
  function Ends(cfg: Config, s: State, a: Action): nat {
    if Main(0) in s.info && Subject(s, a) == Some(APP) && EndsRun(ChangeOf(cfg, s, a, s.info[Main(0)])) then 1 else 0
  }

  predicate Counting(cfg: Config, s: State, a: Action) {
    Main(0) in s.info && Subject(s, a) == Some(APP) ==> CountedChange(ChangeOf(cfg, s, a, s.info[Main(0)]))
  }

  lemma Extend(cfg: Config, states: seq<State>, actions: seq<Action>, s: State, a: Action, s': State, r: nat)
    requires Counts(cfg, states, actions, |actions|, s, r) && Ready(cfg, s, a) && Safe(cfg, s, a) && s' == Apply(cfg, s, a)
    requires Counting(cfg, s, a)
    ensures Counts(cfg, states + [s'], actions + [a], |actions| + 1, s', r + Ends(cfg, s, a))
  {
    hide Ready, Safe, Apply, Ends, Counting;
    ExtendRun(cfg, states, actions, s, a, s');
    ExtendCounted(cfg, states, actions, s, a, s');
    ExtendRuns(cfg, states, actions, s, a, s');
    hide Run, CountedOnly, RunsOf;
  }

  lemma ExtendRun(cfg: Config, states: seq<State>, actions: seq<Action>, s: State, a: Action, s': State)
    requires Run(cfg, states, actions) && |states| == |actions| + 1 && states[|actions|] == s
    requires Ready(cfg, s, a) && Safe(cfg, s, a) && s' == Apply(cfg, s, a)
    ensures Run(cfg, states + [s'], actions + [a])
  {
    hide Init, Ready, Safe, Apply;
    assert (states + [s'])[0] == states[0];
  }

  lemma ExtendCounted(cfg: Config, states: seq<State>, actions: seq<Action>, s: State, a: Action, s': State)
    requires |states| == |actions| + 1 && states[|actions|] == s
    requires CountedOnly(cfg, states, actions, |actions|, 0) && Counting(cfg, s, a)
    ensures CountedOnly(cfg, states + [s'], actions + [a], |actions| + 1, 0)
  {
    hide ChangeOf, Subject, CountedChange;
    var states', actions' := states + [s'], actions + [a];
    forall m | 0 <= m < |actions| ensures states'[m] == states[m] && actions'[m] == actions[m] { }
    assert states'[|actions|] == s && actions'[|actions|] == a;
  }

  lemma ExtendRuns(cfg: Config, states: seq<State>, actions: seq<Action>, s: State, a: Action, s': State)
    requires |states| == |actions| + 1 && states[|actions|] == s
    ensures RunsOf(cfg, states + [s'], actions + [a], |actions| + 1, 0) == RunsOf(cfg, states, actions, |actions|, 0) + Ends(cfg, s, a)
  {
    hide ChangeOf, Subject;
    var n := |actions|;
    SamePrefix(cfg, states, actions, s', a, n);
    assert (states + [s'])[n] == s && (actions + [a])[n] == a;
  }

  /** One more step. */
  lemma Step(cfg: Config, s: State, a: Action, s': State, r: nat)
    requires ReachedWith(cfg, s, r) && Ready(cfg, s, a) && (Safe(cfg, s, a) ==> s' == Apply(cfg, s, a)) && Counting(cfg, s, a)
    ensures ReachedWith(cfg, s', r + Ends(cfg, s, a))
  {
    hide Ready, Safe, Apply, Counting, Ends;
    var states, actions, n: nat :| Counts(cfg, states, actions, n, s, r);
    assert Safe(cfg, s, a) by {
      assert Run(cfg, states, actions) && n < |states| && states[n] == s;
      hide Run, Counts;
      assert Reached(cfg, s);
      hide Reached;
      NeverCrashes(cfg, s, a);
    }
    hide Counts;
    CountsAtEnd(cfg, states, actions, n, s, r);
    Extend(cfg, states, actions, s, a, s', r);
  }

  lemma CountsAtEnd(cfg: Config, states: seq<State>, actions: seq<Action>, n: nat, s: State, r: nat)
    requires Counts(cfg, states, actions, n, s, r)
    ensures n == |actions|
  {
  }

  /******* The states of the run *******/

  // App 0 in phase p, which looks like ps; the other phases are idle.
  function Shape(i: PhaseInfo, p: Phase, ps: PhaseState, active: bool, at: Option<Phase>, slot: nat): State {
    State(map[Main(0) := i], {APP}, if active then {APP} else {}, if at.Some? then map[APP := at.value] else map[],
          PerPhase(NewPhase(), NewPhase(), NewPhase()).With(p, ps), PerPhase(0, 0, 0).With(p, |ps.runs| + |ps.cleaning|), PerPhase(1, 1, 1),
          [slot], {0}, Uninitialized, 3, 0, NotStarted, Creating({}), false)
  }

  function Listed0(): PhaseState {
    NewPhase().(q := multiset{APP})
  }

  function Token(p: Phase): nat {
    if p == Install then 0 else 1
  }

  function Slot(p: Phase): nat {
    if p == Install then 1 else 0
  }

  /** Waiting in the queue of p with f failures. */
  function AtWaiting(p: Phase, f: nat, at: Option<Phase>): State {
    Shape(PhaseInfo(p, PendingStatus(p), f), p, Listed0(), false, at, 0)
  }

  function AtSent(p: Phase, f: nat): State {
    Shape(PhaseInfo(p, PendingStatus(p), f), p, Listed0().(chan := [APP], mgr := Marking(APP)), false, Some(p), Slot(p))
  }

  function AtMarked(p: Phase, f: nat): State {
    Shape(PhaseInfo(p, PendingStatus(p), f), p, Listed0().(chan := [APP]), true, Some(p), Slot(p))
  }

  function AtTaken(p: Phase, f: nat): State {
    Shape(PhaseInfo(p, PendingStatus(p), f), p, Listed0().(hnd := HWork(APP), pool := Token(p)), true, Some(p), Slot(p))
  }

  function RunStatus(p: Phase): Status {
    if p == Download then DownloadInProgress else PendingStatus(p)
  }

  function AtRunning(p: Phase, f: nat): State {
    Shape(PhaseInfo(p, RunStatus(p), f), p, Listed0().(pool := Token(p), runs := [APP]), true, Some(p), Slot(p))
  }

  /** The run has succeeded. */
  function AtPassed(p: Phase, f: nat): State {
    if p == Install then
      Shape(PhaseInfo(p, InstallComplete, 0), p, Listed0().(cleaning := [APP]), true, Some(p), 1)
    else Shape(PhaseInfo(p, CompleteStatus(p), if p == Download then 0 else f), p, Listed0(), false, Some(p), 0)
  }

  function NextPhase(p: Phase): Phase {
    if p == Download then PodCopy else Install
  }

  function AtLeaving(p: Phase): State {
    var n := NextPhase(p);
    var s := Shape(PhaseInfo(n, PendingStatus(n), 0), n, Listed0(), false, None, 0);
    s.(ph := s.ph.With(p, Listed0().(mgr := Moving(APP))))
  }

  /******* One run *******/

  lemma Sends(max: nat, p: Phase, f: nat, at: Option<Phase>, r: nat)
    requires ReachedWith(Limit(max), AtWaiting(p, f, at), r) && f <= max && p != Install
    ensures ReachedWith(Limit(max), AtSent(p, f), r)
  {
    hide ReachedWith;
    VisitSends(max, p, f, at);
    hide DoVisit;
    Step(Limit(max), AtWaiting(p, f, at), Visit(p, APP), AtSent(p, f), r);
  }

  lemma VisitSends(max: nat, p: Phase, f: nat, at: Option<Phase>)
    requires f <= max && p != Install
    ensures DoVisit(Limit(max), AtWaiting(p, f, at), p, APP) == AtSent(p, f)
  {
    var none: seq<Worker>, nowhere: map<Worker, Phase> := [], map[];
    assert none + [APP] == [APP] && nowhere[APP := p] == map[APP := p];
    assert forall q: Phase :: map[APP := q][APP := p] == map[APP := p];
  }

  function AtReserved(f: nat, at: Option<Phase>): State {
    Shape(PhaseInfo(Install, InstallPending, f), Install, Listed0().(mgr := Reserved(APP)), false, at, 1)
  }

  lemma Reserves(max: nat, f: nat, at: Option<Phase>, r: nat)
    requires ReachedWith(Limit(max), AtWaiting(Install, f, at), r) && f <= max
    ensures ReachedWith(Limit(max), AtReserved(f, at), r)
  {
    hide ReachedWith;
    assert [0][0 := 1] == [1];
    Step(Limit(max), AtWaiting(Install, f, at), Visit(Install, APP), AtReserved(f, at), r);
  }

  lemma SendsReserved(max: nat, f: nat, at: Option<Phase>, r: nat)
    requires ReachedWith(Limit(max), AtReserved(f, at), r)
    ensures ReachedWith(Limit(max), AtSent(Install, f), r)
  {
    hide ReachedWith;
    var none: seq<Worker>, nowhere: map<Worker, Phase> := [], map[];
    assert none + [APP] == [APP] && nowhere[APP := Install] == map[APP := Install];
    assert forall q: Phase :: map[APP := q][APP := Install] == map[APP := Install];
    Step(Limit(max), AtReserved(f, at), Send, AtSent(Install, f), r);
  }

  lemma Marks(max: nat, p: Phase, f: nat, r: nat)
    requires ReachedWith(Limit(max), AtSent(p, f), r)
    ensures ReachedWith(Limit(max), AtMarked(p, f), r)
  {
    hide ReachedWith;
    var none: set<Worker> := {};
    assert none + {APP} == {APP};
    Step(Limit(max), AtSent(p, f), Mark(p), AtMarked(p, f), r);
  }

  function AtHeld(p: Phase, f: nat): State {
    Shape(PhaseInfo(p, PendingStatus(p), f), p, Listed0().(chan := [APP], hnd := HToken, pool := 1), true, Some(p), 0)
  }

  lemma Acquires(max: nat, p: Phase, f: nat, r: nat)
    requires ReachedWith(Limit(max), AtMarked(p, f), r) && p != Install
    ensures ReachedWith(Limit(max), AtHeld(p, f), r)
  {
    hide ReachedWith;
    Step(Limit(max), AtMarked(p, f), Acquire(p), AtHeld(p, f), r);
  }

  lemma Receives(max: nat, p: Phase, f: nat, r: nat)
    requires ReachedWith(Limit(max), if p == Install then AtMarked(p, f) else AtHeld(p, f), r)
    ensures ReachedWith(Limit(max), AtTaken(p, f), r)
  {
    hide ReachedWith;
    assert [APP][1..] == [];
    Step(Limit(max), if p == Install then AtMarked(p, f) else AtHeld(p, f), Receive(p), AtTaken(p, f), r);
  }

  lemma Starts(max: nat, p: Phase, f: nat, r: nat)
    requires ReachedWith(Limit(max), AtTaken(p, f), r)
    ensures ReachedWith(Limit(max), AtRunning(p, f), r)
  {
    hide ReachedWith;
    var none: seq<Worker> := [];
    assert none + [APP] == [APP];
    if p == Download {
      StartsDownload(max, f, r);
    } else {
      Step(Limit(max), AtTaken(p, f), StartRun(p), AtRunning(p, f), r);
    }
  }

  lemma StartsDownload(max: nat, f: nat, r: nat)
    requires ReachedWith(Limit(max), AtTaken(Download, f), r)
    ensures ReachedWith(Limit(max), AtRunning(Download, f), r)
  {
    hide ReachedWith;
    DownloadStarted(f);
    hide DoHandleDownload;
    Step(Limit(max), AtTaken(Download, f), HandleDownload(StartDownload), AtRunning(Download, f), r);
  }

  lemma DownloadStarted(f: nat)
    ensures DoHandleDownload(AtTaken(Download, f), APP, StartDownload) == AtRunning(Download, f)
  {
    var none: seq<Worker> := [];
    assert none + [APP] == [APP];
    var i := PhaseInfo(Download, DownloadPending, f);
    assert map[Main(0) := i][Main(0) := i.(status := DownloadInProgress)] == map[Main(0) := i.(status := DownloadInProgress)];
  }

  /** From the queue to the run. */
  lemma Goes(max: nat, p: Phase, f: nat, at: Option<Phase>, r: nat)
    requires ReachedWith(Limit(max), AtWaiting(p, f, at), r) && f <= max
    ensures ReachedWith(Limit(max), AtRunning(p, f), r)
  {
    hide ReachedWith, AtWaiting, AtSent, AtMarked, AtTaken, AtRunning, AtHeld, AtReserved;
    if p == Install {
      Reserves(max, f, at, r);
      SendsReserved(max, f, at, r);
    } else {
      Sends(max, p, f, at, r);
    }
    Marks(max, p, f, r);
    if p != Install { Acquires(max, p, f, r); }
    Receives(max, p, f, r);
    Starts(max, p, f, r);
  }

  /******* How it ends *******/

  lemma Overwrites(i: PhaseInfo, j: PhaseInfo)
    ensures map[Main(0) := i][Main(0) := j] == map[Main(0) := j]
    ensures RemoveAt([APP], 0) == [] && {APP} - {APP} == {}
  {
  }

  lemma DownloadFailed(f: nat)
    requires f + 1 < UINT32
    ensures DoFinishDownload(AtRunning(Download, f), 0, false, false) == AtWaiting(Download, f + 1, Some(Download))
  {
    Overwrites(PhaseInfo(Download, DownloadInProgress, f), PhaseInfo(Download, DownloadPending, f + 1));
    hide RemoveAt;
  }

  lemma CopyFailedOnce(max: nat, f: nat)
    requires f + 1 < UINT32
    ensures DoFinishCopy(Limit(max), AtRunning(PodCopy, f), 0, CopyFailed) == AtWaiting(PodCopy, f + 1, Some(PodCopy))
  {
    Overwrites(PhaseInfo(PodCopy, PodCopyPending, f), PhaseInfo(PodCopy, PodCopyPending, f + 1));
    hide RemoveAt;
  }

  lemma InstallFailedOnce(max: nat, f: nat)
    requires f + 1 < UINT32
    ensures DoFailInstall(Limit(max), AtRunning(Install, f), 0, Counted) == AtWaiting(Install, f + 1, Some(Install))
  {
    Overwrites(PhaseInfo(Install, InstallPending, f), PhaseInfo(Install, InstallPending, f + 1));
    assert [1][0 := 0] == [0];
    hide RemoveAt;
  }

  /** A run fails and is counted. */
  lemma Fails(max: nat, p: Phase, f: nat, r: nat)
    requires ReachedWith(Limit(max), AtRunning(p, f), r) && f + 1 < UINT32
    ensures ReachedWith(Limit(max), AtWaiting(p, f + 1, Some(p)), r + 1)
  {
    hide ReachedWith, AtRunning, AtPassed, AtWaiting;
    match p
    case Download => FailsDownload(max, f, r);
    case PodCopy => FailsPodCopy(max, f, r);
    case Install => FailsInstall(max, f, r);
  }

  lemma FailsDownload(max: nat, f: nat, r: nat)
    requires ReachedWith(Limit(max), AtRunning(Download, f), r) && f + 1 < UINT32
    ensures ReachedWith(Limit(max), AtWaiting(Download, f + 1, Some(Download)), r + 1)
  {
    hide ReachedWith;
    DownloadFailed(f);
    hide DoFinishDownload;
    Step(Limit(max), AtRunning(Download, f), FinishDownload(0, false, false), AtWaiting(Download, f + 1, Some(Download)), r);
  }

  lemma FailsPodCopy(max: nat, f: nat, r: nat)
    requires ReachedWith(Limit(max), AtRunning(PodCopy, f), r) && f + 1 < UINT32
    ensures ReachedWith(Limit(max), AtWaiting(PodCopy, f + 1, Some(PodCopy)), r + 1)
  {
    hide ReachedWith;
    CopyFailedOnce(max, f);
    hide DoFinishCopy;
    Step(Limit(max), AtRunning(PodCopy, f), FinishCopy(0, CopyFailed), AtWaiting(PodCopy, f + 1, Some(PodCopy)), r);
  }

  lemma FailsInstall(max: nat, f: nat, r: nat)
    requires ReachedWith(Limit(max), AtRunning(Install, f), r) && f + 1 < UINT32
    ensures ReachedWith(Limit(max), AtWaiting(Install, f + 1, Some(Install)), r + 1)
  {
    hide ReachedWith;
    InstallFailedOnce(max, f);
    hide DoFailInstall;
    Step(Limit(max), AtRunning(Install, f), FailInstall(0, Counted), AtWaiting(Install, f + 1, Some(Install)), r);
  }

  lemma DownloadPassed(f: nat)
    ensures DoFinishDownload(AtRunning(Download, f), 0, true, false) == AtPassed(Download, f)
  {
    Overwrites(PhaseInfo(Download, DownloadInProgress, f), PhaseInfo(Download, DownloadComplete, 0));
    var packages: set<nat> := {0};
    assert packages + {0} == packages;
    hide RemoveAt;
  }

  lemma CopyPassed(max: nat, f: nat)
    ensures DoFinishCopy(Limit(max), AtRunning(PodCopy, f), 0, Copied) == AtPassed(PodCopy, f)
  {
    Overwrites(PhaseInfo(PodCopy, PodCopyPending, f), PhaseInfo(PodCopy, PodCopyComplete, f));
    hide RemoveAt;
  }

  lemma InstallPassed(max: nat, f: nat)
    ensures DoMarkInstalled(Limit(max), AtRunning(Install, f), 0) == AtPassed(Install, f)
  {
    Overwrites(PhaseInfo(Install, InstallPending, f), PhaseInfo(Install, InstallComplete, 0));
    var none: seq<Worker> := [];
    assert none + [APP] == [APP];
    hide RemoveAt;
  }

  /** A run succeeds. */
  lemma Passes(max: nat, p: Phase, f: nat, r: nat)
    requires ReachedWith(Limit(max), AtRunning(p, f), r)
    ensures ReachedWith(Limit(max), AtPassed(p, f), r + 1)
  {
    hide ReachedWith, AtRunning, AtPassed, AtWaiting;
    match p
    case Download => PassesDownload(max, f, r);
    case PodCopy => PassesPodCopy(max, f, r);
    case Install => PassesInstall(max, f, r);
  }

  lemma PassesDownload(max: nat, f: nat, r: nat)
    requires ReachedWith(Limit(max), AtRunning(Download, f), r)
    ensures ReachedWith(Limit(max), AtPassed(Download, f), r + 1)
  {
    hide ReachedWith;
    DownloadPassed(f);
    hide DoFinishDownload;
    Step(Limit(max), AtRunning(Download, f), FinishDownload(0, true, false), AtPassed(Download, f), r);
  }

  lemma PassesPodCopy(max: nat, f: nat, r: nat)
    requires ReachedWith(Limit(max), AtRunning(PodCopy, f), r)
    ensures ReachedWith(Limit(max), AtPassed(PodCopy, f), r + 1)
  {
    hide ReachedWith;
    CopyPassed(max, f);
    hide DoFinishCopy;
    Step(Limit(max), AtRunning(PodCopy, f), FinishCopy(0, Copied), AtPassed(PodCopy, f), r);
  }

  lemma PassesInstall(max: nat, f: nat, r: nat)
    requires ReachedWith(Limit(max), AtRunning(Install, f), r)
    ensures ReachedWith(Limit(max), AtPassed(Install, f), r + 1)
  {
    hide ReachedWith;
    InstallPassed(max, f);
    hide DoMarkInstalled;
    Step(Limit(max), AtRunning(Install, f), MarkInstalled(0), AtPassed(Install, f), r);
  }

  /** A complete phase is followed by the next. */
  lemma Advances(max: nat, p: Phase, f: nat, r: nat)
    requires ReachedWith(Limit(max), AtPassed(p, f), r) && p != Install && f <= max
    ensures ReachedWith(Limit(max), AtLeaving(p), r)
  {
    hide ReachedWith;
    VisitAdvances(max, p, f);
    hide DoVisit;
    Step(Limit(max), AtPassed(p, f), Visit(p, APP), AtLeaving(p), r);
  }

  lemma VisitAdvances(max: nat, p: Phase, f: nat)
    requires p != Install && f <= max
    ensures DoVisit(Limit(max), AtPassed(p, f), p, APP) == AtLeaving(p)
  {
    var none: set<Worker>, empty: multiset<Worker> := {}, multiset{};
    assert none - {APP} == {} && empty + multiset{APP} == multiset{APP} && map[APP := p] - {APP} == map[];
    var n := NextPhase(p);
    Overwrites(AtPassed(p, f).info[Main(0)], PhaseInfo(n, PendingStatus(n), 0));
  }

  lemma Detaches(max: nat, p: Phase, r: nat)
    requires ReachedWith(Limit(max), AtLeaving(p), r) && p != Install
    ensures ReachedWith(Limit(max), AtWaiting(NextPhase(p), 0, None), r)
  {
    hide ReachedWith;
    assert multiset{APP} - multiset{APP} == multiset{};
    Step(Limit(max), AtLeaving(p), Detach(p), AtWaiting(NextPhase(p), 0, None), r);
  }

  /******* The whole run *******/

  /** A phase with as many failures as the limit allows, and then a success. */
  lemma {:induction false} FailsUpTo(max: nat, p: Phase, f: nat, at: Option<Phase>, r: nat) returns (at': Option<Phase>)
    requires ReachedWith(Limit(max), AtWaiting(p, 0, at), r) && f <= max && max + 1 < UINT32
    ensures ReachedWith(Limit(max), AtWaiting(p, f, at'), r + f)
  {
    hide ReachedWith, AtWaiting, AtRunning;
    if f == 0 {
      at' := at;
    } else {
      var before := FailsUpTo(max, p, f - 1, at, r);
      Goes(max, p, f - 1, before, r + f - 1);
      Fails(max, p, f - 1, r + f - 1);
      at' := Some(p);
    }
  }

  lemma WholePhase(max: nat, p: Phase, r: nat)
    requires ReachedWith(Limit(max), AtWaiting(p, 0, None), r) && max + 1 < UINT32
    ensures ReachedWith(Limit(max), AtPassed(p, max), r + max + 1)
  {
    hide ReachedWith, AtWaiting, AtRunning, AtPassed;
    var at := FailsUpTo(max, p, max, None, r);
    Goes(max, p, max, at, r + max);
    Passes(max, p, max, r + max);
  }

  function Begins(): State {
    State(map[Main(0) := NewContext(Download)], {}, {}, map[], PerPhase(NewPhase(), NewPhase(), NewPhase()), PerPhase(0, 0, 0),
          PerPhase(1, 1, 1), [0], {0}, Uninitialized, 3, 0, NotStarted, Creating({0}), false)
  }

  lemma Begun(max: nat)
    requires max < UINT32
    ensures ReachedWith(Limit(max), Begins(), 0)
  {
    var states, actions: seq<Action> := [Begins()], [];
    assert Counts(Limit(max), states, actions, 0, Begins(), 0);
  }

  lemma Created(max: nat)
    requires max < UINT32
    ensures ReachedWith(Limit(max), AtWaiting(Download, 0, None), 0)
  {
    hide ReachedWith;
    Begun(max);
    var none: set<Worker>, todo: set<nat>, empty: multiset<Worker> := {}, {0}, multiset{};
    assert none + {APP} == {APP} && todo - {0} == {} && empty + multiset{APP} == multiset{APP};
    Step(Limit(max), Begins(), Create(0), AtWaiting(Download, 0, None), 0);
  }

  /** For every limit: a run in which the app is installed after exactly 3 * (max + 1) runs, each a success or a counted
      failure. */
  lemma BoundAttained(max: nat) returns (s: State)
    requires max + 1 < UINT32
    ensures ReachedWith(Limit(max), s, 3 * (max + 1))
    ensures Main(0) in s.info && s.info[Main(0)] == PhaseInfo(Install, InstallComplete, 0)
  {
    s := AtPassed(Install, max);
    AllPhases(max);
    hide ReachedWith;
  }

  lemma AllPhases(max: nat)
    requires max + 1 < UINT32
    ensures ReachedWith(Limit(max), AtPassed(Install, max), 3 * (max + 1))
  {
    hide ReachedWith, AtWaiting, AtPassed, AtLeaving;
    Created(max);
    WholePhase(max, Download, 0);
    Advances(max, Download, max, max + 1);
    Detaches(max, Download, max + 1);
    WholePhase(max, PodCopy, max + 1);
    Advances(max, PodCopy, max, 2 * max + 2);
    Detaches(max, PodCopy, 2 * max + 2);
    WholePhase(max, Install, 2 * max + 2);
  }
}
