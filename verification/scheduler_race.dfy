/** A run in which the scheduler yields while an app is being copied to a cluster manager: the copy ends before the
    bundle push is seen to be finished, and nobody removes the app from the pod-copy queue any more. */
module SchedulerRace {
  import opened AppTypes
  import opened Scheduler
  import opened SchedulerInv
  import opened SchedulerQueues

  const CONFIG: Config := Config(ClusterManager, 1, 1, 1, [Cluster])

  const APP: Worker := Seed(0)

  // A bundle push is in progress and one cluster-scoped app waits for its copy.
  function R0(): State {
    State(map[Main(0) := NewContext(PodCopy)], {}, {}, map[], PerPhase(NewPhase(), NewPhase(), NewPhase()),
          PerPhase(0, 0, 0), PerPhase(1, 1, 1), [0], {0}, InProgress, 3, 0, NotStarted, Creating({0}), false)
  }

  function R1(): State {
    var s := R0();
    s.(entry := Creating({}), created := {APP}, ph := s.ph.(podCopy := s.ph.podCopy.(q := multiset{APP})))
  }

  function R2(): State {
    var s := R1();
    s.(entry := Waiting, yield_ := Watching, phaseWaiter := 4)
  }

  function R3(): State {
    var s := R2();
    s.(waiter := map[APP := PodCopy], ph := s.ph.(podCopy := s.ph.podCopy.(chan := [APP], mgr := Marking(APP))))
  }

  function R4(): State {
    var s := R3();
    s.(active := {APP}, ph := s.ph.(podCopy := s.ph.podCopy.(mgr := Looping)))
  }

  function R5(): State {
    var s := R4();
    s.(ph := s.ph.(podCopy := s.ph.podCopy.(hnd := HToken, pool := 1)))
  }

  function R6(): State {
    var s := R5();
    s.(ph := s.ph.(podCopy := s.ph.podCopy.(hnd := HWork(APP), chan := [])))
  }

  function R7(): State {
    var s := R6();
    s.(ph := s.ph.(podCopy := s.ph.podCopy.(hnd := HIdle, runs := [APP])), workerWaiter := PerPhase(0, 1, 0))
  }

  function R8(): State {
    var s := R7();
    s.(yield_ := Yielded, sigTermCloses := 1, phaseWaiter := 3)
  }

  function R9(): State {
    var s := R8();
    s.(ph := s.ph.(install := s.ph.install.(mgr := Closing, closed := true)))
  }

  function R10(): State {
    var s := R9();
    s.(ph := s.ph.(install := s.ph.install.(hnd := HCluster)))
  }

  function R11(): State {
    var s := R10();
    s.(info := map[Main(0) := PhaseInfo(PodCopy, PodCopyComplete, 0)], active := {}, packages := {},
         ph := s.ph.(podCopy := s.ph.podCopy.(pool := 0, runs := [])), workerWaiter := PerPhase(0, 0, 0))
  }

  function R12(): State {
    var s := R11();
    s.(stage := Complete, info := map[Main(0) := PhaseInfo(Install, InstallComplete, 0)])
  }

  lemma Start()
    ensures Reached(CONFIG, R0())
  {
    hide Reached;
    StartReached(CONFIG, R0());
  }

  lemma Step1()
    requires Reached(CONFIG, R0())
    ensures Reached(CONFIG, R1())
  {
    hide Reached;
    var none: set<Worker>, todo: set<nat>, empty: multiset<Worker> := {}, {0}, multiset{};
    assert none + {APP} == {APP} && todo - {0} == {} && empty + multiset{APP} == multiset{APP};
    Follow(CONFIG, R0(), Create(0), R1());
  }

  lemma Step2()
    requires Reached(CONFIG, R1())
    ensures Reached(CONFIG, R2())
  {
    hide Reached;
    Follow(CONFIG, R1(), StartYield, R2());
  }

  lemma Step3()
    requires Reached(CONFIG, R2())
    ensures Reached(CONFIG, R3())
  {
    hide Reached;
    var none: seq<Worker>, nowhere: map<Worker, Phase> := [], map[];
    assert none + [APP] == [APP] && nowhere[APP := PodCopy] == map[APP := PodCopy];
    Follow(CONFIG, R2(), Visit(PodCopy, APP), R3());
  }

  lemma Step4()
    requires Reached(CONFIG, R3())
    ensures Reached(CONFIG, R4())
  {
    hide Reached;
    Follow(CONFIG, R3(), Mark(PodCopy), R4());
  }

  lemma Step5()
    requires Reached(CONFIG, R4())
    ensures Reached(CONFIG, R5())
  {
    hide Reached;
    Follow(CONFIG, R4(), Acquire(PodCopy), R5());
  }

  lemma Step6()
    requires Reached(CONFIG, R5())
    ensures Reached(CONFIG, R6())
  {
    hide Reached;
    assert [APP][1..] == [];
    Follow(CONFIG, R5(), Receive(PodCopy), R6());
  }

  lemma Step7()
    requires Reached(CONFIG, R6())
    ensures Reached(CONFIG, R7())
  {
    hide Reached;
    var none: seq<Worker> := [];
    assert none + [APP] == [APP];
    Follow(CONFIG, R6(), StartRun(PodCopy), R7());
  }

  lemma Step8()
    requires Reached(CONFIG, R7())
    ensures Reached(CONFIG, R8())
  {
    hide Reached;
    Follow(CONFIG, R7(), YieldNow, R8());
  }

  lemma Step9()
    requires Reached(CONFIG, R8())
    ensures Reached(CONFIG, R9())
  {
    hide Reached;
    Follow(CONFIG, R8(), Stop(Install), R9());
  }

  lemma Step10()
    requires Reached(CONFIG, R9())
    ensures Reached(CONFIG, R10())
  {
    hide Reached;
    Follow(CONFIG, R9(), HandlerClosed(Install), R10());
  }

  lemma Step11()
    requires Reached(CONFIG, R10())
    ensures Reached(CONFIG, R11())
  {
    hide Reached;
    var packages: set<nat> := {0};
    assert RemoveAt([APP], 0) == [] && {APP} - {APP} == {} && packages - {0} == {};
    assert R10().info[Main(0) := PhaseInfo(PodCopy, PodCopyComplete, 0)] == map[Main(0) := PhaseInfo(PodCopy, PodCopyComplete, 0)];
    Follow(CONFIG, R10(), FinishCopy(0, Copied), R11());
  }

  lemma Step12()
    requires Reached(CONFIG, R11())
    ensures Reached(CONFIG, R12())
  {
    hide Reached;
    Follow(CONFIG, R11(), WriteStage(Complete), R12());
  }

  /** The queue of a worker can disagree with its record: this state is reached. */
  lemma QueueDisagrees()
    ensures exists s, w :: Reached(CONFIG, s) && InQueue(s, PodCopy, w) && Own(w) in s.info && s.info[Own(w)].phase == Install
  {
    assert Reached(CONFIG, R12()) by {
      hide Reached;
      hide R0, R1, R2, R3, R4, R5, R6, R7, R8, R9, R10, R11, R12;
      Start();
      Step1();
      Step2();
      Step3();
      Step4();
      Step5();
      Step6();
      Step7();
      Step8();
      Step9();
      Step10();
      Step11();
      Step12();
    }
    hide Reached;
    assert InQueue(R12(), PodCopy, APP);
  }
}
