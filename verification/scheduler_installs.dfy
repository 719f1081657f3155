/** A run of a fan-out app from its finished download to its installation on the one replica it has. */
module SchedulerInstalls {
  import opened AppTypes
  import opened Scheduler
  import opened SchedulerInv
  import opened SchedulerQueues

  const CONFIG: Config := Config(Standalone, 1, 1, 1, [Local])

  const REPLICA: Worker := Replica(0, 0)

  function L0(): State {
    State(map[Main(0) := PhaseInfo(Download, DownloadComplete, 0)], {}, {}, map[], PerPhase(NewPhase(), NewPhase(), NewPhase()),
          PerPhase(0, 0, 0), PerPhase(1, 1, 1), [0], {0}, Uninitialized, 3, 0, NotStarted, Creating({0}), false)
  }

  function L1(): State {
    var s := L0();
    s.(entry := Creating({}), created := {Seed(0)}, ph := s.ph.(download := s.ph.download.(q := multiset{Seed(0)})))
  }

  function L2(): State {
    var s := L1();
    s.(info := s.info[Aux(0, 0) := NewContext(PodCopy)], created := {Seed(0), REPLICA},
         ph := s.ph.(download := s.ph.download.(mgr := Moving(Seed(0))), podCopy := s.ph.podCopy.(q := multiset{REPLICA})))
  }

  function L3(): State {
    var s := L2();
    s.(ph := s.ph.(download := NewPhase()))
  }

  function L4(): State {
    var s := L3();
    s.(waiter := map[REPLICA := PodCopy], ph := s.ph.(podCopy := s.ph.podCopy.(chan := [REPLICA], mgr := Marking(REPLICA))))
  }

  function L5(): State {
    var s := L4();
    s.(active := {REPLICA}, ph := s.ph.(podCopy := s.ph.podCopy.(mgr := Looping)))
  }

  function L6(): State {
    var s := L5();
    s.(ph := s.ph.(podCopy := s.ph.podCopy.(hnd := HToken, pool := 1)))
  }

  function L7(): State {
    var s := L6();
    s.(ph := s.ph.(podCopy := s.ph.podCopy.(hnd := HWork(REPLICA), chan := [])))
  }

  function L8(): State {
    State(map[Main(0) := PhaseInfo(Download, DownloadComplete, 0), Aux(0, 0) := NewContext(PodCopy)], {Seed(0), REPLICA}, {REPLICA},
          map[REPLICA := PodCopy], PerPhase(NewPhase(), NewPhase().(q := multiset{REPLICA}, pool := 1, runs := [REPLICA]), NewPhase()),
          PerPhase(0, 1, 0), PerPhase(1, 1, 1), [0], {0}, Uninitialized, 3, 0, NotStarted, Creating({}), false)
  }

  function L9(): State {
    var s := L8();
    s.(info := s.info[Aux(0, 0) := PhaseInfo(PodCopy, PodCopyComplete, 0)], active := {},
         ph := s.ph.(podCopy := s.ph.podCopy.(pool := 0, runs := [])), workerWaiter := PerPhase(0, 0, 0))
  }

  function L10(): State {
    var s := L9();
    s.(info := s.info[Aux(0, 0) := NewContext(Install)], waiter := map[],
         ph := s.ph.(podCopy := s.ph.podCopy.(mgr := Moving(REPLICA)), install := s.ph.install.(q := multiset{REPLICA})))
  }

  function L11(): State {
    State(map[Main(0) := PhaseInfo(Download, DownloadComplete, 0), Aux(0, 0) := NewContext(Install)], {Seed(0), REPLICA}, {}, map[],
          PerPhase(NewPhase(), NewPhase(), NewPhase().(q := multiset{REPLICA})), PerPhase(0, 0, 0), PerPhase(1, 1, 1), [0], {0},
          Uninitialized, 3, 0, NotStarted, Creating({}), false)
  }

  function L12(): State {
    var s := L11();
    s.(slots := [1], ph := s.ph.(install := s.ph.install.(mgr := Reserved(REPLICA))))
  }

  function L13(): State {
    var s := L12();
    s.(waiter := map[REPLICA := Install], ph := s.ph.(install := s.ph.install.(chan := [REPLICA], mgr := Marking(REPLICA))))
  }

  function L14(): State {
    var s := L13();
    s.(active := {REPLICA}, ph := s.ph.(install := s.ph.install.(mgr := Looping)))
  }

  function L15(): State {
    var s := L14();
    s.(ph := s.ph.(install := s.ph.install.(hnd := HWork(REPLICA), chan := [])))
  }

  function L16(): State {
    State(map[Main(0) := PhaseInfo(Download, DownloadComplete, 0), Aux(0, 0) := NewContext(Install)], {Seed(0), REPLICA}, {REPLICA},
          map[REPLICA := Install], PerPhase(NewPhase(), NewPhase(), NewPhase().(q := multiset{REPLICA}, runs := [REPLICA])),
          PerPhase(0, 0, 1), PerPhase(1, 1, 1), [1], {0}, Uninitialized, 3, 0, NotStarted, Creating({}), false)
  }

  function L17(): State {
    var s := L16();
    s.(info := s.info[Aux(0, 0) := PhaseInfo(Install, InstallComplete, 0)][Main(0) := PhaseInfo(Install, InstallComplete, 0)],
         ph := s.ph.(install := s.ph.install.(runs := [], cleaning := [REPLICA])))
  }

  function L18(): State {
    var s := L17();
    s.(active := {}, packages := {}, slots := [0], ph := s.ph.(install := s.ph.install.(cleaning := [])), workerWaiter := PerPhase(0, 0, 0))
  }

  function L19(): State {
    State(map[Main(0) := PhaseInfo(Install, InstallComplete, 0), Aux(0, 0) := PhaseInfo(Install, InstallComplete, 0)], {Seed(0), REPLICA}, {},
          map[REPLICA := Install], PerPhase(NewPhase(), NewPhase(), NewPhase()), PerPhase(0, 0, 0), PerPhase(1, 1, 1), [0], {},
          Uninitialized, 3, 0, NotStarted, Creating({}), false)
  }

  lemma FirstSplit()
    ensures Joins(CONFIG, L1().info, 0, PodCopy) == {REPLICA} && Joins(CONFIG, L1().info, 0, Install) == {}
    ensures SplitInfo(CONFIG, L1().info, 0) == L1().info[Aux(0, 0) := NewContext(PodCopy)]
  {
    assert NoReplicaRecords(L1().info, 0);
    assert Replicas(CONFIG, 0) == {REPLICA};
    assert FreshAux(CONFIG, 0) == map[Aux(0, 0) := NewContext(PodCopy)];
    assert L1().info + map[Aux(0, 0) := NewContext(PodCopy)] == L1().info[Aux(0, 0) := NewContext(PodCopy)];
  }

  lemma LastReplica()
    ensures AllInstalled(L16().info[Aux(0, 0) := PhaseInfo(Install, InstallComplete, 0)], 0)
  {
  }

  lemma AllDone()
    ensures AllInstalled(L17().info, 0)
  {
  }

  lemma Start()
    ensures Reached(CONFIG, L0())
  {
    hide Reached;
    StartReached(CONFIG, L0());
  }

  lemma Step1()
    requires Reached(CONFIG, L0())
    ensures Reached(CONFIG, L1())
  {
    hide Reached;
    var none: set<Worker>, todo: set<nat>, empty: multiset<Worker> := {}, {0}, multiset{};
    assert none + {Seed(0)} == {Seed(0)} && todo - {0} == {} && empty + multiset{Seed(0)} == multiset{Seed(0)};
    Follow(CONFIG, L0(), Create(0), L1());
  }

  lemma Step2()
    requires Reached(CONFIG, L1())
    ensures Reached(CONFIG, L2())
  {
    hide Reached;
    FirstSplit();
    hide Joins, SplitInfo;
    var none: set<Worker>, empty: multiset<Worker>, nowhere: map<Worker, Phase> := {}, multiset{}, map[];
    assert none - {Seed(0)} == {} && nowhere - {Seed(0)} == map[] && empty + multiset({REPLICA}) == multiset{REPLICA};
    assert empty + multiset(none) == empty && {Seed(0)} + {REPLICA} + none == {Seed(0), REPLICA};
    Follow(CONFIG, L1(), Visit(Download, Seed(0)), L2());
  }

  lemma Step3()
    requires Reached(CONFIG, L2())
    ensures Reached(CONFIG, L3())
  {
    hide Reached;
    assert multiset{Seed(0)} - multiset{Seed(0)} == multiset{};
    Follow(CONFIG, L2(), Detach(Download), L3());
  }

  lemma Step4()
    requires Reached(CONFIG, L3())
    ensures Reached(CONFIG, L4())
  {
    hide Reached;
    var none: seq<Worker>, nowhere: map<Worker, Phase> := [], map[];
    assert none + [REPLICA] == [REPLICA] && nowhere[REPLICA := PodCopy] == map[REPLICA := PodCopy];
    Follow(CONFIG, L3(), Visit(PodCopy, REPLICA), L4());
  }

  lemma Step5()
    requires Reached(CONFIG, L4())
    ensures Reached(CONFIG, L5())
  {
    hide Reached;
    Follow(CONFIG, L4(), Mark(PodCopy), L5());
  }

  lemma Step6()
    requires Reached(CONFIG, L5())
    ensures Reached(CONFIG, L6())
  {
    hide Reached;
    Follow(CONFIG, L5(), Acquire(PodCopy), L6());
  }

  lemma Step7()
    requires Reached(CONFIG, L6())
    ensures Reached(CONFIG, L7())
  {
    hide Reached;
    assert [REPLICA][1..] == [];
    Follow(CONFIG, L6(), Receive(PodCopy), L7());
  }

  lemma Step8()
    requires Reached(CONFIG, L7())
    ensures Reached(CONFIG, L8())
  {
    hide Reached;
    var none: seq<Worker> := [];
    assert none + [REPLICA] == [REPLICA];
    assert L7().info == L8().info;
    Follow(CONFIG, L7(), StartRun(PodCopy), L8());
  }

  lemma Step9()
    requires Reached(CONFIG, L8())
    ensures Reached(CONFIG, L9())
  {
    hide Reached;
    assert RemoveAt([REPLICA], 0) == [] && {REPLICA} - {REPLICA} == {};
    Follow(CONFIG, L8(), FinishCopy(0, Copied), L9());
  }

  lemma Step10()
    requires Reached(CONFIG, L9())
    ensures Reached(CONFIG, L10())
  {
    hide Reached;
    var none: set<Worker>, empty: multiset<Worker> := {}, multiset{};
    assert none - {REPLICA} == {} && map[REPLICA := PodCopy] - {REPLICA} == map[] && empty + multiset{REPLICA} == multiset{REPLICA};
    Follow(CONFIG, L9(), Visit(PodCopy, REPLICA), L10());
  }

  lemma Step11()
    requires Reached(CONFIG, L10())
    ensures Reached(CONFIG, L11())
  {
    hide Reached;
    assert multiset{REPLICA} - multiset{REPLICA} == multiset{};
    assert L10().info == L11().info;
    Follow(CONFIG, L10(), Detach(PodCopy), L11());
  }

  lemma Step12()
    requires Reached(CONFIG, L11())
    ensures Reached(CONFIG, L12())
  {
    hide Reached;
    assert [0][0 := 1] == [1];
    Follow(CONFIG, L11(), Visit(Install, REPLICA), L12());
  }

  lemma Step13()
    requires Reached(CONFIG, L12())
    ensures Reached(CONFIG, L13())
  {
    hide Reached;
    var none: seq<Worker>, nowhere: map<Worker, Phase> := [], map[];
    assert none + [REPLICA] == [REPLICA] && nowhere[REPLICA := Install] == map[REPLICA := Install];
    Follow(CONFIG, L12(), Send, L13());
  }

  lemma Step14()
    requires Reached(CONFIG, L13())
    ensures Reached(CONFIG, L14())
  {
    hide Reached;
    Follow(CONFIG, L13(), Mark(Install), L14());
  }

  lemma Step15()
    requires Reached(CONFIG, L14())
    ensures Reached(CONFIG, L15())
  {
    hide Reached;
    assert [REPLICA][1..] == [];
    Follow(CONFIG, L14(), Receive(Install), L15());
  }

  lemma Step16()
    requires Reached(CONFIG, L15())
    ensures Reached(CONFIG, L16())
  {
    hide Reached;
    var none: seq<Worker> := [];
    assert none + [REPLICA] == [REPLICA];
    Follow(CONFIG, L15(), StartRun(Install), L16());
  }

  lemma Step17()
    requires Reached(CONFIG, L16())
    ensures Reached(CONFIG, L17())
  {
    hide Reached;
    LastReplica();
    hide AllInstalled;
    var none: seq<Worker> := [];
    assert RemoveAt([REPLICA], 0) == [] && none + [REPLICA] == [REPLICA];
    Follow(CONFIG, L16(), MarkInstalled(0), L17());
  }

  lemma Step18()
    requires Reached(CONFIG, L17())
    ensures Reached(CONFIG, L18())
  {
    hide Reached;
    AllDone();
    hide AllInstalled;
    var packages: set<nat> := {0};
    assert RemoveAt([REPLICA], 0) == [] && {REPLICA} - {REPLICA} == {} && packages - {0} == {} && [1][0 := 0] == [0];
    Follow(CONFIG, L17(), FinishInstall(0, true, true), L18());
  }

  lemma Step19()
    requires Reached(CONFIG, L18())
    ensures Reached(CONFIG, L19())
  {
    hide Reached;
    assert multiset{REPLICA} - multiset{REPLICA} == multiset{};
    assert L18().info == L19().info;
    Follow(CONFIG, L18(), Visit(Install, REPLICA), L19());
  }

  /** The app is installed, its package is gone, nothing is left to do, and the entry will not ask for another visit. */
  lemma InstalledOnReplica() returns (s: State)
    ensures Reached(CONFIG, s) && MainInstalled(s, 0) && Aux(0, 0) in s.info && s.info[Aux(0, 0)] == PhaseInfo(Install, InstallComplete, 0)
    ensures s.packages == {} && s.active == {} && PipelineEmpty(s) && !NeedsRevisit(CONFIG, s, true)
  {
    s := L19();
    assert Reached(CONFIG, L19()) by {
      hide Reached;
      hide L0, L1, L2, L3, L4, L5, L6, L7, L8, L9, L10, L11, L12, L13, L14, L15, L16, L17, L18, L19;
      Start();
      Step1();
      Step2();
      Step3();
      Step4();
      Step5();
      Step6();
      Step7();
      Step8();
      Step9();
      Step10();
      Step11();
      Step12();
      Step13();
      Step14();
      Step15();
      Step16();
      Step17();
      Step18();
      Step19();
    }
    hide Reached;
  }
}
