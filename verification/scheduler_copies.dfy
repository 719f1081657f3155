/** A run in which a worker is twice in one queue, and three times in all: it is sent back from install to pod copy, is
    copied, and comes to the install queue again before the install manager has removed it there. */
module SchedulerCopies {
  import opened AppTypes
  import opened Scheduler
  import opened SchedulerQueues

  const CONFIG: Config := Config(LicenseManager, 1, 1, 1, [Local])

  const APP: Worker := Seed(0)

  // An app whose package was missing on its pod when it was to be installed.
  function C0(): State {
    State(map[Main(0) := PhaseInfo(Install, MissingOnPod, 0)], {}, {}, map[], PerPhase(NewPhase(), NewPhase(), NewPhase()),
          PerPhase(0, 0, 0), PerPhase(1, 1, 1), [0], {0}, Uninitialized, 3, 0, NotStarted, Creating({0}), false)
  }

  function C1(): State {
    var s := C0();
    s.(entry := Creating({}), created := {APP}, ph := s.ph.(install := s.ph.install.(q := multiset{APP})))
  }

  function C2(): State {
    var s := C1();
    s.(info := map[Main(0) := NewContext(PodCopy)],
         ph := s.ph.(podCopy := s.ph.podCopy.(q := multiset{APP}), install := s.ph.install.(mgr := Moving(APP))))
  }

  function C3(): State {
    var s := C2();
    s.(waiter := map[APP := PodCopy], ph := s.ph.(podCopy := s.ph.podCopy.(chan := [APP], mgr := Marking(APP))))
  }

  function C4(): State {
    var s := C3();
    s.(active := {APP}, ph := s.ph.(podCopy := s.ph.podCopy.(mgr := Looping)))
  }

  function C5(): State {
    var s := C4();
    s.(ph := s.ph.(podCopy := s.ph.podCopy.(hnd := HToken, pool := 1)))
  }

  function C6(): State {
    var s := C5();
    s.(ph := s.ph.(podCopy := s.ph.podCopy.(hnd := HWork(APP), chan := [])))
  }

  function C7(): State {
    var s := C6();
    s.(ph := s.ph.(podCopy := s.ph.podCopy.(hnd := HIdle, runs := [APP])), workerWaiter := PerPhase(0, 1, 0))
  }

  function C8(): State {
    var s := C7();
    s.(info := map[Main(0) := PhaseInfo(PodCopy, PodCopyComplete, 0)], active := {},
         ph := s.ph.(podCopy := s.ph.podCopy.(pool := 0, runs := [])), workerWaiter := PerPhase(0, 0, 0))
  }

  function C9(): State {
    var s := C8();
    s.(info := map[Main(0) := NewContext(Install)], waiter := map[],
         ph := s.ph.(podCopy := s.ph.podCopy.(mgr := Moving(APP)), install := s.ph.install.(q := multiset{APP, APP})))
  }

  lemma Start()
    ensures Reached(CONFIG, C0())
  {
    hide Reached;
    StartReached(CONFIG, C0());
  }

  lemma Step1()
    requires Reached(CONFIG, C0())
    ensures Reached(CONFIG, C1())
  {
    hide Reached;
    var none: set<Worker>, todo: set<nat>, empty: multiset<Worker> := {}, {0}, multiset{};
    assert none + {APP} == {APP} && todo - {0} == {} && empty + multiset{APP} == multiset{APP};
    Follow(CONFIG, C0(), Create(0), C1());
  }

  lemma Step2()
    requires Reached(CONFIG, C1())
    ensures Reached(CONFIG, C2())
  {
    hide Reached;
    var none: set<Worker>, empty: multiset<Worker>, nowhere: map<Worker, Phase> := {}, multiset{}, map[];
    assert none - {APP} == {} && nowhere - {APP} == map[] && empty + multiset{APP} == multiset{APP};
    assert C1().info[Main(0) := NewContext(PodCopy)] == map[Main(0) := NewContext(PodCopy)];
    Follow(CONFIG, C1(), Visit(Install, APP), C2());
  }

  lemma Step3()
    requires Reached(CONFIG, C2())
    ensures Reached(CONFIG, C3())
  {
    hide Reached;
    var none: seq<Worker>, nowhere: map<Worker, Phase> := [], map[];
    assert none + [APP] == [APP] && nowhere[APP := PodCopy] == map[APP := PodCopy];
    Follow(CONFIG, C2(), Visit(PodCopy, APP), C3());
  }

  lemma Step4()
    requires Reached(CONFIG, C3())
    ensures Reached(CONFIG, C4())
  {
    hide Reached;
    Follow(CONFIG, C3(), Mark(PodCopy), C4());
  }

  lemma Step5()
    requires Reached(CONFIG, C4())
    ensures Reached(CONFIG, C5())
  {
    hide Reached;
    Follow(CONFIG, C4(), Acquire(PodCopy), C5());
  }

  lemma Step6()
    requires Reached(CONFIG, C5())
    ensures Reached(CONFIG, C6())
  {
    hide Reached;
    assert [APP][1..] == [];
    Follow(CONFIG, C5(), Receive(PodCopy), C6());
  }

  lemma Step7()
    requires Reached(CONFIG, C6())
    ensures Reached(CONFIG, C7())
  {
    hide Reached;
    var none: seq<Worker> := [];
    assert none + [APP] == [APP];
    Follow(CONFIG, C6(), StartRun(PodCopy), C7());
  }

  lemma Step8()
    requires Reached(CONFIG, C7())
    ensures Reached(CONFIG, C8())
  {
    hide Reached;
    assert RemoveAt([APP], 0) == [] && {APP} - {APP} == {};
    assert C7().info[Main(0) := PhaseInfo(PodCopy, PodCopyComplete, 0)] == map[Main(0) := PhaseInfo(PodCopy, PodCopyComplete, 0)];
    Follow(CONFIG, C7(), FinishCopy(0, Copied), C8());
  }

  lemma Step9()
    requires Reached(CONFIG, C8())
    ensures Reached(CONFIG, C9())
  {
    hide Reached;
    var none: set<Worker> := {};
    assert none - {APP} == {} && C8().waiter - {APP} == map[] && multiset{APP} + multiset{APP} == multiset{APP, APP};
    assert C8().info[Main(0) := NewContext(Install)] == map[Main(0) := NewContext(Install)];
    Follow(CONFIG, C8(), Visit(PodCopy, APP), C9());
  }

  /** Two transitions of one worker can be under way at once. */
  lemma TwoCopiesInOneQueue() returns (s: State, w: Worker)
    ensures Reached(CONFIG, s) && s.ph.install.q[w] == 2 && Copies(s, w) == 3 && MovesOf(s, w) == 2
  {
    s, w := C9(), APP;
    assert Reached(CONFIG, C9()) by {
      hide Reached;
      hide C0, C1, C2, C3, C4, C5, C6, C7, C8, C9;
      Start();
      Step1();
      Step2();
      Step3();
      Step4();
      Step5();
      Step6();
      Step7();
      Step8();
      Step9();
    }
    hide Reached;
  }
}
