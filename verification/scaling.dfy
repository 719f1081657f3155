/** Scaling a fan-out resource, reconcile by reconcile, and what becomes of its replica records: when the scheduler meets
    a record beyond the replica count. */
module Scaling {
  import opened AppTypes
  import opened FanOut

  // The replica records of an app, the stateful set's replica count, the ready replicas the last reconcile recorded, and
  // the count the resource asks for.
  datatype State = State(aux: seq<PhaseInfo>, count: nat, recorded: nat, desired: nat)

  // A reconcile meets some ready replicas. It may stop before it updates the stateful set (reached), be refused the update
  // (applied), find other work on the pods (settled), and fail to save the status. If the scheduler runs it leaves
  // the records after.
  datatype Step =
    | Ask(desired: nat)
    | NewApp
    | Reconcile(ready: nat, reached: bool, applied: bool, settled: bool, saved: bool, after: seq<PhaseInfo>)

  /** The records are adapted first, if a ready replica is on record. */
  function Rescaled(s: State): seq<PhaseInfo> {
    if s.recorded == 0 then s.aux
    else if s.count < s.desired then
      if s.aux == [] || |s.aux| >= s.desired then s.aux else s.aux + seq(s.desired - |s.aux|, i => NewContext(PodCopy))
    else if s.count > s.desired then
      if |s.aux| > s.desired then s.aux[..s.desired] else s.aux
    else s.aux
  }

  /** Then the stateful set, once all its replicas are ready: up in one go, down by one. */
  function NextCount(s: State, a: Step): nat
    requires a.Reconcile?
  {
    if !a.reached || !a.applied || a.ready != s.count then s.count
    else if a.ready < s.desired then s.desired
    else if a.ready > s.desired then s.count - 1
    else s.count
  }

  /** The scheduler runs when nothing is left to scale or to update. */
  predicate RunsScheduler(s: State, a: Step) {
    a.Reconcile? && a.reached && a.settled && a.ready == s.count == s.desired
  }

  predicate Crashes(seed: Seed, s: State, a: Step) {
    RunsScheduler(s, a) && Surplus(seed.(replicas := s.count), Rescaled(s))
  }

  predicate Ready(seed: Seed, s: State, a: Step) {
    RunsScheduler(s, a) && !Crashes(seed, s, a) ==> |a.after| == (if Rescaled(s) == [] then s.count else |Rescaled(s)|)
  }

  /** A crash saves nothing. A status that is not saved is lost, a change of the stateful set is not. */
  function Next(seed: Seed, s: State, a: Step): State {
    match a
    case Ask(desired) => s.(desired := desired)
    case NewApp => s.(aux := [])
    case Reconcile(ready, reached, _, _, saved, after) =>
      if Crashes(seed, s, a) then s
      else
        var s1 := s.(count := NextCount(s, a));
        if !saved then s1
        else s1.(aux := if RunsScheduler(s, a) then after else Rescaled(s), recorded := if reached then ready else s.recorded)
  }

  predicate IsRun(seed: Seed, states: seq<State>, steps: seq<Step>) {
    && |states| == |steps| + 1 && states[0].aux == []
    && forall n :: 0 <= n < |steps| ==> Ready(seed, states[n], steps[n]) && states[n + 1] == Next(seed, states[n], steps[n])
  }

  /******* How many records there are *******/

  /** Step m changes the number of records. */
  predicate Sizes(states: seq<State>, m: nat)
    requires m + 1 < |states|
  {
    |states[m + 1].aux| != |states[m].aux|
  }

  /** Step m is the last one before n to do so. */
  predicate LastSized(states: seq<State>, m: nat, n: nat)
    requires m < n < |states|
  {
    Sizes(states, m) && forall k :: m < k < n ==> !Sizes(states, k)
  }

  lemma StepSizes(seed: Seed, s: State, a: Step)
    requires Ready(seed, s, a)
    ensures var s' := Next(seed, s, a); |s'.aux| == |s.aux| || |s'.aux| == 0 || |s'.aux| == s.desired
  {
  }

  lemma {:induction false} SameSize(states: seq<State>, m: nat, n: nat)
    requires m < n < |states| && forall k :: m < k < n ==> !Sizes(states, k)
    ensures |states[n].aux| == |states[m + 1].aux|
  {
    if n == m + 1 {
    } else {
      SameSize(states, m, n - 1);
      assert !Sizes(states, n - 1);
    }
  }

  /** The records, if there are any, are as many as were asked for when their number last changed. */
  lemma {:induction false} SizedAsAsked(seed: Seed, states: seq<State>, steps: seq<Step>, n: nat) returns (m: nat)
    requires IsRun(seed, states, steps) && n < |states| && states[n].aux != []
    ensures m < n && LastSized(states, m, n) && |states[n].aux| == |states[m + 1].aux| == states[m].desired
  {
    hide Ready, Next;
    if n == 0 {
      assert false;
    } else {
      assert Ready(seed, states[n - 1], steps[n - 1]) && states[n] == Next(seed, states[n - 1], steps[n - 1]);
      if Sizes(states, n - 1) {
        StepSizes(seed, states[n - 1], steps[n - 1]);
        m := n - 1;
      } else {
        m := SizedAsAsked(seed, states, steps, n - 1);
      }
    }
  }

  /******* When there are too many *******/

  /** Step k lowers the stateful set below l without leaving the records adapted: no ready replica was on record, or the
      status was not saved. */
  predicate LowersUnseen(states: seq<State>, steps: seq<Step>, k: nat, l: nat)
    requires k < |steps| && k + 1 < |states|
  {
    && states[k].count == l && states[k + 1].count < l
    && steps[k].Reconcile? && (states[k].recorded == 0 || !steps[k].saved)
  }

  predicate ComesDownUnseen(states: seq<State>, steps: seq<Step>, m: nat, n: nat, l: nat)
    requires m < n < |states| && |states| == |steps| + 1
  {
    exists k :: m < k < n && LowersUnseen(states, steps, k, l)
  }

  /** The stateful set has stayed below l between two points. */
  predicate NeverReached(states: seq<State>, m: nat, n: nat, l: nat)
    requires m < n < |states|
  {
    forall j :: m < j <= n ==> states[j].count < l
  }

  lemma StepLowers(seed: Seed, s: State, a: Step, l: nat)
    requires s.count >= l && Next(seed, s, a).count < l && |s.aux| == |Next(seed, s, a).aux| == l
    ensures s.count == l && a.Reconcile? && (s.recorded == 0 || !a.saved)
  {
  }

  // Somewhere between j and n the count falls below l.
  lemma {:induction false} Crossing(states: seq<State>, j: nat, n: nat, l: nat) returns (k: nat)
    requires j <= n < |states| && states[j].count >= l && states[n].count < l
    ensures j <= k < n && states[k].count >= l && states[k + 1].count < l
  {
    if states[n - 1].count >= l {
      k := n - 1;
    } else {
      k := Crossing(states, j, n - 1, l);
    }
  }

  /** What led to more records than replicas: they were last sized for a larger count, and since then the stateful set has
      either never got there or come down past it unseen. */
  ghost predicate Oversized(states: seq<State>, steps: seq<Step>, n: nat, m: nat)
    requires m < n < |states| && |states| == |steps| + 1
  {
    && LastSized(states, m, n) && |states[m + 1].aux| > states[n].desired
    && (|| NeverReached(states, m, n, |states[m + 1].aux|)
        || ComesDownUnseen(states, steps, m, n, |states[m + 1].aux|))
  }

  /** Where the stateful set has what is asked for, there are more records than replicas if and only if one of the two
      things happened. */
  lemma OversizedExactly(seed: Seed, states: seq<State>, steps: seq<Step>, n: nat)
    requires IsRun(seed, states, steps) && n < |states| && states[n].count == states[n].desired
    ensures |states[n].aux| > states[n].count <==> exists m :: 0 <= m < n && Oversized(states, steps, n, m)
  {
    hide Ready, Next;
    if |states[n].aux| > states[n].count {
      var m := SizedAsAsked(seed, states, steps, n);
      Cause(seed, states, steps, n, m);
    }
    forall m | 0 <= m < n && Oversized(states, steps, n, m) ensures |states[n].aux| > states[n].count {
      SameSize(states, m, n);
    }
  }

  lemma Cause(seed: Seed, states: seq<State>, steps: seq<Step>, n: nat, m: nat)
    requires IsRun(seed, states, steps) && m < n < |states| && LastSized(states, m, n)
    requires |states[m + 1].aux| > states[n].desired == states[n].count
    ensures Oversized(states, steps, n, m)
  {
    hide Ready, Next, Sizes;
    var l := |states[m + 1].aux|;
    if !NeverReached(states, m, n, l) {
      var j :| m < j <= n && states[j].count >= l;
      var k := Crossing(states, j, n, l);
      SameSize(states, m, k);
      SameSize(states, m, k + 1);
      StepLowers(seed, states[k], steps[k], l);
      assert LowersUnseen(states, steps, k, l);
    }
  }

  /** A reconcile crashes if and only if it gets to the scheduler, one of the two things happened, and a replica that is gone
      has copy or install work left. */
  lemma CrashExactly(seed: Seed, states: seq<State>, steps: seq<Step>, n: nat)
    requires IsRun(seed, states, steps) && n < |steps|
    ensures Crashes(seed, states[n], steps[n]) <==>
      && RunsScheduler(states[n], steps[n])
      && (exists m :: 0 <= m < n && Oversized(states, steps, n, m))
      && (exists k :: states[n].count <= k < |states[n].aux|
            && Eligible(seed, states[n].aux[k]) && states[n].aux[k].phase != Download)
  {
    var s := states[n];
    if RunsScheduler(s, steps[n]) {
      OversizedExactly(seed, states, steps, n);
      assert Rescaled(s) == s.aux;
      forall i ensures Eligible(seed.(replicas := s.count), i) == Eligible(seed, i) { }
    }
    hide IsRun, Oversized, Eligible;
  }

  /******* Both ways, and one that is harmless *******/

  const APP: Seed := Seed(Standalone, "main", 1, 2, Local)

  const INSTALLED: PhaseInfo := PhaseInfo(Install, InstallComplete, 0)

  /** All replicas restart, and one is asked to go before a reconcile has seen them ready again: the one that goes still had
      to be copied to. */
  lemma StaleRecordCrash() returns (states: seq<State>, steps: seq<Step>)
    ensures IsRun(APP, states, steps) && |steps| == 5 && Crashes(APP, states[4], steps[4])
    ensures ComesDownUnseen(states, steps, 0, 4, 2)
  {
    var aux := [INSTALLED, NewContext(PodCopy)];
    steps := [Reconcile(2, true, true, true, true, aux), Reconcile(0, true, true, true, true, []), Ask(1),
              Reconcile(2, true, true, true, true, []), Reconcile(1, true, true, true, true, [])];
    states := [State([], 2, 2, 2), State(aux, 2, 2, 2), State(aux, 2, 0, 2), State(aux, 2, 0, 1), State(aux, 1, 2, 1),
               State(aux, 1, 2, 1)];
    assert Eligible(APP.(replicas := 1), aux[1]);
    assert Crashes(APP, states[4], steps[4]);
    assert LowersUnseen(states, steps, 3, 2);
  }

  /** Two more replicas are asked for while one is not ready, and the request is taken back: the records made for them
      stay. */
  lemma RevertedScaleUpCrash() returns (states: seq<State>, steps: seq<Step>)
    ensures IsRun(APP, states, steps) && |steps| == 5 && Crashes(APP, states[4], steps[4])
    ensures NeverReached(states, 2, 4, 5) && forall n :: 0 <= n <= 5 ==> states[n].count == 3 && states[n].recorded > 0
  {
    var three := [INSTALLED, INSTALLED, INSTALLED];
    var five := three + [NewContext(PodCopy), NewContext(PodCopy)];
    steps := [Reconcile(3, true, true, true, true, three), Ask(5), Reconcile(2, true, true, true, true, []), Ask(3),
              Reconcile(3, true, true, true, true, [])];
    states := [State([], 3, 3, 3), State(three, 3, 3, 3), State(three, 3, 3, 5), State(five, 3, 2, 5), State(five, 3, 2, 3),
               State(five, 3, 2, 3)];
    assert three + seq(2, i => NewContext(PodCopy)) == five;
    assert Eligible(APP.(replicas := 3), five[3]);
    assert Crashes(APP, states[4], steps[4]);
  }

  /** A scale-down by more than one is seen in time: lowering the stateful set puts its ready replicas on record, and the
      next saved reconcile cuts the records. */
  lemma LongerScaleDownCut(seed: Seed, s: State, a: Step, b: Step)
    requires s.count > s.desired + 1 && a.Reconcile? && a.saved && Next(seed, s, a).count < s.count
    requires b.Reconcile? && b.saved
    ensures |Next(seed, Next(seed, s, a), b).aux| <= s.desired
  {
  }
}
