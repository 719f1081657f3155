/** The bundle-push stage over the whole life of a custom resource: playbook calls, and premium-app installs that reset
    the stage from another goroutine at any moment, even inside a call. */
module BundlePush {
  import opened AppTypes
  import opened StatusFile

  datatype Target = SearchHeads | Indexers

  // Where a playbook call is. It reads the stage once, at its start.
  datatype Call = Idle | Checking | Removing | Completing | Pushing | Triggered

  datatype State = State(stage: Stage, call: Call)

  datatype Step =
    | Begin | ReadFails | NotDone | SeesSuccess | RemoveOk | RemoveFails | WriteComplete
    | PushFails | TriggerOk | WriteInProgress
    | PremiumReset | NewApps | Forget

  predicate Ready(t: Target, s: State, a: Step) {
    match a
    case Begin => s.call == Idle && (s.stage == InProgress || s.stage == Pending)
    case ReadFails => t == SearchHeads && s.call == Checking
    case NotDone => s.call == Checking
    case SeesSuccess => s.call == Checking
    case RemoveOk => s.call == Removing
    case RemoveFails => s.call == Removing
    case WriteComplete => s.call == Completing
    case PushFails => s.call == Pushing
    case TriggerOk => s.call == Pushing
    case WriteInProgress => s.call == Triggered
    case PremiumReset => t == SearchHeads
    case NewApps => s.call == Idle
    case Forget => s.call == Idle
  }

  function Next(t: Target, s: State, a: Step): State {
    match a
    case Begin => s.(call := if s.stage == InProgress then Checking else Pushing)
    case ReadFails => State(Pending, Idle)
    case NotDone => s.(call := Idle)
    case SeesSuccess => s.(call := if t == SearchHeads then Removing else Completing)
    case RemoveOk => s.(call := Completing)
    case RemoveFails => State(InProgress, Idle)
    case WriteComplete => State(Complete, Idle)
    case PushFails => s.(call := Idle)
    case TriggerOk => s.(call := Triggered)
    case WriteInProgress => State(InProgress, Idle)
    case PremiumReset => s.(stage := Pending)
    case NewApps => s.(stage := Pending)
    case Forget => s.(stage := Uninitialized)
  }

  predicate IsRun(t: Target, states: seq<State>, steps: seq<Step>) {
    && |states| == |steps| + 1 && states[0] == State(Uninitialized, Idle)
    && forall n :: 0 <= n < |steps| ==> Ready(t, states[n], steps[n]) && states[n + 1] == Next(t, states[n], steps[n])
  }

  /******* One call, uninterrupted *******/

  datatype FileRead = Unreadable | Content(text: string)

  class Playbook {
    var stage: Stage

    constructor (s: Stage)
      ensures stage == s
    {
      stage := s;
    }

    /** A search-head-cluster call without a reset inside: the new stage for every old stage and outcome, and the steps
        of the machine above that it takes. */
    method RunSearchHeads(ready: bool, file: FileRead, removed: bool, permitted: bool, pushed: bool) returns (ghost path: seq<Step>)
      modifies this
      ensures !ready ==> stage == old(stage) && path == []
      ensures stage == Complete && old(stage) != Complete <==>
        ready && old(stage) == InProgress && file.Content? && Contains(file.text, SUCCESS) && removed
      ensures old(stage) == InProgress ==>
        (stage == Pending <==> ready && (file.Unreadable? || (!Contains(file.text, SUCCESS) && !OnlyInformational(file.text))))
      ensures old(stage) == InProgress ==> stage != Uninitialized
      ensures old(stage) == Pending ==> stage == (if ready && permitted && pushed then InProgress else Pending)
      ensures old(stage) == Uninitialized || old(stage) == Complete ==> stage == old(stage)
      ensures Walks(SearchHeads, State(old(stage), Idle), path, State(stage, Idle))
    {
      path := [];
      if !ready { return; }
      match stage
      case InProgress =>
        match file {
          case Unreadable => stage := Pending; path := [Begin, ReadFails];
          case Content(text) =>
            var verdict := Judge(text);
            hide Contains, OnlyInformational, Walks;
            match verdict {
              case StillRunning => path := [Begin, NotDone]; WalksTwo(SearchHeads, State(InProgress, Idle), path);
              case Failed => stage := Pending; path := [Begin, ReadFails]; WalksTwo(SearchHeads, State(InProgress, Idle), path);
              case Success =>
                if removed {
                  stage := Complete;
                  path := [Begin, SeesSuccess, RemoveOk, WriteComplete];
                  WalksFour(path);
                } else {
                  stage := InProgress;
                  path := [Begin, SeesSuccess, RemoveFails];
                  WalksThree(SearchHeads, State(InProgress, Idle), path);
                }
            }
        }
      case Pending =>
        if !permitted || !pushed { path := [Begin, PushFails]; return; }
        stage := InProgress;
        path := [Begin, TriggerOk, WriteInProgress];
        WalksThree(SearchHeads, State(Pending, Idle), path);
      case _ =>
    }

    /** An indexer-cluster call. */
    method RunIndexers(pushDone: bool, permitted: bool, pushed: bool) returns (ghost path: seq<Step>)
      modifies this
      ensures stage == Complete && old(stage) != Complete <==> old(stage) == InProgress && pushDone
      ensures old(stage) == InProgress && !pushDone ==> stage == InProgress
      ensures old(stage) == Pending ==> stage == (if permitted && pushed then InProgress else Pending)
      ensures old(stage) == Uninitialized || old(stage) == Complete ==> stage == old(stage)
      ensures Walks(Indexers, State(old(stage), Idle), path, State(stage, Idle))
    {
      path := [];
      match stage
      case InProgress =>
        if pushDone {
          stage := Complete;
          path := [Begin, SeesSuccess, WriteComplete];
          WalksThree(Indexers, State(InProgress, Idle), path);
        } else {
          path := [Begin, NotDone];
        }
      case Pending =>
        if !permitted || !pushed { path := [Begin, PushFails]; return; }
        stage := InProgress;
        path := [Begin, TriggerOk, WriteInProgress];
        WalksThree(Indexers, State(Pending, Idle), path);
      case _ =>
    }
  }

  /** The steps lead from s to s'. */
  predicate Walks(t: Target, s: State, path: seq<Step>, s': State)
    decreases |path|
  {
    if path == [] then s' == s
    else Ready(t, s, path[0]) && Walks(t, Next(t, s, path[0]), path[1..], s')
  }

  lemma WalksTwo(t: Target, s: State, path: seq<Step>)
    requires |path| == 2 && Ready(t, s, path[0]) && Ready(t, Next(t, s, path[0]), path[1])
    ensures Walks(t, s, path, Next(t, Next(t, s, path[0]), path[1]))
  {
    assert path[1..] == [path[1]];
  }

  lemma WalksThree(t: Target, s: State, path: seq<Step>)
    requires |path| == 3 && Ready(t, s, path[0])
    requires Ready(t, Next(t, s, path[0]), path[1]) && Ready(t, Next(t, Next(t, s, path[0]), path[1]), path[2])
    ensures Walks(t, s, path, Next(t, Next(t, Next(t, s, path[0]), path[1]), path[2]))
  {
    assert path[1..] == [path[1], path[2]];
    WalksTwo(t, Next(t, s, path[0]), path[1..]);
  }

  lemma WalksFour(path: seq<Step>)
    requires path == [Begin, SeesSuccess, RemoveOk, WriteComplete]
    ensures Walks(SearchHeads, State(InProgress, Idle), path, State(Complete, Idle))
  {
    assert path[1..] == [SeesSuccess, RemoveOk, WriteComplete];
    WalksThree(SearchHeads, State(InProgress, Checking), path[1..]);
  }

  /******* Whole runs *******/

  predicate MovesToPending(a: Step) {
    a == ReadFails || a == PremiumReset || a == NewApps
  }

  // The stage writes that end a call in which a reset may have been overlooked.
  predicate WritesOver(a: Step) {
    a == WriteComplete || a == WriteInProgress || a == RemoveFails
  }

  /** Before step n a bundle push was triggered, and the stage has not been moved to Pending since. */
  predicate Justified(steps: seq<Step>, n: nat)
    requires n <= |steps|
  {
    exists m :: 0 <= m < n && steps[m] == TriggerOk && forall k :: m < k < n ==> !MovesToPending(steps[k])
  }

  /** A premium install has reset the stage since the current call started (or, for a pushing call, since its trigger). */
  predicate ResetInside(steps: seq<Step>, n: nat)
    requires n <= |steps|
  {
    exists m :: 0 <= m < n && steps[m] == PremiumReset && forall k :: m < k < n ==> steps[k] != Begin && steps[k] != TriggerOk
  }

  /** Step m ends a call by overwriting a reset that fell inside it. */
  predicate Overwrites(steps: seq<Step>, m: nat)
    requires m < |steps|
  {
    WritesOver(steps[m]) && ResetInside(steps, m)
  }

  /** Since the stage was last moved to Pending, a call has overwritten that move. */
  predicate Lost(steps: seq<Step>, n: nat)
    requires n <= |steps|
  {
    exists m :: 0 <= m < n && Overwrites(steps, m) && forall k :: m < k < n ==> !MovesToPending(steps[k])
  }

  // How the three histories grow by one step.
  lemma JustifiedNext(steps: seq<Step>, n: nat)
    requires n < |steps|
    ensures Justified(steps, n + 1) <==> !MovesToPending(steps[n]) && (steps[n] == TriggerOk || Justified(steps, n))
  {
    if Justified(steps, n + 1) {
      var m :| 0 <= m < n + 1 && steps[m] == TriggerOk && forall k :: m < k < n + 1 ==> !MovesToPending(steps[k]);
      if m < n { assert !MovesToPending(steps[n]); }
    }
  }

  lemma ResetNext(steps: seq<Step>, n: nat)
    requires n < |steps|
    ensures ResetInside(steps, n + 1) <==>
      steps[n] == PremiumReset || (steps[n] != Begin && steps[n] != TriggerOk && ResetInside(steps, n))
  {
    if ResetInside(steps, n + 1) {
      var m :| 0 <= m < n + 1 && steps[m] == PremiumReset && forall k :: m < k < n + 1 ==> steps[k] != Begin && steps[k] != TriggerOk;
      if m < n { assert steps[n] != Begin; }
    }
  }

  lemma LostNext(steps: seq<Step>, n: nat)
    requires n < |steps|
    ensures Lost(steps, n + 1) <==> !MovesToPending(steps[n]) && (Overwrites(steps, n) || Lost(steps, n))
  {
    if Lost(steps, n + 1) {
      var m :| 0 <= m < n + 1 && Overwrites(steps, m) && forall k :: m < k < n + 1 ==> !MovesToPending(steps[k]);
      if m < n { assert !MovesToPending(steps[n]); }
    }
  }

  predicate Inv(s: State, justified: bool, reset: bool, lost: bool) {
    && (s.stage == Pending ==> !lost)
    && (s.stage == InProgress ==> justified != lost)
    && (s.call == Pushing ==> s.stage == Pending)
    && (s.call == Triggered ==> s.stage == Pending && justified != reset)
    && (s.call in {Checking, Removing, Completing} ==> if reset then s.stage == Pending && !justified else s.stage == InProgress)
  }

  lemma {:induction false} RunKeeps(t: Target, states: seq<State>, steps: seq<Step>, n: nat)
    requires IsRun(t, states, steps) && n <= |steps|
    ensures Inv(states[n], Justified(steps, n), ResetInside(steps, n), Lost(steps, n))
  {
    if n == 0 {
    } else {
      RunKeeps(t, states, steps, n - 1);
      JustifiedNext(steps, n - 1);
      ResetNext(steps, n - 1);
      LostNext(steps, n - 1);
      hide Justified, ResetInside, Lost;
      assert Ready(t, states[n - 1], steps[n - 1]) && states[n] == Next(t, states[n - 1], steps[n - 1]);
      hide IsRun, Inv;
      StepKeeps(t, states[n - 1], steps[n - 1], states[n], Justified(steps, n - 1), ResetInside(steps, n - 1), Lost(steps, n - 1),
                Justified(steps, n), ResetInside(steps, n), Lost(steps, n));
    }
  }

  lemma StepKeeps(t: Target, s: State, a: Step, s': State, j: bool, r: bool, l: bool, j': bool, r': bool, l': bool)
    requires Inv(s, j, r, l) && Ready(t, s, a) && s' == Next(t, s, a)
    requires j' == (!MovesToPending(a) && (a == TriggerOk || j))
    requires r' == (a == PremiumReset || (a != Begin && a != TriggerOk && r))
    requires l' == (!MovesToPending(a) && ((WritesOver(a) && r) || l))
    ensures Inv(s', j', r', l')
  {
  }

  /** A bundle push is recorded as complete with a trigger later than the last move to Pending, if and only if no call
      has overwritten a reset since that move, this call included. */
  lemma CompleteJustifiedExactly(t: Target, states: seq<State>, steps: seq<Step>, n: nat)
    requires IsRun(t, states, steps) && n < |steps| && steps[n] == WriteComplete
    ensures Justified(steps, n) <==> !(Lost(steps, n) || Overwrites(steps, n))
  {
    RunKeeps(t, states, steps, n);
    hide Justified, ResetInside, Lost;
    assert Ready(t, states[n], steps[n]);
  }

  /** Indexer clusters have no resets: every completion is justified. */
  lemma IndexersAlwaysJustified(states: seq<State>, steps: seq<Step>, n: nat)
    requires IsRun(Indexers, states, steps) && n < |steps| && steps[n] == WriteComplete
    ensures Justified(steps, n)
  {
    CompleteJustifiedExactly(Indexers, states, steps, n);
    forall m | 0 <= m <= n ensures !Overwrites(steps, m) {
      forall k | 0 <= k < m ensures steps[k] != PremiumReset { assert Ready(Indexers, states[k], steps[k]); }
    }
    hide Justified;
  }

  /** The steps of the current call after its start b, resets aside. */
  predicate CallSteps(steps: seq<Step>, b: nat, n: nat, allowed: set<Step>)
    requires b < n <= |steps|
  {
    steps[b] == Begin && forall k :: b < k < n ==> steps[k] == PremiumReset || steps[k] in allowed
  }

  predicate Occurs(steps: seq<Step>, b: nat, n: nat, a: Step)
    requires b < n <= |steps|
  {
    exists k :: b < k < n && steps[k] == a
  }

  // What a call that started at step b has behind it, by its position.
  predicate Since(t: Target, states: seq<State>, steps: seq<Step>, b: nat, n: nat)
    requires b < n <= |steps| && |states| == |steps| + 1
  {
    var call := states[n].call;
    && CallSteps(steps, b, n, {SeesSuccess, RemoveOk, TriggerOk})
    && (call in {Checking, Removing, Completing} ==> states[b].stage == InProgress)
    && (call in {Pushing, Triggered} ==> states[b].stage == Pending)
    && (call in {Removing, Completing} ==> Occurs(steps, b, n, SeesSuccess))
    && (call == Completing && t == SearchHeads ==> Occurs(steps, b, n, RemoveOk))
    && (call == Triggered ==> Occurs(steps, b, n, TriggerOk))
  }

  lemma {:induction false} CallsHaveHistory(t: Target, states: seq<State>, steps: seq<Step>, n: nat) returns (b: nat)
    requires IsRun(t, states, steps) && n <= |steps|
    ensures states[n].call != Idle ==> b < n && Since(t, states, steps, b, n)
    ensures t == Indexers ==> states[n].call != Removing
  {
    b := 0;
    if n == 0 {
    } else {
      b := CallsHaveHistory(t, states, steps, n - 1);
      var s, a := states[n - 1], steps[n - 1];
      assert Ready(t, s, a) && states[n] == Next(t, s, a);
      if a == Begin {
        b := n - 1;
      } else if states[n].call != Idle {
        SinceNext(t, states, steps, b, n);
      }
    }
  }

  lemma SinceNext(t: Target, states: seq<State>, steps: seq<Step>, b: nat, n: nat)
    requires b < n - 1 && n <= |steps| && |states| == |steps| + 1 && Since(t, states, steps, b, n - 1)
    requires var s, a := states[n - 1], steps[n - 1];
      Ready(t, s, a) && states[n] == Next(t, s, a) && a != Begin && states[n].call != Idle && s.call != Idle
    ensures Since(t, states, steps, b, n)
  {
    OccursStays(steps, b, n, SeesSuccess);
    OccursStays(steps, b, n, RemoveOk);
    OccursStays(steps, b, n, TriggerOk);
    hide Occurs;
  }

  lemma OccursStays(steps: seq<Step>, b: nat, n: nat, a: Step)
    requires b < n - 1 && n <= |steps|
    ensures Occurs(steps, b, n, a) <==> steps[n - 1] == a || Occurs(steps, b, n - 1, a)
  {
  }

  /** Complete is written only by a call that found the stage InProgress, saw the success and, on search heads, removed the
      status file; and the stage is still InProgress at that moment exactly if no reset fell inside the call. */
  lemma CompletionEarned(t: Target, states: seq<State>, steps: seq<Step>, n: nat)
    requires IsRun(t, states, steps) && n < |steps| && states[n].stage != Complete && states[n + 1].stage == Complete
    ensures steps[n] == WriteComplete
    ensures exists b: nat ::
      && b < n && CallSteps(steps, b, n, {SeesSuccess, RemoveOk, TriggerOk})
      && states[b].stage == InProgress && Occurs(steps, b, n, SeesSuccess)
      && (t == SearchHeads ==> Occurs(steps, b, n, RemoveOk))
    ensures states[n].stage == InProgress <==> !ResetInside(steps, n)
  {
    assert Ready(t, states[n], steps[n]) && states[n + 1] == Next(t, states[n], steps[n]);
    var b := CallsHaveHistory(t, states, steps, n);
    RunKeeps(t, states, steps, n);
    hide Occurs, CallSteps, Justified, ResetInside, Lost;
  }

  /** The stage goes from Pending to InProgress in two ways: a call whose trigger succeeded, or a check whose removal of the
      status file failed after a reset fell inside it. Exactly in the second case, and in a pushing call reset after its
      trigger, there is no trigger since the stage was moved to Pending. */
  lemma ProgressEarnedExactly(t: Target, states: seq<State>, steps: seq<Step>, n: nat)
    requires IsRun(t, states, steps) && n < |steps| && states[n].stage == Pending && states[n + 1].stage == InProgress
    ensures steps[n] == WriteInProgress || (steps[n] == RemoveFails && ResetInside(steps, n))
    ensures steps[n] == WriteInProgress ==> exists b: nat ::
      && b < n && CallSteps(steps, b, n, {SeesSuccess, RemoveOk, TriggerOk})
      && states[b].stage == Pending && Occurs(steps, b, n, TriggerOk)
    ensures steps[n] == RemoveFails ==> exists b: nat ::
      && b < n && CallSteps(steps, b, n, {SeesSuccess, RemoveOk, TriggerOk})
      && states[b].stage == InProgress && Occurs(steps, b, n, SeesSuccess)
    ensures Justified(steps, n) <==> !ResetInside(steps, n)
    ensures steps[n] == RemoveFails ==> !Justified(steps, n)
  {
    assert Ready(t, states[n], steps[n]) && states[n + 1] == Next(t, states[n], steps[n]);
    var b := CallsHaveHistory(t, states, steps, n);
    RunKeeps(t, states, steps, n);
    hide Occurs, CallSteps, Justified, ResetInside, Lost;
  }

  /** A reset inside a status check is overwritten by InProgress when the status file cannot be removed: the stage leaves
      Pending without a trigger. */
  lemma ProgressWithoutTrigger() returns (states: seq<State>, steps: seq<Step>, n: nat)
    ensures IsRun(SearchHeads, states, steps) && n < |steps| && !Justified(steps, n)
    ensures states[n].stage == Pending && states[n + 1].stage == InProgress
  {
    steps := [NewApps, Begin, TriggerOk, WriteInProgress, Begin, SeesSuccess, PremiumReset, RemoveFails];
    states := [State(Uninitialized, Idle), State(Pending, Idle), State(Pending, Pushing), State(Pending, Triggered),
               State(InProgress, Idle), State(InProgress, Checking), State(InProgress, Removing), State(Pending, Removing),
               State(InProgress, Idle)];
    n := 7;
    assert MovesToPending(steps[6]);
  }

  /** A reset inside a status check is overwritten: the push completes although the premium app was never pushed. */
  lemma ResetCanBeLost() returns (states: seq<State>, steps: seq<Step>, n: nat)
    ensures IsRun(SearchHeads, states, steps) && n < |steps| && steps[n] == WriteComplete && !Justified(steps, n)
  {
    steps := [NewApps, Begin, TriggerOk, WriteInProgress, Begin, SeesSuccess, PremiumReset, RemoveOk, WriteComplete];
    states := [State(Uninitialized, Idle), State(Pending, Idle), State(Pending, Pushing), State(Pending, Triggered),
               State(InProgress, Idle), State(InProgress, Checking), State(InProgress, Removing), State(Pending, Removing),
               State(Pending, Completing), State(Complete, Idle)];
    n := 8;
    assert MovesToPending(steps[6]);
  }
}
