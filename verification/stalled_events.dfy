/** Stalled events over a run of reconciles. */
module StalledEvents {
  import opened AppTypes
  import opened Conditions
  import opened ConditionHistory

  datatype Event = Stalled | Resolved

  datatype Terminal = Terminal(reason: string, message: string)

  predicate IsStalled(cs: seq<Condition>) {
    IsTrue(cs, STALLED)
  }

  function EventFor(was: bool, now: bool): Option<Event> {
    if now then Some(Event.Stalled) else if was then Some(Resolved) else None
  }

  /** The conditions at the end of a reconcile. */
  function TailConditions(cs: seq<Condition>, terminal: Option<Terminal>, generation: int, now: int): seq<Condition> {
    match terminal
    case Some(t) => Upserted(cs, StalledCondition(t.reason, t.message, generation), now)
    case None => Upserted(cs, ClearedCondition(generation), now)
  }

  method ReadStalled(cs: array<Condition>) returns (stalled: bool)
    ensures stalled == IsStalled(cs[..])
  {
    var i := 0;
    while i < cs.Length
      invariant i <= cs.Length && Find(cs[..], STALLED) == Find(cs[i..], STALLED)
    {
      if cs[i].kind == STALLED { return cs[i].status == True; }
      assert cs[i..][1..] == cs[i + 1..];
      i := i + 1;
    }
    return false;
  }

  method Emit(before: array<Condition>, after: array<Condition>) returns (e: Option<Event>)
    ensures e == EventFor(IsStalled(before[..]), IsStalled(after[..]))
  {
    var now := ReadStalled(after);
    if now { return Some(Event.Stalled); }
    var was := ReadStalled(before);
    return if was then Some(Resolved) else None;
  }

  method UpsertTail(cs: array<Condition>, terminal: Option<Terminal>, generation: int, now: int) returns (r: array<Condition>)
    modifies cs
    ensures r[..] == TailConditions(old(cs[..]), terminal, generation, now) && IsStalled(r[..]) == terminal.Some?
    ensures Find(r[..], STALLED).Some? && Find(r[..], STALLED).value.generation == generation
    ensures terminal.Some? ==>
      && Find(r[..], STALLED).value.message == terminal.value.message
      && Find(r[..], STALLED).value.reason == (if terminal.value.reason == "" then "Stalled" else terminal.value.reason)
    ensures terminal.None? ==> Find(r[..], STALLED).value.message == "" && Find(r[..], STALLED).value.reason == "NotStalled"
    ensures forall kind :: kind != STALLED ==> Find(r[..], kind) == Find(old(cs[..]), kind)
    ensures Find(old(cs[..]), STALLED).Some? ==> r == cs
    ensures r == cs || (fresh(r) && cs[..] == old(cs[..]))
  {
    var c := match terminal
      case Some(t) => StalledCondition(t.reason, t.message, generation)
      case None => ClearedCondition(generation);
    FindUpserted(cs[..], c, now, STALLED);
    forall kind | kind != STALLED ensures Find(Upserted(cs[..], c, now), kind) == Find(cs[..], kind) {
      FindUpserted(cs[..], c, now, kind);
    }
    hide Find, Upserted;
    r := Upsert(cs, c, now);
  }

  /** The end of a reconcile on the refetched conditions: snapshot, update in place, emit. */
  method ReconcileTail(cs: array<Condition>, terminal: Option<Terminal>, generation: int, now: int)
      returns (r: array<Condition>, e: Option<Event>)
    modifies cs
    ensures r[..] == TailConditions(old(cs[..]), terminal, generation, now) && IsStalled(r[..]) == terminal.Some?
    ensures e == EventFor(IsStalled(old(cs[..])), terminal.Some?)
  {
    var snapshot := new Condition[cs.Length](i requires 0 <= i < cs.Length reads cs => cs[i]);
    assert snapshot[..] == cs[..];
    r := UpsertTail(cs, terminal, generation, now);
    e := Emit(snapshot, r);
  }

  /** The same with the snapshot sharing the conditions' array: the update is seen through it, and no resolution is ever
      announced. */
  method ReconcileTailShared(cs: array<Condition>, terminal: Option<Terminal>, generation: int, now: int)
      returns (r: array<Condition>, e: Option<Event>)
    modifies cs
    ensures r[..] == TailConditions(old(cs[..]), terminal, generation, now)
    ensures e == (if terminal.Some? then Some(Event.Stalled) else None)
    ensures e != EventFor(IsStalled(old(cs[..])), terminal.Some?) <==> IsStalled(old(cs[..])) && terminal.None?
  {
    var snapshot := cs;
    r := UpsertTail(cs, terminal, generation, now);
    e := Emit(snapshot, r);
  }

  /******* Runs of reconciles *******/

  // A reconcile that pauses, or ends a pause, derives conditions from what is stored and saves them. A worked one starts
  // from a copy of the conditions, writes conditions other than Stalled to it, and puts the result in place of what
  // is stored (applied); it reads the conditions back and ends as above, and its last status update may fail. An
  // aborted one stops before it emits. Both copies may be older ones. An update of an older copy is rejected, but
  // the first write goes over whatever is stored.
  datatype Reconcile =
    | Held(input: Input, at: int, saved: bool)
    | Worked(start: seq<Condition>, writes: seq<Op>, applied: bool, read: seq<Condition>, terminal: Option<Terminal>,
             generation: int, at: int, saved: bool)
    | Aborted(start: seq<Condition>, writes: seq<Op>, applied: bool)

  predicate KeepsStalled(writes: seq<Op>) {
    forall i :: 0 <= i < |writes| && writes[i].UpsertOp? ==> writes[i].condition.kind != STALLED
  }

  predicate OnlyReconciler(r: Reconcile) {
    r.Held? || KeepsStalled(r.writes)
  }

  function Written(cs: seq<Condition>, writes: seq<Op>): seq<Condition> {
    if writes == [] then cs
    else After(Written(cs, writes[..|writes| - 1]), writes[|writes| - 1])
  }

  /** What is stored when the conditions are read back. */
  function Midway(cs: seq<Condition>, r: Reconcile): seq<Condition>
    requires !r.Held?
  {
    if r.applied then Written(r.start, r.writes) else cs
  }

  function Stored(cs: seq<Condition>, r: Reconcile): seq<Condition> {
    match r
    case Held(input, at, saved) => if saved then Derived(cs, input, at) else cs
    case Worked(_, _, _, read, terminal, generation, at, saved) =>
      if saved then TailConditions(read, terminal, generation, at) else Midway(cs, r)
    case Aborted(_, _, _) => Midway(cs, r)
  }

  function Emitted(r: Reconcile): Option<Event> {
    if r.Worked? then EventFor(IsStalled(r.read), r.terminal.Some?) else None
  }

  predicate ReadsBack(cs: seq<Condition>, r: Reconcile) {
    r.Worked? && r.saved ==> r.read == Midway(cs, r)
  }

  predicate IsRun(states: seq<seq<Condition>>, rs: seq<Reconcile>) {
    && |states| == |rs| + 1
    && forall n :: 0 <= n < |rs| ==> OnlyReconciler(rs[n]) && ReadsBack(states[n], rs[n]) && states[n + 1] == Stored(states[n], rs[n])
  }

  lemma {:induction false} WritesKeepStalled(cs: seq<Condition>, writes: seq<Op>)
    requires KeepsStalled(writes)
    ensures IsStalled(Written(cs, writes)) == IsStalled(cs)
  {
    if writes == [] {
    } else {
      var k := |writes| - 1;
      WritesKeepStalled(cs, writes[..k]);
      var mid := Written(cs, writes[..k]);
      match writes[k]
      case DeriveOp(input, now) => DerivedMeaning(mid, input, now);
      case UpsertOp(c, now) => FindUpserted(mid, c, now, STALLED);
    }
  }

  lemma TailStalled(cs: seq<Condition>, terminal: Option<Terminal>, generation: int, now: int)
    ensures IsStalled(TailConditions(cs, terminal, generation, now)) == terminal.Some?
  {
    FindUpserted(cs, if terminal.Some? then StalledCondition(terminal.value.reason, terminal.value.message, generation)
                     else ClearedCondition(generation), now, STALLED);
    hide Find, Upserted;
  }

  predicate EndsStalled(r: Reconcile) {
    r.Worked? && r.terminal.Some?
  }

  /** An update that fails after a stall was read and found cleared. */
  predicate ClearFails(r: Reconcile) {
    r.Worked? && !r.saved && r.terminal.None? && IsStalled(r.read)
  }

  /** The first write comes from a copy that differs from what is stored in whether it is stalled. */
  predicate Outdated(cs: seq<Condition>, r: Reconcile) {
    !r.Held? && r.applied && IsStalled(r.start) != IsStalled(cs)
  }

  /** The event and the change of what is stored fall apart: the first write was outdated and the reconcile clears the
      stall or the lack of one; or it does not save, and either the event or the outdated write ends a stall alone. */
  predicate FallsApart(cs: seq<Condition>, r: Reconcile) {
    match r
    case Held(_, _, _) => false
    case Worked(_, _, _, _, terminal, _, _, saved) =>
      if saved then terminal.None? && Outdated(cs, r) else ClearFails(r) != (IsStalled(cs) && Outdated(cs, r))
    case Aborted(_, _, _) => IsStalled(cs) && Outdated(cs, r)
  }

  predicate Falls(cs: seq<Condition>, cs': seq<Condition>) {
    IsStalled(cs) && !IsStalled(cs')
  }

  /** In every reconcile of every run: a warning exactly when it ends stalled; and a resolution exactly on a stored change
      from stalled to not stalled, if and only if event and change do not fall apart. With an up-to-date first write that
      means: if and only if no update fails after a stall was read and found cleared. */
  lemma EventsExactly(states: seq<seq<Condition>>, rs: seq<Reconcile>, n: nat)
    requires IsRun(states, rs) && n < |rs|
    ensures Emitted(rs[n]) == Some(Event.Stalled) <==> EndsStalled(rs[n])
    ensures rs[n].Worked? && rs[n].saved ==> IsStalled(states[n + 1]) == rs[n].terminal.Some?
    ensures (Emitted(rs[n]) == Some(Resolved) <==> Falls(states[n], states[n + 1])) <==> !FallsApart(states[n], rs[n])
    ensures !Outdated(states[n], rs[n]) ==>
      ((Emitted(rs[n]) == Some(Resolved) <==> Falls(states[n], states[n + 1])) <==> !ClearFails(rs[n]))
  {
    var cs, r := states[n], rs[n];
    assert OnlyReconciler(r) && ReadsBack(cs, r) && states[n + 1] == Stored(cs, r);
    match r
    case Held(input, at, _) => DerivedMeaning(cs, input, at);
    case Worked(start, writes, _, read, terminal, generation, at, _) =>
      WritesKeepStalled(start, writes);
      TailStalled(read, terminal, generation, at);
      hide TailConditions, Written, IsStalled;
    case Aborted(start, writes, _) =>
      WritesKeepStalled(start, writes);
      hide Written, IsStalled;
  }

  /******* What is stored *******/

  /** What a reconcile makes of Stalled, if it writes it. */
  function Leaves(r: Reconcile): Option<bool> {
    match r
    case Held(_, _, _) => None
    case Worked(start, _, applied, _, terminal, _, _, saved) =>
      if saved then Some(terminal.Some?) else if applied then Some(IsStalled(start)) else None
    case Aborted(start, _, applied) => if applied then Some(IsStalled(start)) else None
  }

  lemma StallChange(states: seq<seq<Condition>>, rs: seq<Reconcile>, n: nat)
    requires IsRun(states, rs) && n < |rs|
    ensures IsStalled(states[n + 1]) == if Leaves(rs[n]).Some? then Leaves(rs[n]).value else IsStalled(states[n])
  {
    EventsExactly(states, rs, n);
    var cs, r := states[n], rs[n];
    assert OnlyReconciler(r) && states[n + 1] == Stored(cs, r);
    match r
    case Held(input, at, _) => DerivedMeaning(cs, input, at);
    case Worked(start, writes, _, _, _, _, _, _) => WritesKeepStalled(start, writes);
    case Aborted(start, writes, _) => WritesKeepStalled(start, writes);
  }

  /** The last reconcile to write Stalled left it true. */
  predicate LastLeftStalled(rs: seq<Reconcile>, n: nat)
    requires n <= |rs|
  {
    exists m :: 0 <= m < n && Leaves(rs[m]) == Some(true) && forall k :: m < k < n ==> Leaves(rs[k]).None?
  }

  lemma LastLeftNext(rs: seq<Reconcile>, n: nat)
    requires n < |rs|
    ensures LastLeftStalled(rs, n + 1) <==> Leaves(rs[n]) == Some(true) || (Leaves(rs[n]).None? && LastLeftStalled(rs, n))
  {
    hide Leaves;
    if LastLeftStalled(rs, n + 1) {
      var m :| 0 <= m < n + 1 && Leaves(rs[m]) == Some(true) && forall k :: m < k < n + 1 ==> Leaves(rs[k]).None?;
      if m < n { assert Leaves(rs[n]).None?; }
    }
  }

  /** The stored condition is stalled exactly if the last reconcile to write it left it so. */
  lemma {:induction false} StalledSinceLastWrite(states: seq<seq<Condition>>, rs: seq<Reconcile>, n: nat)
    requires IsRun(states, rs) && n < |states| && !IsStalled(states[0])
    ensures IsStalled(states[n]) <==> LastLeftStalled(rs, n)
  {
    hide IsStalled, Leaves;
    if n == 0 {
    } else {
      StalledSinceLastWrite(states, rs, n - 1);
      StallChange(states, rs, n - 1);
      LastLeftNext(rs, n - 1);
      hide LastLeftStalled, IsRun;
    }
  }

  predicate SavesClear(r: Reconcile) {
    r.Worked? && r.saved && r.terminal.None?
  }

  /** A saved warning has not been followed by a saved clearing. */
  predicate Outstanding(rs: seq<Reconcile>, n: nat)
    requires n <= |rs|
  {
    exists m :: 0 <= m < n && EndsStalled(rs[m]) && rs[m].saved && forall k :: m < k < n ==> !SavesClear(rs[k])
  }

  lemma OutstandingNext(rs: seq<Reconcile>, n: nat)
    requires n < |rs|
    ensures Outstanding(rs, n + 1) <==> (EndsStalled(rs[n]) && rs[n].saved) || (!SavesClear(rs[n]) && Outstanding(rs, n))
  {
    if Outstanding(rs, n + 1) {
      var m :| 0 <= m < n + 1 && EndsStalled(rs[m]) && rs[m].saved && forall k :: m < k < n + 1 ==> !SavesClear(rs[k]);
      if m < n { assert !SavesClear(rs[n]); }
    }
  }

  /** An outdated first write that is not followed by a saved verdict. */
  predicate LosesStall(cs: seq<Condition>, r: Reconcile) {
    Outdated(cs, r) && !(r.Worked? && r.saved)
  }

  /** While no outdated write stays in place, the stored condition is stalled exactly while a saved warning is outstanding;
      the first one that does breaks this. */
  lemma {:induction false} StalledSinceWarning(states: seq<seq<Condition>>, rs: seq<Reconcile>, n: nat)
    requires IsRun(states, rs) && n < |states| && !IsStalled(states[0])
    requires forall m :: 0 <= m < n - 1 ==> !LosesStall(states[m], rs[m])
    ensures (IsStalled(states[n]) <==> Outstanding(rs, n)) <==> (n > 0 ==> !LosesStall(states[n - 1], rs[n - 1]))
  {
    hide IsStalled;
    if n == 0 {
    } else {
      StalledSinceWarning(states, rs, n - 1);
      StallChange(states, rs, n - 1);
      OutstandingNext(rs, n - 1);
      hide Outstanding, IsRun;
    }
  }

  /******* Runs in which event and change fall apart *******/

  const STALL: Condition := Condition(STALLED, True, STALLED, "", 1, 0)

  /** Two reconciles announce the same resolution when the first one's update fails. */
  lemma FailedClearAnnouncesTwice() returns (states: seq<seq<Condition>>, rs: seq<Reconcile>)
    ensures IsRun(states, rs) && |rs| == 2 && Emitted(rs[0]) == Emitted(rs[1]) == Some(Resolved)
  {
    rs := [Worked([STALL], [], true, [STALL], None, 1, 5, false), Worked([STALL], [], true, [STALL], None, 1, 9, true)];
    states := [[STALL], [STALL], Stored([STALL], rs[1])];
    assert IsStalled([STALL]);
  }

  /** And when the second one reads back a copy from before the first one's update. */
  lemma StaleReadAnnouncesTwice() returns (states: seq<seq<Condition>>, rs: seq<Reconcile>)
    ensures IsRun(states, rs) && |rs| == 2 && Emitted(rs[0]) == Emitted(rs[1]) == Some(Resolved)
    ensures !IsStalled(states[1]) && rs[1].Worked? && rs[1].read == states[0]
  {
    var first := Worked([STALL], [], true, [STALL], None, 1, 5, true);
    var cleared := Stored([STALL], first);
    rs := [first, Worked(cleared, [], true, [STALL], None, 1, 9, false)];
    states := [[STALL], cleared, cleared];
    assert IsStalled([STALL]);
    TailStalled([STALL], None, 1, 5);
  }

  /** A stall ends unannounced when the second reconcile starts from a copy from before the first one's update: its first
      write takes the stall away before the conditions are read back. */
  lemma StaleStartHidesResolution() returns (states: seq<seq<Condition>>, rs: seq<Reconcile>)
    ensures IsRun(states, rs) && |rs| == 2 && rs[1].Worked? && rs[1].saved && rs[1].start == states[0]
    ensures Emitted(rs[0]) == Some(Event.Stalled) && Falls(states[1], states[2]) && Emitted(rs[1]).None?
  {
    var first := Worked([], [], true, [], Some(Terminal("", "")), 1, 5, true);
    rs := [first, Worked([], [], true, [], None, 1, 9, true)];
    states := [[], Stored([], first), Stored(Stored([], first), rs[1])];
    TailStalled([], Some(Terminal("", "")), 1, 5);
    TailStalled([], None, 1, 9);
  }
}
