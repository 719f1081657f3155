/** A phase queue as a growing slice over a backing array, and a manager's sweep over it. Removal moves the last element
    into the hole; a sweep fixes its array and its length at the start and reads each slot when it gets there, while the
    queue shrinks, grows in place, or moves to a larger array. */
module PhaseQueues {
  import opened Sequences

  /******* Specification of removal *******/

  function Removed<T(==)>(s: seq<T>, w: T): seq<T> {
    var j := FirstIndex(s, w);
    if j == |s| then s else s[j := s[|s| - 1]][..|s| - 1]
  }

  lemma RemovedMultiset<T>(s: seq<T>, w: T)
    ensures multiset(Removed(s, w)) == multiset(s) - multiset{w}
    ensures w in s ==> w in multiset(s)
  {
    var j := FirstIndex(s, w);
    if j < |s| { HoleFilled(s, j); } else { assert w !in multiset(s); }
    hide FirstIndex;
  }

  // The last element fills the hole at j.
  lemma HoleFilled<T>(s: seq<T>, j: nat)
    requires j < |s|
    ensures multiset(s[j := s[|s| - 1]][..|s| - 1]) == multiset(s) - multiset{s[j]}
  {
    var n := |s| - 1;
    var front := s[..n];
    assert s == front + [s[n]];
    if j == n {
      assert s[j := s[n]][..n] == front;
    } else {
      assert s[j := s[n]][..n] == front[j := s[n]];
      assert multiset(front[j := s[n]]) == multiset(front) - multiset{front[j]} + multiset{s[n]};
      assert s[j] in multiset(front);
    }
  }

  /** A sequence with ws written over it from a position on. */
  function Overwrite<T>(s: seq<T>, at: nat, ws: seq<T>): (r: seq<T>)
    requires at + |ws| <= |s|
    ensures |r| == |s|
  {
    s[..at] + ws + s[at + |ws|..]
  }

  // Overwriting part of a sequence adds nothing to a window of it but what was written.
  lemma {:induction false} Overwritten<T>(s: seq<T>, at: nat, ws: seq<T>, lo: nat, hi: nat)
    requires at + |ws| <= |s| && lo <= hi <= |s|
    ensures multiset(Overwrite(s, at, ws)[lo..hi]) <= multiset(s[lo..hi]) + multiset(ws)
    decreases |ws|
  {
    hide Overwrite;
    if ws == [] {
      NothingWritten(s, at, ws);
    } else {
      var t, rest := s[at := ws[0]], ws[1..];
      OneAtATime(s, at, ws);
      Overwritten(t, at + 1, rest, lo, hi);
      OneOverwritten(s, at, ws[0], lo, hi);
      Chained(multiset(Overwrite(s, at, ws)[lo..hi]), multiset(t[lo..hi]), multiset(s[lo..hi]), ws);
    }
  }

  lemma Chained<T>(whole: multiset<T>, middle: multiset<T>, window: multiset<T>, ws: seq<T>)
    requires ws != [] && whole <= middle + multiset(ws[1..]) && middle <= window + multiset{ws[0]}
    ensures whole <= window + multiset(ws)
  {
    assert ws == [ws[0]] + ws[1..];
    assert multiset(ws) == multiset{ws[0]} + multiset(ws[1..]);
  }

  lemma NothingWritten<T>(s: seq<T>, at: nat, ws: seq<T>)
    requires ws == [] && at <= |s|
    ensures Overwrite(s, at, ws) == s
  {
  }

  lemma OneAtATime<T>(s: seq<T>, at: nat, ws: seq<T>)
    requires ws != [] && at + |ws| <= |s|
    ensures Overwrite(s, at, ws) == Overwrite(s[at := ws[0]], at + 1, ws[1..])
  {
  }

  lemma OneOverwritten<T>(s: seq<T>, at: nat, w: T, lo: nat, hi: nat)
    requires at < |s| && lo <= hi <= |s|
    ensures multiset(s[at := w][lo..hi]) <= multiset(s[lo..hi]) + multiset{w}
  {
    if lo <= at < hi {
      assert s[at := w][lo..hi] == s[lo..hi][at - lo := w];
    } else {
      assert s[at := w][lo..hi] == s[lo..hi];
    }
  }

  class PhaseQueue<T(0, ==)> {
    var buf: array<T>
    var len: nat

    ghost predicate Valid() reads this {
      len <= buf.Length
    }

    function Contents(): seq<T>
      reads this, buf
      requires Valid()
    {
      buf[..len]
    }

    constructor (capacity: nat)
      ensures Valid() && Contents() == [] && fresh(buf)
    {
      buf, len := new T[capacity], 0;
    }

    /** Appends in place when the array has room, else into a larger copy. */
    method Append(ws: seq<T>, spare: nat)
      requires Valid()
      modifies this, buf
      ensures Valid() && Contents() == old(Contents()) + ws
      ensures buf == old(buf) <==> old(len) + |ws| <= old(buf).Length
      ensures buf != old(buf) ==> fresh(buf) && old(buf)[..] == old(buf[..])
      ensures buf == old(buf) ==>
        && old(len) + |ws| <= buf.Length
        && buf[..] == Overwrite(old(buf[..]), old(len), ws)
    {
      var target := buf;
      if len + |ws| > buf.Length { target := Grown(len + |ws| + spare); }
      Write(target, len, ws);
      buf, len := target, len + |ws|;
      assert buf[..len] == buf[..][..len];
    }

    method Grown(capacity: nat) returns (target: array<T>)
      requires Valid() && len <= capacity
      ensures fresh(target) && target.Length == capacity && target[..len] == buf[..len]
    {
      target := new T[capacity];
      for k := 0 to len
        invariant target[..k] == buf[..k]
      {
        target[k] := buf[k];
      }
    }

    static method Write(target: array<T>, at: nat, ws: seq<T>)
      requires at + |ws| <= target.Length
      modifies target
      ensures target[..] == Overwrite(old(target[..]), at, ws)
    {
      for k := 0 to |ws|
        invariant target[..] == old(target[..at]) + ws[..k] + old(target[..])[at + k..]
      {
        target[at + k] := ws[k];
      }
    }

    /** Removes the first occurrence of a worker: the last element takes its place. */
    method Delete(w: T) returns (found: bool)
      requires Valid()
      modifies this`len, buf
      ensures Valid() && Contents() == Removed(old(Contents()), w)
      ensures found <==> w in old(Contents())
      ensures len == old(len) - (if found then 1 else 0)
      ensures forall k :: FirstIndex(old(Contents()), w) < k < buf.Length ==> buf[k] == old(buf[k])
    {
      var i := 0;
      while i < len
        invariant i <= len && w !in buf[..i]
      {
        if buf[i] == w {
          FirstAt(Contents(), w, i);
          if i != len - 1 { buf[i] := buf[len - 1]; }
          len := len - 1;
          return true;
        }
        i := i + 1;
      }
      assert w !in Contents();
      return false;
    }
  }

  /******* The manager's sweep *******/

  // What happens around one visit of the sweep: workers other goroutines append before and after the slot is read, the
  // spare room if the queue has to grow, and whether the visit removes its worker.
  datatype Turn<T> = Turn(before: seq<T>, between: seq<T>, spare: nat, drop: bool)

  /** The visited workers whose visit removes them. */
  function Dropped<T>(visited: seq<T>, script: nat -> Turn<T>): seq<T> {
    if visited == [] then []
    else
      var n := |visited| - 1;
      Dropped(visited[..n], script) + (if script(n).drop then [visited[n]] else [])
  }

  function Added<T>(n: nat, script: nat -> Turn<T>): seq<T> {
    if n == 0 then [] else Added(n - 1, script) + script(n - 1).before + script(n - 1).between
  }

  // The slots still to be read hold these workers.
  ghost predicate Ahead<T>(slots: seq<T>, i: nat, n: nat, workers: multiset<T>) {
    i <= n <= |slots| && multiset(slots[i..n]) <= workers
  }

  lemma AheadAppended<T>(slots: seq<T>, slots': seq<T>, at: nat, ws: seq<T>, i: nat, n: nat, workers: multiset<T>)
    requires Ahead(slots, i, n, workers)
    requires slots' == slots || (at + |ws| <= |slots| && slots' == Overwrite(slots, at, ws))
    ensures Ahead(slots', i, n, workers + multiset(ws))
  {
    hide Overwrite;
    if slots' != slots { Overwritten(slots, at, ws, i, n); }
  }

  // The next slot is read: its worker is queued, and the slots behind it hold the others.
  lemma AheadRead<T>(slots: seq<T>, i: nat, n: nat, workers: multiset<T>)
    requires Ahead(slots, i, n, workers) && i < n
    ensures slots[i] in workers && Ahead(slots, i + 1, n, workers - multiset{slots[i]})
  {
    assert slots[i..n] == [slots[i]] + slots[i + 1..n];
  }

  lemma AheadKept<T>(slots: seq<T>, slots': seq<T>, i: nat, n: nat, fewer: multiset<T>, workers: multiset<T>)
    requires Ahead(slots, i, n, fewer) && fewer <= workers && |slots'| == |slots|
    requires forall k :: i <= k < |slots| ==> slots'[k] == slots[k]
    ensures Ahead(slots', i, n, workers)
  {
    assert slots'[i..n] == slots[i..n];
  }

  lemma FirstStays<T>(s: seq<T>, ws: seq<T>, w: T, i: nat)
    requires w in s && (i < |s| ==> s[i] == w)
    ensures FirstIndex(s + ws, w) <= i
  {
    var t, j := s + ws, FirstIndex(s + ws, w);
    var k := FirstIndex(s, w);
    assert t[k] == w;
    assert j <= k;
    if i < |s| { assert t[i] == w; }
  }

  method AppendDuring<T(0, ==)>(q: PhaseQueue<T>, ws: seq<T>, spare: nat, arr: array<T>, i: nat, n: nat, ghost workers: multiset<T>)
    requires q.Valid() && Ahead(arr[..], i, n, workers)
    modifies q, q.buf
    ensures q.Valid() && q.Contents() == old(q.Contents()) + ws
    ensures q.buf == old(q.buf) || (fresh(q.buf) && q.buf != arr)
    ensures Ahead(arr[..], i, n, workers + multiset(ws))
    ensures ws == [] ==> q.buf == old(q.buf) && arr[..] == old(arr[..])
  {
    hide Ahead;
    q.Append(ws, spare);
    AheadAppended(old(arr[..]), arr[..], old(q.len), ws, i, n, workers);
  }

  method DeleteDuring<T(0, ==)>(q: PhaseQueue<T>, w: T, arr: array<T>, i: nat, n: nat, ghost others: multiset<T>)
    requires q.Valid() && Ahead(arr[..], i, n, others) && multiset(q.Contents()) == others + multiset{w}
    requires q.buf == arr ==> FirstIndex(q.Contents(), w) < i
    modifies q`len, q.buf
    ensures q.Valid() && multiset(q.Contents()) == others && Ahead(arr[..], i, n, others)
    ensures forall k :: i <= k < arr.Length ==> arr[k] == old(arr[k])
  {
    hide Ahead, Removed;
    RemovedMultiset(q.Contents(), w);
    var found := q.Delete(w);
    assert others + multiset{w} - multiset{w} == others;
    AheadKept(old(arr[..]), arr[..], i, n, others, others);
  }

  // The slot is read: its worker is in the queue, and there too if the array is still the queue's.
  method ReadSlot<T(0, ==)>(q: PhaseQueue<T>, arr: array<T>, i: nat, n: nat, before: seq<T>, spare: nat) returns (w: T)
    requires q.Valid() && i < n <= arr.Length && Ahead(arr[..], i, n, multiset(q.Contents()))
    modifies q, q.buf
    ensures q.Valid() && (q.buf == old(q.buf) || (fresh(q.buf) && q.buf != arr))
    ensures q.Contents() == old(q.Contents()) + before && w in q.Contents()
    ensures Ahead(arr[..], i + 1, n, multiset(q.Contents()) - multiset{w})
    ensures q.buf == arr && i < q.len ==> q.Contents()[i] == w
    ensures before == [] ==> w == old(arr[i]) && q.buf == old(q.buf) && arr[..] == old(arr[..])
  {
    hide Ahead;
    AppendDuring(q, before, spare, arr, i, n, multiset(q.Contents()));
    w := arr[i];
    AheadRead(arr[..], i, n, multiset(q.Contents()));
  }

  // What happens between reading the slot and acting on it leaves the worker at or before the cursor.
  method Interlude<T(0, ==)>(q: PhaseQueue<T>, arr: array<T>, i: nat, n: nat, w: T, between: seq<T>, spare: nat)
      returns (ghost others: multiset<T>)
    requires q.Valid() && w in q.Contents() && (q.buf == arr && i < q.len ==> q.Contents()[i] == w)
    requires Ahead(arr[..], i + 1, n, multiset(q.Contents()) - multiset{w})
    modifies q, q.buf
    ensures q.Valid() && (q.buf == old(q.buf) || (fresh(q.buf) && q.buf != arr))
    ensures q.Contents() == old(q.Contents()) + between && multiset(q.Contents()) == others + multiset{w}
    ensures Ahead(arr[..], i + 1, n, others)
    ensures q.buf == arr ==> FirstIndex(q.Contents(), w) <= i
    ensures between == [] ==> q.buf == old(q.buf) && arr[..] == old(arr[..])
  {
    hide Ahead, FirstIndex;
    ghost var seen := q.Contents();
    if q.buf == arr { FirstStays(seen, between, w, i); }
    others := multiset(seen) - multiset{w};
    AppendDuring(q, between, spare, arr, i + 1, n, others);
    others := others + multiset(between);
    assert w in multiset(seen);
    assert multiset(seen + between) == multiset(seen) + multiset(between);
  }

  /** One visit of the sweep. */
  method Visit<T(0, ==)>(q: PhaseQueue<T>, arr: array<T>, i: nat, n: nat, turn: Turn<T>) returns (w: T)
    requires q.Valid() && i < n <= arr.Length && Ahead(arr[..], i, n, multiset(q.Contents()))
    modifies q, q.buf
    ensures q.Valid() && (q.buf == old(q.buf) || (fresh(q.buf) && q.buf != arr))
    ensures Ahead(arr[..], i + 1, n, multiset(q.Contents()))
    ensures w in old(q.Contents()) + turn.before
    ensures multiset(q.Contents()) + (if turn.drop then multiset{w} else multiset{}) ==
            multiset(old(q.Contents())) + multiset(turn.before) + multiset(turn.between)
    ensures turn.before == [] ==> w == old(arr[i])
    ensures turn.before == [] && turn.between == [] ==> q.buf == old(q.buf) && arr[..][i + 1..] == old(arr[..])[i + 1..]
  {
    hide Ahead, FirstIndex;
    w := ReadSlot(q, arr, i, n, turn.before, turn.spare);
    var others := Interlude(q, arr, i, n, w, turn.between, turn.spare);
    SumOfThree(old(q.Contents()), turn.before, turn.between);
    Act(q, w, arr, i + 1, n, turn.drop, others);
  }

  lemma SumOfThree<T>(a: seq<T>, b: seq<T>, c: seq<T>)
    ensures multiset(a + b + c) == multiset(a) + multiset(b) + multiset(c)
  {
  }

  method Act<T(0, ==)>(q: PhaseQueue<T>, w: T, arr: array<T>, i: nat, n: nat, drop: bool, ghost others: multiset<T>)
    requires q.Valid() && Ahead(arr[..], i, n, others) && multiset(q.Contents()) == others + multiset{w} && i <= arr.Length
    requires q.buf == arr ==> FirstIndex(q.Contents(), w) < i
    modifies q`len, q.buf
    ensures q.Valid() && Ahead(arr[..], i, n, multiset(q.Contents()))
    ensures multiset(q.Contents()) + (if drop then multiset{w} else multiset{}) == multiset(old(q.Contents()))
    ensures arr[..][i..] == old(arr[..])[i..]
  {
    hide Ahead, FirstIndex;
    if drop {
      DeleteDuring(q, w, arr, i, n, others);
    } else {
      AheadKept(arr[..], arr[..], i, n, others, multiset(q.Contents()));
    }
  }

  /** A manager ranges over its queue. Whatever other goroutines append meanwhile, the queue afterwards holds what it
      held before plus what was appended minus what the visits removed; and if nobody appends, every worker queued at
      the start is visited exactly once, in order, whichever visits remove theirs. */
  method Sweep<T(0, ==)>(q: PhaseQueue<T>, script: nat -> Turn<T>) returns (visited: seq<T>)
    requires q.Valid()
    modifies q, q.buf
    ensures q.Valid() && |visited| == old(q.len)
    ensures multiset(q.Contents()) + multiset(Dropped(visited, script)) ==
            multiset(old(q.Contents())) + multiset(Added(|visited|, script))
    ensures Undisturbed(script, old(q.len)) ==> visited == old(q.Contents())
  {
    hide Ahead, Accounted, InStep, Undisturbed;
    var arr, n := q.buf, q.len;
    ghost var start := arr[..];
    visited := [];
    SweepStarts(start, n, script);
    var i := 0;
    while i < n
      invariant i <= n <= arr.Length && |visited| == i && q.Valid()
      invariant q.buf == old(q.buf) || fresh(q.buf)
      invariant Ahead(arr[..], i, n, multiset(q.Contents()))
      invariant Accounted(multiset(q.Contents()), visited, script, multiset(start[..n]))
      invariant Undisturbed(script, i) ==> q.buf == arr && InStep(visited, arr[..], start, i)
    {
      ghost var before, slots := multiset(q.Contents()), arr[..];
      UndisturbedNext(script, i);
      var w := Visit(q, arr, i, n, script(i));
      Balance(before, multiset(q.Contents()), visited, w, script, multiset(start[..n]));
      if Undisturbed(script, i + 1) { InStepNext(visited, slots, arr[..], start, i); }
      visited := visited + [w];
      i := i + 1;
    }
    SweepEnds(multiset(q.Contents()), visited, script, multiset(start[..n]));
    if Undisturbed(script, n) { InStepAll(visited, arr[..], start, n); }
  }

  /** What the queue holds, and what was removed from it and added to it. */
  ghost predicate Accounted<T>(queue: multiset<T>, visited: seq<T>, script: nat -> Turn<T>, start: multiset<T>) {
    queue + multiset(Dropped(visited, script)) == start + multiset(Added(|visited|, script))
  }

  lemma SweepStarts<T>(slots: seq<T>, n: nat, script: nat -> Turn<T>)
    requires n <= |slots|
    ensures Ahead(slots, 0, n, multiset(slots[..n])) && Accounted(multiset(slots[..n]), [], script, multiset(slots[..n]))
    ensures InStep([], slots, slots, 0)
  {
    assert slots[0..n] == slots[..n];
  }

  lemma SweepEnds<T>(queue: multiset<T>, visited: seq<T>, script: nat -> Turn<T>, start: multiset<T>)
    requires Accounted(queue, visited, script, start)
    ensures queue + multiset(Dropped(visited, script)) == start + multiset(Added(|visited|, script))
  {
  }

  lemma InStepAll<T>(visited: seq<T>, slots: seq<T>, start: seq<T>, n: nat)
    requires InStep(visited, slots, start, n)
    ensures n <= |start| && visited == start[..n]
  {
  }

  lemma UndisturbedNext<T>(script: nat -> Turn<T>, i: nat)
    ensures Undisturbed(script, i + 1) ==> Undisturbed(script, i) && script(i).before == [] && script(i).between == []
  {
  }

  // Nobody appends during the first n visits.
  predicate Undisturbed<T(==)>(script: nat -> Turn<T>, n: nat) {
    forall k :: 0 <= k < n ==> script(k).before == [] && script(k).between == []
  }

  ghost predicate InStep<T>(visited: seq<T>, slots: seq<T>, start: seq<T>, i: nat) {
    i <= |start| == |slots| && visited == start[..i] && slots[i..] == start[i..]
  }

  lemma InStepNext<T>(visited: seq<T>, slots: seq<T>, slots': seq<T>, start: seq<T>, i: nat)
    requires InStep(visited, slots, start, i) && i < |start| == |slots'| && slots'[i + 1..] == slots[i + 1..]
    ensures InStep(visited + [slots[i]], slots', start, i + 1)
  {
    assert slots[i..][0] == slots[i] && start[i..][0] == start[i];
    assert slots[i..][1..] == slots[i + 1..] && start[i..][1..] == start[i + 1..];
  }

  lemma Balance<T>(before: multiset<T>, after: multiset<T>, visited: seq<T>, w: T, script: nat -> Turn<T>, start: multiset<T>)
    requires Accounted(before, visited, script, start)
    requires var turn := script(|visited|);
      after + (if turn.drop then multiset{w} else multiset{}) == before + multiset(turn.before) + multiset(turn.between)
    ensures Accounted(after, visited + [w], script, start)
  {
    var turn := script(|visited|);
    DroppedNext(visited, w, script);
    AddedNext(|visited|, script);
    hide Dropped, Added;
    Rearranged(before, after, multiset(Dropped(visited, script)), if turn.drop then multiset{w} else multiset{}, start,
               multiset(Added(|visited|, script)), multiset(turn.before) + multiset(turn.between));
  }

  lemma DroppedNext<T>(visited: seq<T>, w: T, script: nat -> Turn<T>)
    ensures multiset(Dropped(visited + [w], script)) ==
            multiset(Dropped(visited, script)) + (if script(|visited|).drop then multiset{w} else multiset{})
  {
    assert (visited + [w])[..|visited|] == visited;
  }

  lemma AddedNext<T>(n: nat, script: nat -> Turn<T>)
    ensures multiset(Added(n + 1, script)) ==
            multiset(Added(n, script)) + (multiset(script(n).before) + multiset(script(n).between))
  {
  }

  lemma Rearranged<T>(before: multiset<T>, after: multiset<T>, drop: multiset<T>, gone: multiset<T>, start: multiset<T>,
                      earlier: multiset<T>, added: multiset<T>)
    requires before + drop == start + earlier && after + gone == before + added
    ensures after + (drop + gone) == start + (earlier + added)
  {
    forall x ensures (after + (drop + gone))[x] == (start + (earlier + added))[x] {
      assert (before + drop)[x] == (start + earlier)[x] && (after + gone)[x] == (before + added)[x];
    }
  }
}
