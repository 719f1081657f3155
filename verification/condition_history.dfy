/** Transition times over any sequence of derivations and updates. */
module ConditionHistory {
  import opened AppTypes
  import opened Conditions

  datatype Op = DeriveOp(input: Input, now: int) | UpsertOp(condition: Condition, now: int)

  function After(cs: seq<Condition>, op: Op): seq<Condition> {
    match op
    case DeriveOp(input, now) => Derived(cs, input, now)
    case UpsertOp(c, now) => Upserted(cs, c, now)
  }

  predicate IsHistory(states: seq<seq<Condition>>, ops: seq<Op>) {
    |states| == |ops| + 1 && forall n :: 0 <= n < |ops| ==> states[n + 1] == After(states[n], ops[n])
  }

  predicate NoDuplicates(cs: seq<Condition>) {
    forall i, j :: 0 <= i < j < |cs| ==> cs[i].kind != cs[j].kind
  }

  /** Step n changes the status of a type, or adds it. */
  predicate Changed(states: seq<seq<Condition>>, n: nat, kind: string)
    requires n + 1 < |states|
  {
    var c, c' := Find(states[n], kind), Find(states[n + 1], kind);
    c'.Some? && (c.None? || c.value.status != c'.value.status)
  }

  predicate Unchanged(states: seq<seq<Condition>>, lo: nat, hi: nat, kind: string)
    requires hi < |states|
  {
    forall k :: lo <= k < hi ==> !Changed(states, k, kind)
  }

  /** Step m is the last one before n to change a type. */
  predicate LastChange(states: seq<seq<Condition>>, m: nat, n: nat, kind: string)
    requires m < n < |states|
  {
    Changed(states, m, kind) && Unchanged(states, m + 1, n, kind)
  }

  /******* Duplicates *******/

  lemma {:induction false} UnmanagedNoDuplicates(cs: seq<Condition>)
    requires NoDuplicates(cs)
    ensures NoDuplicates(Unmanaged(cs))
    ensures forall c :: c in Unmanaged(cs) ==> c in cs && !Managed(c.kind)
  {
    if cs == [] {
    } else {
      var k := |cs| - 1;
      UnmanagedNoDuplicates(cs[..k]);
      var front := Unmanaged(cs[..k]);
      forall i | 0 <= i < |front| ensures front[i].kind != cs[k].kind { assert front[i] in cs[..k]; }
    }
  }

  lemma DerivedNoDuplicates(cs: seq<Condition>, input: Input, now: int)
    requires NoDuplicates(cs)
    ensures NoDuplicates(Derived(cs, input, now))
  {
    UnmanagedNoDuplicates(cs);
    var u, d := Unmanaged(cs), Derived(cs, input, now);
    forall i | 0 <= i < |u| ensures !Managed(d[i].kind) { assert u[i] in u; }
  }

  lemma {:induction false} UpsertedNoDuplicates(cs: seq<Condition>, c: Condition, now: int)
    requires NoDuplicates(cs)
    ensures NoDuplicates(Upserted(cs, c, now))
    ensures forall x :: x in Upserted(cs, c, now) ==> x.kind == c.kind || x in cs
  {
    if cs == [] || cs[0].kind == c.kind {
    } else {
      UpsertedNoDuplicates(cs[1..], c, now);
      var rest := Upserted(cs[1..], c, now);
      forall j | 0 <= j < |rest| ensures rest[j].kind != cs[0].kind { assert rest[j] in rest; }
    }
  }

  lemma AfterNoDuplicates(cs: seq<Condition>, op: Op)
    requires NoDuplicates(cs)
    ensures NoDuplicates(After(cs, op))
  {
    match op
    case DeriveOp(input, now) => DerivedNoDuplicates(cs, input, now);
    case UpsertOp(c, now) => UpsertedNoDuplicates(cs, c, now);
  }

  // Without duplicates, the condition of a type is the one found.
  lemma {:induction false} FoundIsOnly(cs: seq<Condition>, c: Condition)
    requires NoDuplicates(cs) && c in cs
    ensures Find(cs, c.kind) == Some(c)
  {
    if cs[0] == c {
    } else {
      FoundIsOnly(cs[1..], c);
    }
  }

  /******* Transition times *******/

  lemma OpTimes(cs: seq<Condition>, op: Op, kind: string)
    ensures var c, c' := Find(cs, kind), Find(After(cs, op), kind);
      && (c.Some? ==> c'.Some?)
      && (c'.Some? ==> c'.value.since == if c.Some? && c.value.status == c'.value.status then c.value.since else op.now)
  {
    match op
    case DeriveOp(input, now) => FindDerived(cs, input, now, kind); hide Find, Derived;
    case UpsertOp(c, now) => FindUpserted(cs, c, now, kind); hide Find, Upserted;
  }

  // One step back from n.
  lemma LastChangeBefore(states: seq<seq<Condition>>, m: nat, n: nat, kind: string)
    requires m < n < |states|
    ensures LastChange(states, m, n, kind) <==>
      if m == n - 1 then Changed(states, m, kind) else LastChange(states, m, n - 1, kind) && !Changed(states, n - 1, kind)
  {
    hide Changed;
  }

  lemma StepTimes(states: seq<seq<Condition>>, ops: seq<Op>, n: nat, kind: string)
    requires IsHistory(states, ops) && 0 < n < |states| && Find(states[n], kind).Some?
    ensures Changed(states, n - 1, kind) ==> Find(states[n], kind).value.since == ops[n - 1].now
    ensures !Changed(states, n - 1, kind) ==>
      Find(states[n - 1], kind).Some? && Find(states[n], kind).value.since == Find(states[n - 1], kind).value.since
  {
    OpTimes(states[n - 1], ops[n - 1], kind);
    assert states[n] == After(states[n - 1], ops[n - 1]);
    hide After, Find, IsHistory;
  }

  lemma {:induction false} TimeOfLastChange(states: seq<seq<Condition>>, ops: seq<Op>, m: nat, n: nat, kind: string)
    requires IsHistory(states, ops) && m < n < |states| && Find(states[n], kind).Some? && LastChange(states, m, n, kind)
    ensures Find(states[n], kind).value.since == ops[m].now
  {
    hide After, Find, Changed, LastChange, Unchanged, IsHistory;
    StepTimes(states, ops, n, kind);
    LastChangeBefore(states, m, n, kind);
    if m == n - 1 {
    } else {
      TimeOfLastChange(states, ops, m, n - 1, kind);
    }
  }

  lemma {:induction false} OriginalTime(states: seq<seq<Condition>>, ops: seq<Op>, n: nat, kind: string)
    requires IsHistory(states, ops) && n < |states| && Find(states[n], kind).Some? && Unchanged(states, 0, n, kind)
    ensures Find(states[0], kind).Some? && Find(states[n], kind).value.since == Find(states[0], kind).value.since
  {
    hide Changed, Find;
    if n == 0 {
    } else {
      StepTimes(states, ops, n, kind);
      OriginalTime(states, ops, n - 1, kind);
    }
  }

  /** From conditions without duplicates, types stay without duplicates, and each condition's transition time is the time
      of the last operation that changed its status or added it, or the original one if none did. */
  lemma TransitionTimes(states: seq<seq<Condition>>, ops: seq<Op>, n: nat, c: Condition)
    requires IsHistory(states, ops) && NoDuplicates(states[0]) && n < |states|
    ensures NoDuplicates(states[n])
    ensures c in states[n] ==> forall m :: 0 <= m < n && LastChange(states, m, n, c.kind) ==> c.since == ops[m].now
    ensures c in states[n] && Unchanged(states, 0, n, c.kind) ==>
      Find(states[0], c.kind).Some? && c.since == Find(states[0], c.kind).value.since
  {
    NeverDuplicates(states, ops, n);
    if c in states[n] {
      FoundIsOnly(states[n], c);
      hide Find, LastChange, Unchanged, After;
      forall m | 0 <= m < n && LastChange(states, m, n, c.kind) ensures c.since == ops[m].now {
        TimeOfLastChange(states, ops, m, n, c.kind);
      }
      if Unchanged(states, 0, n, c.kind) { OriginalTime(states, ops, n, c.kind); }
    }
  }

  lemma {:induction false} NeverDuplicates(states: seq<seq<Condition>>, ops: seq<Op>, n: nat)
    requires IsHistory(states, ops) && NoDuplicates(states[0]) && n < |states|
    ensures NoDuplicates(states[n])
  {
    if n == 0 {
    } else {
      NeverDuplicates(states, ops, n - 1);
      AfterNoDuplicates(states[n - 1], ops[n - 1]);
    }
  }
}
