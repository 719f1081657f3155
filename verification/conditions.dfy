/** Status conditions: deriving them from a phase, and updating one in place. */
module Conditions {
  import opened AppTypes

  datatype ConditionStatus = True | False | Unknown

  datatype Condition = Condition(kind: string, status: ConditionStatus, reason: string, message: string, generation: int, since: int)

  datatype ResourcePhase = Ready | Pending | Updating | ScalingUp | ScalingDown | Terminating | Error | Other

  datatype Input = Input(phase: ResourcePhase, paused: bool, message: string, generation: int)

  const READY := "Ready"
  const PROGRESSING := "Progressing"
  const PAUSED := "Paused"
  const STALLED := "Stalled"

  const NOT_STALLED := "NotStalled"

  /** The types that derivation manages. */
  predicate Managed(kind: string) {
    kind == READY || kind == PROGRESSING || kind == PAUSED || kind == STALLED
  }

  /** The first condition of a type. */
  function Find(cs: seq<Condition>, kind: string): (r: Option<Condition>)
    ensures r.Some? ==> r.value in cs && r.value.kind == kind
    ensures r.None? ==> forall c :: c in cs ==> c.kind != kind
  {
    if cs == [] then None else if cs[0].kind == kind then Some(cs[0]) else Find(cs[1..], kind)
  }

  /** A condition keeps its transition time unless its status changes or it is new. */
  function TransitionTime(cs: seq<Condition>, kind: string, status: ConditionStatus, now: int): int {
    var c := Find(cs, kind);
    if c.Some? && c.value.status == status then c.value.since else now
  }

  datatype Verdict = Verdict(status: ConditionStatus, reason: string, message: string)

  function OrElse(message: string, fallback: string): string {
    if message != "" then message else fallback
  }

  function ReadyVerdict(phase: ResourcePhase, message: string): Verdict {
    match phase
    case Ready => Verdict(True, "AllReplicasReady", OrElse(message, "All replicas are ready"))
    case Pending => Verdict(False, "ReplicasNotReady", OrElse(message, "Resource is pending initialization"))
    case Updating => Verdict(False, "ReplicasNotReady", OrElse(message, "Resource is being updated"))
    case ScalingUp => Verdict(False, "ReplicasNotReady", OrElse(message, "Resource is scaling up"))
    case ScalingDown => Verdict(False, "ReplicasNotReady", OrElse(message, "Resource is scaling down"))
    case Terminating => Verdict(False, "ReplicasNotReady", OrElse(message, "Resource is being terminated"))
    case Error => Verdict(False, "ReconcileFailed", OrElse(message, "Reconciliation failed"))
    case Other => Verdict(Unknown, "Unknown", "Unknown phase")
  }

  function ProgressingVerdict(phase: ResourcePhase, message: string): Verdict {
    match phase
    case Ready => Verdict(False, "Stable", "Resource is stable")
    case Pending => Verdict(True, "Scaling", "Resource is being initialized")
    case Updating => Verdict(True, "Upgrading", "Resource is being updated")
    case ScalingUp => Verdict(True, "Scaling", "Resource is scaling up")
    case ScalingDown => Verdict(True, "Scaling", "Resource is scaling down")
    case Terminating => Verdict(True, "Scaling", "Resource is being terminated")
    case Error => Verdict(False, "ReconcileFailed", OrElse(message, "Reconciliation failed"))
    case Other => Verdict(Unknown, "Unknown", "Unknown phase")
  }

  function PausedVerdict(paused: bool): Verdict {
    if paused then Verdict(True, "PausedByAnnotation", "Reconciliation is paused via annotation")
    else Verdict(False, "NotPaused", "Reconciliation is not paused")
  }

  /** Stalled is carried forward, never derived. */
  function StalledVerdict(cs: seq<Condition>): Verdict {
    var c := Find(cs, STALLED);
    if c.Some? then Verdict(c.value.status, c.value.reason, c.value.message) else Verdict(False, NOT_STALLED, "")
  }

  function Stamp(cs: seq<Condition>, kind: string, v: Verdict, generation: int, now: int): Condition {
    Condition(kind, v.status, v.reason, v.message, generation, TransitionTime(cs, kind, v.status, now))
  }

  function Unmanaged(cs: seq<Condition>): seq<Condition> {
    if cs == [] then []
    else
      var k := |cs| - 1;
      Unmanaged(cs[..k]) + (if Managed(cs[k].kind) then [] else [cs[k]])
  }

  function VerdictOf(cs: seq<Condition>, input: Input, kind: string): Verdict
    requires Managed(kind)
  {
    if kind == READY then ReadyVerdict(input.phase, input.message)
    else if kind == PROGRESSING then ProgressingVerdict(input.phase, input.message)
    else if kind == PAUSED then PausedVerdict(input.paused)
    else StalledVerdict(cs)
  }

  function Fresh(cs: seq<Condition>, input: Input, kind: string, now: int): Condition
    requires Managed(kind)
  {
    Stamp(cs, kind, VerdictOf(cs, input, kind), input.generation, now)
  }

  function Derived(cs: seq<Condition>, input: Input, now: int): seq<Condition> {
    Unmanaged(cs) + [Fresh(cs, input, READY, now), Fresh(cs, input, PROGRESSING, now), Fresh(cs, input, PAUSED, now),
                     Fresh(cs, input, STALLED, now)]
  }

  function Upserted(cs: seq<Condition>, c: Condition, now: int): seq<Condition> {
    if cs == [] then [c.(since := now)]
    else if cs[0].kind == c.kind then
      [c.(since := if cs[0].status != c.status then now else cs[0].since)] + cs[1..]
    else [cs[0]] + Upserted(cs[1..], c, now)
  }

  /******* The operations *******/

  method TransitionTimeOf(existing: array<Condition>, kind: string, status: ConditionStatus, now: int) returns (t: int)
    ensures t == TransitionTime(existing[..], kind, status, now)
  {
    var i := 0;
    while i < existing.Length
      invariant i <= existing.Length && Find(existing[..], kind) == Find(existing[i..], kind)
    {
      if existing[i].kind == kind {
        return if existing[i].status == status then existing[i].since else now;
      }
      assert existing[i..][1..] == existing[i + 1..];
      i := i + 1;
    }
    return now;
  }

  /** Derives the conditions from a phase. */
  method Derive(existing: array<Condition>, input: Input, now: int) returns (conditions: seq<Condition>)
    ensures conditions == Derived(existing[..], input, now)
  {
    ghost var cs := existing[..];
    conditions := [];
    var paused := PausedVerdict(input.paused);
    var pausedSince := TransitionTimeOf(existing, PAUSED, paused.status, now);
    var ready, progressing := ReadyVerdict(input.phase, input.message), ProgressingVerdict(input.phase, input.message);
    var readySince := TransitionTimeOf(existing, READY, ready.status, now);
    var progressingSince := TransitionTimeOf(existing, PROGRESSING, progressing.status, now);
    var stalled := StalledOf(existing);
    var stalledSince := TransitionTimeOf(existing, STALLED, stalled.status, now);
    for i := 0 to existing.Length
      invariant conditions == Unmanaged(cs[..i])
    {
      assert cs[..i + 1][..i] == cs[..i];
      if !Managed(existing[i].kind) { conditions := conditions + [existing[i]]; }
    }
    assert cs[..existing.Length] == cs;
    conditions := conditions + [
      Condition(READY, ready.status, ready.reason, ready.message, input.generation, readySince),
      Condition(PROGRESSING, progressing.status, progressing.reason, progressing.message, input.generation, progressingSince),
      Condition(PAUSED, paused.status, paused.reason, paused.message, input.generation, pausedSince),
      Condition(STALLED, stalled.status, stalled.reason, stalled.message, input.generation, stalledSince)];
  }

  method StalledOf(existing: array<Condition>) returns (v: Verdict)
    ensures v == StalledVerdict(existing[..])
  {
    v := Verdict(False, NOT_STALLED, "");
    var i := 0;
    while i < existing.Length
      invariant i <= existing.Length && Find(existing[..], STALLED) == Find(existing[i..], STALLED)
    {
      if existing[i].kind == STALLED {
        return Verdict(existing[i].status, existing[i].reason, existing[i].message);
      }
      assert existing[i..][1..] == existing[i + 1..];
      i := i + 1;
    }
  }

  /** Updates a condition in place, or appends it. Whoever shares the array sees the update exactly when the type was
      already there. */
  method Upsert(conditions: array<Condition>, c: Condition, now: int) returns (r: array<Condition>)
    modifies conditions
    ensures r[..] == Upserted(old(conditions[..]), c, now)
    ensures Find(old(conditions[..]), c.kind).Some? ==> r == conditions
    ensures Find(old(conditions[..]), c.kind).None? ==> fresh(r) && conditions[..] == old(conditions[..])
  {
    ghost var cs := conditions[..];
    var i, n := 0, conditions.Length;
    while i < n
      invariant i <= n && conditions[..] == cs
      invariant forall k :: 0 <= k < i ==> cs[k].kind != c.kind
    {
      if conditions[i].kind == c.kind {
        UpsertedAt(cs, c, now, i);
        conditions[i] := c.(since := if conditions[i].status != c.status then now else conditions[i].since);
        return conditions;
      }
      i := i + 1;
    }
    UpsertedAbsent(cs, c, now);
    r := new Condition[n + 1](k requires 0 <= k < n + 1 reads conditions => if k < n then conditions[k] else c.(since := now));
    assert r[..] == cs + [c.(since := now)];
  }

  lemma {:induction false} UpsertedAt(cs: seq<Condition>, c: Condition, now: int, i: nat)
    requires i < |cs| && cs[i].kind == c.kind && forall k :: 0 <= k < i ==> cs[k].kind != c.kind
    ensures Upserted(cs, c, now) == cs[i := c.(since := if cs[i].status != c.status then now else cs[i].since)]
  {
    if i == 0 {
    } else {
      UpsertedAt(cs[1..], c, now, i - 1);
    }
  }

  lemma {:induction false} UpsertedAbsent(cs: seq<Condition>, c: Condition, now: int)
    requires forall k :: 0 <= k < |cs| ==> cs[k].kind != c.kind
    ensures Upserted(cs, c, now) == cs + [c.(since := now)]
  {
    if cs == [] {
    } else {
      UpsertedAbsent(cs[1..], c, now);
    }
  }

  function StalledCondition(reason: string, message: string, generation: int): Condition {
    Condition(STALLED, True, if reason == "" then STALLED else reason, message, generation, 0)
  }

  function ClearedCondition(generation: int): Condition {
    Condition(STALLED, False, NOT_STALLED, "", generation, 0)
  }

  predicate IsTrue(cs: seq<Condition>, kind: string) {
    var c := Find(cs, kind);
    c.Some? && c.value.status == True
  }

  /******* Algebra *******/

  lemma {:induction false} FindInSum(a: seq<Condition>, b: seq<Condition>, kind: string)
    ensures Find(a + b, kind) == if Find(a, kind).Some? then Find(a, kind) else Find(b, kind)
  {
    if a == [] {
      assert a + b == b;
    } else {
      assert (a + b)[1..] == a[1..] + b;
      FindInSum(a[1..], b, kind);
    }
  }

  lemma {:induction false} UnmanagedSum(a: seq<Condition>, b: seq<Condition>)
    ensures Unmanaged(a + b) == Unmanaged(a) + Unmanaged(b)
  {
    if b == [] {
      assert a + b == a;
    } else {
      var k := |b| - 1;
      assert (a + b)[..|a| + k] == a + b[..k];
      UnmanagedSum(a, b[..k]);
    }
  }

  lemma {:induction false} UnmanagedFind(cs: seq<Condition>, kind: string)
    ensures Find(Unmanaged(cs), kind) == if Managed(kind) then None else Find(cs, kind)
  {
    if cs == [] {
    } else {
      var k := |cs| - 1;
      UnmanagedFind(cs[..k], kind);
      assert cs == cs[..k] + [cs[k]];
      FindInSum(cs[..k], [cs[k]], kind);
      FindInSum(Unmanaged(cs[..k]), if Managed(cs[k].kind) then [] else [cs[k]], kind);
    }
  }

  lemma {:induction false} UnmanagedTwice(cs: seq<Condition>)
    ensures Unmanaged(Unmanaged(cs)) == Unmanaged(cs)
  {
    if cs == [] {
    } else {
      var k := |cs| - 1;
      UnmanagedTwice(cs[..k]);
      UnmanagedSum(Unmanaged(cs[..k]), if Managed(cs[k].kind) then [] else [cs[k]]);
    }
  }

  /** What each type is after a derivation: managed types are fresh, the others keep their condition. */
  lemma FindDerived(cs: seq<Condition>, input: Input, now: int, kind: string)
    ensures Find(Derived(cs, input, now), kind) == if Managed(kind) then Some(Fresh(cs, input, kind, now)) else Find(cs, kind)
  {
    UnmanagedFind(cs, kind);
    var derived := [Fresh(cs, input, READY, now), Fresh(cs, input, PROGRESSING, now), Fresh(cs, input, PAUSED, now),
                   Fresh(cs, input, STALLED, now)];
    FindInSum(Unmanaged(cs), derived, kind);
    FindFour(derived, kind);
    hide Stamp, Find;
  }

  lemma FindFour(f: seq<Condition>, kind: string)
    requires |f| == 4 && f[0].kind == READY && f[1].kind == PROGRESSING && f[2].kind == PAUSED && f[3].kind == STALLED
    ensures Find(f, kind) == if kind == READY then Some(f[0]) else if kind == PROGRESSING then Some(f[1])
                             else if kind == PAUSED then Some(f[2]) else if kind == STALLED then Some(f[3]) else None
  {
    assert f == [f[0]] + ([f[1]] + ([f[2]] + [f[3]]));
    FindInSum([f[0]], [f[1]] + ([f[2]] + [f[3]]), kind);
    FindInSum([f[1]], [f[2]] + [f[3]], kind);
    FindInSum([f[2]], [f[3]], kind);
  }

  /** Unmanaged conditions are kept unchanged and in order. */
  lemma UnmanagedKept(cs: seq<Condition>, input: Input, now: int)
    ensures Unmanaged(Derived(cs, input, now)) == Unmanaged(cs)
    ensures |Derived(cs, input, now)| == |Unmanaged(cs)| + 4
  {
    var derived := [Fresh(cs, input, READY, now), Fresh(cs, input, PROGRESSING, now), Fresh(cs, input, PAUSED, now),
                   Fresh(cs, input, STALLED, now)];
    assert forall i :: 0 <= i < 4 ==> Managed(derived[i].kind);
    hide Fresh, Managed;
    UnmanagedSum(Unmanaged(cs), derived);
    UnmanagedTwice(cs);
    NoUnmanaged(derived);
    hide Unmanaged;
  }

  lemma {:induction false} NoUnmanaged(f: seq<Condition>)
    requires forall i :: 0 <= i < |f| ==> Managed(f[i].kind)
    ensures Unmanaged(f) == []
  {
    if f == [] {
    } else {
      NoUnmanaged(f[..|f| - 1]);
    }
  }

  /** Deriving twice from the same input, at any two times, is deriving once; even from conditions with duplicates. */
  lemma DeriveIdempotent(cs: seq<Condition>, input: Input, now: int, later: int)
    ensures Derived(Derived(cs, input, now), input, later) == Derived(cs, input, now)
  {
    var d := Derived(cs, input, now);
    UnmanagedKept(cs, input, now);
    forall kind | Managed(kind) ensures Fresh(d, input, kind, later) == Fresh(cs, input, kind, now) {
      FindDerived(cs, input, now, kind);
      FindDerived(cs, input, now, STALLED);
      hide Derived, Find, ReadyVerdict, ProgressingVerdict, PausedVerdict;
    }
    hide Fresh;
  }

  /** Derivations, with the times they happen at. */
  function DeriveAll(cs: seq<Condition>, inputs: seq<(Input, int)>): seq<Condition> {
    if inputs == [] then cs
    else
      var k := |inputs| - 1;
      Derived(DeriveAll(cs, inputs[..k]), inputs[k].0, inputs[k].1)
  }

  /** Stalled keeps status, reason, message and transition time through any number of phase changes. */
  lemma {:induction false} StalledPersists(cs: seq<Condition>, inputs: seq<(Input, int)>)
    requires Find(cs, STALLED).Some?
    ensures var c, c' := Find(cs, STALLED), Find(DeriveAll(cs, inputs), STALLED);
      c'.Some? && c'.value == c.value.(generation := c'.value.generation)
  {
    if inputs == [] {
    } else {
      var k := |inputs| - 1;
      StalledPersists(cs, inputs[..k]);
      FindDerived(DeriveAll(cs, inputs[..k]), inputs[k].0, inputs[k].1, STALLED);
      hide Derived, Find;
    }
  }

  /** The phase a reader can tell from the conditions: ready exactly in phase Ready, progressing exactly while something
      changes, and never both. */
  lemma DerivedMeaning(cs: seq<Condition>, input: Input, now: int)
    ensures IsTrue(Derived(cs, input, now), READY) <==> input.phase == Ready
    ensures IsTrue(Derived(cs, input, now), PROGRESSING) <==> input.phase !in {Ready, Error, Other}
    ensures IsTrue(Derived(cs, input, now), PAUSED) <==> input.paused
    ensures IsTrue(Derived(cs, input, now), STALLED) <==> IsTrue(cs, STALLED)
  {
    FindDerived(cs, input, now, READY);
    FindDerived(cs, input, now, PROGRESSING);
    FindDerived(cs, input, now, PAUSED);
    FindDerived(cs, input, now, STALLED);
    hide Derived, Find;
  }

  /** The derived conditions in full, apart from their times: what each phase, pause and message means for a reader. */
  lemma DerivedContent(cs: seq<Condition>, input: Input, now: int)
    ensures var d := Derived(cs, input, now);
      && Find(d, READY).Some? && Find(d, PROGRESSING).Some? && Find(d, PAUSED).Some? && Find(d, STALLED).Some?
      && var ready, progressing, paused, stalled :=
           Find(d, READY).value, Find(d, PROGRESSING).value, Find(d, PAUSED).value, Find(d, STALLED).value;
         // statuses
         && (ready.status == True <==> input.phase == Ready) && (ready.status == Unknown <==> input.phase == Other)
         && (progressing.status == True <==> input.phase in {ResourcePhase.Pending, Updating, ScalingUp, ScalingDown, Terminating})
         && (progressing.status == Unknown <==> input.phase == Other)
         && paused.status == (if input.paused then True else False)
         // reasons
         && (ready.reason == "AllReplicasReady" <==> input.phase == Ready)
         && (ready.reason == "ReconcileFailed" <==> input.phase == Error)
         && (ready.reason == "Unknown" <==> input.phase == Other)
         && (ready.reason == "ReplicasNotReady" <==> ready.status == False && input.phase != Error)
         && (progressing.reason == "Stable" <==> input.phase == Ready)
         && (progressing.reason == "Upgrading" <==> input.phase == Updating)
         && (progressing.reason == "ReconcileFailed" <==> input.phase == Error)
         && (progressing.reason == "Scaling" <==> progressing.status == True && input.phase != Updating)
         && (paused.reason == "PausedByAnnotation" <==> input.paused) && (paused.reason == "NotPaused" <==> !input.paused)
         // messages
         && (input.message != "" && input.phase != Other ==> ready.message == input.message)
         && (input.message != "" && input.phase == Error ==> progressing.message == input.message)
         && (input.phase in {ScalingUp, ScalingDown} && input.message == "" ==> ready.message == progressing.message)
         && (input.phase == ScalingUp ==> progressing.message == "Resource is scaling up")
         && (input.phase == ScalingDown ==> progressing.message == "Resource is scaling down")
         // generation
         && ready.generation == progressing.generation == paused.generation == stalled.generation == input.generation
         && (Find(cs, STALLED).None? ==> stalled == Condition(STALLED, False, "NotStalled", "", input.generation, now))
  {
    FindDerived(cs, input, now, READY);
    FindDerived(cs, input, now, PROGRESSING);
    FindDerived(cs, input, now, PAUSED);
    FindDerived(cs, input, now, STALLED);
    hide Derived, Find;
  }

  lemma {:induction false} FindUpserted(cs: seq<Condition>, c: Condition, now: int, kind: string)
    ensures Find(Upserted(cs, c, now), kind) ==
      if kind == c.kind then Some(c.(since := TransitionTime(cs, kind, c.status, now))) else Find(cs, kind)
  {
    if cs == [] {
    } else {
      FindUpserted(cs[1..], c, now, kind);
      if cs[0].kind != c.kind { assert Upserted(cs, c, now)[1..] == Upserted(cs[1..], c, now); }
    }
  }
}
