/** The split of a downloaded app into one worker per replica. */
module FanOut {
  import opened AppTypes
  import opened PodNames

  // A worker, reduced to the pod it targets and whether it still stands for all replicas.
  datatype PodWorker = PodWorker(targetPod: string, fanOut: bool)

  class AppRecord {
    var main: PhaseInfo
    var aux: array<PhaseInfo>

    constructor (info: PhaseInfo, replicas: seq<PhaseInfo>)
      ensures main == info && fresh(aux) && aux[..] == replicas
    {
      main := info;
      aux := new PhaseInfo[|replicas|](i requires 0 <= i < |replicas| => replicas[i]);
    }
  }

  datatype Seed = Seed(kind: Kind, name: string, replicas: nat, maxRetries: nat, scope: Scope)

  /** A worker for one replica; none beyond the replica count. */
  function CreateFanOutWorker(seed: Seed, ordinal: nat): Option<PodWorker> {
    if ordinal >= seed.replicas then None else Some(PodWorker(PodName(seed.kind, seed.name, ordinal), false))
  }

  predicate Eligible(seed: Seed, i: PhaseInfo) {
    EligibleAtEntry(seed.maxRetries, seed.scope, i)
  }

  /** The replicas with work left in a phase, in order. */
  function Chosen(seed: Seed, aux: seq<PhaseInfo>, p: Phase): seq<nat> {
    if aux == [] then []
    else
      var k := |aux| - 1;
      Chosen(seed, aux[..k], p) + (if Eligible(seed, aux[k]) && aux[k].phase == p then [k] else [])
  }

  function WorkersFor(seed: Seed, ordinals: seq<nat>): seq<Option<PodWorker>> {
    seq(|ordinals|, i requires 0 <= i < |ordinals| => CreateFanOutWorker(seed, ordinals[i]))
  }

  /** A replica's record after the split: a fresh one waits for its copy; one with work left waits in its own phase,
      with its failures remembered. */
  function SplitRecord(seed: Seed, i: PhaseInfo): PhaseInfo {
    if Eligible(seed, i) then i.(status := PendingStatus(i.phase)) else i
  }

  /** What the split queues for copying and for installing. */
  method SplitWorkers(seed: Seed, app: AppRecord) returns (podCopy: seq<Option<PodWorker>>, install: seq<Option<PodWorker>>)
    modifies app, app.aux
    ensures app.main == old(app.main)
    ensures old(app.aux.Length) == 0 ==>
      && app.aux[..] == seq(seed.replicas, i => NewContext(PodCopy))
      && podCopy == WorkersFor(seed, seq(seed.replicas, i => i)) && install == []
    ensures old(app.aux.Length) > 0 ==>
      && app.aux == old(app.aux) && forall i :: 0 <= i < app.aux.Length ==> app.aux[i] == SplitRecord(seed, old(app.aux[i]))
    ensures old(app.aux.Length) > 0 ==>
      && podCopy == WorkersFor(seed, Chosen(seed, old(app.aux[..]), PodCopy))
      && install == WorkersFor(seed, Chosen(seed, old(app.aux[..]), Install))
  {
    podCopy, install := [], [];
    if app.aux.Length == 0 {
      var aux := new PhaseInfo[seed.replicas];
      for i := 0 to seed.replicas
        invariant |podCopy| == i && app.main == old(app.main)
        invariant forall k :: 0 <= k < i ==> podCopy[k] == CreateFanOutWorker(seed, k) && aux[k] == NewContext(PodCopy)
      {
        podCopy := podCopy + [CreateFanOutWorker(seed, i)];
        aux[i] := NewContext(PodCopy);
      }
      app.aux := aux;
    } else {
      ghost var start := app.aux[..];
      for i := 0 to app.aux.Length
        invariant app.aux == old(app.aux) && app.main == old(app.main)
        invariant forall k :: 0 <= k < i ==> app.aux[k] == SplitRecord(seed, start[k])
        invariant forall k :: i <= k < app.aux.Length ==> app.aux[k] == start[k]
        invariant podCopy == WorkersFor(seed, Chosen(seed, start[..i], PodCopy))
        invariant install == WorkersFor(seed, Chosen(seed, start[..i], Install))
      {
        ChosenNext(seed, start, i, PodCopy);
        ChosenNext(seed, start, i, Install);
        hide Chosen, WorkersFor;
        var info := app.aux[i];
        if Eligible(seed, info) {
          var worker := CreateFanOutWorker(seed, i);
          app.aux[i] := info.(status := PendingStatus(info.phase));
          if info.phase == Install {
            install := install + [worker];
          } else if info.phase == PodCopy {
            podCopy := podCopy + [worker];
          }
        }
      }
      assert start[..app.aux.Length] == start;
    }
  }

  lemma ChosenNext(seed: Seed, aux: seq<PhaseInfo>, i: nat, p: Phase)
    requires i < |aux|
    ensures WorkersFor(seed, Chosen(seed, aux[..i + 1], p)) == WorkersFor(seed, Chosen(seed, aux[..i], p))
      + (if Eligible(seed, aux[i]) && aux[i].phase == p then [CreateFanOutWorker(seed, i)] else [])
  {
    assert aux[..i + 1][..i] == aux[..i];
  }

  /** Chosen lists exactly the replicas with work left in the phase, each once, in order. */
  lemma {:induction false} ChosenExactly(seed: Seed, aux: seq<PhaseInfo>, p: Phase)
    ensures forall i, j :: 0 <= i < j < |Chosen(seed, aux, p)| ==> Chosen(seed, aux, p)[i] < Chosen(seed, aux, p)[j]
    ensures forall k: nat :: k in Chosen(seed, aux, p) <==> k < |aux| && Eligible(seed, aux[k]) && aux[k].phase == p
  {
    if aux == [] {
    } else {
      var k := |aux| - 1;
      ChosenExactly(seed, aux[..k], p);
      var front := Chosen(seed, aux[..k], p);
      forall x: nat ensures x in front <==> x < k && Eligible(seed, aux[x]) && aux[x].phase == p {
        assert x < k ==> aux[..k][x] == aux[x];
      }
      forall i | 0 <= i < |front| ensures front[i] < k { assert front[i] in front; }
    }
  }

  /** The workers of a split target pairwise distinct pods, and each pod's ordinal leads back to the replica's record. */
  lemma DistinctTargets(seed: Seed, ordinals: seq<nat>, i: nat, j: nat)
    requires seed.kind != IndexerCluster && i < j < |ordinals| && ordinals[i] < ordinals[j] < seed.replicas <= MAX_INT
    ensures var ws := WorkersFor(seed, ordinals);
      && ws[i].Some? && ws[j].Some? && ws[i].value.targetPod != ws[j].value.targetPod
      && OrdinalOf(ws[i].value.targetPod) == Number(ordinals[i], true)
  {
    if PodName(seed.kind, seed.name, ordinals[i]) == PodName(seed.kind, seed.name, ordinals[j]) {
      PodsDistinct(seed.kind, seed.name, ordinals[i], ordinals[j]);
    }
    OrdinalRoundTrip(seed.kind, seed.name, ordinals[i]);
  }

  lemma NilIn(seed: Seed, aux: seq<PhaseInfo>, p: Phase)
    ensures None in WorkersFor(seed, Chosen(seed, aux, p)) <==>
      exists k :: seed.replicas <= k < |aux| && Eligible(seed, aux[k]) && aux[k].phase == p
  {
    ChosenExactly(seed, aux, p);
    var c, ws := Chosen(seed, aux, p), WorkersFor(seed, Chosen(seed, aux, p));
    if None in ws {
      var i :| 0 <= i < |ws| && ws[i] == None;
      assert c[i] in c;
    }
    if k :| seed.replicas <= k < |aux| && Eligible(seed, aux[k]) && aux[k].phase == p {
      assert k in c;
      var i :| 0 <= i < |c| && c[i] == k;
      assert ws[i] == None;
    }
  }

  /******* Queueing the workers *******/

  function Present(ws: seq<Option<PodWorker>>): seq<PodWorker>
    requires None !in ws
  {
    if ws == [] then [] else Present(ws[..|ws| - 1]) + [ws[|ws| - 1].value]
  }

  // The two queues a split appends to.
  class Pipeline {
    var podCopy: seq<PodWorker>
    var install: seq<PodWorker>

    constructor ()
      ensures podCopy == install == []
    {
      podCopy, install := [], [];
    }

    /** Adds workers to a queue. Each of them is looked into before any is appended: a nil worker crashes the call and
        leaves the queue as it was. */
    static method AddWorkers(q: seq<PodWorker>, ws: seq<Option<PodWorker>>) returns (r: Option<seq<PodWorker>>)
      ensures r.None? <==> None in ws
      ensures r.Some? ==> r.value == q + Present(ws)
    {
      var added := [];
      for i := 0 to |ws|
        invariant None !in ws[..i] && added == Present(ws[..i])
      {
        if ws[i].None? { return None; }
        assert ws[..i + 1][..i] == ws[..i];
        added := added + [ws[i].value];
      }
      assert ws[..|ws|] == ws;
      return Some(q + added);
    }

    /** The fan-out transition of a downloaded app. It crashes if and only if a replica beyond the replica count has copy
        or install work left; otherwise exactly the workers of the split are appended, copies first. */
    method Transition(seed: Seed, app: AppRecord) returns (crashed: bool)
      modifies this, app, app.aux
      ensures crashed <==> Surplus(seed, old(app.aux[..]))
      ensures !crashed && old(app.aux.Length) == 0 ==>
        && None !in WorkersFor(seed, seq(seed.replicas, i => i))
        && podCopy == old(podCopy) + Present(WorkersFor(seed, seq(seed.replicas, i => i))) && install == old(install)
      ensures !crashed && old(app.aux.Length) > 0 ==>
        var c, d := WorkersFor(seed, Chosen(seed, old(app.aux[..]), PodCopy)), WorkersFor(seed, Chosen(seed, old(app.aux[..]), Install));
        && None !in c && None !in d && podCopy == old(podCopy) + Present(c) && install == old(install) + Present(d)
    {
      NilIn(seed, app.aux[..], PodCopy);
      NilIn(seed, app.aux[..], Install);
      ghost var aux := app.aux[..];
      var copies, installs := SplitWorkers(seed, app);
      hide Chosen, WorkersFor, SplitRecord;
      assert Surplus(seed, aux) <==> None in copies || None in installs;
      var q := AddWorkers(podCopy, copies);
      if q.None? { return true; }
      podCopy := q.value;
      q := AddWorkers(install, installs);
      if q.None? { return true; }
      install := q.value;
      return false;
    }
  }

  /** A replica beyond the replica count has copy or install work left. */
  predicate Surplus(seed: Seed, aux: seq<PhaseInfo>) {
    exists k :: seed.replicas <= k < |aux| && Eligible(seed, aux[k]) && aux[k].phase != Download
  }
}
