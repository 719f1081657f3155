/** The split of the scheduler's machine is the split of the pipeline's code. */
module SplitAgreement {
  import opened AppTypes
  import opened Scheduler
  import FanOut

  // The machine's records of app a are the list aux.
  ghost predicate Lists(info: map<Key, PhaseInfo>, a: nat, aux: seq<PhaseInfo>) {
    && (forall k: nat :: Aux(a, k) in info <==> k < |aux|)
    && (forall k :: 0 <= k < |aux| ==> info[Aux(a, k)] == aux[k])
  }

  function WorkersOf(a: nat, ordinals: seq<nat>): set<Worker> {
    set k | k in ordinals :: Replica(a, k)
  }

  /** The workers that join a queue and the records they get are the ones the code's loop makes. */
  lemma SplitsAgree(cfg: Config, info: map<Key, PhaseInfo>, a: nat, aux: seq<PhaseInfo>, seed: FanOut.Seed, p: Phase)
    requires a < |cfg.scopes| && seed.maxRetries == cfg.maxRetries && seed.scope == cfg.scopes[a] && seed.replicas == cfg.replicas
    requires Lists(info, a, aux)
    ensures aux != [] ==> Joins(cfg, info, a, p) == WorkersOf(a, FanOut.Chosen(seed, aux, p))
    ensures aux != [] ==> forall k :: 0 <= k < |aux| ==>
      Aux(a, k) in SplitInfo(cfg, info, a) && SplitInfo(cfg, info, a)[Aux(a, k)] == FanOut.SplitRecord(seed, aux[k])
    ensures aux == [] ==> Joins(cfg, info, a, PodCopy) == WorkersOf(a, seq(cfg.replicas, i => i)) && Joins(cfg, info, a, Install) == {}
    ensures aux == [] ==> forall k :: 0 <= k < cfg.replicas ==>
      Aux(a, k) in SplitInfo(cfg, info, a) && SplitInfo(cfg, info, a)[Aux(a, k)] == NewContext(PodCopy)
  {
    if aux == [] {
      assert NoReplicaRecords(info, a);
      var ordinals := seq(cfg.replicas, i => i);
      forall w ensures w in Replicas(cfg, a) <==> w in WorkersOf(a, ordinals) {
        if w in Replicas(cfg, a) { assert ordinals[w.ordinal] in ordinals; }
      }
    } else {
      assert IsAuxOf(Aux(a, 0), a) && Aux(a, 0) in info;
      FanOut.ChosenExactly(seed, aux, p);
      hide FanOut.Chosen;
      forall w ensures w in Joins(cfg, info, a, p) <==> w in WorkersOf(a, FanOut.Chosen(seed, aux, p)) {
        if w in Joins(cfg, info, a, p) {
          var k :| k in info && IsAuxOf(k, a) && HasWork(cfg, a, info[k]) && info[k].phase == p && w == Replica(a, k.ordinal);
          assert k == Aux(a, k.ordinal);
        }
        if w in WorkersOf(a, FanOut.Chosen(seed, aux, p)) {
          assert IsAuxOf(Aux(a, w.ordinal), a) && Aux(a, w.ordinal) in info;
        }
      }
      forall k | 0 <= k < |aux|
        ensures Aux(a, k) in SplitInfo(cfg, info, a) && SplitInfo(cfg, info, a)[Aux(a, k)] == FanOut.SplitRecord(seed, aux[k])
      {
        assert IsAuxOf(Aux(a, k), a);
      }
    }
  }
}
