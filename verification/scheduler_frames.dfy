/** How a change of one phase, or of the records, shows up in the workers' views. */
module SchedulerFrames {
  import opened AppTypes
  import opened Scheduler
  import opened SchedulerInv

  /******* Small facts about sequences *******/

  lemma RemoveAtMultiset<T>(s: seq<T>, k: nat)
    requires k < |s|
    ensures multiset(RemoveAt(s, k)) == multiset(s) - multiset{s[k]}
    ensures s[k] in multiset(s)
    ensures |RemoveAt(s, k)| == |s| - 1
  {
    assert s == s[..k] + [s[k]] + s[k + 1..];
  }

  lemma DropFirstMultiset<T>(s: seq<T>)
    requires s != []
    ensures multiset(s[1..]) == multiset(s) - multiset{s[0]}
    ensures s[0] in multiset(s)
  {
    assert s == [s[0]] + s[1..];
  }

  lemma PodsAppend(s: seq<Worker>, w: Worker)
    ensures multiset(Pods(s + [w])) == multiset(Pods(s)) + multiset{Pod(w)}
  {
    assert Pods(s + [w]) == Pods(s) + [Pod(w)];
  }

  lemma PodsRemoveAt(s: seq<Worker>, k: nat)
    requires k < |s|
    ensures multiset(Pods(RemoveAt(s, k))) == multiset(Pods(s)) - multiset{Pod(s[k])}
    ensures Pod(s[k]) in multiset(Pods(s))
  {
    assert Pods(RemoveAt(s, k)) == RemoveAt(Pods(s), k);
    RemoveAtMultiset(Pods(s), k);
  }

  lemma PodsDropFirst(s: seq<Worker>)
    requires s != []
    ensures multiset(Pods(s[1..])) == multiset(Pods(s)) - multiset{Pod(s[0])}
    ensures Pod(s[0]) in multiset(Pods(s))
  {
    assert Pods(s[1..]) == Pods(s)[1..];
    DropFirstMultiset(Pods(s));
  }

  /******* Views *******/

  lemma PhaseView(s: State, p: Phase, ps: PhaseState, u: Worker)
    ensures ViewOf(SetPhase(s, p, ps), u) == ViewOf(s, u).(at := ViewOf(s, u).at.With(p, SpotOf(ps, u)))
  {
  }

  lemma SpotAt(s: State, p: Phase, u: Worker)
    ensures ViewOf(s, u).at.At(p) == SpotOf(s.ph.At(p), u)
  {
  }

  lemma SameSpot(v: View, p: Phase)
    ensures v.(at := v.at.With(p, v.at.At(p))) == v
  {
  }

  // Phase p became ps; every worker but w keeps its place there.
  ghost predicate PhaseMoved(s: State, s': State, p: Phase, ps: PhaseState, w: Worker) {
    && s'.ph == s.ph.With(p, ps)
    && forall u :: u != w ==> SpotOf(ps, u) == SpotOf(s.ph.At(p), u)
  }

  // Every worker but w keeps its own fields.
  ghost predicate FieldsKept(s: State, s': State, w: Worker) {
    && s'.created - {w} == s.created - {w} && s'.active - {w} == s.active - {w}
    && s'.info - {Own(w)} == s.info - {Own(w)} && s'.waiter - {w} == s.waiter - {w}
  }

  lemma LookupKept<K, V>(m: map<K, V>, m': map<K, V>, k: K, j: K)
    requires m' - {k} == m - {k} && j != k
    ensures Lookup(m', j) == Lookup(m, j)
  {
    assert j in m' <==> j in m' - {k};
    assert j in m <==> j in m - {k};
    if j in m { assert (m - {k})[j] == (m' - {k})[j]; }
  }

  lemma MemberKept(x: set<Worker>, x': set<Worker>, w: Worker, u: Worker)
    requires x' - {w} == x - {w} && u != w
    ensures u in x' <==> u in x
  {
    assert u in x' <==> u in x' - {w};
  }

  lemma FieldsOfOthers(s: State, s': State, w: Worker, u: Worker)
    requires FieldsKept(s, s', w) && u != w
    ensures (u in s'.created <==> u in s.created) && (u in s'.active <==> u in s.active)
    ensures Lookup(s'.info, Own(u)) == Lookup(s.info, Own(u)) && Lookup(s'.waiter, u) == Lookup(s.waiter, u)
  {
    LookupKept(s.info, s'.info, Own(w), Own(u));
    LookupKept(s.waiter, s'.waiter, w, u);
    MemberKept(s.created, s'.created, w, u);
    MemberKept(s.active, s'.active, w, u);
  }

  function NewView(s: State, s': State, p: Phase, ps: PhaseState, u: Worker): View {
    View(u in s'.created, Lookup(s'.info, Own(u)), u in s'.active, Lookup(s'.waiter, u),
         ViewOf(s, u).at.With(p, SpotOf(ps, u)))
  }

  lemma NewViewOf(s: State, s': State, p: Phase, ps: PhaseState, u: Worker)
    requires s'.ph == s.ph.With(p, ps)
    ensures ViewOf(s', u) == NewView(s, s', p, ps, u)
  {
  }

  lemma WorkersKept(cfg: Config, s: State, s': State, w: Worker)
    requires Workers(cfg, s) && ViewOk(cfg, w, ViewOf(s', w))
    requires forall u :: u != w ==> ViewOf(s', u) == ViewOf(s, u)
    ensures Workers(cfg, s')
  {
    hide ViewOk, ViewOf;
    forall u ensures ViewOk(cfg, u, ViewOf(s', u)) { assert ViewOk(cfg, u, ViewOf(s, u)); }
  }

  /** A step about worker w in phase p keeps all workers in order if it keeps w. */
  lemma WorkersStep(cfg: Config, s: State, s': State, p: Phase, ps: PhaseState, w: Worker)
    requires Workers(cfg, s) && PhaseMoved(s, s', p, ps, w) && FieldsKept(s, s', w)
    requires ViewOk(cfg, w, NewView(s, s', p, ps, w))
    ensures Workers(cfg, s')
    ensures forall u :: u != w ==> ViewOf(s', u) == ViewOf(s, u)
  {
    forall u ensures ViewOk(cfg, u, ViewOf(s', u)) && (u != w ==> ViewOf(s', u) == ViewOf(s, u)) {
      NewViewOf(s, s', p, ps, u);
      if u != w {
        SpotAt(s, p, u);
        SameSpot(ViewOf(s, u), p);
        FieldsOfOthers(s, s', w, u);
        assert ViewOk(cfg, u, ViewOf(s, u));
      }
    }
  }

  /******* Places in one phase *******/

  lemma SpotBasics(ps: PhaseState, u: Worker)
    ensures SpotOf(ps, u).stance == StanceOf(ps.mgr, u) && SpotOf(ps, u).queued == ps.q[u]
  {
  }

  lemma ManagerSpot(ps: PhaseState, m: Manager, u: Worker)
    ensures SpotOf(ps.(mgr := m), u) == SpotOf(ps, u).(stance := StanceOf(m, u))
  {
  }

  lemma QueueSpot(ps: PhaseState, q: multiset<Worker>, u: Worker)
    ensures SpotOf(ps.(q := q), u) == SpotOf(ps, u).(queued := q[u])
  {
  }

  lemma DequeueSpot(ps: PhaseState, w: Worker, u: Worker)
    requires w in ps.q
    ensures SpotOf(ps, w).queued > 0
    ensures SpotOf(ps.(q := ps.q - multiset{w}), u) ==
            if u == w then SpotOf(ps, w).(queued := SpotOf(ps, w).queued - 1) else SpotOf(ps, u)
  {
  }

  lemma DetachSpot(ps: PhaseState, w: Worker, u: Worker)
    requires ps.mgr == Moving(w) && SpotOf(ps, w).queued > 0
    ensures SpotOf(ps.(q := ps.q - multiset{w}, mgr := Looping), u) ==
            if u == w then SpotOf(ps, w).(queued := SpotOf(ps, w).queued - 1, stance := Away) else SpotOf(ps, u)
  {
  }

  lemma SendSpot(ps: PhaseState, w: Worker, u: Worker)
    requires ps.mgr == Looping || ps.mgr == Reserved(w)
    ensures SpotOf(ps.(chan := ps.chan + [w], mgr := Marking(w)), u) ==
            if u == w then SpotOf(ps, w).(open := SpotOf(ps, w).open + 1, stance := Sent) else SpotOf(ps, u)
  {
  }

  lemma ReceiveSpot(ps: PhaseState, u: Worker)
    requires ps.chan != [] && !ps.hnd.HWork?
    ensures SpotOf(ps.(chan := ps.chan[1..], hnd := HWork(ps.chan[0])), u) == SpotOf(ps, u)
  {
    DropFirstMultiset(ps.chan);
  }

  function OneLess(sp: Spot): Spot {
    sp.(open := if sp.open > 0 then sp.open - 1 else 0)
  }

  // Worker w has one open dispatch less, nobody else's place changes.
  ghost predicate Closes(ps: PhaseState, ps': PhaseState, w: Worker) {
    forall u :: SpotOf(ps', u) == if u == w then OneLess(SpotOf(ps, u)) else SpotOf(ps, u)
  }

  lemma HandledSpot(ps: PhaseState, ps': PhaseState)
    requires ps.hnd.HWork? && ps' == ps.(hnd := HIdle, pool := ps'.pool)
    ensures SpotOf(ps, ps.hnd.w).open > 0 && Closes(ps, ps', ps.hnd.w)
  {
  }

  lemma StartSpot(ps: PhaseState, u: Worker)
    requires ps.hnd.HWork?
    ensures SpotOf(ps.(hnd := HIdle, runs := ps.runs + [ps.hnd.w]), u) == SpotOf(ps, u)
    ensures SpotOf(ps, ps.hnd.w).open > 0
  {
  }

  lemma RunEndSpot(ps: PhaseState, ps': PhaseState, k: nat)
    requires k < |ps.runs| && ps' == ps.(runs := RemoveAt(ps.runs, k), pool := ps'.pool)
    ensures SpotOf(ps, ps.runs[k]).open > 0 && Closes(ps, ps', ps.runs[k])
  {
    RemoveAtMultiset(ps.runs, k);
  }

  lemma InstalledSpot(ps: PhaseState, k: nat, u: Worker)
    requires k < |ps.runs|
    ensures SpotOf(ps, ps.runs[k]).open > 0
    ensures SpotOf(ps.(runs := RemoveAt(ps.runs, k), cleaning := ps.cleaning + [ps.runs[k]]), u) ==
            if u == ps.runs[k] then SpotOf(ps, u).(open := SpotOf(ps, u).open - 1, cleaning := SpotOf(ps, u).cleaning + 1)
            else SpotOf(ps, u)
  {
    RemoveAtMultiset(ps.runs, k);
  }

  lemma CleanedSpot(ps: PhaseState, k: nat, u: Worker)
    requires k < |ps.cleaning|
    ensures SpotOf(ps, ps.cleaning[k]).cleaning > 0
    ensures SpotOf(ps.(cleaning := RemoveAt(ps.cleaning, k)), u) ==
            if u == ps.cleaning[k] then SpotOf(ps, u).(cleaning := SpotOf(ps, u).cleaning - 1) else SpotOf(ps, u)
  {
    RemoveAtMultiset(ps.cleaning, k);
  }

  // A phase in which nobody's place changes.
  predicate Quiet(ps: PhaseState, ps': PhaseState) {
    && ps'.q == ps.q && ps'.chan == ps.chan && ps'.runs == ps.runs && ps'.cleaning == ps.cleaning
    && (ps'.hnd == ps.hnd || (!ps.hnd.HWork? && !ps'.hnd.HWork?))
    && (ps'.mgr == ps.mgr || (Stays(ps.mgr) && Stays(ps'.mgr)))
  }

  predicate Stays(m: Manager) {
    m == Looping || m == Closing || m == Finished
  }

  lemma QuietSpot(ps: PhaseState, ps': PhaseState, u: Worker)
    requires Quiet(ps, ps')
    ensures SpotOf(ps', u) == SpotOf(ps, u)
  {
  }

  lemma QuietStep(cfg: Config, s: State, s': State, p: Phase, ps: PhaseState)
    requires Workers(cfg, s) && s'.ph == s.ph.With(p, ps) && Quiet(s.ph.At(p), ps)
    requires s'.created == s.created && s'.active == s.active && s'.info == s.info && s'.waiter == s.waiter
    ensures Workers(cfg, s')
    ensures forall u :: ViewOf(s', u) == ViewOf(s, u)
  {
    forall u ensures ViewOk(cfg, u, ViewOf(s', u)) && ViewOf(s', u) == ViewOf(s, u) {
      NewViewOf(s, s', p, ps, u);
      SpotAt(s, p, u);
      QuietSpot(s.ph.At(p), ps, u);
      SameSpot(ViewOf(s, u), p);
      assert ViewOk(cfg, u, ViewOf(s, u));
    }
  }
}
