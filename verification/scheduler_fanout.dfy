/** Every step keeps what is claimed of fan-out apps. */
module SchedulerFanOut {
  import opened AppTypes
  import opened Scheduler
  import opened SchedulerInv
  import opened SchedulerFrames

  // What FanOutApp reads of app a.
  ghost predicate SameApp(s: State, s': State, a: nat) {
    && (InQueue(s', Download, Seed(a)) ==> InQueue(s, Download, Seed(a)))
    && Lookup(s'.info, Main(a)) == Lookup(s.info, Main(a))
    && (forall i: nat :: Lookup(s'.info, Aux(a, i)) == Lookup(s.info, Aux(a, i)))
    && (forall w: Worker :: w.app == a ==> (w in s'.created <==> w in s.created))
    && (a in s.packages ==> a in s'.packages)
  }

  lemma SameAppInstalled(s: State, s': State, a: nat)
    requires forall i: nat :: Lookup(s'.info, Aux(a, i)) == Lookup(s.info, Aux(a, i))
    ensures AllInstalled(s'.info, a) <==> AllInstalled(s.info, a)
  {
    forall k | IsAuxOf(k, a)
      ensures k in s'.info <==> k in s.info
      ensures k in s.info ==> s'.info[k] == s.info[k]
    {
      assert Lookup(s'.info, Aux(a, k.ordinal)) == Lookup(s.info, Aux(a, k.ordinal));
    }
  }

  lemma FanOutSame(cfg: Config, s: State, s': State, a: nat)
    requires FanOutApp(cfg, s, a) && SameApp(s, s', a)
    ensures FanOutApp(cfg, s', a)
  {
    hide AllInstalled, InQueue;
    SameAppInstalled(s, s', a);
    assert Lookup(s'.info, Main(a)) == Lookup(s.info, Main(a));
    forall i: nat
      ensures (Replica(a, i) in s'.created <==> Replica(a, i) in s.created) && (Aux(a, i) in s'.info <==> Aux(a, i) in s.info)
      ensures Aux(a, i) in s.info ==> s'.info[Aux(a, i)] == s.info[Aux(a, i)]
    {
      assert Lookup(s'.info, Aux(a, i)) == Lookup(s.info, Aux(a, i));
    }
    hide Unattended;
  }

  /** Steps that touch neither records nor packages nor the download queue's members. */
  lemma FanOutFrame(cfg: Config, s: State, s': State)
    requires FanOutInv(cfg, s) && s'.info == s.info && s'.created == s.created
    requires s'.packages == s.packages || !cfg.FanOut()
    requires forall a :: InQueue(s', Download, Seed(a)) ==> InQueue(s, Download, Seed(a))
    ensures FanOutInv(cfg, s')
  {
    hide FanOutApp, InQueue;
    if cfg.FanOut() {
      forall a | 0 <= a < |cfg.scopes| ensures FanOutApp(cfg, s', a) {
        assert SameApp(s, s', a);
        FanOutSame(cfg, s, s', a);
      }
    }
  }

  /** Only app b is concerned. */
  lemma FanOutElsewhere(cfg: Config, s: State, s': State, b: nat)
    requires FanOutInv(cfg, s)
    requires forall a :: a != b ==> SameApp(s, s', a)
    requires cfg.FanOut() && b < |cfg.scopes| ==> FanOutApp(cfg, s', b)
    ensures FanOutInv(cfg, s')
  {
    hide FanOutApp, SameApp;
    if cfg.FanOut() {
      forall a | 0 <= a < |cfg.scopes| ensures FanOutApp(cfg, s', a) {
        if a != b { FanOutSame(cfg, s, s', a); }
      }
    }
  }

  /** A record of app b changed, packages of other apps did not, nobody joined the download queue. */
  lemma ElsewhereSame(s: State, s': State, b: nat, keys: set<Key>)
    requires forall k :: k in keys ==> k.app == b
    requires s'.info - keys == s.info - keys
    requires s'.created == s.created
    requires s'.packages - {b} == s.packages - {b}
    requires forall a :: a != b && InQueue(s', Download, Seed(a)) ==> InQueue(s, Download, Seed(a))
    ensures forall a :: a != b ==> SameApp(s, s', a)
  {
    hide InQueue;
    forall a | a != b ensures SameApp(s, s', a) {
      forall k: Key | k.app == a ensures Lookup(s'.info, k) == Lookup(s.info, k) {
        assert k !in keys;
        assert k in s'.info <==> k in s'.info - keys;
        assert k in s.info <==> k in s.info - keys;
        if k in s.info { assert (s'.info - keys)[k] == (s.info - keys)[k]; }
      }
      assert a in s.packages ==> a in s.packages - {b};
    }
  }

  /** A step on a seed that is still in the download queue. */
  lemma SeedFanOut(cfg: Config, s: State, s': State, w: Worker, i: PhaseInfo)
    requires FanOutInv(cfg, s) && w.app < |cfg.scopes|
    requires InQueue(s, Download, w) && w.Seed?
    requires s'.info == s.info[Main(w.app) := i] && s'.created == s.created
    requires s'.packages - {w.app} == s.packages - {w.app}
    requires i.phase == Download && (i.status == DownloadComplete ==> w.app in s'.packages)
    requires forall a :: a != w.app && InQueue(s', Download, Seed(a)) ==> InQueue(s, Download, Seed(a))
    ensures FanOutInv(cfg, s')
  {
    hide InQueue;
    assert s'.info - {Main(w.app)} == s.info - {Main(w.app)};
    ElsewhereSame(s, s', w.app, {Main(w.app)});
    if cfg.FanOut() { assert w == Seed(w.app) && FanOutApp(cfg, s, w.app); }
    FanOutElsewhere(cfg, s, s', w.app);
  }

  predicate InstalledRecord(i: PhaseInfo) {
    i.phase == Install && i.status == InstallComplete
  }

  /** A step on a replica that was not installed and does not become so; the main record may change, but not to
      installed. */
  lemma ReplicaFanOut(cfg: Config, s: State, s': State, w: Worker, i: PhaseInfo, main: PhaseInfo)
    requires FanOutInv(cfg, s) && cfg.FanOut() && w.Replica? && w in s.created && w.ordinal < cfg.replicas
    requires w.app < |cfg.scopes| && Own(w) in s.info && !InstalledRecord(s.info[Own(w)]) && !InstalledRecord(i)
    requires i.phase != Download && i.status != MissingFromOperator
    requires Main(w.app) in s.info && (main == s.info[Main(w.app)] || !InstalledRecord(main))
    requires s'.info == s.info[Own(w) := i][Main(w.app) := main] && s'.created == s.created && s'.packages == s.packages
    requires forall a :: InQueue(s', Download, Seed(a)) ==> InQueue(s, Download, Seed(a))
    ensures FanOutInv(cfg, s')
  {
    hide InQueue;
    var keys := {Own(w), Main(w.app)};
    assert s'.info - keys == s.info - keys;
    ElsewhereSame(s, s', w.app, keys);
    assert FanOutApp(cfg, s, w.app);
    assert !AllInstalled(s.info, w.app);
    assert !AllInstalled(s'.info, w.app) by { assert Aux(w.app, w.ordinal) == Own(w); }
    FanOutElsewhere(cfg, s, s', w.app);
  }

  /** A replica's install succeeds; the main record follows when it was the last one. */
  lemma InstalledFanOut(cfg: Config, s: State, s': State, w: Worker)
    requires FanOutInv(cfg, s) && cfg.FanOut() && w.Replica? && w in s.created && w.ordinal < cfg.replicas
    requires w.app < |cfg.scopes| && Own(w) in s.info && Main(w.app) in s.info
    requires s.info[Own(w)].phase == Install && s.info[Own(w)].status != InstallComplete
    requires var info1 := s.info[Own(w) := s.info[Own(w)].(status := InstallComplete, failCount := 0)];
      s'.info == if AllInstalled(info1, w.app)
                 then info1[Main(w.app) := info1[Main(w.app)].(phase := Install, status := InstallComplete)] else info1
    requires s'.created == s.created && s'.packages == s.packages
    requires forall a :: InQueue(s', Download, Seed(a)) ==> InQueue(s, Download, Seed(a))
    ensures FanOutInv(cfg, s')
  {
    hide InQueue;
    var keys := {Own(w), Main(w.app)};
    assert s'.info - keys == s.info - keys;
    ElsewhereSame(s, s', w.app, keys);
    assert FanOutApp(cfg, s, w.app);
    assert !AllInstalled(s.info, w.app);
    var info1 := s.info[Own(w) := s.info[Own(w)].(status := InstallComplete, failCount := 0)];
    assert AllInstalled(s'.info, w.app) <==> AllInstalled(info1, w.app);
    FanOutElsewhere(cfg, s, s', w.app);
  }

  lemma CleanedFanOut(cfg: Config, s: State, s': State, b: nat)
    requires FanOutInv(cfg, s) && s'.info == s.info && s'.created == s.created
    requires s'.packages == s.packages || (s'.packages == s.packages - {b} && AllInstalled(s.info, b))
    requires s'.packages != s.packages ==> !InQueue(s', Download, Seed(b))
    requires forall a :: InQueue(s', Download, Seed(a)) ==> InQueue(s, Download, Seed(a))
    ensures FanOutInv(cfg, s')
  {
    hide InQueue, AllInstalled;
    ElsewhereSame(s, s', b, {});
    assert cfg.FanOut() && b < |cfg.scopes| ==> FanOutApp(cfg, s, b);
    FanOutElsewhere(cfg, s, s', b);
  }

  predicate JoinsAny(cfg: Config, info: map<Key, PhaseInfo>, b: nat, u: Worker) {
    u in Joins(cfg, info, b, PodCopy) || u in Joins(cfg, info, b, Install)
  }

  /** What the split does to the records of its app, and to no other. */
  lemma SplitRecords(cfg: Config, info: map<Key, PhaseInfo>, b: nat)
    ensures var info' := SplitInfo(cfg, info, b);
      && (forall k: Key :: k.app != b || k.Main? ==> Lookup(info', k) == Lookup(info, k))
      && (forall k :: k in info ==> k in info')
      && (forall j: nat :: Aux(b, j) in info' && !JoinsAny(cfg, info, b, Replica(b, j)) ==> Unattended(cfg, b, info'[Aux(b, j)]))
  {
    var info' := SplitInfo(cfg, info, b);
    forall j: nat | Aux(b, j) in info' && !JoinsAny(cfg, info, b, Replica(b, j))
      ensures Unattended(cfg, b, info'[Aux(b, j)])
    {
      if !NoReplicaRecords(info, b) { assert IsAuxOf(Aux(b, j), b) && Aux(b, j) in info; }
    }
  }

  /** A worker that the split creates: its record waits in the queue it joins. */
  lemma JoinerRecord(cfg: Config, info: map<Key, PhaseInfo>, b: nat, p: Phase, u: Worker)
    requires u in Joins(cfg, info, b, p) && (p == PodCopy || p == Install)
    ensures u.Replica? && u.app == b && Own(u) in SplitInfo(cfg, info, b)
    ensures var i := SplitInfo(cfg, info, b)[Own(u)]; i.phase == p && i.status == PendingStatus(p) && i.failCount <= cfg.maxRetries
    ensures RecordsInRange(cfg, info, b) ==> u.ordinal < cfg.replicas
    ensures p == PodCopy ==> u !in Joins(cfg, info, b, Install)
  {
    if !NoReplicaRecords(info, b) {
      assert Own(u) in info;
    }
  }

  lemma SplitFanOut(cfg: Config, s: State, s': State, w: Worker)
    requires FanOutInv(cfg, s) && cfg.FanOut() && w.Seed? && w in s.created && w.app < |cfg.scopes|
    requires InQueue(s, Download, w) && !InQueue(s', Download, w)
    requires Main(w.app) in s.info && s.info[Main(w.app)].phase == Download && s.info[Main(w.app)].status == DownloadComplete
    requires s'.info == SplitInfo(cfg, s.info, w.app)
    requires s'.created == s.created + Joins(cfg, s.info, w.app, PodCopy) + Joins(cfg, s.info, w.app, Install)
    requires s'.packages == s.packages
    requires forall a :: InQueue(s', Download, Seed(a)) ==> InQueue(s, Download, Seed(a))
    ensures FanOutInv(cfg, s')
  {
    hide InQueue, SplitInfo, Joins, Unattended;
    var b := w.app;
    SplitRecords(cfg, s.info, b);
    forall u | u in s'.created && u !in s.created ensures u.Replica? && u.app == b && SplitJoiner(s', u) {
      if u in Joins(cfg, s.info, b, PodCopy) {
        JoinerRecord(cfg, s.info, b, PodCopy, u);
      } else {
        JoinerRecord(cfg, s.info, b, Install, u);
      }
    }
    assert FanOutApp(cfg, s, b);
    SplitApp(cfg, s, s', b);
    forall a | a != b ensures SameApp(s, s', a) { }
    FanOutElsewhere(cfg, s, s', b);
  }

  predicate SplitJoiner(s: State, u: Worker) {
    && Own(u) in s.info && s.info[Own(u)].phase != Download && s.info[Own(u)].status == PendingStatus(s.info[Own(u)].phase)
  }

  lemma SplitApp(cfg: Config, s: State, s': State, b: nat)
    requires (forall i :: Replica(b, i) !in s.created) && Seed(b) in s.created && s.created <= s'.created
    requires forall u: Worker :: u in s'.created && u !in s.created ==> u.Replica? && u.app == b && SplitJoiner(s', u)
    requires !InQueue(s', Download, Seed(b)) && b in s'.packages && Main(b) in s.info && s.info[Main(b)].phase == Download
    requires Lookup(s'.info, Main(b)) == Lookup(s.info, Main(b))
    requires forall j: nat :: Aux(b, j) in s'.info && Replica(b, j) !in s'.created ==> Unattended(cfg, b, s'.info[Aux(b, j)])
    ensures FanOutApp(cfg, s', b)
  {
    hide InQueue, Unattended;
    forall i: nat | Replica(b, i) in s'.created
      ensures SplitJoiner(s', Replica(b, i)) && !AllInstalled(s'.info, b)
    {
      assert IsAuxOf(Aux(b, i), b) && Own(Replica(b, i)) == Aux(b, i);
    }
  }

  lemma CreateFanOut(cfg: Config, s: State, s': State, b: nat)
    requires FanOutInv(cfg, s) && Seed(b) !in s.created && b < |cfg.scopes| && Main(b) in s.info
    requires s'.info == s.info && s'.created == s.created + {Seed(b)} && s'.packages == s.packages
    requires cfg.FanOut() ==> (s.info[Main(b)].status == DownloadComplete ==> b in s.packages) && RecordsInRange(cfg, s.info, b) && s.info[Main(b)].phase == Download
    requires forall a :: a != b && InQueue(s', Download, Seed(a)) ==> InQueue(s, Download, Seed(a))
    ensures FanOutInv(cfg, s')
  {
    hide InQueue;
    if cfg.FanOut() {
      assert FanOutApp(cfg, s, b);
      forall i ensures Replica(b, i) !in s'.created { }
    }
    FanOutElsewhere(cfg, s, s', b);
  }
}
