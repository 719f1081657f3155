/** Every app the entry looks at ends settled, and retries are bounded, when the kind has no fan-out. */
module SchedulerRetries {
  import opened AppTypes
  import opened Scheduler
  import opened SchedulerInv
  import opened SchedulerFrames
  import opened SchedulerWorkers
  import opened SchedulerBounds
  import opened SchedulerSteps
  import opened SchedulerRecords
  import opened SchedulerQueues
  import opened SchedulerRuns

  /******* No app is forgotten *******/

  /** App x has a worker, is still to be looked at, or needs none. */
  predicate Considered(cfg: Config, s: State, x: nat) {
    && x < |cfg.scopes| && Main(x) in s.info
    && (|| Seed(x) in s.created || (s.entry.Creating? && x in s.entry.todo)
        || Settled(cfg.maxRetries, cfg.scopes[x], s.info[Main(x)]))
  }

  lemma SubjectCreated(cfg: Config, s: State, a: Action)
    requires Inv(cfg, s) && Ready(cfg, s, a) && !cfg.FanOut() && Subject(s, a).Some?
    ensures Subject(s, a).value in s.created
  {
    match a
    case Visit(p, w) => VisitedPhase(cfg, s, p, w); hide Inv;
    case HandleDownload(_) => HandleFacts(cfg, s); hide Inv;
    case FinishDownload(k, _, _) => RunFacts(cfg, s, Download, k); hide Inv;
    case FinishCopy(k, _) => RunFacts(cfg, s, PodCopy, k); hide Inv;
    case FailInstall(k, _) => RunFacts(cfg, s, Install, k); hide Inv;
    case MarkInstalled(k) => RunFacts(cfg, s, Install, k); hide Inv;
    case _ =>
  }

  lemma SettledStays(cfg: Config, s: State, a: Action, s': State, x: nat)
    requires Effect(cfg, s, a, s', x) && Subject(s, a) != Some(Seed(x))
    requires Settled(cfg.maxRetries, cfg.scopes[x], s.info[Main(x)])
    ensures Settled(cfg.maxRetries, cfg.scopes[x], s'.info[Main(x)])
  {
  }

  lemma ConsideredStep(cfg: Config, s: State, a: Action, s': State, x: nat)
    requires Inv(cfg, s) && Ready(cfg, s, a) && Safe(cfg, s, a) && s' == Apply(cfg, s, a) && !cfg.FanOut()
    requires Considered(cfg, s, x) && (a == StartYield ==> s.entry.Creating? && s.entry.todo == {})
    ensures Considered(cfg, s', x)
  {
    RecordEffect(cfg, s, a, x);
    if a.Create? {
      CreateConsiders(cfg, s, a.app, s', x);
    } else {
      if Subject(s, a) == Some(Seed(x)) { SubjectCreated(cfg, s, a); }
      hide Inv, Effect;
      WorkersGrow(cfg, s, a, s');
      hide Apply, Ready, Safe;
      StillConsidered(cfg, s, a, s', x);
    }
  }

  lemma CreateConsiders(cfg: Config, s: State, app: nat, s': State, x: nat)
    requires Ready(cfg, s, Create(app)) && Safe(cfg, s, Create(app)) && s' == Apply(cfg, s, Create(app)) && Considered(cfg, s, x)
    ensures Considered(cfg, s', x)
  {
  }

  lemma StillConsidered(cfg: Config, s: State, a: Action, s': State, x: nat)
    requires Effect(cfg, s, a, s', x) && Considered(cfg, s, x)
    requires Subject(s, a) == Some(Seed(x)) ==> Seed(x) in s.created
    requires s.created <= s'.created && !a.Create?
    requires a.StartYield? || !s.entry.Creating? || s'.entry == s.entry
    requires a == StartYield ==> s.entry.Creating? && s.entry.todo == {}
    ensures Considered(cfg, s', x)
  {
    if Seed(x) !in s.created && Settled(cfg.maxRetries, cfg.scopes[x], s.info[Main(x)]) { SettledStays(cfg, s, a, s', x); }
    hide Changes, ChangeOf, Subject, Settled;
  }

  // The entry looks at all apps before it starts the yield watcher (no directory creation fails).
  ghost predicate LooksAtAll(cfg: Config, states: seq<State>, actions: seq<Action>)
    requires |states| == |actions| + 1
  {
    && (states[0].entry.Creating? ==> forall x :: 0 <= x < |cfg.scopes| ==> x in states[0].entry.todo)
    && forall m :: 0 <= m < |actions| && actions[m] == StartYield ==> states[m].entry.Creating? && states[m].entry.todo == {}
  }

  lemma {:induction false} AllConsidered(cfg: Config, states: seq<State>, actions: seq<Action>, n: nat, x: nat)
    requires Run(cfg, states, actions) && LooksAtAll(cfg, states, actions) && !cfg.FanOut() && n < |states| && x < |cfg.scopes|
    ensures Considered(cfg, states[n], x)
  {
    hide Inv, Ready, Safe, Apply;
    if n == 0 {
    } else {
      AllConsidered(cfg, states, actions, n - 1, x);
      hide Init, Considered;
      RunKeeps(cfg, states, actions, n - 1);
      ConsideredStep(cfg, states[n - 1], actions[n - 1], states[n], x);
    }
  }

  /** If the entry has looked at all apps and returns false, every app is done for its scope or out of retries, and no
      bundle push is pending or in progress. */
  lemma AllAppsSettled(cfg: Config, states: seq<State>, actions: seq<Action>, n: nat, x: nat)
    requires Run(cfg, states, actions) && LooksAtAll(cfg, states, actions) && !cfg.FanOut() && n < |states| && x < |cfg.scopes|
    requires states[n].entry == Returned(false)
    ensures Main(x) in states[n].info && Settled(cfg.maxRetries, cfg.scopes[x], states[n].info[Main(x)])
    ensures !ClusterWorkPending(cfg, states[n])
  {
    AllConsidered(cfg, states, actions, n, x);
    Completion(cfg, states, actions, n, Seed(x));
    hide Run, LooksAtAll, Settled;
  }

  /******* Retries *******/

  /** The 32-bit fail count never passes the limit by more than one. */
  lemma FailCountBounded(cfg: Config, s: State, w: Worker)
    requires Reached(cfg, s) && w in s.created
    ensures Own(w) in s.info && s.info[Own(w)].failCount <= cfg.maxRetries + 1
  {
    ReachedKeeps(cfg, s);
    hide Reached;
    assert ViewOk(cfg, w, ViewOf(s, w));
    hide SpotOk;
  }

  /** A limit of 2^32 - 1 is never exhausted: a counted failure at the limit wraps the count to zero and gives the app
      its whole retry budget back. */
  lemma WrapRestartsRetries(cfg: Config, scope: Scope, i: PhaseInfo, i': PhaseInfo)
    requires cfg.maxRetries < UINT32 && i.failCount == cfg.maxRetries
    requires Changes(cfg, scope, RunFailure, i, i')
    ensures Budget(cfg, scope, i') > Budget(cfg, scope, i) <==> cfg.maxRetries + 1 == UINT32
    ensures Exhausted(cfg.maxRetries, i') <==> cfg.maxRetries + 1 < UINT32
  {
    assert PhasesLeft(scope, i'.phase) * (cfg.maxRetries + 1) == PhasesLeft(scope, i.phase) * (cfg.maxRetries + 1);
  }

  /** Whether step m ends a run of app x. */
  ghost predicate EndsRunOf(cfg: Config, states: seq<State>, actions: seq<Action>, m: nat, x: nat)
    requires m < |actions| && m < |states|
  {
    && Main(x) in states[m].info && Subject(states[m], actions[m]) == Some(Seed(x))
    && EndsRun(ChangeOf(cfg, states[m], actions[m], states[m].info[Main(x)]))
  }

  /** Runs of app x that ended in the first n steps. */
  ghost function RunsOf(cfg: Config, states: seq<State>, actions: seq<Action>, n: nat, x: nat): nat
    requires n <= |actions| && n <= |states|
  {
    if n == 0 then 0
    else RunsOf(cfg, states, actions, n - 1, x) + (if EndsRunOf(cfg, states, actions, n - 1, x) then 1 else 0)
  }

  /** No run of app x misses its package, ends uncounted, or is sent back. */
  ghost predicate CountedOnly(cfg: Config, states: seq<State>, actions: seq<Action>, n: nat, x: nat)
    requires n <= |actions| && n <= |states|
  {
    forall m :: 0 <= m < n && Main(x) in states[m].info && Subject(states[m], actions[m]) == Some(Seed(x)) ==>
      CountedChange(ChangeOf(cfg, states[m], actions[m], states[m].info[Main(x)]))
  }

  lemma BudgetStep(cfg: Config, s: State, a: Action, s': State, x: nat)
    requires Effect(cfg, s, a, s', x) && cfg.maxRetries + 1 < UINT32
    requires Subject(s, a) == Some(Seed(x)) ==> CountedChange(ChangeOf(cfg, s, a, s.info[Main(x)]))
    ensures Budget(cfg, cfg.scopes[x], s'.info[Main(x)])
            + (if Subject(s, a) == Some(Seed(x)) && EndsRun(ChangeOf(cfg, s, a, s.info[Main(x)])) then 1 else 0)
            <= Budget(cfg, cfg.scopes[x], s.info[Main(x)])
  {
    var i, i', scope := s.info[Main(x)], s'.info[Main(x)], cfg.scopes[x];
    if a == WriteStage(Complete) {
      if i' != i { BudgetChange(cfg, scope, Adoption, i, i'); }
    } else if Subject(s, a) == Some(Seed(x)) {
      BudgetChange(cfg, scope, ChangeOf(cfg, s, a, i), i, i');
    }
    hide Budget, Changes, CountedChange, EndsRun;
  }

  /** The runs an app has made and those it may still make never exceed its budget at the start. */
  lemma {:induction false} RetryBudget(cfg: Config, states: seq<State>, actions: seq<Action>, n: nat, x: nat)
    requires Run(cfg, states, actions) && !cfg.FanOut() && n < |states| && x < |cfg.scopes| && cfg.maxRetries + 1 < UINT32
    requires CountedOnly(cfg, states, actions, n, x)
    ensures Main(x) in states[0].info && Main(x) in states[n].info
    ensures RunsOf(cfg, states, actions, n, x) + Budget(cfg, cfg.scopes[x], states[n].info[Main(x)])
            <= Budget(cfg, cfg.scopes[x], states[0].info[Main(x)])
  {
    hide Inv, Ready, Safe, Apply, Budget;
    if n == 0 {
    } else {
      RetryBudget(cfg, states, actions, n - 1, x);
      hide Init;
      var s, a := states[n - 1], actions[n - 1];
      RunKeeps(cfg, states, actions, n - 1);
      RecordEffect(cfg, s, a, x);
      assert Effect(cfg, s, a, states[n], x);
      BudgetStep(cfg, s, a, states[n], x);
      hide Effect, CountedChange, ChangeOf, Subject, EndsRun;
    }
  }

  /** From any start an app makes at most 3 * (max + 1) runs, 2 * (max + 1) if cluster-scoped, and it makes one more
      run only while some budget is left. */
  lemma RetryBound(cfg: Config, states: seq<State>, actions: seq<Action>, n: nat, x: nat)
    requires Run(cfg, states, actions) && !cfg.FanOut() && n < |states| && x < |cfg.scopes| && cfg.maxRetries + 1 < UINT32
    requires CountedOnly(cfg, states, actions, n, x)
    ensures RunsOf(cfg, states, actions, n, x) <= (if cfg.scopes[x] == Cluster then 2 else 3) * (cfg.maxRetries + 1)
    ensures forall p :: Open(states[n].ph.At(p))[Seed(x)] > 0 ==>
      RunsOf(cfg, states, actions, n, x) < (if cfg.scopes[x] == Cluster then 2 else 3) * (cfg.maxRetries + 1)
  {
    RetryBudget(cfg, states, actions, n, x);
    BudgetLimit(cfg, cfg.scopes[x], states[0].info[Main(x)]);
    assert Reached(cfg, states[n]);
    hide Run, Reached, CountedOnly, RunsOf;
    ReachedKeeps(cfg, states[n]);
    forall p | Open(states[n].ph.At(p))[Seed(x)] > 0 ensures Budget(cfg, cfg.scopes[x], states[n].info[Main(x)]) >= 1 {
      hide Workers, Untouched, Bounded, FanOutInv, Open;
      assert SpotOf(states[n].ph.At(p), Seed(x)).open > 0;
      OpenFacts(cfg, states[n], p, Seed(x));
      RunnableBudget(cfg, cfg.scopes[x], states[n].info[Main(x)], p);
    }
    hide Inv, Open, Budget;
  }

  lemma RunnableBudget(cfg: Config, scope: Scope, i: PhaseInfo, p: Phase)
    requires Runnable(cfg, i, p)
    ensures Budget(cfg, scope, i) >= 1
  {
    assert PhasesLeft(scope, i.phase) * (cfg.maxRetries + 1) >= 0;
  }

  lemma BudgetLimit(cfg: Config, scope: Scope, i: PhaseInfo)
    ensures Budget(cfg, scope, i) <= (if scope == Cluster then 2 else 3) * (cfg.maxRetries + 1)
  {
    var m := cfg.maxRetries + 1;
    assert PhasesLeft(scope, i.phase) * m == (if PhasesLeft(scope, i.phase) == 2 then m + m else if PhasesLeft(scope, i.phase) == 1 then m else 0);
  }
}
