/** Ledgers over whole runs: run-pool tokens, and what the entry returns. */
module SchedulerRuns {
  import opened AppTypes
  import opened Scheduler
  import opened SchedulerInv
  import opened SchedulerFrames
  import opened SchedulerBounds
  import opened SchedulerSteps
  import opened SchedulerRecords
  import opened SchedulerQueues
  import opened SchedulerTheorems

  /******* Tokens taken and given back *******/

  predicate Takes(a: Action, p: Phase) {
    a == Acquire(p)
  }

  /** A token is put back: nothing to receive, a download settled by the handler, or a run that ends. */
  predicate GivesBack(a: Action, p: Phase) {
    match a
    case Release(q) => p == q
    case HandleDownload(v) => p == Download && v != StartDownload
    case FinishDownload(_, _, _) => p == Download
    case FinishCopy(_, _) => p == PodCopy
    case _ => false
  }

  function Taken(actions: seq<Action>, p: Phase): nat {
    if actions == [] then 0 else Taken(actions[..|actions| - 1], p) + (if Takes(actions[|actions| - 1], p) then 1 else 0)
  }

  function Given(actions: seq<Action>, p: Phase): nat {
    if actions == [] then 0 else Given(actions[..|actions| - 1], p) + (if GivesBack(actions[|actions| - 1], p) then 1 else 0)
  }

  predicate SamePools(s: State, s': State) {
    && s'.ph.download.pool == s.ph.download.pool && s'.ph.podCopy.pool == s.ph.podCopy.pool
    && s'.ph.install.pool == s.ph.install.pool
  }

  // Steps of the entry and the managers, and of the handlers, that concern no run-pool token.
  predicate EntryOrManager(a: Action) {
    || a.Create? || a.StartYield? || a.YieldNow? || a.Cancel? || a.Return? || a.Send? || a.Mark? || a.Detach? || a.Stop?
    || a.Join? || a.PackageVanishes?
  }

  predicate PlainHandler(a: Action) {
    || a.Receive? || a.HandlerClosed? || a.HandlerCancelled? || a.RefuseInstall? || a.WriteStage? || a.LeaveCluster?
    || a.HandlerExit?
  }

  lemma PoolStep(cfg: Config, s: State, a: Action, s': State, p: Phase)
    requires Ready(cfg, s, a) && Safe(cfg, s, a) && s' == Apply(cfg, s, a) && p != Install
    ensures s'.ph.At(p).pool == s.ph.At(p).pool + (if Takes(a, p) then 1 else 0) - (if GivesBack(a, p) then 1 else 0)
  {
    if a.Visit? {
      VisitPool(cfg, s, a.p, a.w, s');
      hide DoVisit, Ready, Safe;
    } else if EntryOrManager(a) || PlainHandler(a) {
      QuietPool(cfg, s, a, s');
      hide Apply, Ready, Safe;
    } else if a.Acquire? || a.Release? || a.HandleDownload? || a.StartRun? {
      HandlerPool(cfg, s, a, s', p);
      hide Apply, Ready, Safe;
    } else {
      RunEndPool(cfg, s, a, s', p);
      hide Apply, Ready, Safe;
    }
  }

  lemma HandlerPool(cfg: Config, s: State, a: Action, s': State, p: Phase)
    requires Ready(cfg, s, a) && Safe(cfg, s, a) && s' == Apply(cfg, s, a) && p != Install
    requires a.Acquire? || a.Release? || a.HandleDownload? || a.StartRun?
    ensures s'.ph.At(p).pool == s.ph.At(p).pool + (if Takes(a, p) then 1 else 0) - (if GivesBack(a, p) then 1 else 0)
  {
    if a.HandleDownload? {
      HandlePool(s, a.verdict, s.ph.download.hnd.w, s');
    }
    hide Bump, DoHandleDownload;
  }

  lemma HandlePool(s: State, v: DownloadVerdict, w: Worker, s': State)
    requires Main(w.app) in s.info && w in s.waiter && s.ph.download.pool > 0 && s' == DoHandleDownload(s, w, v)
    ensures s'.ph.podCopy.pool == s.ph.podCopy.pool
    ensures s'.ph.download.pool == s.ph.download.pool - (if v == StartDownload then 0 else 1)
  {
    hide Bump;
  }

  lemma RunEndPool(cfg: Config, s: State, a: Action, s': State, p: Phase)
    requires Ready(cfg, s, a) && Safe(cfg, s, a) && s' == Apply(cfg, s, a) && p != Install
    requires a.FinishDownload? || a.FinishCopy? || a.FailInstall? || a.MarkInstalled? || a.FinishInstall?
    ensures s'.ph.At(p).pool == s.ph.At(p).pool - (if GivesBack(a, p) then 1 else 0)
  {
    hide RemoveAt, AllInstalled, Bump;
  }

  lemma QuietPool(cfg: Config, s: State, a: Action, s': State)
    requires Ready(cfg, s, a) && Safe(cfg, s, a) && s' == Apply(cfg, s, a) && (EntryOrManager(a) || PlainHandler(a))
    ensures SamePools(s, s')
  {
    hide SamePools, Apply, Ready, Safe;
    if EntryOrManager(a) { ManagerPool(cfg, s, a, s'); } else { PlainPool(cfg, s, a, s'); }
  }

  lemma ManagerPool(cfg: Config, s: State, a: Action, s': State)
    requires Ready(cfg, s, a) && Safe(cfg, s, a) && s' == Apply(cfg, s, a) && EntryOrManager(a)
    ensures SamePools(s, s')
  {
    hide NeedsRevisit, SamePools, DoSend, DoCreate;
    match a
    case Send => SendPool(cfg, s, s');
    case Create(app) => CreatePool(cfg, s, app, s');
    case _ => QueuePool(cfg, s, a, s'); hide Apply, Ready, Safe;
  }

  lemma SendPool(cfg: Config, s: State, s': State)
    requires Safe(cfg, s, Send) && s' == DoSend(cfg, s)
    ensures SamePools(s, s')
  {
  }

  lemma CreatePool(cfg: Config, s: State, app: nat, s': State)
    requires Safe(cfg, s, Create(app)) && s.entry.Creating? && s' == DoCreate(cfg, s, app)
    ensures SamePools(s, s')
  {
  }

  lemma QueuePool(cfg: Config, s: State, a: Action, s': State)
    requires Ready(cfg, s, a) && Safe(cfg, s, a) && s' == Apply(cfg, s, a) && EntryOrManager(a) && !a.Send? && !a.Create?
    ensures SamePools(s, s')
  {
    hide NeedsRevisit, Ready;
  }

  lemma PlainPool(cfg: Config, s: State, a: Action, s': State)
    requires Ready(cfg, s, a) && Safe(cfg, s, a) && s' == Apply(cfg, s, a) && PlainHandler(a)
    ensures SamePools(s, s')
  {
    hide AdoptClusterApps, Ready;
  }

  lemma VisitPool(cfg: Config, s: State, q: Phase, w: Worker, s': State)
    requires Safe(cfg, s, Visit(q, w)) && s' == DoVisit(cfg, s, q, w)
    ensures SamePools(s, s')
  {
    hide SamePools, BeginMove, DropExhausted, Dispatch, Dequeue;
    MovePool(cfg, s, q, w, Download);
    MovePool(cfg, s, q, w, PodCopy);
    MovePool(cfg, s, q, w, Install);
    DropPool(cfg, s, q, w);
  }

  lemma MovePool(cfg: Config, s: State, q: Phase, w: Worker, next: Phase)
    ensures SamePools(s, BeginMove(cfg, s, q, w, next))
  {
    hide SplitInfo, Joins;
  }

  lemma DropPool(cfg: Config, s: State, q: Phase, w: Worker)
    requires Safe(cfg, s, Visit(q, w))
    ensures SamePools(s, DropExhausted(cfg, s, q, w)) && SamePools(s, Dispatch(cfg, s, q, w)) && SamePools(s, s)
    ensures SamePools(s, Dequeue(s, s.info[KeyFor(cfg, w, q)].phase, w))
  {
  }

  /** Over any run, tokens taken are tokens given back plus tokens out. */
  lemma {:induction false} TokenLedger(cfg: Config, states: seq<State>, actions: seq<Action>, n: nat, p: Phase)
    requires Run(cfg, states, actions) && n < |states| && p != Install
    ensures |states| == |actions| + 1
    ensures Taken(actions[..n], p) == Given(actions[..n], p) + states[n].ph.At(p).pool
  {
    hide Inv, Ready, Safe, Apply;
    if n == 0 {
    } else {
      hide Init;
      TokenLedger(cfg, states, actions, n - 1, p);
      RunKeeps(cfg, states, actions, n - 1);
      PoolStep(cfg, states[n - 1], actions[n - 1], states[n], p);
      assert actions[..n][..n - 1] == actions[..n - 1] && actions[..n][n - 1] == actions[n - 1];
    }
  }

  /** When the entry returns, every token taken has been given back once, except the one a handler held when it found
      its channel closed. */
  lemma TokensReturned(cfg: Config, states: seq<State>, actions: seq<Action>, n: nat, p: Phase)
    requires Run(cfg, states, actions) && n < |states| && p != Install && states[n].entry.Returned?
    ensures |states| == |actions| + 1 && states[n].ph.At(p).hnd.HDone?
    ensures Taken(actions[..n], p) == Given(actions[..n], p) + (if states[n].ph.At(p).hnd.leaked then 1 else 0)
  {
    TokenLedger(cfg, states, actions, n, p);
    hide Run, Taken, Given;
    var s := states[n];
    assert Reached(cfg, s);
    ReachedKeeps(cfg, s);
    Quiescence(cfg, s);
    PoolBounded(cfg, s, p);
    hide Reached, Workers, FanOutInv, Untouched, Tokens, Groups, Slots;
    match p case Download => case PodCopy =>
  }

  /******* Completion *******/

  // What the entry returned still holds of the state.
  predicate VerdictCurrent(cfg: Config, s: State) {
    s.entry.Returned? ==> s.entry.revisit == NeedsRevisit(cfg, s, true)
  }

  lemma VerdictStep(cfg: Config, s: State, a: Action, s': State)
    requires Inv(cfg, s) && Reached(cfg, s) && Ready(cfg, s, a) && Safe(cfg, s, a) && s' == Apply(cfg, s, a)
    requires VerdictCurrent(cfg, s)
    ensures VerdictCurrent(cfg, s')
  {
    if s.entry.Returned? {
      NothingLeftRunning(cfg, s, a);
      hide Reached, Inv;
    } else if a != Return {
      hide Reached, Inv, NeedsRevisit;
      WorkersGrow(cfg, s, a, s');
      hide Apply, Ready, Safe;
    }
  }

  lemma WorkersGrow(cfg: Config, s: State, a: Action, s': State)
    requires Ready(cfg, s, a) && Safe(cfg, s, a) && s' == Apply(cfg, s, a)
    ensures s.created <= s'.created
    ensures a.Create? || a.StartYield? || a.Return? || s'.entry == s.entry
    ensures a.Return? ==> s.entry == Waiting
    ensures a.Create? || a.StartYield? ==> !s'.entry.Returned?
  {
    if a.Visit? {
      VisitGrow(cfg, s, a.p, a.w, s');
      hide DoVisit, Ready, Safe;
    } else if AboutRun(a) {
      RunGrow(cfg, s, a, s');
      hide Apply, Ready, Safe;
    } else {
      hide AdoptClusterApps, NeedsRevisit;
    }
  }

  lemma RunGrow(cfg: Config, s: State, a: Action, s': State)
    requires Ready(cfg, s, a) && Safe(cfg, s, a) && s' == Apply(cfg, s, a) && AboutRun(a)
    ensures s'.created == s.created && s'.entry == s.entry
  {
    hide RemoveAt, AllInstalled, Bump, Ready;
  }

  predicate Grows(s: State, s': State) {
    s.created <= s'.created && s'.entry == s.entry
  }

  lemma VisitGrow(cfg: Config, s: State, q: Phase, w: Worker, s': State)
    requires Safe(cfg, s, Visit(q, w)) && s' == DoVisit(cfg, s, q, w)
    ensures Grows(s, s')
  {
    hide Grows, BeginMove, DropExhausted, Dispatch, Dequeue;
    MoveGrow(cfg, s, q, w, Download);
    MoveGrow(cfg, s, q, w, PodCopy);
    MoveGrow(cfg, s, q, w, Install);
    OtherGrow(cfg, s, q, w);
  }

  lemma MoveGrow(cfg: Config, s: State, q: Phase, w: Worker, next: Phase)
    ensures Grows(s, BeginMove(cfg, s, q, w, next))
  {
    hide SplitInfo, Joins;
  }

  lemma OtherGrow(cfg: Config, s: State, q: Phase, w: Worker)
    requires Safe(cfg, s, Visit(q, w))
    ensures Grows(s, DropExhausted(cfg, s, q, w)) && Grows(s, Dispatch(cfg, s, q, w)) && Grows(s, s)
    ensures Grows(s, Dequeue(s, s.info[KeyFor(cfg, w, q)].phase, w))
  {
  }

  lemma {:induction false} VerdictHolds(cfg: Config, states: seq<State>, actions: seq<Action>, n: nat)
    requires Run(cfg, states, actions) && n < |states|
    ensures VerdictCurrent(cfg, states[n])
  {
    hide Inv, Ready, Safe, Apply;
    if n == 0 {
    } else {
      hide Init, VerdictCurrent;
      VerdictHolds(cfg, states, actions, n - 1);
      RunKeeps(cfg, states, actions, n - 1);
      assert Reached(cfg, states[n - 1]);
      VerdictStep(cfg, states[n - 1], actions[n - 1], states[n]);
    }
  }

  /** The entry returns true exactly if some worker is still in a queue, or the kind has cluster-scoped apps and a bundle
      push is pending or in progress. */
  lemma ReturnExactly(cfg: Config, states: seq<State>, actions: seq<Action>, n: nat)
    requires Run(cfg, states, actions) && n < |states| && states[n].entry.Returned?
    ensures states[n].entry.revisit <==>
      || (exists p: Phase, w: Worker :: w in states[n].ph.At(p).q)
      || (cfg.kind in {ClusterMaster, ClusterManager, SearchHeadCluster} && states[n].stage in {Pending, InProgress})
  {
    hide Run;
    VerdictHolds(cfg, states, actions, n);
    EmptyExactly(states[n]);
    hide PipelineEmpty;
  }

  lemma EmptyExactly(s: State)
    ensures PipelineEmpty(s) <==> !exists p: Phase, w: Worker :: w in s.ph.At(p).q
  {
    if !PipelineEmpty(s) {
      var p := if s.ph.download.q != multiset{} then Download else if s.ph.podCopy.q != multiset{} then PodCopy else Install;
      assert s.ph.At(p).q != multiset{};
      var w :| w in s.ph.At(p).q;
    }
    if p: Phase, w: Worker :| w in s.ph.At(p).q {
      match p case Download => case PodCopy => case Install =>
    }
  }

  /** If the entry returns false, every app it created a worker for is done for its scope or out of retries, and no
      bundle push is pending or in progress. */
  lemma Completion(cfg: Config, states: seq<State>, actions: seq<Action>, n: nat, w: Worker)
    requires Run(cfg, states, actions) && n < |states| && !cfg.FanOut() && states[n].entry == Returned(false)
    ensures !ClusterWorkPending(cfg, states[n])
    ensures w in states[n].created ==>
      w.app < |cfg.scopes| && Own(w) in states[n].info && Settled(cfg.maxRetries, cfg.scopes[w.app], states[n].info[Own(w)])
  {
    VerdictHolds(cfg, states, actions, n);
    var s := states[n];
    hide Run;
    assert Reached(cfg, s);
    ExactlyOneQueue(cfg, s, w);
    hide Reached;
    assert s.ph.download.q[w] == 0 && s.ph.podCopy.q[w] == 0 && s.ph.install.q[w] == 0;
    hide PipelineEmpty, Settled;
  }
}
