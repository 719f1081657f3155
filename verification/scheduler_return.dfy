/** The entry can always be brought to return: from every reached state, without cancelling it. */
module SchedulerReturn {
  import opened AppTypes
  import opened Scheduler
  import opened SchedulerInv
  import opened SchedulerFrames
  import opened SchedulerBounds
  import opened SchedulerSteps
  import opened SchedulerQueues

  /** The actions lead from s to s'. */
  ghost predicate Leads(cfg: Config, s: State, path: seq<Action>, s': State)
    decreases |path|
  {
    if path == [] then s' == s
    else Ready(cfg, s, path[0]) && Safe(cfg, s, path[0]) && Leads(cfg, Apply(cfg, s, path[0]), path[1..], s')
  }

  /******* What is left to do before the return *******/

  function ManagerLeft(m: Manager): nat {
    match m
    case Reserved(_) => 8
    case Marking(_) => 3
    case Moving(_) => 3
    case Looping => 2
    case Closing => 1
    case Finished => 0
  }

  function HandlerLeft(h: Handler): nat {
    match h
    case HWork(_) => 5
    case HIdle => 3
    case HToken => 2
    case HCluster => 2
    case HDrain(_) => 1
    case HDone(_) => 0
  }

  function PhaseLeft(ps: PhaseState): nat {
    ManagerLeft(ps.mgr) + 4 * |ps.chan| + HandlerLeft(ps.hnd) + |ps.runs| + |ps.cleaning|
  }

  function Left(s: State): nat {
    PhaseLeft(s.ph.download) + PhaseLeft(s.ph.podCopy) + PhaseLeft(s.ph.install)
    + (match s.yield_ case NotStarted => 2 case Watching => 1 case Yielded => 0)
    + (if s.entry.Returned? then 0 else 1)
  }

  lemma LeftLess(s: State, s': State, p: Phase)
    requires s'.ph == s.ph.With(p, s'.ph.At(p)) && PhaseLeft(s'.ph.At(p)) < PhaseLeft(s.ph.At(p))
    requires s'.entry == s.entry && s'.yield_ == s.yield_ && s'.cancelled == s.cancelled
    ensures Left(s') < Left(s)
  {
    hide PhaseLeft;
  }

  /** A step nearer to the return; after a cancellation it takes no new token. */
  ghost predicate Nearer(cfg: Config, s: State, a: Action) {
    && Ready(cfg, s, a) && a != Cancel && (s.cancelled ==> !a.Acquire?)
    && (Safe(cfg, s, a) ==> Left(Apply(cfg, s, a)) < Left(s) && Apply(cfg, s, a).cancelled == s.cancelled)
  }

  lemma EntryNearer(cfg: Config, s: State, a: Action)
    requires Ready(cfg, s, a) && (a.StartYield? || a.YieldNow? || a.Return?) && (a.StartYield? ==> s.yield_ == NotStarted)
    ensures Nearer(cfg, s, a)
  {
    hide PhaseLeft, NeedsRevisit;
  }

  /** The step is in phase p and leaves less to do there. */
  ghost predicate LessIn(s: State, s': State, p: Phase) {
    && s'.ph == s.ph.With(p, s'.ph.At(p)) && PhaseLeft(s'.ph.At(p)) < PhaseLeft(s.ph.At(p))
    && s'.entry == s.entry && s'.yield_ == s.yield_ && s'.cancelled == s.cancelled
  }

  lemma NearerBy(cfg: Config, s: State, a: Action, p: Phase)
    requires Ready(cfg, s, a) && a != Cancel && (s.cancelled ==> !a.Acquire?) && (Safe(cfg, s, a) ==> LessIn(s, Apply(cfg, s, a), p))
    ensures Nearer(cfg, s, a)
  {
    hide Ready, Safe, Apply, Left, PhaseLeft;
    if Safe(cfg, s, a) { LeftLess(s, Apply(cfg, s, a), p); }
  }

  lemma SendLess(cfg: Config, s: State)
    requires Ready(cfg, s, Send) && Safe(cfg, s, Send)
    ensures LessIn(s, Apply(cfg, s, Send), Install)
  {
  }

  lemma ManagerLess(cfg: Config, s: State, a: Action)
    requires Ready(cfg, s, a) && Safe(cfg, s, a) && (a.Mark? || a.Detach? || a.Stop?)
    ensures LessIn(s, Apply(cfg, s, a), a.p)
  {
    hide LessIn;
    match a
    case Mark(p) => MarkLess(cfg, s, p); hide Apply, Ready, Safe;
    case Detach(p) => DetachLess(cfg, s, p); hide Apply, Ready, Safe;
    case Stop(p) => StopLess(cfg, s, p); hide Apply, Ready, Safe;
  }

  lemma MarkLess(cfg: Config, s: State, p: Phase)
    requires Ready(cfg, s, Mark(p)) && Safe(cfg, s, Mark(p))
    ensures LessIn(s, Apply(cfg, s, Mark(p)), p)
  {
  }

  lemma DetachLess(cfg: Config, s: State, p: Phase)
    requires Ready(cfg, s, Detach(p)) && Safe(cfg, s, Detach(p))
    ensures LessIn(s, Apply(cfg, s, Detach(p)), p)
  {
  }

  lemma StopLess(cfg: Config, s: State, p: Phase)
    requires Ready(cfg, s, Stop(p))
    ensures LessIn(s, Apply(cfg, s, Stop(p)), p)
  {
  }

  lemma TakeLess(cfg: Config, s: State, a: Action)
    requires Ready(cfg, s, a) && Safe(cfg, s, a) && (a.Acquire? || a.Receive?)
    ensures LessIn(s, Apply(cfg, s, a), a.p)
  {
  }

  lemma EndLess(cfg: Config, s: State, a: Action)
    requires Ready(cfg, s, a) && Safe(cfg, s, a) && (a.HandlerClosed? || a.HandlerCancelled?)
    ensures LessIn(s, Apply(cfg, s, a), a.p)
  {
  }

  lemma ExitLess(cfg: Config, s: State, p: Phase)
    requires Ready(cfg, s, HandlerExit(p)) && Safe(cfg, s, HandlerExit(p))
    ensures LessIn(s, Apply(cfg, s, HandlerExit(p)), p)
  {
  }

  lemma JoinLess(cfg: Config, s: State, p: Phase)
    requires Ready(cfg, s, Join(p))
    ensures LessIn(s, Apply(cfg, s, Join(p)), p)
  {
  }

  lemma WorkLess(cfg: Config, s: State, p: Phase)
    requires Ready(cfg, s, StartRun(p)) && Safe(cfg, s, StartRun(p))
    ensures LessIn(s, Apply(cfg, s, StartRun(p)), p)
  {
  }

  lemma RefusedLess(cfg: Config, s: State)
    requires Ready(cfg, s, HandleDownload(NoStorage)) && Safe(cfg, s, HandleDownload(NoStorage))
    ensures LessIn(s, Apply(cfg, s, HandleDownload(NoStorage)), Download)
  {
  }

  lemma LeaveLess(cfg: Config, s: State)
    requires Ready(cfg, s, LeaveCluster)
    ensures LessIn(s, Apply(cfg, s, LeaveCluster), Install)
  {
  }

  lemma ManagerNearer(cfg: Config, s: State, p: Phase) returns (a: Action)
    requires s.ph.At(p).mgr != Closing && s.ph.At(p).mgr != Finished && s.sigTermCloses > 0 && (s.ph.At(p).mgr.Reserved? ==> p == Install)
    ensures Nearer(cfg, s, a)
  {
    hide Nearer, LessIn, Apply, Safe;
    a := match s.ph.At(p).mgr
      case Reserved(_) => Send
      case Marking(_) => Mark(p)
      case Moving(_) => Detach(p)
      case _ => Stop(p);
    if Safe(cfg, s, a) { if a == Send { SendLess(cfg, s); } else { ManagerLess(cfg, s, a); } }
    NearerBy(cfg, s, a, p);
  }

  lemma HandlerNearer(cfg: Config, s: State, p: Phase) returns (a: Action)
    requires s.ph.At(p).closed && !s.ph.At(p).hnd.HDone?
    requires p != Install && s.ph.At(p).hnd == HIdle ==> s.cancelled || s.ph.At(p).pool < cfg.maxConcurrent
    requires s.ph.At(p).hnd.HDrain? ==> s.workerWaiter.At(p) == 0
    requires s.ph.At(p).hnd == HCluster ==> p == Install
    requires s.ph.At(p).hnd == HToken ==> p != Install
    requires p == Install && s.ph.install.hnd.HWork? ==>
      s.ph.install.hnd.w.app < |cfg.scopes| && CanInstall(cfg.scopes[s.ph.install.hnd.w.app])
    ensures Nearer(cfg, s, a)
  {
    hide Nearer, LessIn, Apply, Safe;
    var ps := s.ph.At(p);
    match ps.hnd {
      case HIdle =>
        a := if s.cancelled then HandlerCancelled(p) else if p != Install then Acquire(p)
             else if ps.chan != [] then Receive(p) else HandlerClosed(p);
        if Safe(cfg, s, a) { if a.Acquire? || a.Receive? { TakeLess(cfg, s, a); } else { EndLess(cfg, s, a); } }
      case HToken =>
        a := if ps.chan != [] then Receive(p) else HandlerClosed(p);
        if Safe(cfg, s, a) { if a.Acquire? || a.Receive? { TakeLess(cfg, s, a); } else { EndLess(cfg, s, a); } }
      case HWork(_) =>
        a := if p == Download then HandleDownload(NoStorage) else StartRun(p);
        if Safe(cfg, s, a) { if p == Download { RefusedLess(cfg, s); } else { WorkLess(cfg, s, p); } }
      case HCluster =>
        a := LeaveCluster;
        LeaveLess(cfg, s);
      case HDrain(_) =>
        a := HandlerExit(p);
        if Safe(cfg, s, a) { ExitLess(cfg, s, p); }
    }
    NearerBy(cfg, s, a, p);
  }

  lemma RunNearer(cfg: Config, s: State, p: Phase) returns (a: Action)
    requires s.ph.At(p).runs != [] || (p == Install && s.ph.install.cleaning != [])
    ensures Nearer(cfg, s, a)
  {
    a := match p
      case Download => FinishDownload(0, false, false)
      case PodCopy => FinishCopy(0, CopyFailed)
      case Install => if s.ph.install.runs != [] then FailInstall(0, Uncounted) else FinishInstall(0, false, false);
    hide Nearer, LessIn, Apply, Safe;
    if Safe(cfg, s, a) { RunLess(cfg, s, a, Apply(cfg, s, a), p); }
    NearerBy(cfg, s, a, p);
  }

  lemma RunLess(cfg: Config, s: State, a: Action, s': State, p: Phase)
    requires Ready(cfg, s, a) && Safe(cfg, s, a) && s' == Apply(cfg, s, a)
    requires || (p == Download && a == FinishDownload(0, false, false)) || (p == PodCopy && a == FinishCopy(0, CopyFailed))
             || (p == Install && (a == FailInstall(0, Uncounted) || a == FinishInstall(0, false, false)))
    ensures LessIn(s, s', p)
  {
    hide Bump, AllInstalled;
  }

  /******* Some step is always possible *******/

  // The accounts of one phase, as the choice of a step needs them.
  lemma PhaseAccounts(cfg: Config, s: State, p: Phase)
    requires Inv(cfg, s)
    ensures var ps := s.ph.At(p);
      && (ps.closed <==> ps.mgr == Closing || ps.mgr == Finished) && (ps.mgr == Finished ==> ps.hnd.HDone?)
      && (ps.hnd.HDone? ==> s.handlerWaiter.At(p) == 0)
      && (p != Install && ps.hnd == HIdle && ps.runs == [] ==> ps.pool == 0) && ps.pool <= cfg.maxConcurrent
      && (ps.runs == [] && ps.cleaning == [] ==> s.workerWaiter.At(p) == 0) && (p != Install ==> ps.cleaning == [])
      && (ps.hnd == HCluster ==> p == Install) && (ps.hnd == HToken ==> p != Install)
      && (ps.mgr.Reserved? ==> p == Install)
      && (p == Install && ps.hnd.HWork? ==> ps.hnd.w.app < |cfg.scopes| && CanInstall(cfg.scopes[ps.hnd.w.app]))
  {
    hide ViewOk, SpotOf, Slots, PodLoad, FanOutInv, Control;
    BoundedAt(cfg, s, p);
    var ps := s.ph.At(p);
    if ps.mgr.Reserved? { ReservedIsInstall(cfg, s, p); }
    if p == Install && ps.hnd.HWork? {
      HandledSpot(ps, ps.(hnd := HIdle));
      OpenFacts(cfg, s, Install, ps.hnd.w);
    }
    hide Workers, Untouched;
  }

  lemma ReservedIsInstall(cfg: Config, s: State, p: Phase)
    requires Inv(cfg, s) && s.ph.At(p).mgr.Reserved?
    ensures p == Install
  {
    hide SpotOf, Bounded, FanOutInv, Untouched;
    var w := s.ph.At(p).mgr.w;
    assert ViewOk(cfg, w, ViewOf(s, w));
    SpotAt(s, p, w);
    SpotBasics(s.ph.At(p), w);
  }

  lemma PhaseNearer(cfg: Config, s: State, p: Phase) returns (a: Action)
    requires Inv(cfg, s) && s.sigTermCloses > 0 && s.ph.At(p).mgr != Finished && (cfg.maxConcurrent > 0 || s.cancelled)
    ensures Nearer(cfg, s, a)
  {
    hide Inv, Nearer;
    PhaseAccounts(cfg, s, p);
    var ps := s.ph.At(p);
    if ps.mgr != Closing {
      a := ManagerNearer(cfg, s, p);
    } else if ps.runs != [] || ps.cleaning != [] {
      a := RunNearer(cfg, s, p);
    } else if ps.hnd.HDone? {
      a := Join(p);
      JoinLess(cfg, s, p);
      NearerBy(cfg, s, a, p);
    } else {
      a := HandlerNearer(cfg, s, p);
    }
  }

  lemma SomeNearer(cfg: Config, s: State) returns (a: Action)
    requires Inv(cfg, s) && !s.entry.Returned? && (cfg.maxConcurrent > 0 || s.cancelled)
    ensures Nearer(cfg, s, a)
  {
    hide Workers, Untouched, Tokens, Groups, Slots, FanOutInv, Nearer;
    BoundedAt(cfg, s, Download);
    if s.entry.Creating? {
      a := StartYield;
      EntryNearer(cfg, s, a);
    } else if s.yield_ == Watching {
      a := YieldNow;
      EntryNearer(cfg, s, a);
    } else if s.ph.download.mgr != Finished {
      a := PhaseNearer(cfg, s, Download);
    } else if s.ph.podCopy.mgr != Finished {
      a := PhaseNearer(cfg, s, PodCopy);
    } else if s.ph.install.mgr != Finished {
      a := PhaseNearer(cfg, s, Install);
    } else {
      a := Return;
      EntryNearer(cfg, s, a);
    }
  }

  /** From every reached state the entry can be brought to return: without being cancelled, if it may run anything at all;
      and once it is cancelled in any case, without taking another token. */
  lemma {:induction false} CanReturn(cfg: Config, s: State) returns (path: seq<Action>, s': State)
    requires Reached(cfg, s) && (cfg.maxConcurrent > 0 || s.cancelled)
    ensures Leads(cfg, s, path, s') && s'.entry.Returned? && Cancel !in path
    ensures s.cancelled ==> Acquire(Download) !in path && Acquire(PodCopy) !in path && Acquire(Install) !in path
    decreases Left(s)
  {
    hide Reached, Ready, Safe, Apply, Left, Inv;
    if s.entry.Returned? {
      path, s' := [], s;
    } else {
      ReachedKeeps(cfg, s);
      var a := SomeNearer(cfg, s);
      NeverCrashes(cfg, s, a);
      var rest;
      rest, s' := CanReturn(cfg, Apply(cfg, s, a));
      path := [a] + rest;
      assert path[1..] == rest;
    }
  }

  /** A cancellation is seen everywhere: managers between two visits can stop and idle handlers can leave. Without it, a
      manager stops only after the yield. */
  lemma CancelIsSeen(cfg: Config, s: State, p: Phase)
    requires Reached(cfg, s)
    ensures Ready(cfg, s, Cancel) && Safe(cfg, s, Cancel)
    ensures var s' := Apply(cfg, s, Cancel);
      && (s.ph.At(p).mgr == Looping ==> Ready(cfg, s', Stop(p)))
      && (s.ph.At(p).hnd == HIdle ==> Ready(cfg, s', HandlerCancelled(p)))
      && s' == s.(cancelled := true)
    ensures !s.cancelled ==> !Ready(cfg, s, HandlerCancelled(p)) && (Ready(cfg, s, Stop(p)) ==> s.yield_ == Yielded)
  {
    hide Reached, Workers, Untouched, Tokens, Groups, Slots, FanOutInv;
    ReachedKeeps(cfg, s);
    BoundedAt(cfg, s, p);
  }

  /** A handler that holds a token is never stuck: there is a worker to take, or nothing and the token goes back, or the
      channel is closed for good. */
  lemma TokenHolderGoesOn(cfg: Config, s: State, p: Phase)
    requires Reached(cfg, s) && s.ph.At(p).hnd == HToken
    ensures Ready(cfg, s, Receive(p)) <==> s.ph.At(p).chan != []
    ensures Ready(cfg, s, Release(p)) <==> s.ph.At(p).chan == [] && s.ph.At(p).mgr != Closing && s.ph.At(p).mgr != Finished
    ensures Ready(cfg, s, HandlerClosed(p)) <==> s.ph.At(p).chan == [] && (s.ph.At(p).mgr == Closing || s.ph.At(p).mgr == Finished)
  {
    hide Reached, Workers, Untouched, Slots, FanOutInv, Control;
    ReachedKeeps(cfg, s);
    BoundedAt(cfg, s, p);
    hide Inv;
  }

  /******* With no run allowed *******/

  /** A download handler that may not take a token waits for ever, unless the entry is cancelled. */
  lemma WaitsForEver(cfg: Config, s: State, a: Action, s': State)
    requires Ready(cfg, s, a) && Safe(cfg, s, a) && s' == Apply(cfg, s, a) && cfg.maxConcurrent == 0
    requires s.ph.download.hnd == HIdle && !s.cancelled && a != Cancel
    ensures s'.ph.download.hnd == HIdle && !s'.cancelled
  {
    if a.Visit? {
      VisitHands(cfg, s, a.p, a.w, s');
      hide DoVisit, Ready, Safe;
    } else if AboutRun(a) {
      RunHands(cfg, s, a, s');
      hide Apply, Ready, Safe;
    } else {
      hide NeedsRevisit, AdoptClusterApps, Safe;
    }
  }

  lemma RunHands(cfg: Config, s: State, a: Action, s': State)
    requires Ready(cfg, s, a) && Safe(cfg, s, a) && s' == Apply(cfg, s, a) && AboutRun(a) && s.ph.download.hnd == HIdle
    ensures SameHand(s, s')
  {
    hide RemoveAt, AllInstalled, Bump;
  }

  lemma VisitHands(cfg: Config, s: State, p: Phase, w: Worker, s': State)
    requires Safe(cfg, s, Visit(p, w)) && s' == DoVisit(cfg, s, p, w)
    ensures SameHand(s, s')
  {
    hide SameHand, BeginMove, DropExhausted, Dispatch, Dequeue;
    MoveHands(cfg, s, p, w, Download);
    MoveHands(cfg, s, p, w, PodCopy);
    MoveHands(cfg, s, p, w, Install);
    OtherHands(cfg, s, p, w);
  }

  predicate SameHand(s: State, s': State) {
    s'.ph.download.hnd == s.ph.download.hnd && s'.cancelled == s.cancelled
  }

  lemma MoveHands(cfg: Config, s: State, p: Phase, w: Worker, next: Phase)
    ensures SameHand(s, BeginMove(cfg, s, p, w, next))
  {
    hide SplitInfo, Joins;
  }

  lemma OtherHands(cfg: Config, s: State, p: Phase, w: Worker)
    requires Safe(cfg, s, Visit(p, w))
    ensures SameHand(s, DropExhausted(cfg, s, p, w)) && SameHand(s, Dispatch(cfg, s, p, w)) && SameHand(s, s)
    ensures SameHand(s, Dequeue(s, s.info[KeyFor(cfg, w, p)].phase, w))
  {
  }

  lemma {:induction false} NeverHandles(cfg: Config, states: seq<State>, actions: seq<Action>, n: nat)
    requires Run(cfg, states, actions) && n < |states| && cfg.maxConcurrent == 0 && !states[0].cancelled && Cancel !in actions
    ensures states[n].ph.download.hnd == HIdle && !states[n].cancelled
  {
    hide Ready, Safe, Apply, Inv;
    if n == 0 {
    } else {
      hide Init;
      NeverHandles(cfg, states, actions, n - 1);
      RunKeeps(cfg, states, actions, n - 1);
      assert actions[n - 1] in actions;
      WaitsForEver(cfg, states[n - 1], actions[n - 1], states[n]);
    }
  }

  /** With no run allowed, which a validated spec excludes, an entry that is not cancelled never returns. */
  lemma NeverReturns(cfg: Config, states: seq<State>, actions: seq<Action>, n: nat)
    requires Run(cfg, states, actions) && n < |states| && cfg.maxConcurrent == 0 && !states[0].cancelled && Cancel !in actions
    ensures !states[n].entry.Returned?
  {
    NeverHandles(cfg, states, actions, n);
    RunKeeps(cfg, states, actions, n);
    hide Run, Workers, Untouched, Tokens, Slots, FanOutInv, Ready, Safe, Apply;
    BoundedAt(cfg, states[n], Download);
  }
}
