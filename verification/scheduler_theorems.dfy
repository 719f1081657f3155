/** The scheduler's properties over every run: all interleavings, all remote outcomes. */
module SchedulerTheorems {
  import opened AppTypes
  import opened Scheduler
  import opened SchedulerInv
  import opened SchedulerFrames
  import opened SchedulerWorkers
  import opened SchedulerBounds
  import opened SchedulerSteps
  import opened SchedulerQueues

  /******* Install slots *******/

  /** On each pod, the tokens taken are the install workers dispatched to it and unfinished, at most one. */
  lemma SlotsConserved(cfg: Config, s: State)
    requires Reached(cfg, s)
    ensures |s.slots| == cfg.replicas
    ensures forall j :: 0 <= j < |s.slots| ==> s.slots[j] == PodLoad(s.ph.install)[j] && s.slots[j] <= 1
  {
    ReachedKeeps(cfg, s);
    hide Reached, PodLoad, Workers, FanOutInv;
    BoundedAt(cfg, s, Install);
  }

  function Below(n: nat): (r: set<nat>)
    ensures |r| == n && forall x :: x in r <==> 0 <= x < n
  {
    if n == 0 then {} else Below(n - 1) + {n - 1}
  }

  // Distinct members of a set.
  lemma {:induction false} Distinct(s: seq<nat>, room: set<nat>)
    requires forall x :: x in s ==> x in room && multiset(s)[x] == 1
    ensures |s| <= |room|
  {
    if s == [] {
    } else {
      var last, front := s[|s| - 1], s[..|s| - 1];
      assert s == front + [last];
      assert multiset(s) == multiset(front) + multiset{last};
      assert last in s && multiset(s)[last] == 1;
      forall x | x in front ensures x in room - {last} && multiset(front)[x] == 1 {
        assert x in s;
        assert x in multiset(front);
      }
      Distinct(front, room - {last});
    }
  }

  /** After the manager has taken an install slot there is room in the channel, so the send cannot fail. */
  lemma SendHasRoom(cfg: Config, s: State)
    requires Reached(cfg, s) && s.ph.install.mgr.Reserved?
    ensures |s.ph.install.chan| < Capacity(cfg, Install)
    ensures Safe(cfg, s, Send) && Apply(cfg, s, Send).ph.install.mgr == Marking(s.ph.install.mgr.w)
    ensures Apply(cfg, s, Send).ph.install.chan == s.ph.install.chan + [s.ph.install.mgr.w]
  {
    ReachedKeeps(cfg, s);
    SlotsConserved(cfg, s);
    hide Reached;
    ChannelRoom(cfg, s);
    StepKeeps(cfg, s, Send);
    hide Inv, Slots, PodLoad;
  }

  lemma ChannelRoom(cfg: Config, s: State)
    requires Inv(cfg, s) && s.ph.install.mgr.Reserved? && |s.slots| == cfg.replicas
    requires forall j :: 0 <= j < |s.slots| ==> PodLoad(s.ph.install)[j] <= 1
    ensures |s.ph.install.chan| < cfg.replicas
  {
    hide ViewOk, SpotOf, Slots, Tokens, Groups, Control, FanOutInv;
    var ps, w := s.ph.install, s.ph.install.mgr.w;
    assert Pod(w) < cfg.replicas by {
      assert ViewOk(cfg, w, ViewOf(s, w));
      SpotBasics(ps, w);
      SpotAt(s, Install, w);
      HeldFacts(cfg, w, ViewOf(s, w));
    }
    var pods := Pods(ps.chan);
    forall x | x in pods ensures x < cfg.replicas {
      var k :| 0 <= k < |pods| && pods[k] == x;
      InChannel(ps, k);
      OpenFacts(cfg, s, Install, ps.chan[k]);
    }
    hide Inv;
    forall x | x in pods ensures multiset(pods)[x] == 1 && x != Pod(w) {
      assert x in multiset(pods);
      assert multiset(pods)[x] <= PodLoad(ps)[x];
    }
    hide PodLoad;
    Distinct(pods, Below(cfg.replicas) - {Pod(w)});
  }

  lemma InChannel(ps: PhaseState, k: nat)
    requires k < |ps.chan|
    ensures SpotOf(ps, ps.chan[k]).open > 0
  {
    assert ps.chan[k] in multiset(ps.chan);
  }

  /******* Run pools *******/

  /** Concurrent downloads and concurrent pod copies never exceed the maximum; the tokens out are the runs plus the
      one the handler holds (kept for good if the closed channel stopped it). */
  lemma PoolBounded(cfg: Config, s: State, p: Phase)
    requires Reached(cfg, s) && p != Install
    ensures |s.ph.At(p).runs| <= s.ph.At(p).pool <= cfg.maxConcurrent
    ensures s.ph.At(p).pool == |s.ph.At(p).runs| + TokenHeld(s.ph.At(p).hnd)
  {
    ReachedKeeps(cfg, s);
    hide Reached, Workers, FanOutInv, Slots, Untouched;
    BoundedAt(cfg, s, p);
  }

  /** Dispatches of a worker that have not ended: in a channel, with a handler, running or cleaning up. */
  function InFlight(s: State, w: Worker): nat {
    Open(s.ph.download)[w] + Open(s.ph.podCopy)[w] + Open(s.ph.install)[w]
    + multiset(s.ph.download.cleaning)[w] + multiset(s.ph.podCopy.cleaning)[w] + multiset(s.ph.install.cleaning)[w]
  }

  /** No worker is dispatched twice, in any phases; while it is, its wait-group pointer names that phase. */
  lemma OneRunPerWorker(cfg: Config, s: State, w: Worker)
    requires Reached(cfg, s)
    ensures InFlight(s, w) <= 1
    ensures forall p :: Open(s.ph.At(p))[w] > 0 ==> w in s.waiter && s.waiter[w] == p
  {
    ReachedKeeps(cfg, s);
    hide Reached;
    assert ViewOk(cfg, w, ViewOf(s, w));
    hide Inv;
    OnePhase(cfg, w, ViewOf(s, w));
    hide ViewOk, Open;
  }

  lemma OnePhase(cfg: Config, w: Worker, v: View)
    requires ViewOk(cfg, w, v)
    ensures v.at.download.open + v.at.podCopy.open + v.at.install.open
            + v.at.download.cleaning + v.at.podCopy.cleaning + v.at.install.cleaning <= 1
    ensures forall p :: v.at.At(p).open > 0 ==> v.waiter == Some(p)
  {
    hide Settled, Listed, Queued, Coherent, IsComplete, Exhausted, Runnable, Home;
  }

  /******* Quiescence *******/

  predicate GroupsNatural(s: State) {
    && s.phaseWaiter >= 0
    && s.workerWaiter.download >= 0 && s.workerWaiter.podCopy >= 0 && s.workerWaiter.install >= 0
    && s.handlerWaiter.download >= 0 && s.handlerWaiter.podCopy >= 0 && s.handlerWaiter.install >= 0
  }

  predicate Silent(ps: PhaseState) {
    ps.mgr == Finished && ps.hnd.HDone? && ps.runs == [] && ps.cleaning == [] && ps.closed
  }

  lemma Quiescence(cfg: Config, s: State)
    requires Reached(cfg, s)
    ensures GroupsNatural(s) && s.sigTermCloses <= 1
    ensures s.phaseWaiter == 0 && !s.entry.Creating? ==>
      && Silent(s.ph.download) && Silent(s.ph.podCopy) && Silent(s.ph.install)
      && s.sigTermCloses == 1
  {
    ReachedKeeps(cfg, s);
    hide Reached, Workers, FanOutInv, Slots, Untouched, Tokens;
  }

  /** Once the entry has returned no goroutine of the pipeline takes another step. */
  lemma NothingLeftRunning(cfg: Config, s: State, a: Action)
    requires Reached(cfg, s) && s.entry.Returned? && Ready(cfg, s, a)
    ensures a.Cancel? || a.PackageVanishes?
  {
    ReachedKeeps(cfg, s);
    assert s.phaseWaiter == 0 && s.yield_ != Watching by { hide Reached, Workers, FanOutInv, Slots, Untouched, Tokens, Groups; }
    Quiescence(cfg, s);
    hide Reached, Inv;
  }
}
