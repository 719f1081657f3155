/** Every step keeps the run pools, install slots and wait groups balanced. */
module SchedulerBounds {
  import opened AppTypes
  import opened Scheduler
  import opened SchedulerInv
  import opened SchedulerFrames

  /** Only phase p changed: its own accounts decide. */
  lemma BoundedStep(cfg: Config, s: State, s': State, p: Phase, ps: PhaseState)
    requires Bounded(cfg, s) && s'.ph == s.ph.With(p, ps) && Control(s')
    requires s'.workerWaiter == s.workerWaiter.With(p, s'.workerWaiter.At(p))
    requires s'.handlerWaiter == s.handlerWaiter.With(p, s'.handlerWaiter.At(p))
    requires Tokens(cfg, p, ps) && Groups(ps, s'.workerWaiter.At(p), s'.handlerWaiter.At(p))
    requires if p == Install then Slots(cfg, s'.slots, ps) else s'.slots == s.slots
    ensures Bounded(cfg, s')
  {
    hide Tokens, Groups, Slots, Control;
    match p case Download => case PodCopy => case Install =>
  }

  lemma BoundedAt(cfg: Config, s: State, p: Phase)
    requires Bounded(cfg, s)
    ensures Tokens(cfg, p, s.ph.At(p)) && Groups(s.ph.At(p), s.workerWaiter.At(p), s.handlerWaiter.At(p))
    ensures Slots(cfg, s.slots, s.ph.install) && Control(s)
  {
    hide Tokens, Groups, Slots, Control;
    match p case Download => case PodCopy => case Install =>
  }

  // Managers that have not finished, for the count of the phase wait group.
  lemma ControlStep(s: State, s': State, p: Phase, ps: PhaseState)
    requires Control(s) && s'.ph == s.ph.With(p, ps)
    requires s'.phaseWaiter == s.phaseWaiter + Unfinished(ps) - Unfinished(s.ph.At(p))
    requires s'.sigTermCloses == s.sigTermCloses && s'.yield_ == s.yield_
    requires s'.entry == s.entry || (s.entry.Creating? && s'.entry.Creating?)
    requires s.entry.Returned? ==> s'.phaseWaiter == s.phaseWaiter
    ensures Control(s')
  {
    match p case Download => case PodCopy => case Install =>
  }

  /******* Install slots *******/

  lemma SlotTaken(cfg: Config, slots: seq<nat>, ps: PhaseState, ps': PhaseState, j: nat)
    requires Slots(cfg, slots, ps) && j < |slots| && slots[j] < POD_LIMIT
    requires PodLoad(ps') == PodLoad(ps) + multiset{j}
    ensures Slots(cfg, slots[j := slots[j] + 1], ps')
  {
    hide PodLoad;
  }

  lemma SlotFreed(cfg: Config, slots: seq<nat>, ps: PhaseState, ps': PhaseState, j: nat)
    requires Slots(cfg, slots, ps) && j < |slots| && j in PodLoad(ps)
    requires PodLoad(ps') == PodLoad(ps) - multiset{j}
    ensures slots[j] > 0 && Slots(cfg, slots[j := slots[j] - 1], ps')
  {
    hide PodLoad;
  }

  lemma SlotSame(cfg: Config, slots: seq<nat>, ps: PhaseState, ps': PhaseState)
    requires Slots(cfg, slots, ps) && PodLoad(ps') == PodLoad(ps)
    ensures Slots(cfg, slots, ps')
  {
    hide PodLoad;
  }

  lemma ReserveLoad(ps: PhaseState, w: Worker)
    requires !ps.mgr.Reserved?
    ensures PodLoad(ps.(mgr := Reserved(w))) == PodLoad(ps) + multiset{Pod(w)}
  {
  }

  lemma UnreserveLoad(ps: PhaseState, m: Manager)
    requires ps.mgr.Reserved? && !m.Reserved?
    ensures PodLoad(ps.(mgr := m)) == PodLoad(ps) - multiset{Pod(ps.mgr.w)} && Pod(ps.mgr.w) in PodLoad(ps)
  {
  }

  lemma SendLoad(ps: PhaseState, w: Worker)
    requires ps.mgr == Reserved(w)
    ensures PodLoad(ps.(chan := ps.chan + [w], mgr := Marking(w))) == PodLoad(ps)
  {
    PodsAppend(ps.chan, w);
  }

  lemma ReceiveLoad(ps: PhaseState)
    requires ps.chan != [] && !ps.hnd.HWork?
    ensures PodLoad(ps.(chan := ps.chan[1..], hnd := HWork(ps.chan[0]))) == PodLoad(ps)
  {
    PodsDropFirst(ps.chan);
  }

  lemma StartLoad(ps: PhaseState)
    requires ps.hnd.HWork?
    ensures PodLoad(ps.(hnd := HIdle, runs := ps.runs + [ps.hnd.w])) == PodLoad(ps)
  {
    PodsAppend(ps.runs, ps.hnd.w);
  }

  lemma RunEndLoad(ps: PhaseState, k: nat)
    requires k < |ps.runs|
    ensures PodLoad(ps.(runs := RemoveAt(ps.runs, k))) == PodLoad(ps) - multiset{Pod(ps.runs[k])}
    ensures Pod(ps.runs[k]) in PodLoad(ps)
  {
    PodsRemoveAt(ps.runs, k);
  }

  lemma InstalledLoad(ps: PhaseState, k: nat)
    requires k < |ps.runs|
    ensures PodLoad(ps.(runs := RemoveAt(ps.runs, k), cleaning := ps.cleaning + [ps.runs[k]])) == PodLoad(ps)
  {
    PodsRemoveAt(ps.runs, k);
    PodsAppend(ps.cleaning, ps.runs[k]);
  }

  lemma CleanedLoad(ps: PhaseState, k: nat)
    requires k < |ps.cleaning|
    ensures PodLoad(ps.(cleaning := RemoveAt(ps.cleaning, k))) == PodLoad(ps) - multiset{Pod(ps.cleaning[k])}
    ensures Pod(ps.cleaning[k]) in PodLoad(ps)
  {
    PodsRemoveAt(ps.cleaning, k);
  }

  /** A step that moves nobody into or out of the in-flight set and finishes no manager. */
  lemma SettledBounds(cfg: Config, s: State, s': State, p: Phase, ps: PhaseState)
    requires Bounded(cfg, s) && s'.ph == s.ph.With(p, ps)
    requires s'.workerWaiter == s.workerWaiter && s'.handlerWaiter == s.handlerWaiter && s'.slots == s.slots
    requires s'.phaseWaiter == s.phaseWaiter && s'.sigTermCloses == s.sigTermCloses && s'.yield_ == s.yield_
    requires s'.entry == s.entry || (s.entry.Creating? && s'.entry.Creating?)
    requires Tokens(cfg, p, ps) && Groups(ps, s.workerWaiter.At(p), s.handlerWaiter.At(p))
    requires Unfinished(ps) == Unfinished(s.ph.At(p))
    requires PodLoad(ps) == PodLoad(s.ph.At(p))
    ensures Bounded(cfg, s')
  {
    hide Tokens, Groups, Slots, PodLoad;
    BoundedAt(cfg, s, p);
    ControlStep(s, s', p, ps);
    if p == Install { SlotSame(cfg, s.slots, s.ph.install, ps); }
    BoundedStep(cfg, s, s', p, ps);
  }
}
