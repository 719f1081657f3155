/** What each kind of step does to the view of the worker it is about. */
module SchedulerViews {
  import opened AppTypes
  import opened Scheduler
  import opened SchedulerInv

  function SetSpot(v: View, p: Phase, sp: Spot): View {
    v.(at := v.at.With(p, sp))
  }

  lemma SendView(cfg: Config, w: Worker, v: View, p: Phase)
    requires ViewOk(cfg, w, v) && Listed(v.at.At(p)) && v.at.At(p).stance in {Away, Held}
    requires v.info.Some? && Runnable(cfg, v.info.value, p) && !v.active
    requires w.app < |cfg.scopes| && (p == Install ==> CanInstall(cfg.scopes[w.app]))
    ensures ViewOk(cfg, w, SetSpot(v.(waiter := Some(p)), p, v.at.At(p).(open := v.at.At(p).open + 1, stance := Sent)))
  {
  }

  lemma HoldView(cfg: Config, w: Worker, v: View)
    requires ViewOk(cfg, w, v) && Listed(v.at.install) && v.at.install.stance == Away
    requires v.info.Some? && Runnable(cfg, v.info.value, Install) && !v.active
    requires w.app < |cfg.scopes| && CanInstall(cfg.scopes[w.app])
    ensures ViewOk(cfg, w, SetSpot(v, Install, v.at.install.(stance := Held)))
  {
  }

  lemma NoRoomView(cfg: Config, w: Worker, v: View, p: Phase)
    requires ViewOk(cfg, w, v) && Listed(v.at.At(p)) && v.at.At(p).stance in {Away, Held}
    requires v.info.Some? && Runnable(cfg, v.info.value, p) && !v.active
    ensures ViewOk(cfg, w, SetSpot(v.(waiter := None), p, v.at.At(p).(stance := Away)))
  {
  }

  lemma MarkView(cfg: Config, w: Worker, v: View, p: Phase)
    requires ViewOk(cfg, w, v) && v.at.At(p).stance == Sent
    ensures ViewOk(cfg, w, SetSpot(v.(active := true), p, v.at.At(p).(stance := Away)))
  {
    match p case Download => case PodCopy => case Install =>
  }

  lemma DetachView(cfg: Config, w: Worker, v: View, p: Phase)
    requires ViewOk(cfg, w, v) && v.at.At(p).stance == Leaving
    ensures v.at.At(p).queued >= 1
    ensures ViewOk(cfg, w, SetSpot(v, p, v.at.At(p).(queued := v.at.At(p).queued - 1, stance := Away)))
  {
    AllSpots(cfg, w, v, p);
    hide ViewOk;
    DetachedSpot(cfg, w, v, p);
    var sp := v.at.At(p).(queued := v.at.At(p).queued - 1, stance := Away);
    OtherSpots(cfg, w, v, p, sp);
    hide SpotOk, Listed, Settled;
    SpotChange(cfg, w, v, p, sp);
  }

  lemma AllSpots(cfg: Config, w: Worker, v: View, p: Phase)
    requires ViewOk(cfg, w, v)
    ensures v.created ==> w.app < |cfg.scopes| && v.info.Some?
    ensures SpotOk(cfg, w, v, p)
  {
    hide SpotOk;
  }

  lemma DetachedSpot(cfg: Config, w: Worker, v: View, p: Phase)
    requires (v.created ==> w.app < |cfg.scopes| && v.info.Some?) && SpotOk(cfg, w, v, p) && v.at.At(p).stance == Leaving
    ensures v.at.At(p).queued >= 1
    ensures var sp := v.at.At(p).(queued := v.at.At(p).queued - 1, stance := Away);
      SpotOk(cfg, w, SetSpot(v, p, sp), p) && Listed(sp) == Listed(v.at.At(p))
  {
  }

  // A worker's place in one phase does not concern its place in another.
  lemma OtherSpots(cfg: Config, w: Worker, v: View, p: Phase, sp: Spot)
    requires v.created ==> w.app < |cfg.scopes| && v.info.Some?
    ensures forall q :: q != p ==> SpotOk(cfg, w, SetSpot(v, p, sp), q) == SpotOk(cfg, w, v, q)
    ensures SetSpot(v, p, sp) == v.(at := SetSpot(v, p, sp).at)
    ensures forall q :: SetSpot(v, p, sp).at.At(q) == if q == p then sp else v.at.At(q)
  {
  }

  lemma SpotChange(cfg: Config, w: Worker, v: View, p: Phase, sp: Spot)
    requires ViewOk(cfg, w, v) && Listed(sp) == Listed(v.at.At(p))
    requires SpotOk(cfg, w, SetSpot(v, p, sp), p)
    requires forall q :: q != p ==> SpotOk(cfg, w, SetSpot(v, p, sp), q) == SpotOk(cfg, w, v, q)
    ensures ViewOk(cfg, w, SetSpot(v, p, sp))
  {
    hide SpotOk, Listed, Settled;
    match p case Download => case PodCopy => case Install =>
  }

  lemma MoveView(cfg: Config, w: Worker, v: View, p: Phase, next: Phase)
    requires ViewOk(cfg, w, v) && Listed(v.at.At(p)) && v.at.At(p).stance == Away && p != next
    requires v.info.Some? && v.info.value.phase == p && !Runnable(cfg, v.info.value, p)
    requires w.app < |cfg.scopes| && (p == Install ==> !IsComplete(v.info.value) && CanInstall(cfg.scopes[w.app]))
    requires KeyFor(cfg, w, next) == Own(w)
    ensures ViewOk(cfg, w, SetSpot(SetSpot(v.(active := false, waiter := None, info := Some(NewContext(next))),
                                           next, v.at.At(next).(queued := v.at.At(next).queued + 1)),
                                   p, v.at.At(p).(stance := Leaving)))
  {
  }

  /** The seed of a fan-out leaves; its replicas take over. */
  lemma SplitView(cfg: Config, w: Worker, v: View)
    requires cfg.FanOut() && ViewOk(cfg, w, v) && Listed(v.at.download) && v.at.download.stance == Away
    requires v.info.Some? && IsComplete(v.info.value)
    ensures ViewOk(cfg, w, SetSpot(v.(active := false, waiter := None), Download, v.at.download.(stance := Leaving)))
  {
  }

  lemma NewReplicaView(cfg: Config, w: Worker, v: View, p: Phase, i: PhaseInfo)
    requires cfg.FanOut() && ViewOk(cfg, w, v) && !v.created && p != Download
    requires w.Replica? && w.app < |cfg.scopes| && w.ordinal < cfg.replicas
    requires i.phase == p && i.status == PendingStatus(p) && i.failCount <= cfg.maxRetries
    ensures ViewOk(cfg, w, SetSpot(v.(created := true, info := Some(i)), p, v.at.At(p).(queued := v.at.At(p).queued + 1)))
  {
  }

  /** The record of a worker that does not exist concerns nobody. */
  lemma AbsentView(cfg: Config, w: Worker, v: View, i: Option<PhaseInfo>)
    requires ViewOk(cfg, w, v) && !v.created
    ensures ViewOk(cfg, w, v.(info := i))
  {
  }

  lemma DropView(cfg: Config, w: Worker, v: View, p: Phase, i: PhaseInfo)
    requires ViewOk(cfg, w, v) && Listed(v.at.At(p)) && v.at.At(p).stance == Away
    requires v.info.Some? && v.info.value.phase == p && !Runnable(cfg, v.info.value, p)
    requires i.failCount == v.info.value.failCount && i.phase == p
    requires w.app < |cfg.scopes| && Settled(cfg.maxRetries, cfg.scopes[w.app], i)
    requires v.info.value == i || Exhausted(cfg.maxRetries, i)
    ensures ViewOk(cfg, w, SetSpot(v.(info := Some(i)), p, v.at.At(p).(queued := v.at.At(p).queued - 1)))
  {
  }

  lemma CreateView(cfg: Config, w: Worker, v: View, i: PhaseInfo)
    requires ViewOk(cfg, w, v) && !v.created && v.info == Some(i) && w.Seed? && w.app < |cfg.scopes|
    requires EligibleAtEntry(cfg.maxRetries, cfg.scopes[w.app], i) && Coherent(i)
    requires cfg.FanOut() ==> i.phase == Download
    ensures ViewOk(cfg, w, SetSpot(v.(created := true), i.phase,
                                   v.at.At(i.phase).(queued := v.at.At(i.phase).queued + 1)))
  {
  }

  /** A dispatch ends with record i while the worker stays listed. */
  lemma CloseView(cfg: Config, w: Worker, v: View, p: Phase, i: PhaseInfo, active: bool)
    requires ViewOk(cfg, w, v) && v.at.At(p).open == 1 && (active ==> v.active)
    requires i.phase == p && Coherent(i) && i.failCount <= cfg.maxRetries + 1 && i.status != InstallComplete
    requires IsComplete(i) ==> !Exhausted(cfg.maxRetries, i)
    ensures ViewOk(cfg, w, SetSpot(v.(info := Some(i), active := active), p, v.at.At(p).(open := 0)))
  {
  }

  lemma StartDownloadView(cfg: Config, w: Worker, v: View)
    requires ViewOk(cfg, w, v) && v.at.download.open == 1
    ensures v.created && v.info.Some?
    ensures ViewOk(cfg, w, v.(info := Some(v.info.value.(status := DownloadInProgress))))
  {
  }

  lemma InstalledView(cfg: Config, w: Worker, v: View)
    requires ViewOk(cfg, w, v) && v.at.install.open == 1
    ensures v.created && v.info.Some?
    ensures ViewOk(cfg, w, SetSpot(v.(info := Some(v.info.value.(status := InstallComplete, failCount := 0))), Install,
                                   v.at.install.(open := 0, cleaning := 1)))
  {
  }

  lemma CleanedView(cfg: Config, w: Worker, v: View)
    requires ViewOk(cfg, w, v) && v.at.install.cleaning == 1
    ensures ViewOk(cfg, w, SetSpot(v.(active := false), Install, v.at.install.(cleaning := 0)))
  {
  }

  function Adopted(cfg: Config, w: Worker, i: PhaseInfo): PhaseInfo {
    if w.Seed? && w.app < |cfg.scopes| && cfg.scopes[w.app] == Cluster && i.phase == PodCopy && i.status == PodCopyComplete
    then i.(phase := Install, status := InstallComplete) else i
  }

  lemma AdoptView(cfg: Config, w: Worker, v: View)
    requires cfg.Valid() && ViewOk(cfg, w, v) && v.info.Some?
    ensures ViewOk(cfg, w, v.(info := Some(Adopted(cfg, w, v.info.value))))
  {
  }

  /** The main record of a fan-out app may change once its seed is out of the queues. */
  lemma RetiredSeedView(cfg: Config, w: Worker, v: View, i: PhaseInfo)
    requires cfg.FanOut() && ViewOk(cfg, w, v) && !Queued(v) && w.Seed? && i.failCount <= cfg.maxRetries + 1
    ensures ViewOk(cfg, w, v.(info := Some(i)))
  {
  }
}
