/** What one step can do to an app's record when the kind has no fan-out, and the measures that follow from it. */
module SchedulerRecords {
  import opened AppTypes
  import opened Scheduler
  import opened SchedulerInv
  import opened SchedulerFrames
  import opened SchedulerWorkers
  import opened SchedulerBounds
  import opened SchedulerSteps

  // How a record may change in one step.
  datatype Change =
    | NoChange           // another app's step, or a step on no record
    | Dropped              // retries exhausted: marked as failed
    | Advanced             // complete: moved to the next phase
    | Bounced              // package missing: moved back one phase
    | Skipped              // the handler found the package already downloaded
    | Started              // a download begins
    | HandlerFailure       // counted failure before the run
    | RunFailure           // counted failure of a run
    | RunIdle              // a run ended without being counted
    | RunMissing           // a run ended because the package was missing
    | RunSuccess           // a run completed the phase
    | Adoption             // a bundle push finished

  predicate Changes(cfg: Config, scope: Scope, c: Change, i: PhaseInfo, i': PhaseInfo) {
    match c
    case NoChange => i' == i
    case Dropped => Exhausted(cfg.maxRetries, i) && i' == i.(status := ErrorStatus(i.phase))
    case Advanced => IsComplete(i) && (i.phase == PodCopy ==> scope != Cluster)
                     && ((i.phase == Download && i' == NewContext(PodCopy)) || (i.phase == PodCopy && i' == NewContext(Install)))
    case Bounced =>
      || (i.phase == PodCopy && i.status == MissingFromOperator && i' == NewContext(Download))
      || (i.phase == Install && i.status == MissingOnPod && i' == NewContext(PodCopy))
    case Skipped => Runnable(cfg, i, Download) && i' == i.(status := DownloadComplete, failCount := 0)
    case Started => Runnable(cfg, i, Download) && i' == i.(status := DownloadInProgress)
    case HandlerFailure => Runnable(cfg, i, Download) && i'.phase == Download && i'.failCount == Bump(i.failCount)
                           && (i'.status == DownloadPending || i'.status == DownloadError)
    case RunFailure => Runnable(cfg, i, i.phase) && i'.phase == i.phase && i'.failCount == Bump(i.failCount)
                       && i'.status != CompleteStatus(i.phase) && StatusPhase(i'.status) == i.phase
    case RunIdle => Runnable(cfg, i, Install) && i' == i
    case RunMissing => Runnable(cfg, i, i.phase) && i' == i.(status := i'.status)
                       && ((i.phase == PodCopy && i'.status == MissingFromOperator) || (i.phase == Install && i'.status == MissingOnPod))
    case RunSuccess => Runnable(cfg, i, i.phase) && i'.phase == i.phase && i'.status == CompleteStatus(i.phase)
                       && (i.phase == Install ==> CanInstall(scope))
    case Adoption => scope == Cluster && i.phase == PodCopy && i.status == PodCopyComplete
                     && i' == i.(phase := Install, status := InstallComplete)
  }

  /** The worker a step is about. */
  function Subject(s: State, a: Action): Option<Worker> {
    match a
    case Visit(_, w) => Some(w)
    case HandleDownload(_) => if s.ph.download.hnd.HWork? then Some(s.ph.download.hnd.w) else None
    case FinishDownload(k, _, _) => if k < |s.ph.download.runs| then Some(s.ph.download.runs[k]) else None
    case FinishCopy(k, _) => if k < |s.ph.podCopy.runs| then Some(s.ph.podCopy.runs[k]) else None
    case FailInstall(k, _) => if k < |s.ph.install.runs| then Some(s.ph.install.runs[k]) else None
    case MarkInstalled(k) => if k < |s.ph.install.runs| then Some(s.ph.install.runs[k]) else None
    case _ => None
  }

  /** The change a step makes to the record of its subject. */
  function ChangeOf(cfg: Config, s: State, a: Action, i: PhaseInfo): Change {
    match a
    case Visit(p, w) =>
      if p == Install && w.app < |cfg.scopes| && !CanInstall(cfg.scopes[w.app]) then NoChange
      else if Exhausted(cfg.maxRetries, i) then Dropped
      else if IsComplete(i) then
        if p == Download || (p == PodCopy && w.app < |cfg.scopes| && cfg.scopes[w.app] != Cluster) then Advanced else NoChange
      else if p == PodCopy && i.status == MissingFromOperator then Bounced
      else if p == Install && i.status == MissingOnPod then Bounced
      else NoChange
    case HandleDownload(v) =>
      (match v
       case AlreadyThere => Skipped
       case NoStorage => NoChange
       case MkdirFailed => HandlerFailure
       case ClientFailed => HandlerFailure
       case StartDownload => Started)
    case FinishDownload(_, ok, _) => if ok then RunSuccess else RunFailure
    case FinishCopy(_, o) => (match o case Copied => RunSuccess case CopyFailed => RunFailure case PackageMissing => RunMissing)
    case FailInstall(_, o) => (match o case Counted => RunFailure case Uncounted => RunIdle case NotOnPod => RunMissing)
    case MarkInstalled(_) => RunSuccess
    case _ => NoChange
  }

  /** A run of the subject ends (for an install, when the app is marked installed). */
  predicate EndsRun(c: Change) {
    c.RunFailure? || c.RunIdle? || c.RunMissing? || c.RunSuccess?
  }

  /** A step changes no record but its subject's, and that one as ChangeOf says; a bundle push that finishes adopts
      the copied cluster-scoped apps. */
  predicate Effect(cfg: Config, s: State, a: Action, s': State, x: nat) {
    && x < |cfg.scopes| && Main(x) in s.info && Main(x) in s'.info
    && var i, i' := s.info[Main(x)], s'.info[Main(x)];
       if a == WriteStage(Complete) then
         if cfg.scopes[x] == Cluster && i.phase == PodCopy && i.status == PodCopyComplete
         then Changes(cfg, cfg.scopes[x], Adoption, i, i') else i' == i
       else if Subject(s, a) == Some(Seed(x)) then Changes(cfg, cfg.scopes[x], ChangeOf(cfg, s, a, i), i, i')
       else i' == i
  }

  lemma VisitRecord(cfg: Config, s: State, p: Phase, w: Worker, x: nat)
    requires Inv(cfg, s) && !cfg.FanOut() && s.ph.At(p).mgr == Looping && w in s.ph.At(p).q && x < |cfg.scopes|
    ensures Safe(cfg, s, Visit(p, w)) && Effect(cfg, s, Visit(p, w), DoVisit(cfg, s, p, w), x)
  {
    hide ViewOk, SpotOf, Slots, PodLoad, Tokens, Groups, Control, ViewOf, Listed, Effect, DoVisit;
    BoundedAt(cfg, s, p);
    VisitFacts(cfg, s, p, w);
    ReplicaFacts(cfg, s, p, w);
    MainKnown(cfg, s);
    hide Inv;
    VisitEffectOn(cfg, s, p, w, x, DoVisit(cfg, s, p, w));
  }

  /** The record of a worker after a visit. */
  function VisitedInfo(cfg: Config, scope: Scope, p: Phase, i: PhaseInfo): PhaseInfo {
    if p == Install && !CanInstall(scope) then i
    else if Exhausted(cfg.maxRetries, i) then i.(status := ErrorStatus(p))
    else if IsComplete(i) then
      if p == Download then NewContext(PodCopy) else if p == PodCopy && scope != Cluster then NewContext(Install) else i
    else if p == PodCopy && i.status == MissingFromOperator then NewContext(Download)
    else if p == Install && i.status == MissingOnPod then NewContext(PodCopy)
    else i
  }

  lemma VisitChangesOne(cfg: Config, s: State, p: Phase, w: Worker)
    requires Safe(cfg, s, Visit(p, w)) && !cfg.FanOut() && w.Seed?
    ensures DoVisit(cfg, s, p, w).info == s.info[Main(w.app) := VisitedInfo(cfg, cfg.scopes[w.app], p, s.info[Main(w.app)])]
  {
    assert s.info[Main(w.app) := s.info[Main(w.app)]] == s.info;
    hide Split;
  }

  lemma VisitedChange(cfg: Config, s: State, p: Phase, w: Worker, i: PhaseInfo)
    requires w.app < |cfg.scopes| && Home(cfg.scopes[w.app], i) == p && Coherent(i)
    requires IsComplete(i) ==> !Exhausted(cfg.maxRetries, i)
    ensures Changes(cfg, cfg.scopes[w.app], ChangeOf(cfg, s, Visit(p, w), i), i, VisitedInfo(cfg, cfg.scopes[w.app], p, i))
  {
  }

  lemma VisitEffectOn(cfg: Config, s: State, p: Phase, w: Worker, x: nat, s': State)
    requires Safe(cfg, s, Visit(p, w)) && !cfg.FanOut() && w.Seed? && s' == DoVisit(cfg, s, p, w)
    requires x < |cfg.scopes| && Main(x) in s.info
    requires Home(cfg.scopes[w.app], s.info[Main(w.app)]) == p && Coherent(s.info[Main(w.app)])
    requires IsComplete(s.info[Main(w.app)]) ==> !Exhausted(cfg.maxRetries, s.info[Main(w.app)])
    ensures Effect(cfg, s, Visit(p, w), s', x)
  {
    hide DoVisit, VisitedInfo, Changes, ChangeOf, Home;
    VisitChangesOne(cfg, s, p, w);
    VisitedChange(cfg, s, p, w, s.info[Main(w.app)]);
  }

  lemma HandleRecord(cfg: Config, s: State, v: DownloadVerdict, x: nat, s': State)
    requires Inv(cfg, s) && !cfg.FanOut() && s.ph.download.hnd.HWork? && x < |cfg.scopes|
    requires Safe(cfg, s, HandleDownload(v)) && s' == DoHandleDownload(s, s.ph.download.hnd.w, v)
    ensures Effect(cfg, s, HandleDownload(v), s', x)
  {
    hide Safe, SpotOf, RemoveAt, Workers, Bounded, FanOutInv;
    HandleFacts(cfg, s);
  }

  lemma FinishDownloadRecord(cfg: Config, s: State, k: nat, ok: bool, removed: bool, x: nat, s': State)
    requires Inv(cfg, s) && !cfg.FanOut() && k < |s.ph.download.runs| && x < |cfg.scopes|
    requires Safe(cfg, s, FinishDownload(k, ok, removed)) && s' == DoFinishDownload(s, k, ok, removed)
    ensures Effect(cfg, s, FinishDownload(k, ok, removed), s', x)
  {
    hide Safe, SpotOf, RemoveAt, Workers, Bounded, FanOutInv;
    RunFacts(cfg, s, Download, k);
  }

  lemma FinishCopyRecord(cfg: Config, s: State, k: nat, o: CopyOutcome, x: nat, s': State)
    requires Inv(cfg, s) && !cfg.FanOut() && k < |s.ph.podCopy.runs| && x < |cfg.scopes|
    requires Safe(cfg, s, FinishCopy(k, o)) && s' == DoFinishCopy(cfg, s, k, o)
    ensures Effect(cfg, s, FinishCopy(k, o), s', x)
  {
    hide Safe, SpotOf, RemoveAt, Workers, Bounded, FanOutInv;
    RunFacts(cfg, s, PodCopy, k);
  }

  lemma FailInstallRecord(cfg: Config, s: State, k: nat, o: InstallOutcome, x: nat, s': State)
    requires Inv(cfg, s) && !cfg.FanOut() && k < |s.ph.install.runs| && x < |cfg.scopes|
    requires Safe(cfg, s, FailInstall(k, o)) && s' == DoFailInstall(cfg, s, k, o)
    ensures Effect(cfg, s, FailInstall(k, o), s', x)
  {
    hide Safe, SpotOf, RemoveAt, Workers, Bounded, FanOutInv;
    RunFacts(cfg, s, Install, k);
  }

  lemma MarkInstalledRecord(cfg: Config, s: State, k: nat, x: nat, s': State)
    requires Inv(cfg, s) && !cfg.FanOut() && k < |s.ph.install.runs| && x < |cfg.scopes|
    requires Safe(cfg, s, MarkInstalled(k)) && s' == DoMarkInstalled(cfg, s, k)
    ensures Effect(cfg, s, MarkInstalled(k), s', x)
  {
    hide Safe, SpotOf, RemoveAt, Workers, Bounded, FanOutInv;
    RunFacts(cfg, s, Install, k);
  }

  lemma RecordEffect(cfg: Config, s: State, a: Action, x: nat)
    requires Inv(cfg, s) && Ready(cfg, s, a) && !cfg.FanOut() && x < |cfg.scopes|
    ensures Safe(cfg, s, a) && Effect(cfg, s, a, Apply(cfg, s, a), x)
  {
    hide Inv, Apply, Effect, Safe, Ready;
    StepKeeps(cfg, s, a);
    if AboutRecord(a) { RunRecordEffect(cfg, s, a, x); } else { OtherEffect(cfg, s, a, x); }
  }

  predicate AboutRecord(a: Action) {
    a.Visit? || a.HandleDownload? || a.FinishDownload? || a.FinishCopy? || a.FailInstall? || a.MarkInstalled?
  }

  lemma RunRecordEffect(cfg: Config, s: State, a: Action, x: nat)
    requires Inv(cfg, s) && Ready(cfg, s, a) && Safe(cfg, s, a) && !cfg.FanOut() && x < |cfg.scopes| && AboutRecord(a)
    ensures Effect(cfg, s, a, Apply(cfg, s, a), x)
  {
    hide Inv, DoVisit, DoHandleDownload, DoFinishDownload, DoFinishCopy, DoFailInstall, DoMarkInstalled, Effect, Safe;
    match a
    case Visit(p, w) => VisitRecord(cfg, s, p, w, x);
    case HandleDownload(v) => HandleRecord(cfg, s, v, x, Apply(cfg, s, a));
    case FinishDownload(k, ok, removed) => FinishDownloadRecord(cfg, s, k, ok, removed, x, Apply(cfg, s, a));
    case FinishCopy(k, o) => FinishCopyRecord(cfg, s, k, o, x, Apply(cfg, s, a));
    case FailInstall(k, o) => FailInstallRecord(cfg, s, k, o, x, Apply(cfg, s, a));
    case MarkInstalled(k) => MarkInstalledRecord(cfg, s, k, x, Apply(cfg, s, a));
  }

  lemma OtherEffect(cfg: Config, s: State, a: Action, x: nat)
    requires Inv(cfg, s) && Ready(cfg, s, a) && Safe(cfg, s, a) && x < |cfg.scopes|
    requires !a.Visit? && !a.HandleDownload? && !a.FinishDownload? && !a.FinishCopy? && !a.FailInstall? && !a.MarkInstalled?
    ensures Effect(cfg, s, a, Apply(cfg, s, a), x)
  {
    hide Inv, Ready, Safe, Apply;
    MainKnown(cfg, s);
    if a.WriteStage? {
      hide Effect;
      StageRecord(cfg, s, a.stage, x);
    } else {
      RecordsKept(cfg, s, a);
    }
  }

  lemma StageRecord(cfg: Config, s: State, stage: Stage, x: nat)
    requires Ready(cfg, s, WriteStage(stage)) && Main(x) in s.info && x < |cfg.scopes|
    ensures Effect(cfg, s, WriteStage(stage), Apply(cfg, s, WriteStage(stage)), x)
  {
    AdoptRecord(cfg, s, x);
    hide AdoptClusterApps;
  }

  lemma MainKnown(cfg: Config, s: State)
    requires Inv(cfg, s)
    ensures forall x :: 0 <= x < |cfg.scopes| ==> Main(x) in s.info
  {
  }

  lemma AdoptRecord(cfg: Config, s: State, x: nat)
    requires Main(x) in s.info && x < |cfg.scopes|
    ensures Main(x) in AdoptClusterApps(cfg, s.info)
    ensures var i, i' := s.info[Main(x)], AdoptClusterApps(cfg, s.info)[Main(x)];
      if cfg.scopes[x] == Cluster && i.phase == PodCopy && i.status == PodCopyComplete
      then Changes(cfg, cfg.scopes[x], Adoption, i, i') else i' == i
  {
  }

  /** Every other step leaves all records alone. */
  lemma RecordsKept(cfg: Config, s: State, a: Action)
    requires Ready(cfg, s, a) && Safe(cfg, s, a)
    requires !a.Visit? && !a.HandleDownload? && !a.FinishDownload? && !a.FinishCopy? && !a.FailInstall? && !a.MarkInstalled?
             && !a.WriteStage?
    ensures Apply(cfg, s, a).info == s.info
  {
    if a.Create? || a.Send? || a.Receive? || a.StartRun? || a.FinishInstall? {
      CompoundKept(cfg, s, a);
      hide Apply, Ready, Safe;
    } else {
      hide Safe, NeedsRevisit;
    }
  }

  lemma CompoundKept(cfg: Config, s: State, a: Action)
    requires Ready(cfg, s, a) && Safe(cfg, s, a) && (a.Create? || a.Send? || a.Receive? || a.StartRun? || a.FinishInstall?)
    ensures Apply(cfg, s, a).info == s.info
  {
    hide Ready, RemoveAt;
  }

  /******* Retries *******/

  /** Phases after this one. */
  function PhasesLeft(scope: Scope, p: Phase): nat {
    match p
    case Download => if scope == Cluster then 1 else 2
    case PodCopy => if scope == Cluster then 0 else 1
    case Install => 0
  }

  /** Runs an app can still make if every run succeeds or is a counted failure. */
  function Budget(cfg: Config, scope: Scope, i: PhaseInfo): nat {
    PhasesLeft(scope, i.phase) * (cfg.maxRetries + 1)
    + (if IsComplete(i) || Exhausted(cfg.maxRetries, i) then 0 else cfg.maxRetries + 1 - i.failCount)
  }

  predicate CountedChange(c: Change) {
    !c.RunIdle? && !c.RunMissing? && !c.Bounced?
  }

  lemma BudgetChange(cfg: Config, scope: Scope, c: Change, i: PhaseInfo, i': PhaseInfo)
    requires Changes(cfg, scope, c, i, i') && CountedChange(c) && cfg.maxRetries + 1 < UINT32
    requires scope == Cluster || CanInstall(scope)
    ensures Budget(cfg, scope, i') + (if EndsRun(c) then 1 else 0) <= Budget(cfg, scope, i)
  {
    var m := cfg.maxRetries + 1;
    assert PhasesLeft(scope, i.phase) * m == (if PhasesLeft(scope, i.phase) == 2 then m + m else if PhasesLeft(scope, i.phase) == 1 then m else 0);
    assert PhasesLeft(scope, i'.phase) * m == (if PhasesLeft(scope, i'.phase) == 2 then m + m else if PhasesLeft(scope, i'.phase) == 1 then m else 0);
  }
}
