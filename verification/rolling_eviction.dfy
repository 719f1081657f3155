/** Rolling eviction of ingestor pods that need a restart. */
module RollingEviction {
  import opened AppTypes
  import opened Sequences
  import opened Conditions
  import opened PodNames

  // Durations in nanoseconds.
  const SECOND: int := 1_000_000_000
  const MINUTE: int := 60 * SECOND
  const POLL_INTERVAL: int := MINUTE
  const RETRY_INTERVAL: int := 15 * SECOND
  const PDB_INTERVAL: int := 30 * SECOND

  // A pod with its controller-revision-hash label, empty if it has none.
  datatype Pod = Pod(name: string, revision: string)

  datatype Answer = Failed | Required | NotRequired

  datatype Check = Check(pod: Pod, answer: Answer)

  datatype Outcome = Accepted | Gone | Blocked | Refused

  datatype Failure = NoFailure | StatefulSetFailure | ListFailure | Cancelled | EvictionFailure(pod: Pod)

  datatype Requeue = Requeue(after: int, failure: Failure)

  /** The number after the last dash; names without one sort last. */
  function PodOrdinal(name: string): int {
    var tokens := Split(name, '-');
    var last := tokens[|tokens| - 1];
    if |tokens| < 2 || last == "" || !Atoi(last).ok then MAX_INT else Atoi(last).value
  }

  /** The ingestor pods' names sort by their replica number. */
  lemma OrdinalOfPodName(name: string, ordinal: nat)
    requires ordinal <= MAX_INT
    ensures PodOrdinal(PodName(IngestorCluster, name, ordinal)) == ordinal
  {
    var prefix := "splunk-" + name + "-" + PodType(IngestorCluster);
    assert PodName(IngestorCluster, name, ordinal) == prefix + "-" + Decimal(ordinal);
    LastToken(prefix, Decimal(ordinal));
    DashSplits(prefix, Decimal(ordinal));
    DigitsOfDecimal(ordinal);
  }

  /** A name without a number after its last dash sorts last. */
  lemma OrdinalOfOther(prefix: string, s: string)
    requires '-' !in s
    ensures PodOrdinal(s) == MAX_INT
    ensures !Atoi(s).ok ==> PodOrdinal(prefix + "-" + s) == MAX_INT
    ensures Atoi(s).ok ==> PodOrdinal(prefix + "-" + s) == Atoi(s).value
  {
    OneToken(s);
    LastToken(prefix, s);
    DashSplits(prefix, s);
    hide Split;
  }

  /** An order the library's sort may produce; pods with equal ordinals come in any order. */
  ghost predicate SortedFrom(order: seq<Pod>, pods: seq<Pod>) {
    && multiset(order) == multiset(pods)
    && InOrder(order)
  }

  /** A rollout recycles pods of another revision. */
  predicate Stale(pods: seq<Pod>, updateRevision: string) {
    updateRevision != "" && exists i :: 0 <= i < |pods| && pods[i].revision != updateRevision
  }

  method RolloutInProgress(pods: seq<Pod>, updateRevision: string) returns (stale: bool)
    ensures stale == Stale(pods, updateRevision)
  {
    if updateRevision == "" { return false; }
    for i := 0 to |pods|
      invariant forall k :: 0 <= k < i ==> pods[k].revision == updateRevision
    {
      if pods[i].revision != updateRevision { return true; }
    }
    return false;
  }

  predicate Passable(o: Outcome) {
    o == Accepted || o == Gone
  }

  /******* Concurrent checks *******/

  predicate IsSchedule(schedule: seq<nat>, n: nat) {
    && (forall k :: 0 <= k < |schedule| ==> schedule[k] < n)
    && (forall i :: 0 <= i < n ==> i in schedule)
  }

  /** The checks finish in the order of the schedule, each writing its own slot: the results depend on the answers only. */
  method CheckConcurrently(pods: seq<Pod>, answers: seq<Answer>, schedule: seq<nat>) returns (results: array<Check>)
    requires |answers| == |pods| && IsSchedule(schedule, |pods|)
    ensures results.Length == |pods|
    ensures forall i :: 0 <= i < |pods| ==> results[i] == Check(pods[i], answers[i])
  {
    results := new Check[|pods|](i => Check(Pod("", ""), NotRequired));
    for k := 0 to |schedule|
      invariant forall i :: 0 <= i < |pods| && i in schedule[..k] ==> results[i] == Check(pods[i], answers[i])
    {
      var i := schedule[k];
      results[i] := Check(pods[i], answers[i]);
      assert schedule[..k + 1] == schedule[..k] + [i];
    }
    assert schedule[..|schedule|] == schedule;
  }

  /******* Candidates *******/

  function Candidates(pods: seq<Pod>, answers: seq<Answer>): seq<Pod>
    requires |answers| == |pods|
  {
    if pods == [] then []
    else
      var k := |pods| - 1;
      Candidates(pods[..k], answers[..k]) + (if answers[k] == Required then [pods[k]] else [])
  }

  function FailedChecks(answers: seq<Answer>): nat {
    if answers == [] then 0
    else FailedChecks(answers[..|answers| - 1]) + (if answers[|answers| - 1] == Failed then 1 else 0)
  }

  /** Failed checks are counted one by one. */
  lemma {:induction false} FailedChecksCounts(answers: seq<Answer>)
    ensures FailedChecks(answers) == multiset(answers)[Failed]
  {
    if answers == [] {
    } else {
      var k := |answers| - 1;
      FailedChecksCounts(answers[..k]);
      assert answers == answers[..k] + [answers[k]];
    }
  }

  method Collect(results: array<Check>) returns (candidates: seq<Pod>, failed: nat)
    ensures candidates == Candidates(PodsOf(results[..]), AnswersOf(results[..])) && failed == FailedChecks(AnswersOf(results[..]))
  {
    candidates, failed := [], 0;
    ghost var rs := results[..];
    for i := 0 to results.Length
      invariant candidates == Candidates(PodsOf(rs[..i]), AnswersOf(rs[..i])) && failed == FailedChecks(AnswersOf(rs[..i]))
    {
      assert PodsOf(rs[..i + 1])[..i] == PodsOf(rs[..i]) && AnswersOf(rs[..i + 1])[..i] == AnswersOf(rs[..i]);
      var r := results[i];
      if r.answer == Failed {
        failed := failed + 1;
      } else if r.answer == Required {
        candidates := candidates + [r.pod];
      }
    }
    assert rs[..results.Length] == rs;
  }

  function PodsOf(rs: seq<Check>): (r: seq<Pod>) ensures |r| == |rs| {
    seq(|rs|, i requires 0 <= i < |rs| => rs[i].pod)
  }

  function AnswersOf(rs: seq<Check>): (r: seq<Answer>) ensures |r| == |rs| {
    seq(|rs|, i requires 0 <= i < |rs| => rs[i].answer)
  }

  /** Candidates are the pods whose check succeeded and asks for a restart, in ordinal order. */
  lemma CandidatesExactly(pods: seq<Pod>, answers: seq<Answer>, p: Pod)
    requires |answers| == |pods| && InOrder(pods)
    ensures p in Candidates(pods, answers) <==> exists i :: 0 <= i < |pods| && pods[i] == p && answers[i] == Required
    ensures InOrder(Candidates(pods, answers))
  {
    CandidatesRequired(pods, answers, p);
    CandidatesInOrder(pods, answers);
  }

  ghost predicate InOrder(pods: seq<Pod>) {
    forall i, j :: 0 <= i < j < |pods| ==> PodOrdinal(pods[i].name) <= PodOrdinal(pods[j].name)
  }

  lemma {:induction false} CandidatesRequired(pods: seq<Pod>, answers: seq<Answer>, p: Pod)
    requires |answers| == |pods|
    ensures p in Candidates(pods, answers) <==> exists i :: 0 <= i < |pods| && pods[i] == p && answers[i] == Required
  {
    if pods == [] {
    } else {
      var k := |pods| - 1;
      CandidatesRequired(pods[..k], answers[..k], p);
      if i :| 0 <= i < |pods| && pods[i] == p && answers[i] == Required {
        if i < k { assert pods[..k][i] == p && answers[..k][i] == Required; }
      }
      if j :| 0 <= j < k && pods[..k][j] == p && answers[..k][j] == Required {
        assert pods[j] == p && answers[j] == Required;
      }
    }
  }

  lemma {:induction false} CandidatesInOrder(pods: seq<Pod>, answers: seq<Answer>)
    requires |answers| == |pods| && InOrder(pods)
    ensures InOrder(Candidates(pods, answers))
  {
    hide PodOrdinal;
    if pods == [] {
    } else {
      var k := |pods| - 1;
      CandidatesInOrder(pods[..k], answers[..k]);
      var front := Candidates(pods[..k], answers[..k]);
      forall i | 0 <= i < |front| ensures PodOrdinal(front[i].name) <= PodOrdinal(pods[k].name) {
        CandidatesRequired(pods[..k], answers[..k], front[i]);
      }
    }
  }

  /******* Eviction *******/

  const RESTARTING := "Restarting"

  function BlockedBy(p: Pod, generation: int): Condition {
    Condition(RESTARTING, True, "RestartBlockedByPDB",
              "Restart of pod " + p.name + " is temporarily blocked by a PodDisruptionBudget", generation, 0)
  }

  function AcceptedFor(p: Pod, generation: int): Condition {
    Condition(RESTARTING, True, "RollingRestartInProgress", "Eviction accepted for ingestor pod " + p.name, generation, 0)
  }

  function Incomplete(failed: nat, generation: int): Condition {
    Condition(RESTARTING, Unknown, "RestartCheckIncomplete",
              "Restart checks failed for " + Decimal(failed) + " ingestor pod(s)", generation, 0)
  }

  function Completed(generation: int): Condition {
    Condition(RESTARTING, False, "RollingRestartComplete", "All ingestor pods are ready and no restart is required", generation, 0)
  }

  // What one pass meets: the API server's answers, the order the sort leaves the pods in, the answers of the checks and
  // the order they finish in, the outcome of each attempted eviction, and the time it takes to record each.
  datatype Pass = Pass(found: bool, pods: Option<seq<Pod>>, updateRevision: string, order: seq<Pod>, answers: seq<Answer>,
                       schedule: seq<nat>, cancelled: bool, outcomes: nat -> Outcome, clock: nat -> int, generation: int)
  {
    ghost predicate Valid() {
      pods.Some? ==> SortedFrom(order, pods.value) && |answers| == |order| && IsSchedule(schedule, |order|)
    }

    /** The checks are made. */
    ghost predicate Checks() {
      found && pods.Some? && pods.value != [] && !Stale(pods.value, updateRevision)
    }

    /** And their results are used. */
    ghost predicate Goes() {
      Checks() && !cancelled
    }
  }

  /** The condition an attempt sets, if any. */
  function SetBy(pass: Pass, p: Pod, k: nat): Option<Condition> {
    match pass.outcomes(k)
    case Accepted => Some(AcceptedFor(p, pass.generation))
    case Blocked => Some(BlockedBy(p, pass.generation))
    case _ => None
  }

  /** The conditions after some attempts. */
  function ConditionsAfter(start: seq<Condition>, attempts: seq<Pod>, pass: Pass): seq<Condition> {
    if attempts == [] then start
    else
      var k := |attempts| - 1;
      var earlier, c := ConditionsAfter(start, attempts[..k], pass), SetBy(pass, attempts[k], k);
      if c.None? then earlier else Upserted(earlier, c.value, pass.clock(k))
  }

  /** The conditions when no pod asks for a restart. */
  function NothingToRestart(start: seq<Condition>, failed: nat, pass: Pass): seq<Condition> {
    var c := Find(start, RESTARTING);
    if failed > 0 then Upserted(start, Incomplete(failed, pass.generation), pass.clock(0))
    else if c.None? || c.value.status == False then start
    else Upserted(start, Completed(pass.generation), pass.clock(0))
  }

  /** Without candidates: failed checks leave Restarting unknown; with none, a restart that was active is complete, and a
      resource without one is left as it is. Nothing else changes. */
  lemma NothingToRestartMeans(start: seq<Condition>, failed: nat, pass: Pass, kind: string)
    ensures var cs, c := NothingToRestart(start, failed, pass), Find(start, RESTARTING);
      && (kind != RESTARTING ==> Find(cs, kind) == Find(start, kind))
      && (failed > 0 ==> Find(cs, RESTARTING).Some? && Find(cs, RESTARTING).value.status == Unknown
                         && Find(cs, RESTARTING).value.reason == "RestartCheckIncomplete")
      && (failed == 0 && c.Some? && c.value.status != False ==>
            Find(cs, RESTARTING).Some? && Find(cs, RESTARTING).value.status == False
            && Find(cs, RESTARTING).value.reason == "RollingRestartComplete")
      && (failed == 0 && (c.None? || c.value.status == False) ==> cs == start)
  {
    FindUpserted(start, Incomplete(failed, pass.generation), pass.clock(0), kind);
    FindUpserted(start, Incomplete(failed, pass.generation), pass.clock(0), RESTARTING);
    FindUpserted(start, Completed(pass.generation), pass.clock(0), kind);
    FindUpserted(start, Completed(pass.generation), pass.clock(0), RESTARTING);
    hide Find, Upserted;
  }

  /** An accepted and a blocked eviction both mean that a restart is under way, for different reasons, and name the pod. */
  lemma SetByMeans(pass: Pass, p: Pod, k: nat)
    ensures SetBy(pass, p, k).Some? <==> pass.outcomes(k) == Accepted || pass.outcomes(k) == Blocked
    ensures pass.outcomes(k) == Accepted ==>
      var c := SetBy(pass, p, k).value;
      c.status == True && c.reason == "RollingRestartInProgress" && p.name <= c.message[|c.message| - |p.name|..]
    ensures pass.outcomes(k) == Blocked ==>
      var c := SetBy(pass, p, k).value; c.status == True && c.reason == "RestartBlockedByPDB"
  {
    var m := "Eviction accepted for ingestor pod ";
    assert (m + p.name)[|m + p.name| - |p.name|..] == p.name;
  }

  /** Attempts concern the Restarting condition only: the last accepted or blocked one gives its reason and message, and
      its time is that of the first one unless it was true before. */
  lemma RestartingAfter(start: seq<Condition>, attempts: seq<Pod>, pass: Pass, kind: string, k: nat)
    requires k < |attempts| && SetBy(pass, attempts[k], k).Some?
    ensures kind != RESTARTING ==> Find(ConditionsAfter(start, attempts, pass), kind) == Find(start, kind)
    ensures (forall j :: k < j < |attempts| ==> SetBy(pass, attempts[j], j).None?) ==>
      var c := Find(ConditionsAfter(start, attempts, pass), RESTARTING);
      c.Some? && c.value == SetBy(pass, attempts[k], k).value.(since := c.value.since)
    ensures (forall j :: 0 <= j < k ==> SetBy(pass, attempts[j], j).None?) ==>
      var c := Find(ConditionsAfter(start, attempts, pass), RESTARTING);
      c.Some? && c.value.status == True && c.value.since == TransitionTime(start, RESTARTING, True, pass.clock(k))
  {
    hide ConditionsAfter, Find, SetBy;
    OthersKept(start, attempts, pass, kind);
    if forall j :: k < j < |attempts| ==> SetBy(pass, attempts[j], j).None? { LastDecides(start, attempts, pass, k); }
    if forall j :: 0 <= j < k ==> SetBy(pass, attempts[j], j).None? { FirstTimes(start, attempts, pass, k); }
  }

  lemma ConditionsNext(start: seq<Condition>, attempts: seq<Pod>, p: Pod, pass: Pass)
    ensures var earlier, c := ConditionsAfter(start, attempts, pass), SetBy(pass, p, |attempts|);
      ConditionsAfter(start, attempts + [p], pass) == if c.None? then earlier else Upserted(earlier, c.value, pass.clock(|attempts|))
  {
    assert (attempts + [p])[..|attempts|] == attempts;
  }

  // The same for the last of some attempts, and what it does to each type.
  lemma LastAttempt(start: seq<Condition>, attempts: seq<Pod>, pass: Pass, kind: string)
    requires attempts != []
    ensures var n := |attempts| - 1;
      var earlier, c := ConditionsAfter(start, attempts[..n], pass), SetBy(pass, attempts[n], n);
      Find(ConditionsAfter(start, attempts, pass), kind) ==
      if c.None? || kind != RESTARTING then Find(earlier, kind)
      else Some(c.value.(since := TransitionTime(earlier, kind, True, pass.clock(n))))
  {
    var n := |attempts| - 1;
    assert attempts == attempts[..n] + [attempts[n]];
    ConditionsNext(start, attempts[..n], attempts[n], pass);
    var earlier, c := ConditionsAfter(start, attempts[..n], pass), SetBy(pass, attempts[n], n);
    hide ConditionsAfter, Find, Upserted;
    if c.Some? { FindUpserted(earlier, c.value, pass.clock(n), kind); }
  }

  lemma {:induction false} OthersKept(start: seq<Condition>, attempts: seq<Pod>, pass: Pass, kind: string)
    ensures kind != RESTARTING ==> Find(ConditionsAfter(start, attempts, pass), kind) == Find(start, kind)
  {
    if attempts == [] {
    } else {
      hide ConditionsAfter, Find, SetBy;
      OthersKept(start, attempts[..|attempts| - 1], pass, kind);
      LastAttempt(start, attempts, pass, kind);
    }
  }

  lemma {:induction false} LastDecides(start: seq<Condition>, attempts: seq<Pod>, pass: Pass, k: nat)
    requires k < |attempts| && SetBy(pass, attempts[k], k).Some?
    requires forall j :: k < j < |attempts| ==> SetBy(pass, attempts[j], j).None?
    ensures var c := Find(ConditionsAfter(start, attempts, pass), RESTARTING);
      c.Some? && c.value == SetBy(pass, attempts[k], k).value.(since := c.value.since)
  {
    hide ConditionsAfter, Find, SetBy;
    var n := |attempts| - 1;
    LastAttempt(start, attempts, pass, RESTARTING);
    if k == n {
    } else {
      LastDecides(start, attempts[..n], pass, k);
    }
  }

  lemma {:induction false} NoneSet(start: seq<Condition>, attempts: seq<Pod>, pass: Pass)
    requires forall j :: 0 <= j < |attempts| ==> SetBy(pass, attempts[j], j).None?
    ensures ConditionsAfter(start, attempts, pass) == start
  {
    if attempts == [] {
    } else {
      NoneSet(start, attempts[..|attempts| - 1], pass);
    }
  }

  lemma {:induction false} FirstTimes(start: seq<Condition>, attempts: seq<Pod>, pass: Pass, k: nat)
    requires k < |attempts| && SetBy(pass, attempts[k], k).Some?
    requires forall j :: 0 <= j < k ==> SetBy(pass, attempts[j], j).None?
    ensures var c := Find(ConditionsAfter(start, attempts, pass), RESTARTING);
      c.Some? && c.value.status == True && c.value.since == TransitionTime(start, RESTARTING, True, pass.clock(k))
  {
    var n := |attempts| - 1;
    SetsTrue(pass, attempts[n], n);
    hide ConditionsAfter, Find, SetBy;
    LastAttempt(start, attempts, pass, RESTARTING);
    if k == n {
      NoneSet(start, attempts[..n], pass);
    } else {
      FirstTimes(start, attempts[..n], pass, k);
    }
  }

  lemma SetsTrue(pass: Pass, p: Pod, k: nat)
    ensures SetBy(pass, p, k).Some? ==> SetBy(pass, p, k).value.status == True && SetBy(pass, p, k).value.kind == RESTARTING
  {
  }

  class IngestorStatus {
    var conditions: seq<Condition>

    constructor (cs: seq<Condition>)
      ensures conditions == cs
    {
      conditions := cs;
    }

    /** Evicts candidates in order until one is blocked or refused. */
    method EvictInOrder(candidates: seq<Pod>, pass: Pass) returns (attempts: seq<Pod>, r: Requeue)
      modifies this
      ensures attempts <= candidates && (candidates != [] ==> attempts != [])
      ensures forall k :: 0 <= k < |attempts| - 1 ==> Passable(pass.outcomes(k))
      ensures attempts == candidates || !Passable(pass.outcomes(|attempts| - 1))
      ensures conditions == ConditionsAfter(old(conditions), attempts, pass)
      ensures r == RequeueAfter(attempts, pass)
    {
      hide ConditionsAfter, Upserted, BlockedBy, AcceptedFor;
      attempts := [];
      NoneSet(conditions, [], pass);
      var i := 0;
      while i < |candidates|
        invariant i <= |candidates| && attempts == candidates[..i]
        invariant forall k :: 0 <= k < i ==> Passable(pass.outcomes(k))
        invariant conditions == ConditionsAfter(old(conditions), attempts, pass)
      {
        var p := candidates[i];
        ConditionsNext(old(conditions), attempts, p, pass);
        attempts := attempts + [p];
        match pass.outcomes(i) {
          case Blocked =>
            conditions := Upserted(conditions, BlockedBy(p, pass.generation), pass.clock(i));
            return attempts, Requeue(PDB_INTERVAL, NoFailure);
          case Refused => return attempts, Requeue(RETRY_INTERVAL, EvictionFailure(p));
          case Gone =>
          case Accepted => conditions := Upserted(conditions, AcceptedFor(p, pass.generation), pass.clock(i));
        }
        i := i + 1;
      }
      r := Requeue(RETRY_INTERVAL, NoFailure);
    }

    /** One pass over the ingestor pods. No eviction is attempted while a rollout is in progress; otherwise the attempts
        are a prefix of the candidates, and all but the last were accepted or already gone. */
    method Run(pass: Pass) returns (attempts: seq<Pod>, r: Requeue)
      requires pass.Valid()
      modifies this
      ensures !pass.Goes() ==> attempts == [] && conditions == old(conditions)
      ensures pass.Goes() ==> var c := Candidates(pass.order, pass.answers);
        && attempts <= c && (attempts == c || (attempts != [] && !Passable(pass.outcomes(|attempts| - 1))))
        && conditions == (if c != [] then ConditionsAfter(old(conditions), attempts, pass)
                          else NothingToRestart(old(conditions), FailedChecks(pass.answers), pass))
        && (attempts != [] ==>
              && r.after == (if pass.outcomes(|attempts| - 1) == Blocked then PDB_INTERVAL else RETRY_INTERVAL)
              && r.failure == (if pass.outcomes(|attempts| - 1) == Refused then EvictionFailure(attempts[|attempts| - 1]) else NoFailure))
        && (attempts == [] ==> r == Requeue(if FailedChecks(pass.answers) > 0 then RETRY_INTERVAL else POLL_INTERVAL, NoFailure))
      ensures forall k :: 0 <= k < |attempts| - 1 ==> Passable(pass.outcomes(k))
      ensures !pass.found ==> r == Requeue(0, StatefulSetFailure)
      ensures pass.found && pass.pods.None? ==> r == Requeue(0, ListFailure)
      ensures pass.found && pass.pods.Some? && (pass.pods.value == [] || Stale(pass.pods.value, pass.updateRevision)) ==>
        r == Requeue(RETRY_INTERVAL, NoFailure)
      ensures pass.Checks() && pass.cancelled ==> r == Requeue(0, Cancelled)
      ensures r.failure != NoFailure <==>
        || !pass.found || pass.pods.None? || (pass.Checks() && pass.cancelled)
        || (attempts != [] && pass.outcomes(|attempts| - 1) == Refused)
      ensures 0 <= r.after <= MINUTE && (r.after == 0 ==> r.failure != NoFailure)
    {
      if !pass.found { return [], Requeue(0, StatefulSetFailure); }
      if pass.pods.None? { return [], Requeue(0, ListFailure); }
      if |pass.pods.value| == 0 { return [], Requeue(RETRY_INTERVAL, NoFailure); }
      var stale := RolloutInProgress(pass.pods.value, pass.updateRevision);
      if stale { return [], Requeue(RETRY_INTERVAL, NoFailure); }
      var results := CheckConcurrently(pass.order, pass.answers, pass.schedule);
      if pass.cancelled { return [], Requeue(0, Cancelled); }
      assert PodsOf(results[..]) == pass.order && AnswersOf(results[..]) == pass.answers;
      hide SortedFrom, Stale, IsSchedule, PodsOf, AnswersOf, Candidates, FailedChecks, ConditionsAfter, Upserted, Find;
      var candidates, failed := Collect(results);
      if candidates == [] {
        NothingToDo(failed, pass);
        return [], Requeue(if failed > 0 then RETRY_INTERVAL else POLL_INTERVAL, NoFailure);
      }
      attempts, r := EvictInOrder(candidates, pass);
    }

    method NothingToDo(failed: nat, pass: Pass)
      modifies this
      ensures conditions == NothingToRestart(old(conditions), failed, pass)
    {
      if failed > 0 {
        conditions := Upserted(conditions, Incomplete(failed, pass.generation), pass.clock(0));
        return;
      }
      var existing := Find(conditions, RESTARTING);
      if existing.None? || existing.value.status == False { return; }
      conditions := Upserted(conditions, Completed(pass.generation), pass.clock(0));
    }
  }

  /** The delay and error after some attempts. */
  function RequeueAfter(attempts: seq<Pod>, pass: Pass): Requeue {
    if attempts == [] then Requeue(RETRY_INTERVAL, NoFailure)
    else
      match pass.outcomes(|attempts| - 1)
      case Blocked => Requeue(PDB_INTERVAL, NoFailure)
      case Refused => Requeue(RETRY_INTERVAL, EvictionFailure(attempts[|attempts| - 1]))
      case _ => Requeue(RETRY_INTERVAL, NoFailure)
  }

  /** Attempts are of pods whose check asked for a restart, lowest ordinals first, whatever the schedule. */
  lemma AttemptsInOrder(pods: seq<Pod>, order: seq<Pod>, answers: seq<Answer>, attempts: seq<Pod>, i: nat)
    requires SortedFrom(order, pods) && |answers| == |order| && attempts <= Candidates(order, answers) && i < |attempts|
    ensures exists k :: 0 <= k < |order| && order[k] == attempts[i] && answers[k] == Required
    ensures attempts[i] in pods && InOrder(attempts)
  {
    hide PodOrdinal;
    var c := Candidates(order, answers);
    CandidatesExactly(order, answers, attempts[i]);
    assert attempts[i] == c[i];
    assert attempts[i] in multiset(order);
    assert attempts == c[..|attempts|];
  }

  /******* The requeue delay *******/

  /** The delays asked for, and the cap. */
  function Delays(requested: int, eviction: int): set<int> {
    {MINUTE} + (if requested > 0 then {requested} else {}) + (if eviction > 0 then {eviction} else {})
  }

  // The app framework's delay starts as the longest duration there is.
  const MAX_DURATION: int := 0x7FFF_FFFF_FFFF_FFFF

  const APP_INTERVAL: int := 5 * SECOND

  class ReconcileResult {
    var requeue: bool
    var after: int

    constructor (r: bool, d: int)
      ensures requeue == r && after == d
    {
      requeue, after := r, d;
    }

    /** A delay asked for replaces a longer one; one that is not positive is ignored altogether. */
    method Update(asked: int, again: bool)
      modifies this
      ensures asked <= 0 ==> requeue == old(requeue) && after == old(after)
      ensures asked > 0 ==> requeue == again && after == (if asked < old(after) then asked else old(after))
    {
      if asked <= 0 { return; }
      requeue := again;
      if asked < after { after := asked; }
    }
  }

  /** What the app framework asks for: the next poll, if polling is on, whatever that computes to; and five seconds if
      the scheduler ran and wants to be called again. */
  method AppFrameworkDelay(nextPoll: Option<int>, revisit: Option<bool>) returns (r: ReconcileResult)
    ensures fresh(r) && 0 < r.after <= MAX_DURATION
    ensures nextPoll.Some? && nextPoll.value > 0 ==> r.after <= nextPoll.value
    ensures revisit == Some(true) ==> r.after <= APP_INTERVAL && r.requeue
    ensures r.after == MAX_DURATION || Some(r.after) == nextPoll || (r.after == APP_INTERVAL && revisit == Some(true))
  {
    r := new ReconcileResult(false, MAX_DURATION);
    if nextPoll.Some? { r.Update(nextPoll.value, true); }
    if revisit == Some(true) { r.Update(APP_INTERVAL, true); }
  }

  /** The end of the reconcile: the shortest positive delay anyone asked for, at most a minute. */
  method FoldRequeue(requested: int, eviction: int) returns (after: int)
    ensures 0 < after <= MINUTE <==> requested >= 0
    ensures requested >= 0 ==>
      after in Delays(requested, eviction) && forall d :: d in Delays(requested, eviction) ==> after <= d
    ensures requested < 0 ==> after == requested
  {
    after := requested;
    if after == 0 || after > MINUTE { after := MINUTE; }
    if 0 < eviction < after { after := eviction; }
  }

  /** The phase and conditions set when a pass fails. */
  function EvictionFailed(paused: bool, generation: int): Input {
    Input(Error, paused, "Failed during rolling eviction", generation)
  }

  /** The full path of a reconcile from the app framework on: nothing is evicted while apps are being deployed, a failed
      pass leaves the conditions of phase Error, and the delay lies in (0, 1 minute], whatever was asked for. */
  method ReconcileTail(status: IngestorStatus, ready: bool, nextPoll: Option<int>, revisit: Option<bool>, deploying: bool,
                       pass: Pass, paused: bool, at: int) returns (attempts: seq<Pod>, after: int, failed: bool)
    requires pass.Valid()
    modifies status
    ensures deploying ==> attempts == [] && !failed && status.conditions == old(status.conditions)
    ensures attempts != [] ==> pass.Goes() && attempts <= Candidates(pass.order, pass.answers)
    ensures failed <==>
      && !deploying
      && (|| !pass.found || pass.pods.None? || (pass.Checks() && pass.cancelled)
          || (attempts != [] && pass.outcomes(|attempts| - 1) == Refused))
    ensures failed ==>
      status.conditions == Derived(ConditionsAfter(old(status.conditions), attempts, pass), EvictionFailed(paused, pass.generation), at)
    ensures !deploying && pass.Goes() ==> var c := Candidates(pass.order, pass.answers);
      && (attempts == c || (attempts != [] && !Passable(pass.outcomes(|attempts| - 1))))
      && (!failed ==> status.conditions == if c != [] then ConditionsAfter(old(status.conditions), attempts, pass)
                                           else NothingToRestart(old(status.conditions), FailedChecks(pass.answers), pass))
    ensures !failed && !pass.Goes() ==> status.conditions == old(status.conditions)
    ensures 0 < after <= MINUTE
    ensures || after == MINUTE
            || (ready && (Some(after) == nextPoll || (after == APP_INTERVAL && revisit == Some(true))))
            || (!deploying && after in {RETRY_INTERVAL, PDB_INTERVAL, POLL_INTERVAL})
    ensures attempts != [] ==> after <= PDB_INTERVAL
    ensures ready && revisit == Some(true) ==> after <= APP_INTERVAL
    ensures ready && nextPoll.Some? && nextPoll.value > 0 ==> after <= nextPoll.value
  {
    hide Derived, Candidates;
    var requested := MINUTE;
    if ready {
      var result := AppFrameworkDelay(nextPoll, revisit);
      requested := result.after;
    }
    attempts, failed := [], false;
    var eviction := 0;
    if !deploying {
      var r;
      attempts, r := status.Run(pass);
      eviction, failed := r.after, r.failure != NoFailure;
      if failed {
        if attempts == [] { NoneSet(old(status.conditions), attempts, pass); }
        status.conditions := Derived(status.conditions, EvictionFailed(paused, pass.generation), at);
      }
    }
    hide ConditionsAfter;
    after := FoldRequeue(requested, eviction);
    assert requested in Delays(requested, eviction);
    assert eviction > 0 ==> eviction in Delays(requested, eviction);
  }

  /** The Restarting condition of a failed pass survives the move to phase Error; the resource is no longer ready. */
  lemma FailedPassKeepsRestarting(start: seq<Condition>, attempts: seq<Pod>, pass: Pass, paused: bool, at: int)
    ensures var cs := ConditionsAfter(start, attempts, pass);
      var d := Derived(cs, EvictionFailed(paused, pass.generation), at);
      Find(d, RESTARTING) == Find(cs, RESTARTING) && !IsTrue(d, READY) && !IsTrue(d, PROGRESSING)
  {
    var cs, input := ConditionsAfter(start, attempts, pass), EvictionFailed(paused, pass.generation);
    FindDerived(cs, input, at, RESTARTING);
    DerivedMeaning(cs, input, at);
    hide Derived, Find, ConditionsAfter;
  }
}
