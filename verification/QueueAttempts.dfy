/** How often a job is tried: exactly when its attempts stay within its limit. */
module QueueAttempts {
  import opened Wrappers
  import opened JobQueue
  import opened WorkerFleet
  import opened QueueSafety
  import LikePattern

  predicate WithinLimit(j: Job) {
    j.attempts <= j.maxAttempts && (j.status.Queued? ==> j.attempts < j.maxAttempts)
  }

  ghost predicate AttemptsOk(t: Table) {
    forall id :: id in t ==> WithinLimit(t[id])
  }

  /** After its first statement a booting worker finds only jobs that may run again. */
  ghost predicate ClearedOk(cfg: Config, s: State) {
    forall p :: p in s.procs && s.procs[p].Clearing? ==> ClearedFor(s.jobs, p, SlotsOf(cfg, p))
  }

  ghost predicate ClearedFor(t: Table, p: string, slots: nat) {
    forall id :: id in t && HeldBy(t[id], p, slots) ==> t[id].attempts < t[id].maxAttempts
  }

  /** While the row still runs under a loop's label, it has the attempts and the limit the loop read at its claim. */
  predicate SnapshotOk(t: Table, owner: Owner, l: Loop) {
    Busy(l) && l.id in t && t[l.id].status.Running? && t[l.id].lockedBy == Some(owner) ==>
      t[l.id].attempts == l.attempts && t[l.id].maxAttempts == l.maxAttempts
  }

  ghost predicate SnapshotsOk(s: State) {
    forall p, i: nat :: HasLoop(s, p, i) ==> SnapshotOk(s.jobs, OwnerOf(s, p, i), LoopOf(s, p, i))
  }

  /** fail is applied by the job's current claimer, or to a job that no longer runs. */
  predicate FailsByClaimer(s: State, e: Event) {
    e.OnLoop? && e.act.Fail? && HasLoop(s, e.p, e.i) && Busy(LoopOf(s, e.p, e.i)) && LoopOf(s, e.p, e.i).id in s.jobs ==>
      var j := s.jobs[LoopOf(s, e.p, e.i).id];
      j.status.Running? ==> j.lockedBy == Some(OwnerOf(s, e.p, e.i))
  }

  /** A failure puts a running row back in line that has no attempts left. */
  predicate Overruns(s: State, e: Event) {
    && e.OnLoop? && e.act.Fail? && HasLoop(s, e.p, e.i) && Busy(LoopOf(s, e.p, e.i)) && LoopOf(s, e.p, e.i).id in s.jobs
    && var l := LoopOf(s, e.p, e.i);
       && Retries(l.attempts, l.maxAttempts, e.act.nonRetryable)
       && s.jobs[l.id].status.Running? && s.jobs[l.id].attempts >= s.jobs[l.id].maxAttempts
  }

  ghost predicate AttemptsInv(cfg: Config, s: State) {
    Ok(cfg, s) && AttemptsOk(s.jobs) && ClearedOk(cfg, s) && SnapshotsOk(s)
  }

  // ------------------------------------------------------------------ rows

  /** Rows that stay within their limit under every statement but a failure and a release. */
  lemma RowsStayWithin(j: Job, name: string, slots: nat, now: int)
    requires WithinLimit(j)
    ensures WithinLimit(CompletedRow(j)) && WithinLimit(ExpiredRow(j, now)) && WithinLimit(RecoveredRow(j, now))
    ensures WithinLimit(ExhaustedRow(j, name, slots)) && WithinLimit(CancelledRow(j)) && WithinLimit(Beaten(j, now))
    ensures WithinLimit(DismissedRow(j))
  {
    hide HeldBy;
  }

  lemma ReleaseStaysWithin(cfg: Config, j: Job, name: string, slots: nat, refund: bool, now: int)
    requires WithinLimit(j) && RowOk(cfg, j) && (refund || (HeldBy(j, name, slots) ==> j.attempts < j.maxAttempts))
    ensures WithinLimit(ReleasedRow(j, name, slots, refund, now))
  {
    hide LikePattern.ReleaseMatches;
  }

  /** Exactly when a failure breaks the limit: the row runs, is tried again, and has no attempts left. */
  lemma FailureStaysWithinIff(j: Job, attempts: int, retry: bool, now: int)
    requires WithinLimit(j)
    ensures WithinLimit(FailedRow(j, attempts, retry, now))
            <==> !(j.status.Running? && retry && j.attempts >= j.maxAttempts)
  {
  }

  lemma TableStaysWithin(s: State, e: TableEvent)
    requires AttemptsOk(s.jobs) && TableEnabled(s, e) && !e.Enqueue? && !e.Schedule?
    ensures AttemptsOk(JobsAfterTable(s.jobs, e))
  {
    forall id | id in s.jobs
      ensures forall now :: WithinLimit(ExpiredRow(s.jobs[id], now)) && WithinLimit(RecoveredRow(s.jobs[id], now))
      ensures forall now :: WithinLimit(Beaten(s.jobs[id], now))
      ensures WithinLimit(CancelledRow(s.jobs[id])) && WithinLimit(DismissedRow(s.jobs[id]))
    {
      forall now: int { RowsStayWithin(s.jobs[id], "", 0, now); }
      RowsStayWithin(s.jobs[id], "", 0, 0);
    }
    hide WithinLimit, ExpiredRow, RecoveredRow, CancelledRow, DismissedRow, Beaten;
  }

  lemma ProcessStaysWithin(cfg: Config, s: State, p: string, e: ProcessEvent)
    requires AttemptsInv(cfg, s) && ProcessEnabled(s, p, e)
    ensures AttemptsOk(JobsAfterProcess(s.jobs, p, SlotsOf(cfg, p), e))
  {
    var slots := SlotsOf(cfg, p);
    if e.ReleaseRest? { assert ClearedFor(s.jobs, p, slots); }
    forall id | id in s.jobs
      ensures WithinLimit(ExhaustedRow(s.jobs[id], p, slots))
      ensures e.ReleaseRest? ==> WithinLimit(ReleasedRow(s.jobs[id], p, slots, false, e.now))
      ensures e.Refund? ==> WithinLimit(ReleasedRow(s.jobs[id], p, slots, true, e.now))
    {
      RowsStayWithin(s.jobs[id], p, slots, 0);
      assert RowOk(cfg, s.jobs[id]) && WithinLimit(s.jobs[id]);
      if e.ReleaseRest? { ReleaseStaysWithin(cfg, s.jobs[id], p, slots, false, e.now); }
      if e.Refund? { ReleaseStaysWithin(cfg, s.jobs[id], p, slots, true, e.now); }
    }
    hide WithinLimit, ReleasedRow, ExhaustedRow, ClearedFor, Ok;
  }

  lemma LoopStaysWithin(cfg: Config, s: State, p: string, i: nat, e: LoopEvent)
    requires AttemptsInv(cfg, s) && LoopEnabled(cfg, s, p, i, e) && ClaimedIn(e).None?
    requires !Overruns(s, OnLoop(p, i, e))
    ensures AttemptsOk(JobsAfterLoop(s.jobs, LoopOf(s, p, i), OwnerOf(s, p, i), e))
  {
    var l := LoopOf(s, p, i);
    if Busy(l) && l.id in s.jobs {
      var j := s.jobs[l.id];
      RowsStayWithin(j, "", 0, 0);
      if e.Fail? { FailureStaysWithinIff(j, l.attempts, Retries(l.attempts, l.maxAttempts, e.nonRetryable), e.now); }
    }
    hide WithinLimit, CompletedRow, FailedRow, Ok, SnapshotsOk, ClearedOk;
  }

  lemma NextKeepsAttempts(cfg: Config, s: State, e: Event)
    requires AttemptsInv(cfg, s) && Enabled(cfg, s, e) && !Overruns(s, e)
    ensures AttemptsOk(JobsAfter(cfg, s, e))
  {
    if Starts(e) {
      StartIsClaim(cfg, s, e);
      hide JobsAfter, Enabled, Eligible, Ok, SnapshotsOk, ClearedOk;
    } else if Inserts(e) {
      InsertIsNewRow(cfg, s, e);
      hide JobsAfter, Enabled, Ok, SnapshotsOk, ClearedOk;
    } else {
      match e
      case OnTable(t) => TableStaysWithin(s, t);
      case OnProcess(p, step) => ProcessStaysWithin(cfg, s, p, step);
      case OnLoop(p, i, act) => LoopStaysWithin(cfg, s, p, i, act);
    }
  }

  // ------------------------------------------------------------------ the moment between the two release statements

  lemma ClearedByFirstStatement(t: Table, p: string, slots: nat)
    ensures ClearedFor(Exhausting(t, p, slots), p, slots)
  {
    hide LikePattern.ReleaseMatches;
  }

  lemma RowStepsKeepCleared(t: Table, u: Table, p: string, slots: nat)
    requires ClearedFor(t, p, slots) && TableStep(t, u)
    ensures ClearedFor(u, p, slots)
  {
    forall id | id in u && HeldBy(u[id], p, slots) ensures u[id].attempts < u[id].maxAttempts {
      assert RowStep(t[id], u[id]);
      hide LikePattern.ReleaseMatches;
      assert HeldBy(t[id], p, slots);
    }
  }

  /** A start under another profile's label is not held by p. */
  lemma OtherStartKeepsCleared(cfg: Config, t: Table, u: Table, id: JobId, owner: Owner, p: string, slots: nat)
    requires ConfigOk(cfg) && p in cfg.profiles && owner.name in cfg.profiles && owner.name != p
    requires ClearedFor(t, p, slots) && id in t && id in u && u == t[id := u[id]] && u[id].lockedBy == Some(owner)
    ensures ClearedFor(u, p, slots)
  {
    LikePattern.ReleaseSelfExact(p, slots, owner.name, owner.slot, owner.host);
    hide LikePattern.ReleaseMatches;
  }

  lemma NewRowKeepsCleared(t: Table, u: Table, id: JobId, p: string, slots: nat)
    requires ClearedFor(t, p, slots) && IsNewRow(t, u, id)
    ensures ClearedFor(u, p, slots)
  {
    hide LikePattern.ReleaseMatches;
  }

  lemma NextKeepsCleared(cfg: Config, s: State, e: Event, p: string)
    requires ConfigOk(cfg) && AttemptsInv(cfg, s) && Enabled(cfg, s, e)
    requires p in s.procs && ProcsAfter(cfg, s, e)[p].Clearing?
    ensures ClearedFor(JobsAfter(cfg, s, e), p, SlotsOf(cfg, p))
  {
    var slots := SlotsOf(cfg, p);
    if e.OnProcess? && e.p == p && e.step.ReleaseExhausted? {
      ClearedByFirstStatement(s.jobs, p, slots);
    } else {
      assert s.procs[p].Clearing?;
      assert ClearedFor(s.jobs, p, slots);
      if Starts(e) {
        StartIsClaim(cfg, s, e);
        assert e.p != p;
        hide JobsAfter, Enabled, Eligible, ClearedFor, SnapshotsOk, AttemptsOk;
        var id := ClaimedIn(e.act).value;
        OtherStartKeepsCleared(cfg, s.jobs, JobsAfter(cfg, s, e), id, OwnerOf(s, e.p, e.i), p, slots);
      } else if Inserts(e) {
        InsertIsNewRow(cfg, s, e);
        hide JobsAfter, Enabled, ClearedFor, SnapshotsOk, AttemptsOk;
        if JobsAfter(cfg, s, e) != s.jobs { NewRowKeepsCleared(s.jobs, JobsAfter(cfg, s, e), e.t.id, p, slots); }
      } else {
        OthersAreRowSteps(cfg, s, e);
        hide JobsAfter, Enabled, ClearedFor, SnapshotsOk, AttemptsOk;
        RowStepsKeepCleared(s.jobs, JobsAfter(cfg, s, e), p, slots);
      }
    }
  }

  // ------------------------------------------------------------------ snapshots

  lemma RowStepsKeepSnapshot(t: Table, u: Table, owner: Owner, l: Loop)
    requires TableStep(t, u) && SnapshotOk(t, owner, l)
    ensures SnapshotOk(u, owner, l)
  {
    if Busy(l) && l.id in u { assert RowStep(t[l.id], u[l.id]); }
  }

  /** A start under another label. */
  lemma OtherStartKeepsSnapshot(t: Table, u: Table, id: JobId, other: Owner, owner: Owner, l: Loop)
    requires SnapshotOk(t, owner, l) && id in t && id in u && u == t[id := u[id]] && u[id].lockedBy == Some(other)
            && other != owner
    requires u[id].maxAttempts == t[id].maxAttempts
    ensures SnapshotOk(u, owner, l)
  {
  }

  lemma NewRowKeepsSnapshot(t: Table, u: Table, id: JobId, owner: Owner, l: Loop)
    requires SnapshotOk(t, owner, l) && IsNewRow(t, u, id)
    ensures SnapshotOk(u, owner, l)
  {
  }

  /** The loop kept its job, or has none in hand, unless this step is its claim. */
  lemma LoopKeptOrFree(cfg: Config, s: State, e: Event, p: string, i: nat)
    requires Enabled(cfg, s, e) && HasLoop(Next(cfg, s, e), p, i) && Busy(LoopOf(Next(cfg, s, e), p, i))
    ensures HasLoop(s, p, i) && OwnerOf(Next(cfg, s, e), p, i) == OwnerOf(s, p, i)
    ensures var l, m := LoopOf(s, p, i), LoopOf(Next(cfg, s, e), p, i);
      if Starts(e) && e.p == p && e.i == i
      then e.act.Claim? && m == Working(e.act.claimed.value, s.jobs[e.act.claimed.value].attempts + 1, s.jobs[e.act.claimed.value].maxAttempts)
      else Busy(l) && m.id == l.id && m.attempts == l.attempts && m.maxAttempts == l.maxAttempts
  {
    hide JobsAfter, RefundsAfter, StartsAfter, Eligible, IsFirst;
    match e
    case OnTable(_) =>
    case OnProcess(q, step) =>
    case OnLoop(q, k, act) =>
      if q == p && k == i {
        if Starts(e) { StartIsClaim(cfg, s, e); }
      }
  }

  lemma NextKeepsSnapshot(cfg: Config, s: State, e: Event, p: string, i: nat)
    requires AttemptsInv(cfg, s) && Enabled(cfg, s, e) && HasLoop(Next(cfg, s, e), p, i)
    ensures SnapshotOk(JobsAfter(cfg, s, e), OwnerOf(Next(cfg, s, e), p, i), LoopOf(Next(cfg, s, e), p, i))
  {
    var m := LoopOf(Next(cfg, s, e), p, i);
    if Busy(m) {
      LoopKeptOrFree(cfg, s, e, p, i);
      var l, owner := LoopOf(s, p, i), OwnerOf(s, p, i);
      assert SnapshotOk(s.jobs, owner, l);
      if Starts(e) {
        StartIsClaim(cfg, s, e);
        hide JobsAfter, Enabled, Eligible, AttemptsInv, ProcsAfter;
        if !(e.p == p && e.i == i) {
          OtherStartKeepsSnapshot(s.jobs, JobsAfter(cfg, s, e), ClaimedIn(e.act).value, OwnerOf(s, e.p, e.i), owner, l);
        }
      } else if Inserts(e) {
        InsertIsNewRow(cfg, s, e);
        hide JobsAfter, Enabled, AttemptsInv, ProcsAfter;
        if JobsAfter(cfg, s, e) != s.jobs { NewRowKeepsSnapshot(s.jobs, JobsAfter(cfg, s, e), e.t.id, owner, l); }
      } else {
        OthersAreRowSteps(cfg, s, e);
        hide JobsAfter, Enabled, AttemptsInv, ProcsAfter;
        RowStepsKeepSnapshot(s.jobs, JobsAfter(cfg, s, e), owner, l);
      }
    }
  }

  // ------------------------------------------------------------------ every run

  lemma NextKeepsAttemptsInv(cfg: Config, s: State, e: Event)
    requires ConfigOk(cfg) && AttemptsInv(cfg, s) && Enabled(cfg, s, e) && !Overruns(s, e)
    ensures AttemptsInv(cfg, Next(cfg, s, e))
  {
    NextKeepsOk(cfg, s, e);
    NextKeepsAttempts(cfg, s, e);
    var t := Next(cfg, s, e);
    assert t.procs.Keys == s.procs.Keys by { hide JobsAfter, RefundsAfter, StartsAfter; }
    forall p | p in t.procs && t.procs[p].Clearing? ensures ClearedFor(t.jobs, p, SlotsOf(cfg, p)) {
      NextKeepsCleared(cfg, s, e, p);
    }
    forall p, i: nat | HasLoop(t, p, i) ensures SnapshotOk(t.jobs, OwnerOf(t, p, i), LoopOf(t, p, i)) {
      NextKeepsSnapshot(cfg, s, e, p, i);
    }
    hide Ok, AttemptsOk, JobsAfter, ProcsAfter, ClearedFor, SnapshotOk;
  }

  /** Such a failure breaks the limit. */
  lemma OverrunBreaks(cfg: Config, s: State, e: Event)
    requires AttemptsInv(cfg, s) && Enabled(cfg, s, e) && Overruns(s, e)
    ensures !AttemptsOk(JobsAfter(cfg, s, e))
  {
    var l := LoopOf(s, e.p, e.i);
    var j := s.jobs[l.id];
    assert WithinLimit(j);
    FailureStaysWithinIff(j, l.attempts, true, e.act.now);
    hide WithinLimit, AttemptsInv, Ok, FailedRow;
    var u := JobsAfter(cfg, s, e);
    assert u == Failing(s.jobs, l.id, l.attempts, true, e.act.now);
    assert !WithinLimit(u[l.id]);
  }

  /** In every state of the run every job is within its limit, and those that wait have attempts left. */
  ghost predicate LimitsHold(cfg: Config, s: State, es: seq<Event>)
    requires Feasible(cfg, s, es)
    decreases |es|
  {
    AttemptsOk(s.jobs) && (es == [] || LimitsHold(cfg, Next(cfg, s, es[0]), es[1..]))
  }

  /** No step of the run puts a row without attempts left back in line. */
  ghost predicate NeverOverruns(cfg: Config, s: State, es: seq<Event>)
    requires Feasible(cfg, s, es)
    decreases |es|
  {
    es == [] || (!Overruns(s, es[0]) && NeverOverruns(cfg, Next(cfg, s, es[0]), es[1..]))
  }

  lemma {:induction false} RunLimitsIff(cfg: Config, s: State, es: seq<Event>)
    requires ConfigOk(cfg) && AttemptsInv(cfg, s) && Feasible(cfg, s, es)
    ensures LimitsHold(cfg, s, es) <==> NeverOverruns(cfg, s, es)
    ensures NeverOverruns(cfg, s, es) ==> AttemptsInv(cfg, Run(cfg, s, es))
    decreases |es|
  {
    HoldsNow(cfg, s);
    if es != [] {
      var t := Next(cfg, s, es[0]);
      hide AttemptsInv, AttemptsOk, Next, Enabled, Overruns, ConfigOk;
      if Overruns(s, es[0]) {
        OverrunBreaks(cfg, s, es[0]);
        JobsOfNext(cfg, s, es[0]);
        assert !LimitsHold(cfg, t, es[1..]);
      } else {
        NextKeepsAttemptsInv(cfg, s, es[0]);
        RunLimitsIff(cfg, t, es[1..]);
      }
    }
  }

  lemma HoldsNow(cfg: Config, s: State)
    requires AttemptsInv(cfg, s)
    ensures AttemptsOk(s.jobs)
  {
  }

  lemma JobsOfNext(cfg: Config, s: State, e: Event)
    requires Enabled(cfg, s, e)
    ensures Next(cfg, s, e).jobs == JobsAfter(cfg, s, e)
  {
  }

  lemma InitialAttemptsInv(cfg: Config)
    ensures AttemptsInv(cfg, Initial(cfg))
  {
    InitialOk(cfg);
  }

  /**
   * Over every run of every configuration: all jobs stay within their limits, and those that wait have attempts left, if and
   * only if no failure of the run retries a running row whose attempts have reached its maximum.
   */
  lemma LimitsHoldIff(cfg: Config, es: seq<Event>)
    requires ConfigOk(cfg) && Feasible(cfg, Initial(cfg), es)
    ensures LimitsHold(cfg, Initial(cfg), es) <==> NeverOverruns(cfg, Initial(cfg), es)
  {
    hide *;
    InitialAttemptsInv(cfg);
    RunLimitsIff(cfg, Initial(cfg), es);
  }

  // ------------------------------------------------------------------ failures reported by the claimer

  /** In every step of the run, a failure is reported by the current claimer of the job. */
  ghost predicate ClaimersFail(cfg: Config, s: State, es: seq<Event>)
    requires Feasible(cfg, s, es)
    decreases |es|
  {
    es == [] || (FailsByClaimer(s, es[0]) && ClaimersFail(cfg, Next(cfg, s, es[0]), es[1..]))
  }

  /** The current claimer read the attempts that the row has, so it retries only what may be retried. */
  lemma ClaimerDoesNotOverrun(cfg: Config, s: State, e: Event)
    requires AttemptsInv(cfg, s) && FailsByClaimer(s, e)
    ensures !Overruns(s, e)
  {
    if e.OnLoop? && HasLoop(s, e.p, e.i) {
      assert SnapshotOk(s.jobs, OwnerOf(s, e.p, e.i), LoopOf(s, e.p, e.i));
    }
  }

  lemma {:induction false} ClaimersNeverOverrun(cfg: Config, s: State, es: seq<Event>)
    requires ConfigOk(cfg) && AttemptsInv(cfg, s) && Feasible(cfg, s, es) && ClaimersFail(cfg, s, es)
    ensures NeverOverruns(cfg, s, es)
    decreases |es|
  {
    hide AttemptsInv, Next, Enabled, FailsByClaimer, Overruns, ConfigOk;
    if es != [] {
      ClaimerDoesNotOverrun(cfg, s, es[0]);
      NextKeepsAttemptsInv(cfg, s, es[0]);
      ClaimersNeverOverrun(cfg, Next(cfg, s, es[0]), es[1..]);
    }
  }

  /** Under the limits no job starts more often than its limit and its refunds allow. */
  lemma StartsBounded(cfg: Config, es: seq<Event>)
    requires ConfigOk(cfg) && Feasible(cfg, Initial(cfg), es) && NeverOverruns(cfg, Initial(cfg), es)
    ensures var s := Run(cfg, Initial(cfg), es);
      forall id :: id in s.jobs ==>
        && (s.jobs[id].status.Queued? ==> s.jobs[id].attempts < s.jobs[id].maxAttempts)
        && s.jobs[id].attempts <= s.jobs[id].maxAttempts
        && Count(s.starts, id) <= s.jobs[id].maxAttempts + Count(s.refunds, id)
  {
    InitialAttemptsInv(cfg);
    hide Feasible, Run, NeverOverruns, LimitsHold, SnapshotsOk, ClearedOk;
    RunLimitsIff(cfg, Initial(cfg), es);
    var s := Run(cfg, Initial(cfg), es);
    hide RowsOk, ProcsOk;
    assert CountsOk(s) && AttemptsOk(s.jobs);
  }

  /**
   * When every failure is reported by the job's current claimer, then in every reachable state a waiting job has attempts
   * left and every job is within its limit, so no job starts more often than its limit and its refunds allow, however
   * often it takes its worker down.
   */
  lemma AttemptsBounded(cfg: Config, es: seq<Event>)
    requires ConfigOk(cfg) && Feasible(cfg, Initial(cfg), es) && ClaimersFail(cfg, Initial(cfg), es)
    ensures var s := Run(cfg, Initial(cfg), es);
      forall id :: id in s.jobs ==>
        && (s.jobs[id].status.Queued? ==> s.jobs[id].attempts < s.jobs[id].maxAttempts)
        && s.jobs[id].attempts <= s.jobs[id].maxAttempts
        && Count(s.starts, id) <= s.jobs[id].maxAttempts + Count(s.refunds, id)
  {
    hide *;
    InitialAttemptsInv(cfg);
    ClaimersNeverOverrun(cfg, Initial(cfg), es);
    StartsBounded(cfg, es);
  }

  // ------------------------------------------------------------------ without the condition it fails

  const ANY := Lane({}, {})
  const PAIR := Config(map["w" := Profile(ANY, 2)], Caps(1, 1))

  function Row(status: Status, attempts: int, availableAt: int, lockedBy: Option<Owner>,
               heartbeatAt: Option<int>): Job {
    Job(PreviewUpload, status, 0, None, attempts, 2, availableAt, lockedBy, heartbeatAt)
  }

  function Pair(a: Loop, b: Loop): map<string, Process> {
    map["w" := Up("h", false, false, [a, b])]
  }

  /** The only waiting row is the least eligible one for a profile that takes everything. */
  lemma OnlyRow(j: Job, now: int)
    requires j.status.Queued? && j.availableAt <= now && j.weight == 0 && j.storage.None?
    ensures IsFirst(map["j" := j], "j", ANY, PAIR.caps, now)
  {
  }

  function JobMap(j: Job): Table {
    map["j" := j]
  }

  lemma ClaimOne(s: State, i: nat, a: Loop, b: Loop, j: Job, n: nat, now: int)
    requires i < 2 && (if i == 0 then a else b).Claiming? && s == State(JobMap(j), Pair(a, b), s.starts, map[])
    requires j == Row(Queued, n, j.availableAt, None, None) && j.availableAt <= now
    ensures var e := OnLoop("w", i, Claim(Some("j"), now));
      var w := Working("j", n + 1, 2);
      && Enabled(PAIR, s, e)
      && Next(PAIR, s, e).jobs == JobMap(Row(Running, n + 1, j.availableAt, Some(Owner("w", i + 1, "h")), Some(now)))
      && Next(PAIR, s, e).procs == Pair(if i == 0 then w else a, if i == 0 then b else w) && Next(PAIR, s, e).refunds == map[]
  {
    OnlyRow(j, now);
    var e := OnLoop("w", i, Claim(Some("j"), now));
    var w := s.procs["w"];
    assert w.loops[i := Working("j", n + 1, 2)] == [if i == 0 then Working("j", n + 1, 2) else a, if i == 0 then b else Working("j", n + 1, 2)];
    assert Next(PAIR, s, e).procs == s.procs["w" := w.(loops := w.loops[i := Working("j", n + 1, 2)])];
  }

  /** A worker with two slots comes up and both loops go for a job. */
  lemma TwoLoopsClaiming() returns (s: State)
    ensures Reachable(PAIR, s)
            && s == State(JobMap(Row(Queued, 0, 0, None, None)), Pair(Claiming, Claiming), map[], map[])
  {
    var s0 := Initial(PAIR);
    InitialReachable(PAIR);
    var q := Row(Queued, 0, 0, None, None);
    var e := OnTable(Enqueue("j", PreviewUpload, 0, None, 2, 0));
    NextReachable(PAIR, s0, e);
    var s1 := Next(PAIR, s0, e);
    assert s1 == State(JobMap(q), map["w" := Down], map[], map[]);
    NextReachable(PAIR, s1, OnProcess("w", Boot));
    var s2 := Next(PAIR, s1, OnProcess("w", Boot));
    assert s2 == State(JobMap(q), map["w" := Booting], map[], map[]);
    s := BootedAndClaiming(s2, q);
  }

  lemma BootedAndClaiming(s2: State, q: Job) returns (s: State)
    requires Reachable(PAIR, s2) && q == Row(Queued, 0, 0, None, None)
            && s2 == State(JobMap(q), map["w" := Booting], map[], map[])
    ensures Reachable(PAIR, s) && s == State(JobMap(q), Pair(Claiming, Claiming), map[], map[])
  {
    hide LikePattern.ReleaseMatches;
    var e := OnProcess("w", ReleaseExhausted);
    NextReachable(PAIR, s2, e);
    var s3 := Next(PAIR, s2, e);
    assert s3 == State(JobMap(q), map["w" := Clearing], map[], map[]);
    e := OnProcess("w", ReleaseRest("h", false, 0));
    NextReachable(PAIR, s3, e);
    var s4 := Next(PAIR, s3, e);
    assert seq(2, _ => Waiting) == [Waiting, Waiting];
    assert s4 == State(JobMap(q), Pair(Waiting, Waiting), map[], map[]);
    s := BothClaiming(s4, q);
  }

  lemma BothClaiming(s4: State, q: Job) returns (s: State)
    requires Reachable(PAIR, s4) && s4 == State(JobMap(q), Pair(Waiting, Waiting), map[], map[])
    ensures Reachable(PAIR, s) && s == State(JobMap(q), Pair(Claiming, Claiming), map[], map[])
  {
    NextReachable(PAIR, s4, OnLoop("w", 0, Guard));
    var s5 := Next(PAIR, s4, OnLoop("w", 0, Guard));
    assert [Waiting, Waiting][0 := Claiming] == [Claiming, Waiting];
    assert s5 == State(JobMap(q), Pair(Claiming, Waiting), map[], map[]);
    NextReachable(PAIR, s5, OnLoop("w", 1, Guard));
    s := Next(PAIR, s5, OnLoop("w", 1, Guard));
    assert [Claiming, Waiting][1 := Claiming] == [Claiming, Claiming];
    assert s.jobs == JobMap(q) && s.procs == Pair(Claiming, Claiming);
  }

  /**
   * The code keys fail on the job and its status alone, so the condition is needed: a job with limit 2 is claimed, its
   * worker's heartbeat goes stale, the job is taken back and claimed again, and then the first worker reports its failure.
   * The job is queued once more although it has used up its attempts, and will start a third time without any refund.
   */
  lemma LateFailureBreaksTheLimit() returns (s: State)
    ensures Reachable(PAIR, s) && "j" in s.jobs
    ensures s.jobs["j"].status.Queued? && s.jobs["j"].attempts == s.jobs["j"].maxAttempts && s.refunds == map[]
  {
    s := TwoLoopsClaiming();
    var q := Row(Queued, 0, 0, None, None);
    ClaimOne(s, 0, Claiming, Claiming, q, 0, 0);
    NextReachable(PAIR, s, OnLoop("w", 0, Claim(Some("j"), 0)));
    var s1 := Next(PAIR, s, OnLoop("w", 0, Claim(Some("j"), 0)));
    var e := OnTable(Recover(200_000));
    NextReachable(PAIR, s1, e);
    var s2 := Next(PAIR, s1, e);
    assert s2.jobs == JobMap(Row(Queued, 1, 200_000, None, None));
    s := LateFailure(s2);
  }

  lemma LateFailure(s2: State) returns (s: State)
    requires Reachable(PAIR, s2)
            && s2 == State(JobMap(Row(Queued, 1, 200_000, None, None)), Pair(Working("j", 1, 2), Claiming), s2.starts, map[])
    ensures Reachable(PAIR, s) && "j" in s.jobs
    ensures s.jobs["j"].status.Queued? && s.jobs["j"].attempts == s.jobs["j"].maxAttempts && s.refunds == map[]
  {
    var q := Row(Queued, 1, 200_000, None, None);
    var e := OnLoop("w", 1, Claim(Some("j"), 200_000));
    ClaimOne(s2, 1, Working("j", 1, 2), Claiming, q, 1, 200_000);
    NextReachable(PAIR, s2, e);
    var s3 := Next(PAIR, s2, e);
    var f := OnLoop("w", 0, Fail(false, 200_001));
    NextReachable(PAIR, s3, f);
    s := Next(PAIR, s3, f);
  }
}
