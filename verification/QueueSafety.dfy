/** What every run of the workers keeps, whatever fails: caps, counts of attempts, and limits on how often a job starts. */
module QueueSafety {
  import opened Wrappers
  import opened JobQueue
  import opened WorkerFleet
  import LikePattern

  // ------------------------------------------------------------------ rows, attempts and processes

  predicate RowOk(cfg: Config, j: Job) {
    && j.maxAttempts >= 1 && 0 <= j.attempts
    && j.weight in WeightsOf(j.kind) && (j.storage.Some? ==> j.kind.SourceRefresh?)
    && (j.status.Queued? ==> j.lockedBy.None?)
    && (j.status.Running? ==> j.attempts >= 1 && j.lockedBy.Some? && OwnerOk(cfg, j.lockedBy.value, j))
  }

  /** The label is that of a slot of a profile that takes such jobs. */
  predicate OwnerOk(cfg: Config, owner: Owner, j: Job) {
    owner.name in cfg.profiles && 1 <= owner.slot <= cfg.profiles[owner.name].slots && Admits(cfg.profiles[owner.name].lane, j)
  }

  ghost predicate RowsOk(cfg: Config, t: Table) {
    forall id :: id in t ==> RowOk(cfg, t[id])
  }

  /** Every start added one attempt and every refund took one away. */
  ghost predicate CountsOk(s: State) {
    && s.starts.Keys <= s.jobs.Keys && s.refunds.Keys <= s.jobs.Keys
    && forall id :: id in s.jobs ==> s.jobs[id].attempts == Count(s.starts, id) - Count(s.refunds, id)
  }

  ghost predicate ProcsOk(cfg: Config, s: State) {
    && s.procs.Keys == cfg.profiles.Keys
    && forall p :: p in s.procs && s.procs[p].Up? ==> |s.procs[p].loops| == cfg.profiles[p].slots
  }

  ghost predicate Ok(cfg: Config, s: State) {
    RowsOk(cfg, s.jobs) && CountsOk(s) && ProcsOk(cfg, s)
  }

  lemma RowStepKeepsOk(cfg: Config, a: Job, b: Job)
    requires RowOk(cfg, a) && RowStep(a, b)
    ensures RowOk(cfg, b)
  {
  }

  lemma TableStepKeepsRows(cfg: Config, t: Table, u: Table)
    requires RowsOk(cfg, t) && TableStep(t, u)
    ensures RowsOk(cfg, u)
  {
    forall id | id in u ensures RowOk(cfg, u[id]) { RowStepKeepsOk(cfg, t[id], u[id]); }
  }

  lemma NextKeepsRows(cfg: Config, s: State, e: Event)
    requires Ok(cfg, s) && Enabled(cfg, s, e)
    ensures RowsOk(cfg, JobsAfter(cfg, s, e))
  {
    hide JobsAfter, Enabled;
    if Starts(e) {
      StartIsClaim(cfg, s, e);
      hide Eligible;
      var id := ClaimedIn(e.act).value;
      assert RowOk(cfg, s.jobs[id]);
    } else if Inserts(e) {
      InsertIsNewRow(cfg, s, e);
    } else {
      OthersAreRowSteps(cfg, s, e);
      TableStepKeepsRows(cfg, s.jobs, JobsAfter(cfg, s, e));
    }
  }

  lemma NextKeepsProcs(cfg: Config, s: State, e: Event)
    requires ProcsOk(cfg, s) && Enabled(cfg, s, e)
    ensures ProcsOk(cfg, Next(cfg, s, e))
  {
    hide JobsAfter, RefundsAfter, StartsAfter, LoopAfter, IsFirst, Eligible, ClaimAnswers;
  }

  // ------------------------------------------------------------------ attempts = starts - refunds

  ghost predicate SameAttempts(t: Table, u: Table) {
    u.Keys <= t.Keys && forall id :: id in u ==> u[id].attempts == t[id].attempts
  }

  lemma OthersKeepAttempts(cfg: Config, s: State, e: Event)
    requires Enabled(cfg, s, e) && !Starts(e) && !Inserts(e) && !(e.OnProcess? && e.step.Refund?)
    ensures SameAttempts(s.jobs, JobsAfter(cfg, s, e))
  {
    hide HeldBy, Stale, IsFirst, Eligible, ClaimAnswers;
    match e
    case OnTable(t) => assert SameAttempts(s.jobs, JobsAfterTable(s.jobs, t));
    case OnProcess(p, step) => assert SameAttempts(s.jobs, JobsAfterProcess(s.jobs, p, SlotsOf(cfg, p), step));
    case OnLoop(p, i, act) => assert SameAttempts(s.jobs, JobsAfterLoop(s.jobs, LoopOf(s, p, i), OwnerOf(s, p, i), act));
  }

  lemma StartsCount(s: State, e: Event)
    requires Starts(e)
    ensures StartsAfter(s, e) == s.starts[ClaimedIn(e.act).value := Count(s.starts, ClaimedIn(e.act).value) + 1]
  {
  }

  lemma NextKeepsCounts(cfg: Config, s: State, e: Event)
    requires Ok(cfg, s) && Enabled(cfg, s, e)
    ensures CountsOk(Next(cfg, s, e))
  {
    hide *;
    if Starts(e) {
      StartKeepsCounts(cfg, s, e);
    } else if e.OnProcess? && e.step.Refund? {
      RefundKeepsCounts(cfg, s, e);
    } else {
      OtherKeepsCounts(cfg, s, e);
    }
  }

  lemma StartKeepsCounts(cfg: Config, s: State, e: Event)
    requires Ok(cfg, s) && Enabled(cfg, s, e) && Starts(e)
    ensures CountsOk(Next(cfg, s, e))
  {
    hide JobsAfter, Enabled, Eligible, RowsOk, ProcsOk, ProcsAfter, StartsAfter;
    StartIsClaim(cfg, s, e);
    StartsCount(s, e);
  }

  lemma RefundKeepsCounts(cfg: Config, s: State, e: Event)
    requires Ok(cfg, s) && Enabled(cfg, s, e) && e.OnProcess? && e.step.Refund?
    ensures CountsOk(Next(cfg, s, e))
  {
    hide HeldBy, ProcsAfter, RowsOk, ReleasedRow, ProcsOk;
    var t := Next(cfg, s, e);
    assert t.jobs == Releasing(s.jobs, e.p, SlotsOf(cfg, e.p), true, e.step.now) && t.starts == s.starts;
    forall id | id in t.jobs ensures t.jobs[id].attempts == Count(t.starts, id) - Count(t.refunds, id) {
      RefundTakesOne(cfg, s.jobs, id, e.p, SlotsOf(cfg, e.p), e.step.now);
    }
  }

  /** A running job has an attempt to give back. */
  lemma RefundTakesOne(cfg: Config, t: Table, id: JobId, p: string, slots: nat, now: int)
    requires RowsOk(cfg, t) && id in t
    ensures ReleasedRow(t[id], p, slots, true, now).attempts == t[id].attempts - (if HeldBy(t[id], p, slots) then 1 else 0)
  {
    hide LikePattern.ReleaseMatches;
    assert RowOk(cfg, t[id]);
  }

  lemma OtherKeepsCounts(cfg: Config, s: State, e: Event)
    requires Ok(cfg, s) && Enabled(cfg, s, e) && !Starts(e) && !(e.OnProcess? && e.step.Refund?)
    ensures CountsOk(Next(cfg, s, e))
  {
    hide JobsAfter, Enabled, RowsOk, ProcsAfter, ProcsOk;
    if Inserts(e) {
      InsertIsNewRow(cfg, s, e);
    } else {
      OthersKeepAttempts(cfg, s, e);
      KeptKeys(cfg, s, e);
    }
  }

  /** A step that starts, adds and refunds nothing counts exactly the rows that are left. */
  lemma KeptKeys(cfg: Config, s: State, e: Event)
    requires Enabled(cfg, s, e) && !Starts(e) && !Inserts(e) && !(e.OnProcess? && e.step.Refund?)
    ensures s.starts.Keys <= s.jobs.Keys ==> StartsAfter(s, e).Keys <= JobsAfter(cfg, s, e).Keys
    ensures s.refunds.Keys <= s.jobs.Keys ==> RefundsAfter(cfg, s, e).Keys <= JobsAfter(cfg, s, e).Keys
    ensures forall id :: id in JobsAfter(cfg, s, e) ==>
      Count(StartsAfter(s, e), id) == Count(s.starts, id) && Count(RefundsAfter(cfg, s, e), id) == Count(s.refunds, id)
  {
    hide HeldBy, Stale, IsFirst, Eligible, ClaimAnswers;
    match e
    case OnTable(t) => assert t.Delete? ==> JobsAfter(cfg, s, e) == s.jobs - t.ids;
    case OnProcess(p, step) => assert JobsAfterProcess(s.jobs, p, SlotsOf(cfg, p), step).Keys == s.jobs.Keys;
    case OnLoop(p, i, act) => assert JobsAfterLoop(s.jobs, LoopOf(s, p, i), OwnerOf(s, p, i), act).Keys == s.jobs.Keys;
  }

  lemma NextKeepsOk(cfg: Config, s: State, e: Event)
    requires Ok(cfg, s) && Enabled(cfg, s, e)
    ensures Ok(cfg, Next(cfg, s, e))
  {
    NextKeepsRows(cfg, s, e);
    NextKeepsProcs(cfg, s, e);
    NextKeepsCounts(cfg, s, e);
    hide RowsOk, ProcsOk, CountsOk, JobsAfter, ProcsAfter;
  }

  lemma InitialOk(cfg: Config)
    ensures Ok(cfg, Initial(cfg))
  {
  }

  lemma {:induction false} RunKeepsOk(cfg: Config, s: State, es: seq<Event>)
    requires Ok(cfg, s) && Feasible(cfg, s, es)
    ensures Ok(cfg, Run(cfg, s, es))
    decreases |es|
  {
    hide Ok, Next, Enabled;
    if es != [] {
      NextKeepsOk(cfg, s, es[0]);
      RunKeepsOk(cfg, Next(cfg, s, es[0]), es[1..]);
    }
  }

  /** Over every run, with any faults: each job's attempts are its starts less its refunds. */
  lemma AttemptsAreStartsLessRefunds(cfg: Config, es: seq<Event>, id: JobId)
    requires Feasible(cfg, Initial(cfg), es) && id in Run(cfg, Initial(cfg), es).jobs
    ensures var s := Run(cfg, Initial(cfg), es);
      s.jobs[id].attempts == Count(s.starts, id) - Count(s.refunds, id)
  {
    InitialOk(cfg);
    hide Feasible, Run, RowsOk, ProcsOk;
    RunKeepsOk(cfg, Initial(cfg), es);
  }

  // ------------------------------------------------------------------ caps

  ghost predicate CapsOk(cfg: Config, t: Table) {
    && |HeavyRunning(t)| <= cfg.caps.maxHeavy
    && forall st :: |ReadsOn(t, st)| <= cfg.caps.perStorage
  }

  lemma SubsetSize<T>(a: set<T>, b: set<T>)
    requires a <= b
    ensures |a| <= |b|
    decreases |b|
  {
    if a != {} {
      var x :| x in a;
      SubsetSize(a - {x}, b - {x});
    }
  }

  lemma RowStepsKeepCaps(cfg: Config, t: Table, u: Table)
    requires CapsOk(cfg, t) && TableStep(t, u)
    ensures CapsOk(cfg, u)
  {
    assert forall id :: id in u && u[id].status.Running? ==> RowStep(t[id], u[id]);
    SubsetSize(HeavyRunning(u), HeavyRunning(t));
    forall st ensures |ReadsOn(u, st)| <= cfg.caps.perStorage {
      SubsetSize(ReadsOn(u, st), ReadsOn(t, st));
    }
  }

  /** A claim passes the gates of its weight and its storage, so the row it starts still fits. */
  lemma ClaimKeepsCaps(cfg: Config, t: Table, id: JobId, lane: Lane, now: int, owner: Owner, at: int)
    requires CapsOk(cfg, t) && Eligible(t, id, lane, cfg.caps, now)
    ensures CapsOk(cfg, t[id := Claimed(t[id], owner, at)])
  {
    var u := t[id := Claimed(t[id], owner, at)];
    if t[id].weight == 2 {
      assert HeavyRunning(u) == HeavyRunning(t) + {id};
    } else {
      assert HeavyRunning(u) == HeavyRunning(t);
    }
    forall st ensures |ReadsOn(u, st)| <= cfg.caps.perStorage {
      ClaimKeepsReads(t, id, owner, at, st);
    }
  }

  lemma ClaimKeepsReads(t: Table, id: JobId, owner: Owner, at: int, st: string)
    requires id in t
    ensures var u := t[id := Claimed(t[id], owner, at)];
      if t[id].storage == Some(st) then |ReadsOn(u, st)| <= |ReadsOn(t, st)| + 1 else |ReadsOn(u, st)| == |ReadsOn(t, st)|
  {
    var u := t[id := Claimed(t[id], owner, at)];
    if t[id].storage == Some(st) {
      assert ReadsOn(u, st) == ReadsOn(t, st) + {id};
    } else {
      assert ReadsOn(u, st) == ReadsOn(t, st);
    }
  }

  lemma NewRowKeepsCaps(cfg: Config, t: Table, u: Table, id: JobId)
    requires CapsOk(cfg, t) && IsNewRow(t, u, id)
    ensures CapsOk(cfg, u)
  {
    assert HeavyRunning(u) == HeavyRunning(t);
    forall st ensures |ReadsOn(u, st)| <= cfg.caps.perStorage {
      assert ReadsOn(u, st) == ReadsOn(t, st);
    }
  }

  lemma NextKeepsCaps(cfg: Config, s: State, e: Event)
    requires CapsOk(cfg, s.jobs) && Enabled(cfg, s, e)
    ensures CapsOk(cfg, Next(cfg, s, e).jobs)
  {
    hide CapsOk, JobsAfter, Enabled, Eligible, IsNewRow, TableStep, ProcsAfter, RefundsAfter, StartsAfter;
    if Starts(e) {
      StartIsClaim(cfg, s, e);
      ClaimKeepsCaps(cfg, s.jobs, ClaimedIn(e.act).value, cfg.profiles[e.p].lane, ClaimTime(e.act), OwnerOf(s, e.p, e.i), ClaimTime(e.act));
    } else if Inserts(e) {
      InsertIsNewRow(cfg, s, e);
      if JobsAfter(cfg, s, e) != s.jobs { NewRowKeepsCaps(cfg, s.jobs, JobsAfter(cfg, s, e), e.t.id); }
    } else {
      OthersAreRowSteps(cfg, s, e);
      RowStepsKeepCaps(cfg, s.jobs, JobsAfter(cfg, s, e));
    }
  }

  lemma {:induction false} RunKeepsCaps(cfg: Config, s: State, es: seq<Event>)
    requires CapsOk(cfg, s.jobs) && Feasible(cfg, s, es)
    ensures CapsOk(cfg, Run(cfg, s, es).jobs)
    decreases |es|
  {
    hide CapsOk, Next, Enabled;
    if es != [] {
      NextKeepsCaps(cfg, s, es[0]);
      RunKeepsCaps(cfg, Next(cfg, s, es[0]), es[1..]);
    }
  }

  /**
   * In every reachable state, whatever fails: at most maxHeavy jobs of weight 2 run, and at most perStorage jobs read
   * from any one storage.
   */
  lemma CapsHold(cfg: Config, es: seq<Event>)
    requires Feasible(cfg, Initial(cfg), es)
    ensures CapsOk(cfg, Run(cfg, Initial(cfg), es).jobs)
  {
    assert HeavyRunning(map[]) == {};
    assert forall st :: ReadsOn(map[], st) == {};
    RunKeepsCaps(cfg, Initial(cfg), es);
  }

  // ------------------------------------------------------------------ one cleanup at a time

  function Cleanups(t: Table): set<JobId> {
    set id | id in t && t[id].kind.MetadataCleanup? && Active(t[id])
  }

  lemma NextKeepsCleanups(cfg: Config, s: State, e: Event)
    requires |Cleanups(s.jobs)| <= 1 && Enabled(cfg, s, e)
    ensures |Cleanups(Next(cfg, s, e).jobs)| <= 1
  {
    var t, u := s.jobs, JobsAfter(cfg, s, e);
    if Starts(e) {
      StartIsClaim(cfg, s, e);
      hide JobsAfter, Enabled, Eligible;
      assert Cleanups(u) == Cleanups(t);
    } else if Inserts(e) {
      InsertIsNewRow(cfg, s, e);
      if e.t.Schedule? {
        assert CleanupActive(t) <==> Cleanups(t) != {} by {
          if CleanupActive(t) { var id :| id in t && t[id].kind.MetadataCleanup? && Active(t[id]); assert id in Cleanups(t); }
        }
        if u != t { assert Cleanups(u) == {e.t.id}; }
      } else {
        assert Cleanups(u) == Cleanups(t);
      }
    } else {
      OthersAreRowSteps(cfg, s, e);
      hide JobsAfter, Enabled;
      assert forall id :: id in u ==> RowStep(t[id], u[id]);
      SubsetSize(Cleanups(u), Cleanups(t));
    }
  }

  /** In every run, however many workers schedule it at once: at most one METADATA_CLEANUP is queued or running. */
  lemma {:induction false} OneCleanup(cfg: Config, s: State, es: seq<Event>)
    requires |Cleanups(s.jobs)| <= 1 && Feasible(cfg, s, es)
    ensures |Cleanups(Run(cfg, s, es).jobs)| <= 1
    decreases |es|
  {
    hide Next, Enabled;
    if es != [] {
      NextKeepsCleanups(cfg, s, es[0]);
      OneCleanup(cfg, Next(cfg, s, es[0]), es[1..]);
    }
  }

  // ------------------------------------------------------------------ finished jobs

  predicate IsFinished(j: Job) {
    j.status.Completed? || j.status.Failed?
  }

  predicate Dismisses(e: Event) {
    e.OnTable? && e.t.Dismiss?
  }

  predicate Dismissed(es: seq<Event>) {
    exists i :: 0 <= i < |es| && Dismisses(es[i])
  }

  /** What a finished row is later: the same but for its heartbeat, and COMPLETED once failures were dismissed. */
  predicate StaysFinished(a: Job, b: Job, dismissed: bool) {
    b.(heartbeatAt := a.heartbeatAt) == if dismissed then DismissedRow(a) else a
  }

  /** The step deletes the row, or adds one under its id. Ids are random, so the latter does not happen to a used one. */
  predicate Removes(e: Event, id: JobId) {
    e.OnTable? && e.t.Delete? && id in e.t.ids
  }

  predicate Removed(es: seq<Event>, id: JobId) {
    exists i :: 0 <= i < |es| && Removes(es[i], id)
  }

  predicate Adds(e: Event, id: JobId) {
    Inserts(e) && e.t.id == id
  }

  predicate Added(es: seq<Event>, id: JobId) {
    exists i :: 0 <= i < |es| && Adds(es[i], id)
  }

  lemma NextKeepsFinished(cfg: Config, s: State, e: Event, id: JobId)
    requires Enabled(cfg, s, e) && id in s.jobs && IsFinished(s.jobs[id])
    ensures id in JobsAfter(cfg, s, e) <==> !Removes(e, id)
    ensures id in JobsAfter(cfg, s, e) ==> StaysFinished(s.jobs[id], JobsAfter(cfg, s, e)[id], Dismisses(e))
  {
    if Starts(e) {
      StartIsClaim(cfg, s, e);
      hide JobsAfter, Enabled, Eligible;
    } else if Inserts(e) {
      InsertIsNewRow(cfg, s, e);
      hide JobsAfter, Enabled;
    } else {
      hide HeldBy, Stale, IsFirst, Eligible, ClaimAnswers, RetryDelay, Less;
      match e
      case OnTable(t) => assert id in JobsAfterTable(s.jobs, t) ==> StaysFinished(s.jobs[id], JobsAfterTable(s.jobs, t)[id], Dismisses(e));
      case OnProcess(p, step) => assert JobsAfterProcess(s.jobs, p, SlotsOf(cfg, p), step)[id] == s.jobs[id];
      case OnLoop(p, i, act) => assert JobsAfterLoop(s.jobs, LoopOf(s, p, i), OwnerOf(s, p, i), act)[id] == s.jobs[id];
    }
  }

  /** No step brings back a row that was deleted, unless it adds a new one under its id. */
  lemma NextKeepsAbsent(cfg: Config, s: State, e: Event, id: JobId)
    requires Enabled(cfg, s, e) && id !in s.jobs && !Adds(e, id)
    ensures id !in JobsAfter(cfg, s, e)
  {
    if Starts(e) {
      StartIsClaim(cfg, s, e);
      hide JobsAfter, Enabled, Eligible;
    } else if Inserts(e) {
      InsertIsNewRow(cfg, s, e);
      hide JobsAfter, Enabled;
    } else {
      OthersAreRowSteps(cfg, s, e);
      hide JobsAfter, Enabled;
    }
  }

  lemma {:induction false} AbsentForever(cfg: Config, s: State, es: seq<Event>, id: JobId)
    requires Feasible(cfg, s, es) && id !in s.jobs && !Added(es, id)
    ensures id !in Run(cfg, s, es).jobs
    decreases |es|
  {
    if es != [] {
      hide Enabled, JobsAfter, ProcsAfter, StartsAfter, RefundsAfter, Adds;
      assert !Adds(es[0], id);
      NextKeepsAbsent(cfg, s, es[0], id);
      forall i | 0 <= i < |es[1..]| ensures !Adds(es[1..][i], id) { assert es[1..][i] == es[i + 1]; }
      AbsentForever(cfg, Next(cfg, s, es[0]), es[1..], id);
    }
  }

  /**
   * Once a job is COMPLETED it stays exactly so in every continuation, but for a late heartbeat. Once it is FAILED it does
   * too, unless the continuation dismisses failures: then, and only then, it ends as COMPLETED. Both hold as long as the
   * continuation does not delete the row; if it does, the row is gone for good.
   */
  lemma {:induction false} FinishedForever(cfg: Config, s: State, es: seq<Event>, id: JobId)
    requires Feasible(cfg, s, es) && id in s.jobs && IsFinished(s.jobs[id])
    ensures !Removed(es, id)
            ==> id in Run(cfg, s, es).jobs && StaysFinished(s.jobs[id], Run(cfg, s, es).jobs[id], Dismissed(es))
    ensures Removed(es, id) && !Added(es, id) ==> id !in Run(cfg, s, es).jobs
    decreases |es|
  {
    if es != [] {
      var t := Next(cfg, s, es[0]);
      hide Enabled, JobsAfter, ProcsAfter, StartsAfter, RefundsAfter, Dismisses, Dismissed, Removes, Removed, Adds, Added;
      NextKeepsFinished(cfg, s, es[0], id);
      FirstOrLater(es, id);
      if Removes(es[0], id) {
        if !Added(es, id) { AbsentForever(cfg, t, es[1..], id); }
      } else {
        FinishedForever(cfg, t, es[1..], id);
      }
    } else {
      hide Dismisses, Removes, Adds;
    }
  }

  /** What a run does, its first step does or the rest. */
  lemma FirstOrLater(es: seq<Event>, id: JobId)
    requires es != []
    ensures Dismissed(es) <==> Dismisses(es[0]) || Dismissed(es[1..])
    ensures Removed(es, id) <==> Removes(es[0], id) || Removed(es[1..], id)
    ensures Added(es, id) <==> Adds(es[0], id) || Added(es[1..], id)
  {
    hide Dismisses, Removes, Adds;
    assert forall i :: 0 <= i < |es[1..]| ==> es[1..][i] == es[i + 1];
    assert forall i :: 0 < i < |es| ==> es[i] == es[1..][i - 1];
  }
}
