/**
 * Waiting and recovery over whole runs, in numbers: a job that failed is not started again before its wait is over, and a job
 * whose heartbeats arrive is not taken from its loop (src/worker/claim.ts:23, src/worker/index.ts:489, 583-606).
 */
module QueueTimes {
  import opened Wrappers
  import opened JobQueue
  import opened WorkerFleet
  import opened QueueSafety

  // ------------------------------------------------------------------ waiting

  predicate StartsJob(e: Event, id: JobId) {
    Starts(e) && ClaimedIn(e.act).value == id
  }

  predicate Started(es: seq<Event>, id: JobId) {
    exists i :: 0 <= i < |es| && StartsJob(es[i], id)
  }

  /** The row does not run, and if it waits it waits until `from`. */
  predicate WaitsUntil(t: Table, id: JobId, from: int) {
    id in t ==> !t[id].status.Running? && (t[id].status.Queued? ==> t[id].availableAt == from)
  }

  lemma NextWaits(cfg: Config, s: State, e: Event, id: JobId, from: int)
    requires Enabled(cfg, s, e) && WaitsUntil(s.jobs, id, from) && !StartsJob(e, id) && !Adds(e, id)
    ensures WaitsUntil(JobsAfter(cfg, s, e), id, from)
  {
    hide JobsAfter, Enabled, Eligible;
    if Starts(e) {
      StartIsClaim(cfg, s, e);
    } else if Inserts(e) {
      InsertIsNewRow(cfg, s, e);
    } else {
      OthersAreRowSteps(cfg, s, e);
      if id in JobsAfter(cfg, s, e) { assert RowStep(s.jobs[id], JobsAfter(cfg, s, e)[id]); }
    }
  }

  lemma {:induction false} RunWaits(cfg: Config, s: State, es: seq<Event>, id: JobId, from: int)
    requires Feasible(cfg, s, es) && WaitsUntil(s.jobs, id, from) && !Started(es, id) && !Added(es, id)
    ensures WaitsUntil(Run(cfg, s, es).jobs, id, from)
    decreases |es|
  {
    if es != [] {
      hide Enabled, JobsAfter, ProcsAfter, StartsAfter, RefundsAfter, Adds, StartsJob, WaitsUntil;
      assert !Adds(es[0], id) && !StartsJob(es[0], id);
      NextWaits(cfg, s, es[0], id, from);
      forall i | 0 <= i < |es[1..]| ensures !Adds(es[1..][i], id) && !StartsJob(es[1..][i], id) { assert es[1..][i] == es[i + 1]; }
      RunWaits(cfg, Next(cfg, s, es[0]), es[1..], id, from);
    }
  }

  /** No job is started before its time, by the clock reading that its row then carries as its heartbeat. */
  lemma StartIsLate(cfg: Config, s: State, e: Event, id: JobId)
    requires Enabled(cfg, s, e) && StartsJob(e, id)
    ensures id in s.jobs && s.jobs[id].status.Queued? && id in Next(cfg, s, e).jobs
    ensures Next(cfg, s, e).jobs[id].status.Running? && Next(cfg, s, e).jobs[id].heartbeatAt.Some?
            && Next(cfg, s, e).jobs[id].heartbeatAt.value >= s.jobs[id].availableAt
  {
    StartIsClaim(cfg, s, e);
    hide JobsAfter, Enabled, ProcsAfter, StartsAfter, RefundsAfter;
  }

  /** A loop reports the failure of its job, which still runs, and puts it back in line. */
  predicate FailsAndRetries(s: State, e: Event, id: JobId) {
    && e.OnLoop? && e.act.Fail? && HasLoop(s, e.p, e.i) && Busy(LoopOf(s, e.p, e.i))
    && var l := LoopOf(s, e.p, e.i);
       l.id == id && id in s.jobs && s.jobs[id].status.Running? && l.attempts < l.maxAttempts && !e.act.nonRetryable
  }

  lemma FailureWaits(cfg: Config, s: State, e: Event, id: JobId)
    requires Enabled(cfg, s, e) && FailsAndRetries(s, e, id)
    ensures var k := LoopOf(s, e.p, e.i).attempts;
      id in Next(cfg, s, e).jobs && Next(cfg, s, e).jobs[id].status.Queued?
      && Next(cfg, s, e).jobs[id].availableAt == e.act.now + if 30_000 * k <= 120_000 then 30_000 * k else 120_000
  {
  }

  /**
   * A failure of attempt k at time f puts the job back in line. Whatever happens then, the next start of the job, by any worker,
   * is at least 30 s times k, at most two minutes, after f: its row carries the time of the start as its heartbeat.
   */
  lemma RetryWaits(cfg: Config, s: State, fail: Event, es: seq<Event>, start: Event, id: JobId)
    requires Enabled(cfg, s, fail) && FailsAndRetries(s, fail, id)
    requires Feasible(cfg, Next(cfg, s, fail), es) && !Started(es, id) && !Added(es, id)
    requires Enabled(cfg, Run(cfg, Next(cfg, s, fail), es), start) && StartsJob(start, id)
    ensures var u := Next(cfg, Run(cfg, Next(cfg, s, fail), es), start);
      var k := LoopOf(s, fail.p, fail.i).attempts;
      && id in u.jobs && u.jobs[id].status.Running? && u.jobs[id].heartbeatAt.Some?
      && u.jobs[id].heartbeatAt.value >= fail.act.now + if 30_000 * k <= 120_000 then 30_000 * k else 120_000
  {
    hide Enabled, Next, Run, Feasible, Started, Added, StartsJob;
    FailureWaits(cfg, s, fail, id);
    var t := Next(cfg, s, fail);
    RunWaits(cfg, t, es, id, t.jobs[id].availableAt);
    StartIsLate(cfg, Run(cfg, t, es), start, id);
  }

  // ------------------------------------------------------------------ recovery

  /** How old a heartbeat may be: 90 minutes for an import, two minutes for any other job. */
  function Window(kind: JobType): int {
    if kind == ImportUpload then 5_400_000 else 120_000
  }

  predicate TooOld(j: Job, now: int) {
    j.status == Running && j.heartbeatAt.Some? && now - j.heartbeatAt.value > Window(j.kind)
  }

  /** Exactly the running rows whose heartbeat is too old change: those without attempts left end, the others wait again from now. */
  lemma RecoveryInNumbers(t: Table, id: JobId, now: int)
    requires id in t
    ensures id in Expiring(t, now) && id in Recovering(t, now)
    ensures TooOld(t[id], now) && t[id].attempts >= t[id].maxAttempts
            <==> Expiring(t, now)[id] != t[id]
    ensures TooOld(t[id], now) && t[id].attempts < t[id].maxAttempts
            <==> Recovering(t, now)[id] != t[id]
    ensures Expiring(t, now)[id] != t[id] ==>
      Expiring(t, now)[id] == t[id].(status := Failed, lockedBy := None, heartbeatAt := None)
    ensures Recovering(t, now)[id] != t[id] ==>
      Recovering(t, now)[id] == t[id].(status := Queued, lockedBy := None, heartbeatAt := None, availableAt := now)
  {
  }

  predicate IsRecovery(e: Event) {
    e.OnTable? && (e.t.Expire? || e.t.Recover?)
  }

  /** The row runs as it does in j, but for its heartbeat. */
  predicate RunsAs(t: Table, id: JobId, j: Job) {
    id in t && t[id].(heartbeatAt := j.heartbeatAt) == j && j.status == Running
  }

  /** Whenever recovery looks at the row while it runs, its last heartbeat is recent enough. */
  ghost predicate BeatsInTime(cfg: Config, s: State, es: seq<Event>, id: JobId)
    requires Feasible(cfg, s, es)
    decreases |es|
  {
    es == []
    || (&& (IsRecovery(es[0]) && id in s.jobs ==> !TooOld(s.jobs[id], es[0].t.now))
        && BeatsInTime(cfg, Next(cfg, s, es[0]), es[1..], id))
  }

  lemma RecoveryLeaves(cfg: Config, s: State, e: Event, id: JobId)
    requires Enabled(cfg, s, e) && IsRecovery(e) && id in s.jobs && !TooOld(s.jobs[id], e.t.now)
    ensures id in Next(cfg, s, e).jobs && Next(cfg, s, e).jobs[id] == s.jobs[id]
  {
    RecoveryInNumbers(s.jobs, id, e.t.now);
    hide Expiring, Recovering;
  }

  /** Step k of the run, which is not one of recovery, took the job from its loop. */
  ghost predicate TakenAt(cfg: Config, s: State, es: seq<Event>, k: nat, id: JobId, j: Job)
    requires Feasible(cfg, s, es)
  {
    && k < |es| && Feasible(cfg, s, es[..k]) && Enabled(cfg, Run(cfg, s, es[..k]), es[k])
    && RunsAs(Run(cfg, s, es[..k]).jobs, id, j) && !RunsAs(Next(cfg, Run(cfg, s, es[..k]), es[k]).jobs, id, j)
    && !IsRecovery(es[k])
  }

  /**
   * Over every run: a running job whose heartbeats arrive in time runs on under the same label, with the same attempts, or a
   * step other than recovery took it from its loop.
   */
  lemma {:induction false} RecoveryTakesNoLivingJob(cfg: Config, s: State, es: seq<Event>, id: JobId,
                                                    j: Job) returns (k: nat)
    requires Feasible(cfg, s, es) && RunsAs(s.jobs, id, j) && BeatsInTime(cfg, s, es, id)
    ensures RunsAs(Run(cfg, s, es).jobs, id, j) || TakenAt(cfg, s, es, k, id, j)
    decreases |es|
  {
    hide Enabled, Next, TooOld;
    k := 0;
    if es != [] {
      var t := Next(cfg, s, es[0]);
      assert es[..0] == [] && Run(cfg, s, es[..0]) == s;
      if IsRecovery(es[0]) {
        RunsOn(cfg, s, es[0], id, j);
      }
      if RunsAs(t.jobs, id, j) {
        var i := RecoveryTakesNoLivingJob(cfg, t, es[1..], id, j);
        k := i + 1;
        if !RunsAs(Run(cfg, s, es).jobs, id, j) { TakenLater(cfg, s, es, i, id, j); }
      }
    }
  }

  lemma RunsOn(cfg: Config, s: State, e: Event, id: JobId, j: Job)
    requires Enabled(cfg, s, e) && IsRecovery(e) && RunsAs(s.jobs, id, j) && !TooOld(s.jobs[id], e.t.now)
    ensures RunsAs(Next(cfg, s, e).jobs, id, j)
  {
    hide Enabled, Next, TooOld;
    RecoveryLeaves(cfg, s, e, id);
  }

  lemma TakenLater(cfg: Config, s: State, es: seq<Event>, i: nat, id: JobId, j: Job)
    requires Feasible(cfg, s, es) && es != [] && Enabled(cfg, s, es[0]) && Feasible(cfg, Next(cfg, s, es[0]), es[1..])
    requires TakenAt(cfg, Next(cfg, s, es[0]), es[1..], i, id, j)
    ensures TakenAt(cfg, s, es, i + 1, id, j)
  {
    hide Enabled, Next, RunsAs;
    assert es[..i + 1][1..] == es[1..][..i] && es[..i + 1][0] == es[0] && es[1..][i] == es[i + 1];
  }
}
