/**
 * The tables that workers update in place: jobs, and the uploads, sources and derived tables whose status recovery
 * repairs (src/worker/index.ts). Each method runs statements of the program on them, one after the other.
 */
module JobTable {
  import opened Wrappers
  import opened JobQueue
  import LikePattern

  /** A record whose status says that a job is at work on it: an upload, a dataset source, a derived table. */
  datatype Work = Idle | Busy | Broken

  type RecordId = string

  /** What a job's payload names. */
  datatype Payload = Payload(upload: Option<RecordId>, source: Option<RecordId>, derived: Option<RecordId>)

  class Jobs {
    var jobs: Table
    var payload: map<JobId, Payload>
    var uploads: map<RecordId, Work> // Busy is IMPORTING
    var sources: map<RecordId, Work> // Busy is 'running'
    var derived: map<RecordId, Work>

    constructor (jobs: Table, payload: map<JobId, Payload>, uploads: map<RecordId, Work>, sources: map<RecordId, Work>,
                 derived: map<RecordId, Work>)
      ensures this.jobs == jobs && this.payload == payload
      ensures this.uploads == uploads && this.sources == sources && this.derived == derived
    {
      this.jobs, this.payload, this.uploads, this.sources, this.derived := jobs, payload, uploads, sources, derived;
    }

    /**
     * claim: the least eligible row by weight and then by age, or nothing when no row is eligible. It walks the table
     * and keeps the best row so far.
     */
    method FindFirst(lane: Lane, caps: Caps, now: int) returns (best: Option<JobId>)
      ensures best.None? ==> forall id :: !Eligible(jobs, id, lane, caps, now)
      ensures best.Some? ==> IsFirst(jobs, best.value, lane, caps, now)
      // the WHERE clause and the order, written out
      ensures forall id :: id in jobs ==>
        (Eligible(jobs, id, lane, caps, now) <==>
         && jobs[id].status == Queued && jobs[id].availableAt <= now
         && (lane.types == {} || jobs[id].kind in lane.types) && (lane.weights == {} || jobs[id].weight in lane.weights)
         && (jobs[id].weight < 2 || |set k | k in jobs && jobs[k].status == Running && jobs[k].weight == 2| < caps.maxHeavy)
         && (jobs[id].storage.None?
             || |set k | k in jobs && jobs[k].status == Running && jobs[k].storage == jobs[id].storage| < caps.perStorage))
      ensures best.Some? ==> best.value in jobs && forall id :: id in jobs && Eligible(jobs, id, lane, caps, now) ==>
        && jobs[best.value].weight <= jobs[id].weight
        && (jobs[best.value].weight == jobs[id].weight ==> jobs[best.value].availableAt <= jobs[id].availableAt)
    {
      EligibleInFull(lane, caps, now);
      best := None;
      var todo := jobs.Keys;
      hide Eligible;
      while todo != {}
        invariant todo <= jobs.Keys
        invariant best.None? ==> forall id :: id in jobs && id !in todo ==> !Eligible(jobs, id, lane, caps, now)
        invariant best.Some? ==> best.value in jobs && Eligible(jobs, best.value, lane, caps, now)
        invariant best.Some? ==> forall id ::
          id in jobs && id !in todo && Eligible(jobs, id, lane, caps, now) ==> NotAfter(jobs[best.value], jobs[id])
        decreases todo
      {
        var id :| id in todo;
        if Eligible(jobs, id, lane, caps, now) && (best.None? || !NotAfter(jobs[best.value], jobs[id])) { best := Some(id); }
        todo := todo - {id};
      }
      EligibleIsRow(lane, caps, now);
    }

    lemma EligibleInFull(lane: Lane, caps: Caps, now: int)
      ensures forall id :: id in jobs ==>
        (Eligible(jobs, id, lane, caps, now) <==>
         && jobs[id].status == Queued && jobs[id].availableAt <= now
         && (lane.types == {} || jobs[id].kind in lane.types) && (lane.weights == {} || jobs[id].weight in lane.weights)
         && (jobs[id].weight < 2 || |set k | k in jobs && jobs[k].status == Running && jobs[k].weight == 2| < caps.maxHeavy)
         && (jobs[id].storage.None?
             || |set k | k in jobs && jobs[k].status == Running && jobs[k].storage == jobs[id].storage| < caps.perStorage))
    {
      assert HeavyRunning(jobs) == set k | k in jobs && jobs[k].status == Running && jobs[k].weight == 2;
      forall st: string ensures ReadsOn(jobs, st) == set k | k in jobs && jobs[k].status == Running && jobs[k].storage == Some(st) {}
    }

    lemma EligibleIsRow(lane: Lane, caps: Caps, now: int)
      ensures forall id :: Eligible(jobs, id, lane, caps, now) ==> id in jobs
    {
    }

    method Claim(owner: Owner, lane: Lane, caps: Caps, now: int) returns (id: Option<JobId>)
      modifies `jobs
      ensures id.None? ==> jobs == old(jobs) && forall k :: !Eligible(old(jobs), k, lane, caps, now)
      ensures id.Some?
              ==> IsFirst(old(jobs), id.value, lane, caps, now) && jobs == old(jobs)[id.value := Claimed(old(jobs)[id.value], owner, now)]
      ensures id.Some? ==> id.value in old(jobs) && id.value in jobs
                           && jobs[id.value] == old(jobs)[id.value].(status := Running, lockedBy := Some(owner), heartbeatAt := Some(now),
                                                                     attempts := old(jobs)[id.value].attempts + 1)
    {
      id := FindFirst(lane, caps, now);
      if id.Some? { jobs := jobs[id.value := Claimed(jobs[id.value], owner, now)]; }
    }

    method Complete(id: JobId) returns (count: nat)
      modifies `jobs
      ensures jobs == Completing(old(jobs), id)
      ensures count == if id in old(jobs) && old(jobs)[id].status.Running? then 1 else 0
      ensures jobs == if id in old(jobs) && old(jobs)[id].status == Running
                      then old(jobs)[id := old(jobs)[id].(status := Completed, lockedBy := None, heartbeatAt := None)] else old(jobs)
    {
      count := 0;
      if id in jobs && jobs[id].status.Running? {
        jobs := jobs[id := jobs[id].(status := Completed, lockedBy := None, heartbeatAt := None)];
        count := 1;
      } else {
        SameRow(jobs, id);
      }
    }

    lemma SameRow(t: Table, id: JobId)
      requires id in t ==> !t[id].status.Running?
      ensures Completing(t, id) == t && forall a, r, now :: Failing(t, id, a, r, now) == t
    {
      if id in t { assert t[id := t[id]] == t; }
    }

    /** fail, with the attempt and limit that this worker read at its claim. */
    method Fail(id: JobId, attempts: int, maxAttempts: int, nonRetryable: bool, now: int) returns (retry: bool)
      modifies `jobs
      ensures retry == Retries(attempts, maxAttempts, nonRetryable)
      ensures jobs == Failing(old(jobs), id, attempts, retry, now)
      ensures retry <==> attempts < maxAttempts && !nonRetryable
      ensures jobs == if id in old(jobs) && old(jobs)[id].status == Running
                      then old(jobs)[id := old(jobs)[id].(
                             status := if retry then Queued else Failed, lockedBy := None, heartbeatAt := None,
                             availableAt := now + if attempts * 30_000 <= 120_000 then attempts * 30_000 else 120_000)]
                      else old(jobs)
    {
      retry := attempts < maxAttempts && !nonRetryable;
      if id in jobs && jobs[id].status.Running? {
        var delay := if attempts * RETRY_STEP_MS < RETRY_MAX_MS then attempts * RETRY_STEP_MS else RETRY_MAX_MS;
        jobs := jobs[id := jobs[id].(status := if retry then Queued else Failed, availableAt := now + delay, lockedBy := None, heartbeatAt := None)];
      } else {
        SameRow(jobs, id);
      }
    }

    method Cancel(id: JobId)
      modifies `jobs
      ensures jobs == Cancelling(old(jobs), id)
      ensures jobs == if id in old(jobs) && (old(jobs)[id].status == Queued || old(jobs)[id].status == Running)
                      then old(jobs)[id := old(jobs)[id].(status := Failed)] else old(jobs)
    {
      if id in jobs && (jobs[id].status.Queued? || jobs[id].status.Running?) {
        jobs := jobs[id := jobs[id].(status := Failed)];
      } else if id in jobs {
        assert jobs[id := jobs[id]] == jobs;
      }
    }

    /** Dismisses every failure from view; returns how many there were. */
    method DismissFailed() returns (count: nat)
      modifies `jobs
      ensures jobs.Keys == old(jobs.Keys)
      ensures forall id :: id in jobs ==>
        jobs[id] == if old(jobs)[id].status.Failed? then old(jobs)[id].(status := Completed) else old(jobs)[id]
      ensures jobs == Dismissing(old(jobs)) && count == |set id | id in old(jobs) && jobs[id] != old(jobs)[id]|
    {
      ghost var before := jobs;
      var failed := set id | id in jobs && jobs[id].status.Failed?;
      jobs := map id | id in jobs :: if id in failed then jobs[id].(status := Completed) else jobs[id];
      count := |failed|;
      assert failed == set id | id in before && jobs[id] != before[id];
    }

    /** Deletes the jobs of what is deleted: of a table, a source, a group or a dataset, whatever the jobs' status. */
    method Delete(ids: set<JobId>) returns (count: nat)
      modifies `jobs
      ensures forall id :: id in jobs <==> id in old(jobs) && id !in ids
      ensures forall id :: id in jobs ==> jobs[id] == old(jobs)[id]
      ensures count == |old(jobs).Keys * ids|
    {
      count := |jobs.Keys * ids|;
      jobs := jobs - ids;
    }

    /**
     * releaseSelf. Rows not running under a label of this worker's slots stay as they are. After a crash those without
     * attempts left end and the others wait again; a clean stop lets all of them wait again and gives the attempt back.
     */
    method ReleaseSelf(name: string, concurrency: nat, refund: bool, now: int)
      modifies `jobs
      ensures jobs.Keys == old(jobs.Keys)
      ensures forall id :: id in jobs && !HeldBy(old(jobs)[id], name, concurrency) ==> jobs[id] == old(jobs)[id]
      ensures forall id :: id in jobs && HeldBy(old(jobs)[id], name, concurrency) ==>
        var j := old(jobs)[id];
        jobs[id] == if !refund && j.attempts >= j.maxAttempts
                    then Job(j.kind, Failed, j.weight, j.storage, j.attempts, j.maxAttempts, j.availableAt, None, None)
                    else Job(j.kind, Queued, j.weight, j.storage, if !refund then j.attempts else if j.attempts >= 1 then j.attempts - 1 else 0,
                             j.maxAttempts, now, None, None)
      ensures forall id :: id in jobs ==> !HeldBy(jobs[id], name, concurrency)
      ensures jobs == Releasing(if refund then old(jobs) else Exhausting(old(jobs), name, concurrency), name, concurrency, refund, now)
    {
      forall id | id in jobs ensures ReleaseRule(jobs[id], name, concurrency, refund, now) {
        ReleaseFollowsRule(jobs[id], name, concurrency, refund, now);
      }
      hide HeldBy, ExhaustedRow, ReleasedRow;
      if !refund { EndExhausted(name, concurrency); }
      RequeueHeld(name, concurrency, refund, now);
    }

    /** releaseSelf, first statement. */
    method EndExhausted(name: string, concurrency: nat)
      modifies `jobs
      ensures jobs == Exhausting(old(jobs), name, concurrency)
    {
      hide HeldBy;
      jobs := map id | id in jobs ::
        if HeldBy(jobs[id], name, concurrency) && jobs[id].attempts >= jobs[id].maxAttempts
        then jobs[id].(status := Failed, lockedBy := None, heartbeatAt := None) else jobs[id];
    }

    /** releaseSelf, second statement. */
    method RequeueHeld(name: string, concurrency: nat, refund: bool, now: int)
      modifies `jobs
      ensures jobs == Releasing(old(jobs), name, concurrency, refund, now)
    {
      hide HeldBy;
      jobs := map id | id in jobs ::
        if HeldBy(jobs[id], name, concurrency)
        then jobs[id].(status := Queued, lockedBy := None, heartbeatAt := None, availableAt := now,
                       attempts := if refund then Less(jobs[id].attempts) else jobs[id].attempts)
        else jobs[id];
    }

    /** What the two statements make of one row. */
    static predicate ReleaseRule(j: Job, name: string, concurrency: nat, refund: bool, now: int) {
      var r := ReleasedRow(if refund then j else ExhaustedRow(j, name, concurrency), name, concurrency, refund, now);
      && !HeldBy(r, name, concurrency)
      && if !HeldBy(j, name, concurrency) then r == j
         else r == if !refund && j.attempts >= j.maxAttempts
                   then Job(j.kind, Failed, j.weight, j.storage, j.attempts, j.maxAttempts, j.availableAt, None, None)
                   else Job(j.kind, Queued, j.weight, j.storage,
                            if !refund then j.attempts else if j.attempts >= 1 then j.attempts - 1 else 0, j.maxAttempts, now, None, None)
    }

    static lemma ReleaseFollowsRule(j: Job, name: string, concurrency: nat, refund: bool, now: int)
      ensures ReleaseRule(j, name, concurrency, refund, now)
    {
      hide LikePattern.ReleaseMatches;
    }

    method ScheduleCleanup(id: JobId, now: int) returns (inserted: nat)
      requires id !in jobs // gen_random_uuid()
      modifies `jobs
      ensures jobs == Scheduling(old(jobs), id, now) && inserted == if CleanupActive(old(jobs)) then 0 else 1
      ensures inserted == 0 <==>
        exists k :: k in old(jobs) && old(jobs)[k].kind == MetadataCleanup && (old(jobs)[k].status == Queued || old(jobs)[k].status == Running)
      ensures jobs == if inserted == 0 then old(jobs) else old(jobs)[id := Job(MetadataCleanup, Queued, 0, None, 0, 1, now, None, None)]
    {
      var active := false;
      var todo := jobs.Keys;
      while todo != {} && !active
        invariant todo <= jobs.Keys
        invariant active ==> CleanupActive(jobs)
        invariant !active ==> forall k :: k in jobs && k !in todo ==> !(jobs[k].kind.MetadataCleanup? && Active(jobs[k]))
        decreases todo
      {
        var k :| k in todo;
        active := jobs[k].kind.MetadataCleanup? && Active(jobs[k]);
        todo := todo - {k};
      }
      inserted := 0;
      if !active {
        jobs := jobs[id := NewJob(MetadataCleanup, 0, None, 1, now)];
        inserted := 1;
      }
    }

    // ---------------------------------------------------------------- recovery

    predicate UploadHasJob(t: Table, u: RecordId)
      reads `payload
    {
      exists id :: id in t && id in payload && payload[id].upload == Some(u) && !t[id].status.Failed?
    }

    predicate SourceHasJob(t: Table, s: RecordId)
      reads `payload
    {
      exists id :: id in t && id in payload && payload[id].source == Some(s) && t[id].kind.SourceRefresh? && Active(t[id])
    }

    predicate DerivedHasJob(t: Table, d: RecordId)
      reads `payload
    {
      exists id :: id in t && id in payload && payload[id].derived == Some(d) && t[id].kind.DerivedRefresh? && Active(t[id])
    }

    /** A record at work without a job that could finish the work is marked as broken. */
    static function Repaired(w: Work, hasJob: bool): Work {
      if w.Busy? && !hasJob then Broken else w
    }

    /**
     * recoverStale. Afterwards a job with a stale heartbeat runs no more: it ended or waits again, by its attempts. No
     * upload is IMPORTING without a job that is queued, running or completed, and no source or derived table is running
     * without an active job of its type; nothing else is touched.
     */
    method RecoverStale(now: int)
      modifies `jobs, `uploads, `sources, `derived
      ensures jobs == Recovering(Expiring(old(jobs), now), now)
      ensures forall id :: id in jobs ==> !Stale(jobs[id], now)
      ensures forall id :: id in jobs && old(jobs)[id].status.Running? && !Stale(old(jobs)[id], now) ==> jobs[id] == old(jobs)[id]
      ensures uploads.Keys == old(uploads.Keys) && forall u :: u in uploads ==> uploads[u] == Repaired(old(uploads)[u], UploadHasJob(jobs, u))
      ensures sources.Keys == old(sources.Keys) && forall s :: s in sources ==> sources[s] == Repaired(old(sources)[s], SourceHasJob(jobs, s))
      ensures derived.Keys == old(derived.Keys) && forall d :: d in derived ==> derived[d] == Repaired(old(derived)[d], DerivedHasJob(jobs, d))
      ensures forall u :: u in uploads && uploads[u].Busy? ==> UploadHasJob(jobs, u)
      ensures forall s :: s in sources && sources[s].Busy? ==> SourceHasJob(jobs, s)
      ensures forall d :: d in derived && derived[d].Busy? ==> DerivedHasJob(jobs, d)
    {
      hide UploadHasJob, SourceHasJob, DerivedHasJob, Stale, Recovering, Expiring, Repaired;
      RecoverJobs(now);
      RepairUploads();
      RepairSources();
      RepairDerived();
      RepairedHasJob();
    }

    lemma RepairedHasJob()
      ensures forall w, has :: Repaired(w, has).Busy? ==> has
    {
    }

    /** The statement on uploads: IMPORTING without a job that is queued, running or completed becomes FAILED. */
    method RepairUploads()
      modifies `uploads
      ensures uploads.Keys == old(uploads.Keys) && forall u :: u in uploads ==> uploads[u] == Repaired(old(uploads)[u], UploadHasJob(jobs, u))
      ensures forall u :: u in uploads ==>
        if old(uploads)[u] == Busy && (forall id :: id in jobs && id in payload && payload[id].upload == Some(u) ==> jobs[id].status == Failed)
        then uploads[u] == Broken else uploads[u] == old(uploads)[u]
    {
      uploads := map u | u in uploads :: Repaired(uploads[u], UploadHasJob(jobs, u));
    }

    /** The statement on dataset sources: running without a queued or running refresh becomes failed. */
    method RepairSources()
      modifies `sources
      ensures sources.Keys == old(sources.Keys) && forall s :: s in sources ==> sources[s] == Repaired(old(sources)[s], SourceHasJob(jobs, s))
      ensures forall s :: s in sources ==>
        if old(sources)[s] == Busy && forall id :: id in jobs && id in payload && payload[id].source == Some(s) ==>
          jobs[id].kind != SourceRefresh || jobs[id].status == Completed || jobs[id].status == Failed
        then sources[s] == Broken else sources[s] == old(sources)[s]
    {
      sources := map s | s in sources :: Repaired(sources[s], SourceHasJob(jobs, s));
    }

    /** The statement on derived tables, in the same way. */
    method RepairDerived()
      modifies `derived
      ensures derived.Keys == old(derived.Keys) && forall d :: d in derived ==> derived[d] == Repaired(old(derived)[d], DerivedHasJob(jobs, d))
      ensures forall d :: d in derived ==>
        if old(derived)[d] == Busy && forall id :: id in jobs && id in payload && payload[id].derived == Some(d) ==>
          jobs[id].kind != DerivedRefresh || jobs[id].status == Completed || jobs[id].status == Failed
        then derived[d] == Broken else derived[d] == old(derived)[d]
    {
      derived := map d | d in derived :: Repaired(derived[d], DerivedHasJob(jobs, d));
    }

    /** The two statements on jobs: stale jobs out of attempts end, the others wait again. */
    method RecoverJobs(now: int)
      modifies `jobs
      ensures jobs == Recovering(Expiring(old(jobs), now), now)
      ensures forall id :: id in jobs ==> !Stale(jobs[id], now)
      ensures forall id :: id in jobs && old(jobs)[id].status.Running? && !Stale(old(jobs)[id], now) ==> jobs[id] == old(jobs)[id]
      // which rows change, and how, in numbers
      ensures jobs.Keys == old(jobs.Keys)
      ensures forall id :: id in jobs ==>
        var j := old(jobs)[id];
        jobs[id] ==
          if j.status == Running && j.heartbeatAt.Some? && j.heartbeatAt.value < now - (if j.kind == ImportUpload then 5_400_000 else 120_000)
          then if j.attempts >= j.maxAttempts then j.(status := Failed, lockedBy := None, heartbeatAt := None)
               else j.(status := Queued, lockedBy := None, heartbeatAt := None, availableAt := now)
          else j
    {
      jobs := map id | id in jobs :: ExpiredRow(jobs[id], now);
      jobs := map id | id in jobs :: RecoveredRow(jobs[id], now);
    }
  }
}
