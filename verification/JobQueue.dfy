/**
 * The job table and the statements that workers run on it (src/worker/claim.ts, src/worker/index.ts). Each SQL statement
 * is one atomic step; the specification functions say what a statement does to all rows, the class runs it in place.
 */
module JobQueue {
  import opened Wrappers
  import LikePattern

  type JobId = string

  datatype JobType = PreviewUpload | ImportUpload | SourceRefresh | DerivedRefresh | MetadataCleanup | MigrateProject | MigrateDataset

  datatype Status = Queued | Running | Completed | Failed

  /** The weights that jobs of a type can have (src/server/worker/profiles.ts:18-28); 2 is heavy. */
  function WeightsOf(kind: JobType): set<int> {
    match kind
    case PreviewUpload => {0, 2}
    case ImportUpload => {1, 2}
    case SourceRefresh => {0, 2}
    case DerivedRefresh => {2}
    case MetadataCleanup => {0}
    case MigrateProject => {2}
    case MigrateDataset => {2}
  }

  /** Who locked a job: a slot of a profile's worker on a host. The column holds its label as text. */
  datatype Owner = Owner(name: string, slot: nat, host: string) {
    function Text(): string {
      LikePattern.Label(name, slot, host)
    }
  }

  datatype Job = Job(kind: JobType, status: Status, weight: int, storage: Option<string>, attempts: int, maxAttempts: int,
                     availableAt: int, lockedBy: Option<Owner>, heartbeatAt: Option<int>)

  type Table = map<JobId, Job>

  const STALE_MS := 120_000
  const IMPORT_STALE_MS := 5_400_000 // 90 minutes
  const RETRY_STEP_MS := 30_000
  const RETRY_MAX_MS := 120_000

  // ------------------------------------------------------------------ claim

  function RunningJobs(t: Table): set<JobId> {
    set id | id in t && t[id].status.Running?
  }

  /** Running jobs of weight 2. */
  function HeavyRunning(t: Table): set<JobId> {
    set id | id in t && t[id].status.Running? && t[id].weight == 2
  }

  /** Running jobs that read from a storage. */
  function ReadsOn(t: Table, storage: string): set<JobId> {
    set id | id in t && t[id].status.Running? && t[id].storage == Some(storage)
  }

  /** The types and weights a profile takes, and the global caps. An empty filter admits everything. */
  datatype Lane = Lane(types: set<JobType>, weights: set<int>)

  datatype Caps = Caps(maxHeavy: nat, perStorage: nat)

  predicate Admits(lane: Lane, j: Job) {
    (lane.types == {} || j.kind in lane.types) && (lane.weights == {} || j.weight in lane.weights)
  }

  predicate HeavyGate(t: Table, j: Job, caps: Caps) {
    j.weight < 2 || |HeavyRunning(t)| < caps.maxHeavy
  }

  predicate StorageGate(t: Table, j: Job, caps: Caps) {
    j.storage.None? || |ReadsOn(t, j.storage.value)| < caps.perStorage
  }

  /** The WHERE clause of claim. */
  predicate Eligible(t: Table, id: JobId, lane: Lane, caps: Caps, now: int) {
    && id in t && t[id].status.Queued? && t[id].availableAt <= now
    && Admits(lane, t[id]) && HeavyGate(t, t[id], caps) && StorageGate(t, t[id], caps)
  }

  /** ORDER BY weight, available_at. */
  predicate NotAfter(a: Job, b: Job) {
    a.weight < b.weight || (a.weight == b.weight && a.availableAt <= b.availableAt)
  }

  ghost predicate IsFirst(t: Table, id: JobId, lane: Lane, caps: Caps, now: int) {
    Eligible(t, id, lane, caps, now) && forall k :: Eligible(t, k, lane, caps, now) ==> NotAfter(t[id], t[k])
  }

  function Claimed(j: Job, owner: Owner, now: int): Job {
    j.(status := Running, lockedBy := Some(owner), heartbeatAt := Some(now), attempts := j.attempts + 1)
  }

  // ------------------------------------------------------------------ the other statements, row by row

  /** completeJob: only a row that is still RUNNING, whoever holds it. */
  function CompletedRow(j: Job): Job {
    if j.status.Running? then j.(status := Completed, lockedBy := None, heartbeatAt := None) else j
  }

  /** The attempt and limit a worker read when it claimed the job decide whether it is tried again. */
  predicate Retries(attempts: int, maxAttempts: int, nonRetryable: bool) {
    attempts < maxAttempts && !nonRetryable
  }

  function RetryDelay(attempts: int): int {
    if attempts * RETRY_STEP_MS < RETRY_MAX_MS then attempts * RETRY_STEP_MS else RETRY_MAX_MS
  }

  function FailedRow(j: Job, attempts: int, retry: bool, now: int): Job {
    if j.status.Running?
    then j.(status := if retry then Queued else Failed, availableAt := now + RetryDelay(attempts), lockedBy := None, heartbeatAt := None)
    else j
  }

  /** A heartbeat older than its type allows. A missing one is never older. */
  predicate Stale(j: Job, now: int) {
    j.status.Running? && j.heartbeatAt.Some? && j.heartbeatAt.value < now - (if j.kind.ImportUpload? then IMPORT_STALE_MS else STALE_MS)
  }

  function Ended(j: Job): Job {
    j.(status := Failed, lockedBy := None, heartbeatAt := None)
  }

  function Requeued(j: Job, now: int): Job {
    j.(status := Queued, lockedBy := None, heartbeatAt := None, availableAt := now)
  }

  /** recoverStale, first statement. */
  function ExpiredRow(j: Job, now: int): Job {
    if Stale(j, now) && j.attempts >= j.maxAttempts then Ended(j) else j
  }

  /** recoverStale, second statement. */
  function RecoveredRow(j: Job, now: int): Job {
    if Stale(j, now) && j.attempts < j.maxAttempts then Requeued(j, now) else j
  }

  /** A running job locked by a slot of the profile, by the text of its label. */
  predicate HeldBy(j: Job, name: string, concurrency: nat) {
    j.status.Running? && j.lockedBy.Some? && LikePattern.ReleaseMatches(name, concurrency, j.lockedBy.value.Text())
  }

  /** releaseSelf without refund, first statement. */
  function ExhaustedRow(j: Job, name: string, concurrency: nat): Job {
    if HeldBy(j, name, concurrency) && j.attempts >= j.maxAttempts then Ended(j) else j
  }

  /** releaseSelf, second statement; a clean stop gives the attempt back. */
  function ReleasedRow(j: Job, name: string, concurrency: nat, refund: bool, now: int): Job {
    if HeldBy(j, name, concurrency) then Requeued(j, now).(attempts := if refund then Less(j.attempts) else j.attempts) else j
  }

  /** GREATEST(attempts - 1, 0). */
  function Less(attempts: int): int {
    if attempts - 1 > 0 then attempts - 1 else 0
  }

  /** A cancellation ends a waiting or running job; it leaves the lock columns as they are. */
  function CancelledRow(j: Job): Job {
    if j.status.Queued? || j.status.Running? then j.(status := Failed) else j
  }

  /** Dismissing failures from view files them as completed. */
  function DismissedRow(j: Job): Job {
    if j.status.Failed? then j.(status := Completed) else j
  }

  function Beaten(j: Job, now: int): Job {
    j.(heartbeatAt := Some(now))
  }

  // ------------------------------------------------------------------ statements on the whole table

  function Completing(t: Table, id: JobId): Table {
    if id in t then t[id := CompletedRow(t[id])] else t
  }

  function Failing(t: Table, id: JobId, attempts: int, retry: bool, now: int): Table {
    if id in t then t[id := FailedRow(t[id], attempts, retry, now)] else t
  }

  function Expiring(t: Table, now: int): Table {
    map id | id in t :: ExpiredRow(t[id], now)
  }

  function Recovering(t: Table, now: int): Table {
    map id | id in t :: RecoveredRow(t[id], now)
  }

  function Exhausting(t: Table, name: string, concurrency: nat): Table {
    map id | id in t :: ExhaustedRow(t[id], name, concurrency)
  }

  function Releasing(t: Table, name: string, concurrency: nat, refund: bool, now: int): Table {
    map id | id in t :: ReleasedRow(t[id], name, concurrency, refund, now)
  }

  function Cancelling(t: Table, id: JobId): Table {
    if id in t then t[id := CancelledRow(t[id])] else t
  }

  function Dismissing(t: Table): Table {
    map id | id in t :: DismissedRow(t[id])
  }

  function Beating(t: Table, id: JobId, now: int): Table {
    if id in t then t[id := Beaten(t[id], now)] else t
  }

  /** A new row. */
  function NewJob(kind: JobType, weight: int, storage: Option<string>, maxAttempts: int, now: int): Job {
    Job(kind, Queued, weight, storage, 0, maxAttempts, now, None, None)
  }

  predicate Active(j: Job) {
    j.status.Queued? || j.status.Running?
  }

  predicate CleanupActive(t: Table) {
    exists id :: id in t && t[id].kind.MetadataCleanup? && Active(t[id])
  }

  /** INSERT ... WHERE NOT EXISTS an active cleanup. */
  function Scheduling(t: Table, id: JobId, now: int): Table {
    if CleanupActive(t) || id in t then t else t[id := NewJob(MetadataCleanup, 0, None, 1, now)]
  }

  // ------------------------------------------------------------------ what every statement does to a row

  /**
   * What any statement but a claim may do to a row: it keeps what the job is; a completed row keeps everything but its
   * heartbeat, and so does a failed one unless it is dismissed; nothing starts running, what runs on runs as it did, and what
   * waits on waits until the same time.
   */
  predicate RowStep(a: Job, b: Job) {
    && b.kind == a.kind && b.weight == a.weight && b.storage == a.storage && b.maxAttempts == a.maxAttempts
    && (a.status.Completed? ==> b.(heartbeatAt := a.heartbeatAt) == a)
    && (a.status.Failed? ==> b.(heartbeatAt := a.heartbeatAt) == a || b == DismissedRow(a))
    && (b.status.Running? ==> b.(heartbeatAt := a.heartbeatAt) == a)
    && (a.status.Queued? ==> !b.status.Completed?)
    && (b.status.Queued? ==> b.lockedBy.None? || b.(heartbeatAt := a.heartbeatAt) == a)
    && (a.status.Queued? && b.status.Queued? ==> b.availableAt == a.availableAt)
    && (b.attempts == a.attempts || (b.attempts == Less(a.attempts) && a.status.Running? && b.status.Queued?))
  }

  /** The same for a whole table, from which rows may also be deleted. */
  ghost predicate TableStep(t: Table, u: Table) {
    u.Keys <= t.Keys && forall id :: id in u ==> RowStep(t[id], u[id])
  }

  lemma StatementsAreRowSteps(j: Job, attempts: int, retry: bool, name: string, concurrency: nat, refund: bool,
                              now: int)
    ensures RowStep(j, j) && RowStep(j, CompletedRow(j)) && RowStep(j, FailedRow(j, attempts, retry, now))
    ensures RowStep(j, ExpiredRow(j, now)) && RowStep(j, RecoveredRow(j, now))
    ensures RowStep(j, ExhaustedRow(j, name, concurrency)) && RowStep(j, ReleasedRow(j, name, concurrency, refund, now))
    ensures RowStep(j, CancelledRow(j)) && RowStep(j, DismissedRow(j)) && RowStep(j, Beaten(j, now))
  {
    hide LikePattern.ReleaseMatches;
  }

  /** A finished job stays as it is: no statement of any worker, and no cancellation, changes anything of it. */
  lemma FinishedIsFrozen(t: Table, id: JobId, other: JobId, attempts: int, retry: bool, name: string, concurrency: nat,
                         refund: bool, lane: Lane, caps: Caps, now: int)
    requires id in t && (t[id].status.Completed? || t[id].status.Failed?)
    ensures !Eligible(t, id, lane, caps, now)
    ensures id in Completing(t, other) && Completing(t, other)[id] == t[id]
    ensures id in Failing(t, other, attempts, retry, now) && Failing(t, other, attempts, retry, now)[id] == t[id]
    ensures Expiring(t, now)[id] == t[id] && Recovering(t, now)[id] == t[id]
    ensures Exhausting(t, name, concurrency)[id] == t[id] && Releasing(t, name, concurrency, refund, now)[id] == t[id]
    ensures Cancelling(t, other)[id] == t[id]
  {
  }
}
