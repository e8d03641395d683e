/**
 * The worker processes and the job table they share (src/worker/index.ts). One step is one statement on the table or what
 * a process does between two awaits; steps of all processes interleave freely.
 */
module WorkerFleet {
  import opened Wrappers
  import opened JobQueue
  import LikePattern

  /** A profile: what its worker takes, and how many jobs at a time. */
  datatype Profile = Profile(lane: Lane, slots: nat)

  datatype Config = Config(profiles: map<string, Profile>, caps: Caps)

  /** One of the loops of a worker; a job comes with the attempt and limit read at its claim. */
  datatype Loop =
    | Waiting
    | Claiming
    | Working(id: JobId, attempts: int, maxAttempts: int)
    | Wrapping(id: JobId, attempts: int, maxAttempts: int)
    | Returned

  /** Booting and Clearing are the moments before the two statements with which a new worker releases its predecessor's jobs. */
  datatype Process =
    | Down
    | Booting
    | Clearing
    | Up(host: string, stopping: bool, draining: bool, loops: seq<Loop>)

  /** starts and refunds count, per job of the table, the claims that started it and the clean stops that gave an attempt back. */
  datatype State = State(jobs: Table, procs: map<string, Process>, starts: map<JobId, nat>, refunds: map<JobId, nat>)

  /** Statements that no worker slot runs: new jobs, cancellations, dismissals, deletions, heartbeats, and recoverStale's two. */
  datatype TableEvent =
    | Enqueue(id: JobId, kind: JobType, weight: int, storage: Option<string>, maxAttempts: int, now: int)
    | Schedule(id: JobId, now: int)
    | CancelJob(id: JobId)
    | Dismiss
    | Delete(ids: set<JobId>)
    | Heartbeat(id: JobId, now: int)
    | Expire(now: int)
    | Recover(now: int)

  datatype ProcessEvent =
    | Boot
    | ReleaseExhausted
    | ReleaseRest(host: string, draining: bool, now: int) // a drain request may have come in already
    | Drain
    | Terminate
    | Refund(now: int)
    | Crash
    | DrainExit

  datatype LoopEvent =
    | Guard
    | Claim(claimed: Option<JobId>, now: int)
    | ClaimFails
    | ClaimLost(lost: JobId, now: int) // the row was claimed but the answer never arrived
    | Complete
    | WrapUp
    | Fail(nonRetryable: bool, now: int)
    | FailThrows // the database was out of reach
    | Aborted // an import cancelled by the stop of its own worker

  datatype Event =
    | OnTable(t: TableEvent)
    | OnProcess(p: string, step: ProcessEvent)
    | OnLoop(p: string, i: nat, act: LoopEvent)

  function Initial(cfg: Config): State {
    State(map[], map p | p in cfg.profiles :: Down, map[], map[])
  }

  predicate CanClaim(w: Process)
    requires w.Up?
  {
    !w.stopping && !w.draining
  }

  /** The jobs in flight, as the process counts them. */
  function Inflight(loops: seq<Loop>): nat {
    if loops == [] then 0
    else Inflight(loops[..|loops| - 1]) + (if loops[|loops| - 1].Working? || loops[|loops| - 1].Wrapping? then 1 else 0)
  }

  /** What lets the recovery loop end: no new job may be claimed and none is in flight. */
  predicate Finished(w: Process)
    requires w.Up?
  {
    !CanClaim(w) && Inflight(w.loops) == 0
  }

  /** Loop i of profile p's worker exists; slot numbers start at 1. */
  predicate HasLoop(s: State, p: string, i: nat) {
    p in s.procs && s.procs[p].Up? && i < |s.procs[p].loops|
  }

  function LoopOf(s: State, p: string, i: nat): Loop
    requires HasLoop(s, p, i)
  {
    s.procs[p].loops[i]
  }

  function OwnerOf(s: State, p: string, i: nat): Owner
    requires HasLoop(s, p, i)
  {
    Owner(p, i + 1, s.procs[p].host)
  }

  function Count(m: map<JobId, nat>, id: JobId): nat {
    if id in m then m[id] else 0
  }

  /** Whether a loop has a claimed job in hand. */
  predicate Busy(l: Loop) {
    l.Working? || l.Wrapping?
  }

  predicate TableEnabled(s: State, e: TableEvent) {
    match e
    case Enqueue(id, kind, weight, storage, maxAttempts, _) =>
      && id !in s.jobs && maxAttempts >= 1 && !kind.MetadataCleanup?
      && weight in WeightsOf(kind) && (storage.Some? ==> kind.SourceRefresh?)
    case Schedule(id, _) => id !in s.jobs
    case _ => true
  }

  predicate ProcessEnabled(s: State, p: string, e: ProcessEvent) {
    && p in s.procs
    && match e
       case Boot => s.procs[p].Down?
       case ReleaseExhausted => s.procs[p].Booting?
       case ReleaseRest(_, _, _) => s.procs[p].Clearing?
       case Drain => s.procs[p].Up?
       case Terminate => s.procs[p].Up?
       case Refund(_) => s.procs[p].Up? && s.procs[p].stopping
       case Crash => true
       case DrainExit => s.procs[p].Up? && forall i :: 0 <= i < |s.procs[p].loops| ==> s.procs[p].loops[i].Returned?
  }

  ghost predicate LoopEnabled(cfg: Config, s: State, p: string, i: nat, e: LoopEvent) {
    && HasLoop(s, p, i) && p in cfg.profiles
    && match e
       case Guard => LoopOf(s, p, i).Waiting?
       case Claim(claimed, now) => LoopOf(s, p, i).Claiming? && ClaimAnswers(s.jobs, claimed, cfg.profiles[p].lane, cfg.caps, now)
       case ClaimFails => LoopOf(s, p, i).Claiming?
       case ClaimLost(lost, now) => LoopOf(s, p, i).Claiming? && IsFirst(s.jobs, lost, cfg.profiles[p].lane, cfg.caps, now)
       case Complete => LoopOf(s, p, i).Working?
       case WrapUp => LoopOf(s, p, i).Wrapping?
       case Fail(_, _) => Busy(LoopOf(s, p, i))
       case FailThrows => Busy(LoopOf(s, p, i))
       case Aborted => Busy(LoopOf(s, p, i)) && s.procs[p].stopping
  }

  /** claim answers with a least eligible row, or with nothing when there is none. */
  ghost predicate ClaimAnswers(t: Table, claimed: Option<JobId>, lane: Lane, caps: Caps, now: int) {
    match claimed
    case Some(id) => IsFirst(t, id, lane, caps, now)
    case None => forall id :: !Eligible(t, id, lane, caps, now)
  }

  ghost predicate Enabled(cfg: Config, s: State, e: Event) {
    match e
    case OnTable(t) => TableEnabled(s, t)
    case OnProcess(p, step) => ProcessEnabled(s, p, step)
    case OnLoop(p, i, act) => LoopEnabled(cfg, s, p, i, act)
  }

  // ------------------------------------------------------------------ what a step does to the jobs

  function SlotsOf(cfg: Config, p: string): nat {
    if p in cfg.profiles then cfg.profiles[p].slots else 0
  }

  function JobsAfterTable(jobs: Table, e: TableEvent): Table {
    match e
    case Enqueue(id, kind, weight, storage, maxAttempts, now) => jobs[id := NewJob(kind, weight, storage, maxAttempts, now)]
    case Schedule(id, now) => Scheduling(jobs, id, now)
    case CancelJob(id) => Cancelling(jobs, id)
    case Dismiss => Dismissing(jobs)
    case Delete(ids) => jobs - ids
    case Heartbeat(id, now) => Beating(jobs, id, now)
    case Expire(now) => Expiring(jobs, now)
    case Recover(now) => Recovering(jobs, now)
  }

  function JobsAfterProcess(jobs: Table, p: string, slots: nat, e: ProcessEvent): Table {
    match e
    case ReleaseExhausted => Exhausting(jobs, p, slots)
    case ReleaseRest(_, _, now) => Releasing(jobs, p, slots, false, now)
    case Refund(now) => Releasing(jobs, p, slots, true, now)
    case _ => jobs
  }

  /** The job that a step of a loop claims, if any. */
  function ClaimedIn(e: LoopEvent): Option<JobId> {
    match e
    case Claim(claimed, _) => claimed
    case ClaimLost(lost, _) => Some(lost)
    case _ => None
  }

  function ClaimTime(e: LoopEvent): int {
    match e
    case Claim(_, now) => now
    case ClaimLost(_, now) => now
    case _ => 0
  }

  function JobsAfterLoop(jobs: Table, l: Loop, owner: Owner, e: LoopEvent): Table {
    match ClaimedIn(e)
    case Some(id) => if id in jobs then jobs[id := Claimed(jobs[id], owner, ClaimTime(e))] else jobs
    case None =>
      if e.Complete? && Busy(l) then Completing(jobs, l.id)
      else if e.Fail? && Busy(l) then Failing(jobs, l.id, l.attempts, Retries(l.attempts, l.maxAttempts, e.nonRetryable), e.now)
      else jobs
  }

  function JobsAfter(cfg: Config, s: State, e: Event): Table
    requires Enabled(cfg, s, e)
  {
    match e
    case OnTable(t) => JobsAfterTable(s.jobs, t)
    case OnProcess(p, step) => JobsAfterProcess(s.jobs, p, SlotsOf(cfg, p), step)
    case OnLoop(p, i, act) => JobsAfterLoop(s.jobs, LoopOf(s, p, i), OwnerOf(s, p, i), act)
  }

  // ------------------------------------------------------------------ what a step does to the processes

  function LoopAfter(jobs: Table, canClaim: bool, l: Loop, e: LoopEvent): Loop {
    match e
    case Guard => if canClaim then Claiming else Returned
    case Claim(claimed, _) =>
      if claimed.None? || claimed.value !in jobs then Waiting
      else Working(claimed.value, jobs[claimed.value].attempts + 1, jobs[claimed.value].maxAttempts)
    case Complete => if Busy(l) then Wrapping(l.id, l.attempts, l.maxAttempts) else l
    case _ => Waiting
  }

  function ProcessAfter(w: Process, slots: nat, e: ProcessEvent): Process {
    match e
    case Boot => Booting
    case ReleaseExhausted => Clearing
    case ReleaseRest(host, draining, _) => Up(host, false, draining, seq(slots, _ => Waiting))
    case Drain => if w.Up? then w.(draining := true) else w
    case Terminate => if w.Up? then w.(stopping := true) else w
    case Refund(_) => w
    case Crash => Down
    case DrainExit => Down
  }

  function ProcsAfter(cfg: Config, s: State, e: Event): map<string, Process>
    requires Enabled(cfg, s, e)
  {
    match e
    case OnTable(_) => s.procs
    case OnProcess(p, step) => s.procs[p := ProcessAfter(s.procs[p], SlotsOf(cfg, p), step)]
    case OnLoop(p, i, act) =>
      var w := s.procs[p];
      s.procs[p := w.(loops := w.loops[i := LoopAfter(s.jobs, CanClaim(w), w.loops[i], act)])]
  }

  // ------------------------------------------------------------------ counting

  function StartsAfter(s: State, e: Event): map<JobId, nat> {
    match e
    case OnTable(Delete(ids)) => s.starts - ids
    case OnLoop(_, _, act) =>
      if ClaimedIn(act).None? then s.starts else s.starts[ClaimedIn(act).value := Count(s.starts, ClaimedIn(act).value) + 1]
    case _ => s.starts
  }

  function RefundsAfter(cfg: Config, s: State, e: Event): map<JobId, nat> {
    if e.OnProcess? && e.step.Refund?
    then map id | id in s.jobs :: Count(s.refunds, id) + (if HeldBy(s.jobs[id], e.p, SlotsOf(cfg, e.p)) then 1 else 0)
    else if e.OnTable? && e.t.Delete? then s.refunds - e.t.ids
    else s.refunds
  }

  function Next(cfg: Config, s: State, e: Event): State
    requires Enabled(cfg, s, e)
  {
    State(JobsAfter(cfg, s, e), ProcsAfter(cfg, s, e), StartsAfter(s, e), RefundsAfter(cfg, s, e))
  }

  ghost predicate Feasible(cfg: Config, s: State, es: seq<Event>)
    decreases |es|
  {
    es == [] || (Enabled(cfg, s, es[0]) && Feasible(cfg, Next(cfg, s, es[0]), es[1..]))
  }

  function Run(cfg: Config, s: State, es: seq<Event>): State
    requires Feasible(cfg, s, es)
    decreases |es|
  {
    if es == [] then s else Run(cfg, Next(cfg, s, es[0]), es[1..])
  }

  ghost predicate Reachable(cfg: Config, s: State) {
    exists es :: Feasible(cfg, Initial(cfg), es) && Run(cfg, Initial(cfg), es) == s
  }

  lemma {:induction false} RunAppend(cfg: Config, s: State, es: seq<Event>, e: Event)
    requires Feasible(cfg, s, es) && Enabled(cfg, Run(cfg, s, es), e)
    ensures Feasible(cfg, s, es + [e]) && Run(cfg, s, es + [e]) == Next(cfg, Run(cfg, s, es), e)
    decreases |es|
  {
    hide Enabled, Next;
    if es == [] {
      var t := Next(cfg, s, e);
      assert es + [e] == [e] && [e][1..] == [];
      assert Feasible(cfg, t, []) && Run(cfg, t, []) == t;
    } else {
      assert (es + [e])[1..] == es[1..] + [e] && (es + [e])[0] == es[0];
      RunAppend(cfg, Next(cfg, s, es[0]), es[1..], e);
    }
  }

  lemma RunThree(cfg: Config, s: State, a: Event, b: Event, c: Event)
    requires Enabled(cfg, s, a) && Enabled(cfg, Next(cfg, s, a), b) && Enabled(cfg, Next(cfg, Next(cfg, s, a), b), c)
    ensures Feasible(cfg, s, [a, b, c]) && Run(cfg, s, [a, b, c]) == Next(cfg, Next(cfg, Next(cfg, s, a), b), c)
  {
    hide Enabled, Next;
    assert Feasible(cfg, s, []) && Run(cfg, s, []) == s;
    RunAppend(cfg, s, [], a);
    assert [] + [a] == [a] && [a] + [b] == [a, b] && [a, b] + [c] == [a, b, c];
    RunAppend(cfg, s, [a], b);
    RunAppend(cfg, s, [a, b], c);
  }

  lemma InitialReachable(cfg: Config)
    ensures Reachable(cfg, Initial(cfg))
  {
    assert Feasible(cfg, Initial(cfg), []) && Run(cfg, Initial(cfg), []) == Initial(cfg);
  }

  lemma NextReachable(cfg: Config, s: State, e: Event)
    requires Reachable(cfg, s) && Enabled(cfg, s, e)
    ensures Reachable(cfg, Next(cfg, s, e))
  {
    hide Enabled, Next, Feasible, Run;
    var es :| Feasible(cfg, Initial(cfg), es) && Run(cfg, Initial(cfg), es) == s;
    RunAppend(cfg, Initial(cfg), es, e);
    assert Feasible(cfg, Initial(cfg), es + [e]);
  }

  lemma {:induction false} RunReachable(cfg: Config, s: State, es: seq<Event>)
    requires Reachable(cfg, s) && Feasible(cfg, s, es)
    ensures Reachable(cfg, Run(cfg, s, es))
    decreases |es|
  {
    hide Reachable, Enabled, Next;
    if es != [] {
      NextReachable(cfg, s, es[0]);
      RunReachable(cfg, Next(cfg, s, es[0]), es[1..]);
    }
  }

  predicate ConfigOk(cfg: Config) {
    forall p :: p in cfg.profiles ==> '@' !in p
  }

  // ------------------------------------------------------------------ kinds of steps on the table

  /** A table statement that adds no row is a row step, or deletes rows. */
  lemma TableEventsAreRowSteps(s: State, e: TableEvent)
    requires TableEnabled(s, e) && !e.Enqueue? && !e.Schedule?
    ensures TableStep(s.jobs, JobsAfterTable(s.jobs, e))
  {
    forall id | id in s.jobs
      ensures forall now :: RowStep(s.jobs[id], ExpiredRow(s.jobs[id], now)) && RowStep(s.jobs[id], RecoveredRow(s.jobs[id], now))
                         && RowStep(s.jobs[id], Beaten(s.jobs[id], now))
      ensures RowStep(s.jobs[id], s.jobs[id]) && RowStep(s.jobs[id], CancelledRow(s.jobs[id]))
      ensures RowStep(s.jobs[id], DismissedRow(s.jobs[id]))
    {
      forall now: int { StatementsAreRowSteps(s.jobs[id], 0, false, "", 0, false, now); }
      StatementsAreRowSteps(s.jobs[id], 0, false, "", 0, false, 0);
    }
    hide RowStep, ExpiredRow, RecoveredRow, CancelledRow, DismissedRow, Beaten;
  }

  lemma ProcessEventsAreRowSteps(jobs: Table, p: string, slots: nat, e: ProcessEvent)
    ensures TableStep(jobs, JobsAfterProcess(jobs, p, slots, e))
  {
    forall id | id in jobs
      ensures forall refund, now :: RowStep(jobs[id], ReleasedRow(jobs[id], p, slots, refund, now))
      ensures RowStep(jobs[id], jobs[id]) && RowStep(jobs[id], ExhaustedRow(jobs[id], p, slots))
    {
      forall refund: bool, now: int { StatementsAreRowSteps(jobs[id], 0, false, p, slots, refund, now); }
      StatementsAreRowSteps(jobs[id], 0, false, p, slots, false, 0);
    }
    hide RowStep, ReleasedRow, ExhaustedRow;
  }

  lemma LoopEventsAreRowSteps(jobs: Table, l: Loop, owner: Owner, e: LoopEvent)
    requires ClaimedIn(e).None?
    ensures TableStep(jobs, JobsAfterLoop(jobs, l, owner, e))
  {
    forall id | id in jobs
      ensures forall attempts, retry, now :: RowStep(jobs[id], FailedRow(jobs[id], attempts, retry, now))
      ensures RowStep(jobs[id], jobs[id]) && RowStep(jobs[id], CompletedRow(jobs[id]))
    {
      forall attempts: int, retry: bool, now: int { StatementsAreRowSteps(jobs[id], attempts, retry, "", 0, false, now); }
      StatementsAreRowSteps(jobs[id], 0, false, "", 0, false, 0);
    }
    hide RowStep, FailedRow, CompletedRow;
  }

  /** The step starts a job. */
  predicate Starts(e: Event) {
    e.OnLoop? && ClaimedIn(e.act).Some?
  }

  predicate Inserts(e: Event) {
    e.OnTable? && (e.t.Enqueue? || e.t.Schedule?)
  }

  /** Every step that neither starts nor adds a job only moves rows forward. */
  lemma OthersAreRowSteps(cfg: Config, s: State, e: Event)
    requires Enabled(cfg, s, e) && !Starts(e) && !Inserts(e)
    ensures TableStep(s.jobs, JobsAfter(cfg, s, e))
  {
    match e
    case OnTable(t) => TableEventsAreRowSteps(s, t);
    case OnProcess(p, step) => ProcessEventsAreRowSteps(s.jobs, p, SlotsOf(cfg, p), step);
    case OnLoop(p, i, act) => LoopEventsAreRowSteps(s.jobs, LoopOf(s, p, i), OwnerOf(s, p, i), act);
  }

  /** A start: the row was eligible, the loop was waiting for the answer, and the row now runs under its label. */
  lemma StartIsClaim(cfg: Config, s: State, e: Event)
    requires Enabled(cfg, s, e) && Starts(e)
    ensures var id := ClaimedIn(e.act).value;
      && HasLoop(s, e.p, e.i) && LoopOf(s, e.p, e.i).Claiming? && e.p in cfg.profiles
      && Eligible(s.jobs, id, cfg.profiles[e.p].lane, cfg.caps, ClaimTime(e.act)) && id in s.jobs && s.jobs[id].status.Queued?
      && Admits(cfg.profiles[e.p].lane, s.jobs[id])
      && JobsAfter(cfg, s, e) == s.jobs[id := Claimed(s.jobs[id], OwnerOf(s, e.p, e.i), ClaimTime(e.act))]
  {
  }

  /** An insertion leaves the table alone or adds one queued row. */
  predicate IsNewRow(t: Table, u: Table, id: JobId) {
    && id !in t && id in u && u == t[id := u[id]]
    && u[id].status.Queued? && u[id].attempts == 0 && u[id].maxAttempts >= 1 && u[id].lockedBy.None?
    && u[id].weight in WeightsOf(u[id].kind) && (u[id].storage.Some? ==> u[id].kind.SourceRefresh?)
  }

  lemma InsertIsNewRow(cfg: Config, s: State, e: Event)
    requires Enabled(cfg, s, e) && Inserts(e)
    ensures JobsAfter(cfg, s, e) == s.jobs || IsNewRow(s.jobs, JobsAfter(cfg, s, e), e.t.id)
  {
    hide CleanupActive;
    assert JobsAfter(cfg, s, e) == JobsAfterTable(s.jobs, e.t);
  }
}
