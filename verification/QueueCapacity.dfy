/** What the configured capacity allows (src/lib/worker-presets.ts:201-230): how much runs at once, and when heavy slots wait. */
module QueueCapacity {
  import opened Wrappers
  import opened JobQueue
  import opened WorkerFleet
  import opened QueueSafety
  import opened QueueSlots

  datatype SlotId = SlotId(name: string, slot: nat)

  /** The slots of some profiles. */
  function SlotsIn(cfg: Config, names: set<string>): set<SlotId> {
    set p, i: nat | p in names && p in cfg.profiles && 1 <= i <= cfg.profiles[p].slots :: SlotId(p, i)
  }

  function SlotOf(j: Job): SlotId
    requires j.lockedBy.Some?
  {
    SlotId(j.lockedBy.value.name, j.lockedBy.value.slot)
  }

  /** Jobs that run in different slots are no more than the slots. */
  lemma {:induction false} JobsFitSlots(t: Table, ids: set<JobId>, slots: set<SlotId>)
    requires OnePerSlot(t)
    requires forall id :: id in ids ==> id in t && t[id].status.Running? && t[id].lockedBy.Some? && SlotOf(t[id]) in slots
    ensures |ids| <= |slots|
    decreases |ids|
  {
    if ids != {} {
      var x :| x in ids;
      var used := SlotOf(t[x]);
      forall id | id in ids - {x} ensures SlotOf(t[id]) in slots - {used} {
        if SlotOf(t[id]) == used {
          assert RunsIn(t, id, used.name, used.slot) && RunsIn(t, x, used.name, used.slot);
          assert false;
        }
      }
      JobsFitSlots(t, ids - {x}, slots - {used});
    }
  }

  // ------------------------------------------------------------------ what profiles take

  /** The profile takes jobs of this type and weight, and there are such jobs. */
  predicate TakesJob(lane: Lane, kind: JobType, weight: int) {
    && (lane.types == {} || kind in lane.types) && (lane.weights == {} || weight in lane.weights)
    && weight in WeightsOf(kind)
  }

  /** Profiles that take some heavy job. */
  function HeavyProfiles(cfg: Config): set<string> {
    set p | p in cfg.profiles && exists kind: JobType :: TakesJob(cfg.profiles[p].lane, kind, 2)
  }

  /** Profiles that take light source refreshes, and profiles that take only heavy ones. */
  function FastReaders(cfg: Config): set<string> {
    set p | p in cfg.profiles && TakesJob(cfg.profiles[p].lane, SourceRefresh, 0)
  }

  function SlowReaders(cfg: Config): set<string> {
    set p | p in cfg.profiles && TakesJob(cfg.profiles[p].lane, SourceRefresh, 2) && !TakesJob(cfg.profiles[p].lane, SourceRefresh, 0)
  }

  /** Profiles that take light jobs other than the cleanup, and profiles that take only heavy ones. */
  function LightProfiles(cfg: Config): set<string> {
    set p | p in cfg.profiles && TakesLight(cfg.profiles[p].lane)
  }

  predicate TakesLight(lane: Lane) {
    TakesJob(lane, PreviewUpload, 0) || TakesJob(lane, ImportUpload, 1) || TakesJob(lane, SourceRefresh, 0)
  }

  function HeavyOnly(cfg: Config): set<string> {
    HeavyProfiles(cfg) - LightProfiles(cfg)
  }

  function Min(a: int, b: int): int {
    if a < b then a else b
  }

  /** How many jobs can read from one storage: within its cap, one per slot that takes light refreshes, and the heavy ones. */
  function ReadsBound(cfg: Config): int {
    Min(cfg.caps.perStorage, |SlotsIn(cfg, FastReaders(cfg))| + Min(|SlotsIn(cfg, SlowReaders(cfg))|, cfg.caps.maxHeavy))
  }

  /** How many jobs besides the cleanup can run: one per slot that takes light ones, and the heavy ones the cap allows. */
  function WorkBound(cfg: Config): int {
    |SlotsIn(cfg, LightProfiles(cfg))| + Min(|SlotsIn(cfg, HeavyOnly(cfg))|, cfg.caps.maxHeavy)
  }

  /** The running jobs besides the cleanup. */
  function Work(t: Table): set<JobId> {
    set id | id in RunningJobs(t) && !t[id].kind.MetadataCleanup?
  }

  ghost predicate ReachableFaultFree(cfg: Config, s: State) {
    exists es :: Feasible(cfg, Initial(cfg), es) && FaultFreeRun(es) && Run(cfg, Initial(cfg), es) == s
  }

  lemma RunningHasSlot(cfg: Config, s: State, id: JobId)
    requires SlotInv(cfg, s) && id in s.jobs && s.jobs[id].status.Running?
    ensures var j := s.jobs[id];
      && j.lockedBy.Some? && j.lockedBy.value.name in cfg.profiles && SlotOf(j) in SlotsIn(cfg, cfg.profiles.Keys)
      && TakesJob(cfg.profiles[j.lockedBy.value.name].lane, j.kind, j.weight)
      && (j.weight == 2 ==> SlotOf(j) in SlotsIn(cfg, HeavyProfiles(cfg)))
      && (j.storage.Some? ==> j.kind.SourceRefresh? && (j.weight == 0 || j.weight == 2))
  {
    OwnedRow(cfg, s, id);
    hide SlotInv, TakesJob, HeavyProfiles;
    var j := s.jobs[id];
    if j.weight == 2 { TakesHeavy(cfg, j.lockedBy.value.name, j.kind); }
  }

  lemma OwnedRow(cfg: Config, s: State, id: JobId)
    requires SlotInv(cfg, s) && id in s.jobs && s.jobs[id].status.Running?
    ensures var j := s.jobs[id];
      && j.lockedBy.Some? && j.lockedBy.value.name in cfg.profiles
      && 1 <= j.lockedBy.value.slot <= cfg.profiles[j.lockedBy.value.name].slots
      && TakesJob(cfg.profiles[j.lockedBy.value.name].lane, j.kind, j.weight)
      && (j.storage.Some? ==> j.kind.SourceRefresh? && (j.weight == 0 || j.weight == 2))
  {
    assert RowOk(cfg, s.jobs[id]);
  }

  lemma TakesHeavy(cfg: Config, p: string, kind: JobType)
    requires p in cfg.profiles && TakesJob(cfg.profiles[p].lane, kind, 2)
    ensures p in HeavyProfiles(cfg)
  {
    hide TakesJob;
  }

  lemma ReachableInv(cfg: Config, s: State)
    requires ConfigOk(cfg) && ReachableFaultFree(cfg, s)
    ensures SlotInv(cfg, s) && CapsOk(cfg, s.jobs)
  {
    hide ConfigOk, Feasible, Run, FaultFreeRun, SlotInv, CapsOk;
    var es :| Feasible(cfg, Initial(cfg), es) && FaultFreeRun(es) && Run(cfg, Initial(cfg), es) == s;
    CapsHold(cfg, es);
    FaultFreeRunsKeepSlots(cfg, es);
  }

  /** Without faults no more jobs run than there are slots: summarize's maxConcurrent. */
  lemma RunningWithinSlots(cfg: Config, es: seq<Event>)
    requires ConfigOk(cfg) && Feasible(cfg, Initial(cfg), es) && FaultFreeRun(es)
    ensures |RunningJobs(Run(cfg, Initial(cfg), es).jobs)| <= |SlotsIn(cfg, cfg.profiles.Keys)|
  {
    FaultFreeRunsKeepSlots(cfg, es);
    var s := Run(cfg, Initial(cfg), es);
    hide Feasible, Run, Ok, SlotsMatch, SlotsIn, TakesJob, HeavyProfiles;
    forall id | id in RunningJobs(s.jobs) ensures s.jobs[id].lockedBy.Some? && SlotOf(s.jobs[id]) in SlotsIn(cfg, cfg.profiles.Keys) {
      RunningHasSlot(cfg, s, id);
    }
    JobsFitSlots(s.jobs, RunningJobs(s.jobs), SlotsIn(cfg, cfg.profiles.Keys));
  }

  // ------------------------------------------------------------------ readers of one storage

  /** The readers in slots that take light refreshes, and the others, which are heavy. */
  function FastReads(cfg: Config, t: Table, storage: string): set<JobId> {
    set id | id in ReadsOn(t, storage) && t[id].lockedBy.Some? && SlotOf(t[id]) in SlotsIn(cfg, FastReaders(cfg))
  }

  lemma SlowReadIsHeavy(cfg: Config, s: State, storage: string, id: JobId)
    requires SlotInv(cfg, s) && id in ReadsOn(s.jobs, storage) - FastReads(cfg, s.jobs, storage)
    ensures s.jobs[id].lockedBy.Some? && SlotOf(s.jobs[id]) in SlotsIn(cfg, SlowReaders(cfg))
            && id in HeavyRunning(s.jobs)
  {
    RunningHasSlot(cfg, s, id);
    hide SlotInv, HeavyProfiles;
    var j := s.jobs[id];
    assert j.lockedBy.value.name !in FastReaders(cfg);
  }

  /** No storage is read by more jobs than ReadsBound: summarize's maxReadsPerStorage. */
  lemma ReadsWithinSlots(cfg: Config, s: State, storage: string)
    requires ConfigOk(cfg) && ReachableFaultFree(cfg, s)
    ensures |ReadsOn(s.jobs, storage)| <= ReadsBound(cfg)
  {
    hide ConfigOk, ReachableFaultFree, Ok, SlotsMatch, SlotsIn, FastReaders, SlowReaders, SlotInv, OnePerSlot, ReadsOn, FastReads,
      HeavyRunning, CapsOk;
    ReachableInv(cfg, s);
    CapsAre(cfg, s.jobs);
    var all, fast := ReadsOn(s.jobs, storage), FastReads(cfg, s.jobs, storage);
    FastReadsFit(cfg, s, storage);
    SlowReadsFit(cfg, s, storage);
    TwoParts(all, fast);
  }

  lemma CapsAre(cfg: Config, t: Table)
    requires CapsOk(cfg, t)
    ensures |HeavyRunning(t)| <= cfg.caps.maxHeavy && forall st :: |ReadsOn(t, st)| <= cfg.caps.perStorage
  {
    hide HeavyRunning, ReadsOn;
  }

  lemma TwoParts(all: set<JobId>, some: set<JobId>)
    requires some <= all
    ensures |all| == |some| + |all - some|
  {
    assert all == some + (all - some);
  }

  lemma FastReadsFit(cfg: Config, s: State, storage: string)
    requires SlotInv(cfg, s)
    ensures |FastReads(cfg, s.jobs, storage)| <= |SlotsIn(cfg, FastReaders(cfg))|
    ensures FastReads(cfg, s.jobs, storage) <= ReadsOn(s.jobs, storage)
  {
    hide Ok, SlotsMatch, OnePerSlot, SlotsIn, FastReaders;
    JobsFitSlots(s.jobs, FastReads(cfg, s.jobs, storage), SlotsIn(cfg, FastReaders(cfg)));
  }

  lemma SlowReadsFit(cfg: Config, s: State, storage: string)
    requires SlotInv(cfg, s)
    ensures |ReadsOn(s.jobs, storage) - FastReads(cfg, s.jobs, storage)| <= |SlotsIn(cfg, SlowReaders(cfg))|
    ensures |ReadsOn(s.jobs, storage) - FastReads(cfg, s.jobs, storage)| <= |HeavyRunning(s.jobs)|
  {
    hide Ok, SlotsMatch, OnePerSlot, SlotsIn, SlowReaders, FastReads;
    var slow := ReadsOn(s.jobs, storage) - FastReads(cfg, s.jobs, storage);
    forall id | id in slow
      ensures s.jobs[id].lockedBy.Some? && SlotOf(s.jobs[id]) in SlotsIn(cfg, SlowReaders(cfg))
              && id in HeavyRunning(s.jobs)
    {
      SlowReadIsHeavy(cfg, s, storage, id);
    }
    JobsFitSlots(s.jobs, slow, SlotsIn(cfg, SlowReaders(cfg)));
    SubsetSize(slow, HeavyRunning(s.jobs));
  }

  // ------------------------------------------------------------------ running jobs

  /** The jobs in slots that take light jobs; the others are heavy. */
  function LightWork(cfg: Config, t: Table): set<JobId> {
    set id | id in Work(t) && t[id].lockedBy.Some? && SlotOf(t[id]) in SlotsIn(cfg, LightProfiles(cfg))
  }

  lemma OtherWorkIsHeavy(cfg: Config, s: State, id: JobId)
    requires SlotInv(cfg, s) && id in Work(s.jobs) - LightWork(cfg, s.jobs)
    ensures s.jobs[id].lockedBy.Some? && SlotOf(s.jobs[id]) in SlotsIn(cfg, HeavyOnly(cfg))
            && id in HeavyRunning(s.jobs)
  {
    RunningHasSlot(cfg, s, id);
    hide SlotInv, HeavyProfiles;
    var j := s.jobs[id];
    var p := j.lockedBy.value.name;
    assert p !in LightProfiles(cfg);
    assert j.weight != 0 && j.weight != 1;
  }

  /** No more jobs besides the cleanup run than WorkBound. */
  lemma WorkWithinSlots(cfg: Config, s: State)
    requires ConfigOk(cfg) && ReachableFaultFree(cfg, s)
    ensures |Work(s.jobs)| <= WorkBound(cfg)
  {
    hide ConfigOk, ReachableFaultFree, SlotsIn, LightProfiles, HeavyOnly, SlotInv, Work, LightWork, HeavyRunning, CapsOk;
    ReachableInv(cfg, s);
    CapsAre(cfg, s.jobs);
    LightWorkFits(cfg, s);
    HeavyWorkFits(cfg, s);
    TwoParts(Work(s.jobs), LightWork(cfg, s.jobs));
  }

  lemma LightWorkFits(cfg: Config, s: State)
    requires SlotInv(cfg, s)
    ensures |LightWork(cfg, s.jobs)| <= |SlotsIn(cfg, LightProfiles(cfg))| && LightWork(cfg, s.jobs) <= Work(s.jobs)
  {
    hide Ok, SlotsMatch, OnePerSlot, SlotsIn, LightProfiles;
    JobsFitSlots(s.jobs, LightWork(cfg, s.jobs), SlotsIn(cfg, LightProfiles(cfg)));
  }

  lemma HeavyWorkFits(cfg: Config, s: State)
    requires SlotInv(cfg, s)
    ensures |Work(s.jobs) - LightWork(cfg, s.jobs)| <= |SlotsIn(cfg, HeavyOnly(cfg))|
    ensures |Work(s.jobs) - LightWork(cfg, s.jobs)| <= |HeavyRunning(s.jobs)|
  {
    hide Ok, SlotsMatch, OnePerSlot, SlotsIn, HeavyOnly, LightWork;
    var heavy := Work(s.jobs) - LightWork(cfg, s.jobs);
    forall id | id in heavy
      ensures s.jobs[id].lockedBy.Some? && SlotOf(s.jobs[id]) in SlotsIn(cfg, HeavyOnly(cfg))
              && id in HeavyRunning(s.jobs)
    {
      OtherWorkIsHeavy(cfg, s, id);
    }
    JobsFitSlots(s.jobs, heavy, SlotsIn(cfg, HeavyOnly(cfg)));
    SubsetSize(heavy, HeavyRunning(s.jobs));
  }

  // ------------------------------------------------------------------ the heavy gate

  /** A loop of the profile asks for a job, one it takes is waiting, and only the gate on heavy jobs keeps it from it. */
  predicate Refused(cfg: Config, s: State, p: string, i: nat, id: JobId, now: int) {
    && HasLoop(s, p, i) && LoopOf(s, p, i).Claiming? && p in cfg.profiles
    && id in s.jobs && s.jobs[id].status.Queued? && s.jobs[id].availableAt <= now
    && Admits(cfg.profiles[p].lane, s.jobs[id]) && StorageGate(s.jobs, s.jobs[id], cfg.caps) && !HeavyGate(s.jobs, s.jobs[id], cfg.caps)
  }

  /** No idle slot of the profile is ever turned away by the gate on heavy jobs. */
  ghost predicate NeverRefused(cfg: Config, p: string) {
    forall s, i, id, now :: ReachableFaultFree(cfg, s) ==> !Refused(cfg, s, p, i, id, now)
  }

  /** An asking loop's slot is free, so fewer heavy jobs run than there are heavy slots. */
  lemma AskingSlotIsFree(cfg: Config, s: State, p: string, i: nat)
    requires SlotInv(cfg, s) && HasLoop(s, p, i) && LoopOf(s, p, i).Claiming? && p in HeavyProfiles(cfg)
    ensures |HeavyRunning(s.jobs)| < |SlotsIn(cfg, HeavyProfiles(cfg))|
  {
    var free := SlotId(p, i + 1);
    var heavy := SlotsIn(cfg, HeavyProfiles(cfg));
    assert free in heavy;
    assert SlotMatches(s.jobs, p, i + 1, s.procs[p].stopping, LoopOf(s, p, i));
    hide Ok, SlotsMatch, SlotsIn, HeavyProfiles, TakesJob;
    forall id | id in HeavyRunning(s.jobs) ensures s.jobs[id].lockedBy.Some? && SlotOf(s.jobs[id]) in heavy - {free} {
      RunningHasSlot(cfg, s, id);
      assert !RunsIn(s.jobs, id, p, i + 1);
    }
    JobsFitSlots(s.jobs, HeavyRunning(s.jobs), heavy - {free});
  }

  /** A profile that is refused a job takes heavy jobs. */
  lemma RefusedIsHeavy(cfg: Config, s: State, p: string, i: nat, id: JobId, now: int)
    requires Ok(cfg, s) && CapsOk(cfg, s.jobs) && Refused(cfg, s, p, i, id, now)
    ensures p in HeavyProfiles(cfg)
  {
    assert RowOk(cfg, s.jobs[id]);
    assert s.jobs[id].weight == 2;
    assert TakesJob(cfg.profiles[p].lane, s.jobs[id].kind, 2);
  }

  /** With a cap of at least the slots of the profiles that take heavy jobs, the gate turns no idle slot away. */
  lemma EnoughCapacityRefusesNothing(cfg: Config, s: State, p: string, i: nat, id: JobId, now: int)
    requires ConfigOk(cfg) && ReachableFaultFree(cfg, s)
    requires |SlotsIn(cfg, HeavyProfiles(cfg))| <= cfg.caps.maxHeavy
    ensures !Refused(cfg, s, p, i, id, now)
  {
    ReachableInv(cfg, s);
    if Refused(cfg, s, p, i, id, now) {
      RefusedIsHeavy(cfg, s, p, i, id, now);
      hide ReachableFaultFree, SlotInv, CapsOk, SlotsIn, HeavyProfiles, Admits, StorageGate;
      AskingSlotIsFree(cfg, s, p, i);
    }
  }

  // ------------------------------------------------------------------ runs that fill chosen slots with chosen jobs

  lemma FaultFreeInitial(cfg: Config)
    ensures ReachableFaultFree(cfg, Initial(cfg))
  {
    assert Feasible(cfg, Initial(cfg), []) && FaultFreeRun([]) && Run(cfg, Initial(cfg), []) == Initial(cfg);
  }

  lemma FaultFreeNext(cfg: Config, s: State, e: Event)
    requires ReachableFaultFree(cfg, s) && Enabled(cfg, s, e) && FaultFree(e)
    ensures ReachableFaultFree(cfg, Next(cfg, s, e))
  {
    hide Enabled, Next, Feasible, Run, FaultFree;
    var es :| Feasible(cfg, Initial(cfg), es) && FaultFreeRun(es) && Run(cfg, Initial(cfg), es) == s;
    RunAppend(cfg, Initial(cfg), es, e);
    assert FaultFreeRun(es + [e]) by {
      forall i | 0 <= i < |es + [e]| ensures FaultFree((es + [e])[i]) {}
    }
  }

  /** No jobs yet; the workers of `up` wait for jobs and the others have not been started. */
  ghost predicate Booted(cfg: Config, s: State, up: set<string>) {
    && s.jobs == map[] && s.procs.Keys == cfg.profiles.Keys && up <= cfg.profiles.Keys
    && forall p :: p in cfg.profiles ==> s.procs[p] == if p in up then FreshWorker(cfg, p) else Down
  }

  function FreshWorker(cfg: Config, p: string): Process {
    Up("h", false, false, seq(WorkerFleet.SlotsOf(cfg, p), _ => Waiting))
  }

  lemma BootOne(cfg: Config, s: State, up: set<string>, p: string) returns (t: State)
    requires ReachableFaultFree(cfg, s) && Booted(cfg, s, up) && p in cfg.profiles && p !in up
    ensures ReachableFaultFree(cfg, t) && Booted(cfg, t, up + {p})
  {
    var s1 := BootStep(cfg, s, p, Boot);
    var s2 := BootStep(cfg, s1, p, ReleaseExhausted);
    t := BootStep(cfg, s2, p, ReleaseRest("h", false, 0));
  }

  lemma BootStep(cfg: Config, s: State, p: string, step: ProcessEvent) returns (t: State)
    requires ReachableFaultFree(cfg, s) && s.jobs == map[] && p in s.procs && p in cfg.profiles
    requires (step.Boot? && s.procs[p].Down?) || (step.ReleaseExhausted? && s.procs[p].Booting?)
             || (step.ReleaseRest? && s.procs[p].Clearing?)
    ensures ReachableFaultFree(cfg, t) && t.jobs == map[]
    ensures t.procs == s.procs[p := ProcessAfter(s.procs[p], WorkerFleet.SlotsOf(cfg, p), step)]
  {
    hide ReachableFaultFree;
    var e := OnProcess(p, step);
    FaultFreeNext(cfg, s, e);
    t := Next(cfg, s, e);
    assert t.jobs == map[];
  }

  lemma {:induction false} BootAll(cfg: Config, s: State, up: set<string>, rest: set<string>) returns (t: State)
    requires ReachableFaultFree(cfg, s) && Booted(cfg, s, up) && up + rest == cfg.profiles.Keys && up !! rest
    ensures ReachableFaultFree(cfg, t) && Booted(cfg, t, cfg.profiles.Keys)
    decreases rest
  {
    hide ReachableFaultFree, Booted;
    if rest == {} {
      t := s;
      assert up == cfg.profiles.Keys;
    } else {
      var p :| p in rest;
      var u := BootOne(cfg, s, up, p);
      t := BootAll(cfg, u, up + {p}, rest - {p});
    }
  }

  /** A job id longer than all those in use. */
  function IdOf(k: nat): JobId {
    seq(k + 1, _ => 'j')
  }

  /** Which job each of some slots is to work on. */
  type Plan = map<SlotId, Job>

  /** A new job that can be enqueued and that the slot's profile takes. */
  predicate Fits(cfg: Config, x: SlotId, j: Job) {
    x in SlotsIn(cfg, cfg.profiles.Keys) && CanEnqueue(j) && TakesJob(cfg.profiles[x.name].lane, j.kind, j.weight)
  }

  /** A job as it can be enqueued. */
  predicate CanEnqueue(j: Job) {
    && j == NewJob(j.kind, j.weight, j.storage, 1, 0)
    && j.weight in WeightsOf(j.kind) && !j.kind.MetadataCleanup? && (j.storage.Some? ==> j.kind.SourceRefresh?)
  }

  function HeavyOf(plan: Plan, slots: set<SlotId>): set<SlotId> {
    set x | x in slots && x in plan && plan[x].weight == 2
  }

  function ReadsOf(plan: Plan, slots: set<SlotId>, storage: string): set<SlotId> {
    set x | x in slots && x in plan && plan[x].storage == Some(storage)
  }

  /** The jobs fit their slots and, all together, the caps. */
  ghost predicate PlanOk(cfg: Config, plan: Plan) {
    && (forall x :: x in plan ==> Fits(cfg, x, plan[x]))
    && |HeavyOf(plan, plan.Keys)| <= cfg.caps.maxHeavy
    && forall st :: |ReadsOf(plan, plan.Keys, st)| <= cfg.caps.perStorage
  }

  /** The slots of `done` work on their jobs, the others wait, and there are no other jobs. */
  ghost predicate Filled(cfg: Config, s: State, plan: Plan, done: set<SlotId>) {
    Ok(cfg, s) && OthersWait(cfg, s.procs, done) && Carries(s.jobs, plan, done)
  }

  ghost predicate OthersWait(cfg: Config, procs: map<string, Process>, done: set<SlotId>) {
    forall p :: p in cfg.profiles ==>
      && p in procs && procs[p].Up? && CanClaim(procs[p])
      && forall i: nat :: i < |procs[p].loops| && SlotId(p, i + 1) !in done ==> procs[p].loops[i].Waiting?
  }

  /** The table holds the running jobs of these slots and nothing else. */
  ghost predicate Carries(t: Table, plan: Plan, done: set<SlotId>) {
    && (forall id :: id in t ==> t[id].status.Running? && |id| <= |done| && !t[id].kind.MetadataCleanup?)
    && |RunningJobs(t)| == |done| && |HeavyRunning(t)| == |HeavyOf(plan, done)|
    && forall st :: |ReadsOn(t, st)| == |ReadsOf(plan, done, st)|
  }

  lemma BootedIsFilled(cfg: Config, s: State, plan: Plan)
    requires Ok(cfg, s) && Booted(cfg, s, cfg.profiles.Keys)
    ensures Filled(cfg, s, plan, {})
  {
    assert RunningJobs(s.jobs) == {} && HeavyRunning(s.jobs) == {} && HeavyOf(plan, {}) == {};
    assert forall st :: ReadsOn(s.jobs, st) == {} && ReadsOf(plan, {}, st) == {};
  }

  lemma NextKeepsOkFrom(cfg: Config, s: State, e: Event, plan: Plan, done: set<SlotId>)
    requires Filled(cfg, s, plan, done) && Enabled(cfg, s, e)
    ensures Ok(cfg, Next(cfg, s, e))
  {
    NextKeepsOk(cfg, s, e);
  }

  /** The loop of a slot that waits. */
  lemma SlotWaits(cfg: Config, s: State, plan: Plan, done: set<SlotId>, x: SlotId)
    requires Filled(cfg, s, plan, done) && x in SlotsIn(cfg, cfg.profiles.Keys) && x !in done
    ensures x.slot >= 1 && x.name in cfg.profiles && HasLoop(s, x.name, x.slot - 1)
            && LoopOf(s, x.name, x.slot - 1).Waiting?
            && CanClaim(s.procs[x.name])
    ensures IdOf(|done|) !in s.jobs && |IdOf(|done|)| == |done| + 1
  {
    assert s.procs[x.name].Up? && |s.procs[x.name].loops| == cfg.profiles[x.name].slots;
    assert SlotId(x.name, x.slot - 1 + 1) == x;
  }

  /** A job arrives that fits the waiting slot x, and its loop asks for it. */
  lemma Ask(cfg: Config, s: State, plan: Plan, done: set<SlotId>, x: SlotId, j: Job) returns (t: State)
    requires ReachableFaultFree(cfg, s) && Filled(cfg, s, plan, done) && x !in done && Fits(cfg, x, j)
    ensures x.slot >= 1 && x.name in cfg.profiles && HasLoop(s, x.name, x.slot - 1) && IdOf(|done|) !in s.jobs
    ensures ReachableFaultFree(cfg, t) && Ok(cfg, t) && HasLoop(t, x.name, x.slot - 1)
            && LoopOf(t, x.name, x.slot - 1).Claiming?
    ensures t.jobs == s.jobs[IdOf(|done|) := j]
    ensures t.procs == s.procs[x.name := s.procs[x.name].(loops := s.procs[x.name].loops[x.slot - 1 := Claiming])]
  {
    hide *;
    FitsParts(cfg, x, j);
    SlotWaits(cfg, s, plan, done, x);
    var s1 := Arrives(cfg, s, plan, done, IdOf(|done|), j);
    SameLoop(s, s1, x.name, x.slot - 1);
    t := AskNow(cfg, s1, x.name, x.slot - 1);
  }

  lemma FitsParts(cfg: Config, x: SlotId, j: Job)
    requires Fits(cfg, x, j)
    ensures x in SlotsIn(cfg, cfg.profiles.Keys) && CanEnqueue(j)
  {
    hide SlotsIn;
  }

  lemma Arrives(cfg: Config, s: State, plan: Plan, done: set<SlotId>, id: JobId, j: Job) returns (t: State)
    requires ReachableFaultFree(cfg, s) && Filled(cfg, s, plan, done) && id !in s.jobs && CanEnqueue(j)
    ensures ReachableFaultFree(cfg, t) && Ok(cfg, t) && t.jobs == s.jobs[id := j] && t.procs == s.procs
  {
    hide ReachableFaultFree, Filled, Ok, StartsAfter, RefundsAfter;
    var e := OnTable(Enqueue(id, j.kind, j.weight, j.storage, 1, 0));
    FaultFreeNext(cfg, s, e);
    NextKeepsOkFrom(cfg, s, e, plan, done);
    t := Next(cfg, s, e);
    assert t.jobs == JobsAfterTable(s.jobs, e.t);
  }

  lemma SameLoop(s: State, t: State, p: string, i: nat)
    requires HasLoop(s, p, i) && t.procs == s.procs
    ensures HasLoop(t, p, i) && LoopOf(t, p, i) == LoopOf(s, p, i)
  {
  }

  lemma AskNow(cfg: Config, s: State, p: string, i: nat) returns (t: State)
    requires ReachableFaultFree(cfg, s) && Ok(cfg, s) && HasLoop(s, p, i) && LoopOf(s, p, i).Waiting?
            && p in cfg.profiles
            && CanClaim(s.procs[p])
    ensures ReachableFaultFree(cfg, t) && Ok(cfg, t) && HasLoop(t, p, i) && LoopOf(t, p, i).Claiming?
            && t.jobs == s.jobs
    ensures t.procs == s.procs[p := s.procs[p].(loops := s.procs[p].loops[i := Claiming])]
  {
    hide ReachableFaultFree, Ok;
    var e := OnLoop(p, i, Guard);
    FaultFreeNext(cfg, s, e);
    NextKeepsOk(cfg, s, e);
    t := Next(cfg, s, e);
  }

  /** A waiting row leaves what runs as it is. */
  lemma SameRunning(t: Table, id: JobId, j: Job)
    requires id !in t && j.status.Queued?
    ensures RunningJobs(t[id := j]) == RunningJobs(t) && HeavyRunning(t[id := j]) == HeavyRunning(t)
    ensures forall st :: ReadsOn(t[id := j], st) == ReadsOn(t, st)
  {
  }

  /** The only waiting job is the first one in line, once the gates let it pass. */
  lemma OnlyWaitingIsFirst(t: Table, id: JobId, j: Job, lane: Lane, caps: Caps)
    requires id !in t && (forall k :: k in t ==> t[k].status.Running?)
    requires j.status.Queued? && j.availableAt == 0 && Admits(lane, j) && HeavyGate(t, j, caps)
            && StorageGate(t, j, caps)
    ensures IsFirst(t[id := j], id, lane, caps, 0)
  {
    SameRunning(t, id, j);
    hide Admits, RunningJobs, HeavyRunning, ReadsOn;
  }

  lemma AddOne(done: set<SlotId>, x: SlotId)
    requires x !in done
    ensures |done + {x}| == |done| + 1
  {
  }

  /** One slot more of a plan that fits the caps: its job passes the gates. */
  lemma GatesOpen(cfg: Config, t: Table, plan: Plan, done: set<SlotId>, x: SlotId)
    requires PlanOk(cfg, plan) && Carries(t, plan, done) && done <= plan.Keys && x in plan && x !in done
    ensures HeavyGate(t, plan[x], cfg.caps) && StorageGate(t, plan[x], cfg.caps)
  {
    hide *;
    HeavyGateOpen(cfg, t, plan, done, x);
    StorageGateOpen(cfg, t, plan, done, x);
  }

  lemma HeavyGateOpen(cfg: Config, t: Table, plan: Plan, done: set<SlotId>, x: SlotId)
    requires PlanOk(cfg, plan) && Carries(t, plan, done) && done <= plan.Keys && x in plan && x !in done
    ensures HeavyGate(t, plan[x], cfg.caps)
  {
    hide PlanOk, Carries, HeavyOf, HeavyRunning, Fits;
    PlanParts(cfg, plan, x);
    CarriesCounts(t, plan, done);
    OneMoreHeavy(plan, done, x);
    MoreHeavy(plan, done + {x}, plan.Keys);
  }

  lemma StorageGateOpen(cfg: Config, t: Table, plan: Plan, done: set<SlotId>, x: SlotId)
    requires PlanOk(cfg, plan) && Carries(t, plan, done) && done <= plan.Keys && x in plan && x !in done
    ensures StorageGate(t, plan[x], cfg.caps)
  {
    hide PlanOk, Carries, ReadsOf, ReadsOn, Fits;
    if plan[x].storage.Some? {
      PlanParts(cfg, plan, x);
      CarriesCounts(t, plan, done);
      OneMoreRead(plan, done, x, plan[x].storage.value);
      MoreReads(plan, done + {x}, plan.Keys, plan[x].storage.value);
    }
  }

  lemma PlanParts(cfg: Config, plan: Plan, x: SlotId)
    requires PlanOk(cfg, plan) && x in plan
    ensures (plan[x].weight == 2 || plan[x].weight < 2) && |HeavyOf(plan, plan.Keys)| <= cfg.caps.maxHeavy
    ensures forall st :: |ReadsOf(plan, plan.Keys, st)| <= cfg.caps.perStorage
  {
    hide HeavyOf, ReadsOf, SlotsIn, TakesJob;
    assert Fits(cfg, x, plan[x]);
  }

  lemma CarriesCounts(t: Table, plan: Plan, done: set<SlotId>)
    requires Carries(t, plan, done)
    ensures |HeavyRunning(t)| == |HeavyOf(plan, done)| && forall st :: |ReadsOn(t, st)| == |ReadsOf(plan, done, st)|
  {
    hide HeavyOf, ReadsOf, HeavyRunning, ReadsOn, RunningJobs;
  }

  lemma MoreHeavy(plan: Plan, some: set<SlotId>, all: set<SlotId>)
    requires some <= all
    ensures |HeavyOf(plan, some)| <= |HeavyOf(plan, all)|
  {
    SubsetSize(HeavyOf(plan, some), HeavyOf(plan, all));
  }

  lemma MoreReads(plan: Plan, some: set<SlotId>, all: set<SlotId>, st: string)
    requires some <= all
    ensures |ReadsOf(plan, some, st)| <= |ReadsOf(plan, all, st)|
  {
    SubsetSize(ReadsOf(plan, some, st), ReadsOf(plan, all, st));
  }

  lemma OneMoreHeavy(plan: Plan, done: set<SlotId>, x: SlotId)
    requires x in plan && x !in done
    ensures |HeavyOf(plan, done + {x})| == |HeavyOf(plan, done)| + (if plan[x].weight == 2 then 1 else 0)
  {
    if plan[x].weight == 2 {
      assert HeavyOf(plan, done + {x}) == HeavyOf(plan, done) + {x};
    } else {
      assert HeavyOf(plan, done + {x}) == HeavyOf(plan, done);
    }
  }

  lemma OneMoreRead(plan: Plan, done: set<SlotId>, x: SlotId, st: string)
    requires x in plan && x !in done
    ensures |ReadsOf(plan, done + {x}, st)| == |ReadsOf(plan, done, st)| + (if plan[x].storage == Some(st) then 1 else 0)
  {
    if plan[x].storage == Some(st) {
      assert ReadsOf(plan, done + {x}, st) == ReadsOf(plan, done, st) + {x};
    } else {
      assert ReadsOf(plan, done + {x}, st) == ReadsOf(plan, done, st);
    }
  }

  /** One job more. */
  lemma CarriesOneMore(t: Table, plan: Plan, done: set<SlotId>, x: SlotId, id: JobId, owner: Owner)
    requires Carries(t, plan, done) && x in plan && x !in done && id !in t && |id| == |done| + 1
            && !plan[x].kind.MetadataCleanup?
    ensures Carries(t[id := Claimed(plan[x], owner, 0)], plan, done + {x})
  {
    hide RunningJobs, HeavyRunning, ReadsOn, HeavyOf, ReadsOf;
    var u := t[id := Claimed(plan[x], owner, 0)];
    AddOne(done, x);
    OneMoreHeavy(plan, done, x);
    RunningOneMore(t, id, plan[x], owner);
    HeavyOneMore(t, id, plan[x], owner);
    forall st ensures |ReadsOn(u, st)| == |ReadsOf(plan, done + {x}, st)| {
      OneMoreRead(plan, done, x, st);
      ReadsOneMore(t, u, id, plan[x], owner, st);
    }
  }

  lemma RunningOneMore(t: Table, id: JobId, j: Job, owner: Owner)
    requires id !in t
    ensures |RunningJobs(t[id := Claimed(j, owner, 0)])| == |RunningJobs(t)| + 1
  {
    assert RunningJobs(t[id := Claimed(j, owner, 0)]) == RunningJobs(t) + {id};
  }

  lemma HeavyOneMore(t: Table, id: JobId, j: Job, owner: Owner)
    requires id !in t
    ensures |HeavyRunning(t[id := Claimed(j, owner, 0)])| == |HeavyRunning(t)| + (if j.weight == 2 then 1 else 0)
  {
    if j.weight == 2 {
      assert HeavyRunning(t[id := Claimed(j, owner, 0)]) == HeavyRunning(t) + {id};
    } else {
      assert HeavyRunning(t[id := Claimed(j, owner, 0)]) == HeavyRunning(t);
    }
  }

  lemma ReadsOneMore(t: Table, u: Table, id: JobId, j: Job, owner: Owner, st: string)
    requires id !in t && u == t[id := Claimed(j, owner, 0)]
    ensures |ReadsOn(u, st)| == |ReadsOn(t, st)| + (if j.storage == Some(st) then 1 else 0)
  {
    if j.storage == Some(st) {
      assert ReadsOn(u, st) == ReadsOn(t, st) + {id};
    } else {
      assert ReadsOn(u, st) == ReadsOn(t, st);
    }
  }

  lemma ClaimAsked(cfg: Config, u: State, p: string, i: nat, id: JobId, j: Job) returns (t: State)
    requires ReachableFaultFree(cfg, u) && Ok(cfg, u) && HasLoop(u, p, i) && LoopOf(u, p, i).Claiming?
            && p in cfg.profiles
    requires IsFirst(u.jobs, id, cfg.profiles[p].lane, cfg.caps, 0) && id in u.jobs && u.jobs[id] == j
            && j.attempts == 0 && j.maxAttempts == 1
    ensures ReachableFaultFree(cfg, t) && Ok(cfg, t) && t.jobs == u.jobs[id := Claimed(j, OwnerOf(u, p, i), 0)]
    ensures t.procs == u.procs[p := u.procs[p].(loops := u.procs[p].loops[i := Working(id, 1, 1)])]
  {
    var e := OnLoop(p, i, Claim(Some(id), 0));
    hide ReachableFaultFree, IsFirst, Ok;
    FaultFreeNext(cfg, u, e);
    NextKeepsOk(cfg, u, e);
    t := Next(cfg, u, e);
  }

  lemma ProcsAfterClaim(a: map<string, Process>, m: map<string, Process>, b: map<string, Process>, p: string, i: nat,
                        l: Loop)
    requires p in a && a[p].Up? && i < |a[p].loops|
    requires m == a[p := a[p].(loops := a[p].loops[i := Claiming])] && b == m[p := m[p].(loops := m[p].loops[i := l])]
    ensures b == a[p := a[p].(loops := b[p].loops)] && b[p].Up? && |b[p].loops| == |a[p].loops|
    ensures forall k :: 0 <= k < |a[p].loops| && k != i ==> b[p].loops[k] == a[p].loops[k]
  {
  }

  lemma WaitAfterClaim(cfg: Config, a: map<string, Process>, b: map<string, Process>, done: set<SlotId>,
                       more: set<SlotId>,
                       p: string, i: nat)
    requires OthersWait(cfg, a, done) && p in a && a[p].Up? && i < |a[p].loops| && more == done + {SlotId(p, i + 1)}
    requires p in b && b[p].Up? && |b[p].loops| == |a[p].loops| && b == a[p := a[p].(loops := b[p].loops)]
    requires forall k :: 0 <= k < |a[p].loops| && k != i ==> b[p].loops[k] == a[p].loops[k]
    ensures OthersWait(cfg, b, more)
  {
    forall q | q in cfg.profiles
      ensures q in b && b[q].Up? && CanClaim(b[q])
      ensures forall k: nat :: k < |b[q].loops| && SlotId(q, k + 1) !in more ==> b[q].loops[k].Waiting?
    {
      forall k: nat | k < |b[q].loops| && SlotId(q, k + 1) !in more ensures b[q].loops[k].Waiting? {
        assert SlotId(q, k + 1) !in done && !(q == p && k == i);
        assert k < |a[q].loops| && a[q].loops[k].Waiting?;
      }
    }
  }

  /** One more slot of the plan starts its job. */
  lemma FillOne(cfg: Config, s: State, plan: Plan, done: set<SlotId>, x: SlotId) returns (t: State)
    requires ReachableFaultFree(cfg, s) && PlanOk(cfg, plan) && Filled(cfg, s, plan, done) && done <= plan.Keys
    requires x in plan && x !in done
    ensures ReachableFaultFree(cfg, t) && Filled(cfg, t, plan, done + {x})
  {
    hide *;
    PlanFits(cfg, plan, x);
    FilledParts(cfg, s, plan, done);
    var u := Ask(cfg, s, plan, done, x, plan[x]);
    GatesOpen(cfg, s.jobs, plan, done, x);
    FirstOfFilled(cfg, s.jobs, plan, done, IdOf(|done|), x);
    t := ClaimAsked(cfg, u, x.name, x.slot - 1, IdOf(|done|), plan[x]);
    FillClaimed(cfg, s, u, t, plan, done, x);
  }

  /** The slot's loop asked for its job (u) and claimed it (t). */
  lemma FillClaimed(cfg: Config, s: State, u: State, t: State, plan: Plan, done: set<SlotId>, x: SlotId)
    requires Filled(cfg, s, plan, done) && x in plan && x !in done && x.slot >= 1 && Ok(cfg, t)
            && !plan[x].kind.MetadataCleanup?
    requires HasLoop(s, x.name, x.slot - 1) && HasLoop(u, x.name, x.slot - 1) && IdOf(|done|) !in s.jobs
    requires u.procs == s.procs[x.name := s.procs[x.name].(loops := s.procs[x.name].loops[x.slot - 1 := Claiming])]
    requires t.procs == u.procs[x.name := u.procs[x.name].(loops := u.procs[x.name].loops[x.slot - 1 := Working(IdOf(|done|), 1, 1)])]
    requires u.jobs == s.jobs[IdOf(|done|) := plan[x]]
    requires t.jobs == u.jobs[IdOf(|done|) := Claimed(plan[x], OwnerOf(u, x.name, x.slot - 1), 0)]
    ensures Filled(cfg, t, plan, done + {x})
  {
    hide *;
    var p, i := x.name, x.slot - 1;
    FilledParts(cfg, s, plan, done);
    LoopIsThere(s, p, i);
    IdLength(|done|);
    ProcsAfterClaim(s.procs, u.procs, t.procs, p, i, Working(IdOf(|done|), 1, 1));
    assert SlotId(p, i + 1) == x;
    WaitAfterClaim(cfg, s.procs, t.procs, done, done + {x}, p, i);
    CarriesOneMore(s.jobs, plan, done, x, IdOf(|done|), OwnerOf(u, p, i));
    assert t.jobs == s.jobs[IdOf(|done|) := Claimed(plan[x], OwnerOf(u, p, i), 0)];
    FilledFrom(cfg, t, plan, done + {x});
  }

  lemma IdLength(k: nat)
    ensures |IdOf(k)| == k + 1
  {
  }

  lemma PlanFits(cfg: Config, plan: Plan, x: SlotId)
    requires PlanOk(cfg, plan) && x in plan
    ensures Fits(cfg, x, plan[x]) && plan[x].attempts == 0 && plan[x].maxAttempts == 1 && !plan[x].kind.MetadataCleanup?
  {
  }

  lemma FilledParts(cfg: Config, s: State, plan: Plan, done: set<SlotId>)
    requires Filled(cfg, s, plan, done)
    ensures OthersWait(cfg, s.procs, done) && Carries(s.jobs, plan, done)
  {
  }

  lemma FilledFrom(cfg: Config, s: State, plan: Plan, done: set<SlotId>)
    requires Ok(cfg, s) && OthersWait(cfg, s.procs, done) && Carries(s.jobs, plan, done)
    ensures Filled(cfg, s, plan, done)
  {
  }

  lemma LoopIsThere(s: State, p: string, i: nat)
    requires HasLoop(s, p, i)
    ensures p in s.procs && s.procs[p].Up? && i < |s.procs[p].loops|
  {
  }

  lemma FirstOfFilled(cfg: Config, t: Table, plan: Plan, done: set<SlotId>, id: JobId, x: SlotId)
    requires Carries(t, plan, done) && x in plan && Fits(cfg, x, plan[x]) && id !in t && x.name in cfg.profiles
    requires HeavyGate(t, plan[x], cfg.caps) && StorageGate(t, plan[x], cfg.caps)
    ensures IsFirst(t[id := plan[x]], id, cfg.profiles[x.name].lane, cfg.caps, 0)
  {
    assert Admits(cfg.profiles[x.name].lane, plan[x]);
    hide Admits, HeavyGate, StorageGate, IsFirst, SlotsIn, TakesJob, RunningJobs, HeavyRunning, ReadsOn;
    OnlyWaitingIsFirst(t, id, plan[x], cfg.profiles[x.name].lane, cfg.caps);
  }

  lemma {:induction false} FillUp(cfg: Config, s: State, plan: Plan, done: set<SlotId>) returns (t: State)
    requires ReachableFaultFree(cfg, s) && PlanOk(cfg, plan) && Filled(cfg, s, plan, done) && done <= plan.Keys
    ensures ReachableFaultFree(cfg, t) && Filled(cfg, t, plan, plan.Keys)
    decreases plan.Keys - done
  {
    hide *;
    if plan.Keys - done == {} {
      t := s;
      NoneLeft(plan, done);
    } else {
      var x :| x in plan.Keys - done;
      var u := FillOne(cfg, s, plan, done, x);
      t := FillUp(cfg, u, plan, done + {x});
    }
  }

  lemma NoneLeft(plan: Plan, done: set<SlotId>)
    requires done <= plan.Keys && plan.Keys - done == {}
    ensures done == plan.Keys
  {
    assert forall x :: x in plan.Keys ==> x in plan.Keys - done || x in done;
  }

  lemma OkWhenReachable(cfg: Config, s: State)
    requires ReachableFaultFree(cfg, s)
    ensures Ok(cfg, s)
  {
    var es :| Feasible(cfg, Initial(cfg), es) && FaultFreeRun(es) && Run(cfg, Initial(cfg), es) == s;
    InitialOk(cfg);
    hide *;
    RunKeepsOk(cfg, Initial(cfg), es);
  }

  /** Any jobs that fit their slots and the caps can all run at once, while the other slots wait. */
  lemma PlanRuns(cfg: Config, plan: Plan) returns (s: State)
    requires PlanOk(cfg, plan)
    ensures ReachableFaultFree(cfg, s) && Filled(cfg, s, plan, plan.Keys)
    ensures |RunningJobs(s.jobs)| == |plan| && |HeavyRunning(s.jobs)| == |HeavyOf(plan, plan.Keys)|
    ensures forall st :: |ReadsOn(s.jobs, st)| == |ReadsOf(plan, plan.Keys, st)|
  {
    hide *;
    FaultFreeInitial(cfg);
    InitialBooted(cfg);
    var up := BootAll(cfg, Initial(cfg), {}, cfg.profiles.Keys);
    OkWhenReachable(cfg, up);
    BootedIsFilled(cfg, up, plan);
    s := FillUp(cfg, up, plan, {});
    FilledCounts(cfg, s, plan);
  }

  lemma InitialBooted(cfg: Config)
    ensures Booted(cfg, Initial(cfg), {}) && {} + cfg.profiles.Keys == cfg.profiles.Keys && {} !! cfg.profiles.Keys
  {
  }

  lemma FilledCounts(cfg: Config, s: State, plan: Plan)
    requires Filled(cfg, s, plan, plan.Keys)
    ensures |RunningJobs(s.jobs)| == |plan| && |HeavyRunning(s.jobs)| == |HeavyOf(plan, plan.Keys)|
    ensures forall st :: |ReadsOn(s.jobs, st)| == |ReadsOf(plan, plan.Keys, st)|
  {
    hide Ok, OthersWait, RunningJobs, HeavyRunning, ReadsOn, HeavyOf, ReadsOf;
    assert |plan.Keys| == |plan|;
  }
}
