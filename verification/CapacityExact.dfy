/** The bounds of QueueCapacity are exact: fault-free runs in which they are reached. */
module CapacityExact {
  import opened Wrappers
  import opened JobQueue
  import opened WorkerFleet
  import opened QueueSafety
  import opened QueueSlots
  import opened QueueCapacity
  import LikePattern

  lemma {:induction false} SubsetOfSize(all: set<SlotId>, n: nat) returns (some: set<SlotId>)
    requires n <= |all|
    ensures some <= all && |some| == n
    decreases n
  {
    if n == 0 {
      some := {};
    } else {
      var x :| x in all;
      var rest := SubsetOfSize(all - {x}, n - 1);
      some := rest + {x};
    }
  }

  // ------------------------------------------------------------------ heavy jobs

  /** A type of which the profile takes heavy jobs, if there is one. */
  function HeavyKind(lane: Lane): JobType {
    if TakesJob(lane, DerivedRefresh, 2) then DerivedRefresh
    else if TakesJob(lane, ImportUpload, 2) then ImportUpload
    else if TakesJob(lane, PreviewUpload, 2) then PreviewUpload
    else if TakesJob(lane, MigrateProject, 2) then MigrateProject
    else if TakesJob(lane, MigrateDataset, 2) then MigrateDataset
    else SourceRefresh
  }

  /** A heavy job for the slot; a refresh reads from a storage that no other slot's job reads. */
  function HeavyFor(cfg: Config, x: SlotId): Job
    requires x.name in cfg.profiles
  {
    var kind := HeavyKind(cfg.profiles[x.name].lane);
    NewJob(kind, 2, if kind.SourceRefresh? then Some(LikePattern.BareLabel(x.name, x.slot)) else None, 1, 0)
  }

  lemma HeavyFits(cfg: Config, x: SlotId)
    requires x in SlotsIn(cfg, HeavyProfiles(cfg))
    ensures x.name in cfg.profiles && Fits(cfg, x, HeavyFor(cfg, x)) && HeavyFor(cfg, x).weight == 2
  {
    var lane := cfg.profiles[x.name].lane;
    HeavyKindTaken(cfg, x.name);
    hide HeavyKind, TakesJob;
  }

  lemma HeavyKindTaken(cfg: Config, p: string)
    requires p in HeavyProfiles(cfg)
    ensures var kind := HeavyKind(cfg.profiles[p].lane);
      TakesJob(cfg.profiles[p].lane, kind, 2) && !kind.MetadataCleanup?
  {
    var kind: JobType :| TakesJob(cfg.profiles[p].lane, kind, 2);
    assert kind.PreviewUpload? || kind.ImportUpload? || kind.SourceRefresh? || kind.DerivedRefresh? || kind.MigrateProject? || kind.MigrateDataset?;
  }

  function HeavyPlan(cfg: Config, slots: set<SlotId>): Plan {
    map x | x in slots && x.name in cfg.profiles :: HeavyFor(cfg, x)
  }

  /** Each storage is read by at most one job of such a plan. */
  lemma HeavyReads(cfg: Config, slots: set<SlotId>, st: string)
    ensures |ReadsOf(HeavyPlan(cfg, slots), HeavyPlan(cfg, slots).Keys, st)| <= 1
  {
    var plan := HeavyPlan(cfg, slots);
    var readers := ReadsOf(plan, plan.Keys, st);
    if readers != {} {
      var x :| x in readers;
      forall y | y in readers ensures y == x {
        LikePattern.BareLabelInjective(x.name, x.slot, y.name, y.slot);
      }
      assert readers == {x};
    }
  }

  lemma HeavyPlanOk(cfg: Config, slots: set<SlotId>)
    requires slots <= SlotsIn(cfg, HeavyProfiles(cfg)) && |slots| <= cfg.caps.maxHeavy && cfg.caps.perStorage >= 1
    ensures PlanOk(cfg, HeavyPlan(cfg, slots)) && HeavyPlan(cfg, slots).Keys == slots
    ensures HeavyOf(HeavyPlan(cfg, slots), slots) == slots
  {
    var plan := HeavyPlan(cfg, slots);
    forall x | x in slots ensures x.name in cfg.profiles && Fits(cfg, x, HeavyFor(cfg, x)) && HeavyFor(cfg, x).weight == 2 {
      HeavyFits(cfg, x);
    }
    hide HeavyFor, Fits, SlotsIn, HeavyProfiles;
    assert plan.Keys == slots;
    assert HeavyOf(plan, slots) == slots;
    forall st ensures |ReadsOf(plan, plan.Keys, st)| <= cfg.caps.perStorage {
      HeavyReads(cfg, slots, st);
    }
  }

  /** As many other heavy slots as the cap allows work on heavy jobs; then an idle slot of the profile asks and is refused. */
  lemma SomeSlotIsRefused(cfg: Config, p: string) returns (s: State, i: nat, id: JobId)
    requires p in HeavyProfiles(cfg) && cfg.profiles[p].slots >= 1 && cfg.caps.perStorage >= 1
    requires cfg.caps.maxHeavy < |SlotsIn(cfg, HeavyProfiles(cfg))|
    ensures ReachableFaultFree(cfg, s) && Refused(cfg, s, p, i, id, 0)
  {
    hide *;
    var x := SlotId(p, 1);
    FirstSlot(cfg, p);
    var heavy := SlotsIn(cfg, HeavyProfiles(cfg));
    OneLess(heavy, x);
    var busy := SubsetOfSize(heavy - {x}, cfg.caps.maxHeavy);
    InLess(heavy, x, busy);
    HeavyPlanOk(cfg, busy);
    var plan := HeavyPlan(cfg, busy);
    var full := PlanRuns(cfg, plan);
    HeavyFits(cfg, x);
    s := Ask(cfg, full, plan, busy, x, HeavyFor(cfg, x));
    i, id := 0, IdOf(|busy|);
    RefusedAtCap(cfg, full, s, plan, busy, p);
  }

  lemma FirstSlot(cfg: Config, p: string)
    requires p in HeavyProfiles(cfg) && cfg.profiles[p].slots >= 1
    ensures SlotId(p, 1) in SlotsIn(cfg, HeavyProfiles(cfg)) && p in cfg.profiles
  {
  }

  lemma OneLess(all: set<SlotId>, x: SlotId)
    requires x in all
    ensures |all - {x}| == |all| - 1
  {
  }

  lemma InLess(all: set<SlotId>, x: SlotId, some: set<SlotId>)
    requires some <= all - {x}
    ensures some <= all && x !in some
  {
  }

  lemma RefusedAtCap(cfg: Config, full: State, s: State, plan: Plan, busy: set<SlotId>, p: string)
    requires p in cfg.profiles && plan == HeavyPlan(cfg, busy) && plan.Keys == busy && SlotId(p, 1) !in busy
    requires HeavyOf(plan, busy) == busy && |busy| == cfg.caps.maxHeavy && cfg.caps.perStorage >= 1
    requires Filled(cfg, full, plan, busy)
    requires IdOf(|busy|) !in full.jobs && s.jobs == full.jobs[IdOf(|busy|) := HeavyFor(cfg, SlotId(p, 1))]
    requires HasLoop(s, p, 0) && LoopOf(s, p, 0).Claiming?
    requires Fits(cfg, SlotId(p, 1), HeavyFor(cfg, SlotId(p, 1))) && HeavyFor(cfg, SlotId(p, 1)).weight == 2
    ensures Refused(cfg, s, p, 0, IdOf(|busy|), 0)
  {
    hide HeavyFor, HeavyPlan, Filled, RunningJobs, HeavyRunning, ReadsOn, IdOf, HeavyOf, ReadsOf, SlotsIn, WeightsOf;
    var j := HeavyFor(cfg, SlotId(p, 1));
    FilledParts(cfg, full, plan, busy);
    SameRunning(full.jobs, IdOf(|busy|), j);
    if j.storage.Some? { NobodyReads(cfg, plan, busy, p); }
  }

  lemma NobodyReads(cfg: Config, plan: Plan, busy: set<SlotId>, p: string)
    requires p in cfg.profiles && plan == HeavyPlan(cfg, busy) && plan.Keys == busy && SlotId(p, 1) !in busy
    requires HeavyFor(cfg, SlotId(p, 1)).storage.Some?
    ensures |ReadsOf(plan, busy, HeavyFor(cfg, SlotId(p, 1)).storage.value)| == 0
  {
    var readers := ReadsOf(plan, busy, HeavyFor(cfg, SlotId(p, 1)).storage.value);
    if readers != {} {
      var y :| y in readers;
      LikePattern.BareLabelInjective(p, 1, y.name, y.slot);
      assert false;
    }
  }

  /**
   * When heavy slots wait, exactly: for any profile that takes heavy jobs and has a slot, no fault-free reachable state turns
   * an idle slot of it away at the gate on heavy jobs if and only if the cap is at least the number of slots of all profiles
   * that take heavy jobs.
   */
  lemma HeavyGateIff(cfg: Config, p: string)
    requires ConfigOk(cfg) && p in HeavyProfiles(cfg) && cfg.profiles[p].slots >= 1 && cfg.caps.perStorage >= 1
    ensures NeverRefused(cfg, p) <==> |SlotsIn(cfg, HeavyProfiles(cfg))| <= cfg.caps.maxHeavy
  {
    hide SlotsIn, HeavyProfiles, ReachableFaultFree, Refused;
    if |SlotsIn(cfg, HeavyProfiles(cfg))| <= cfg.caps.maxHeavy {
      forall s, i, id, now | ReachableFaultFree(cfg, s) ensures !Refused(cfg, s, p, i, id, now) {
        EnoughCapacityRefusesNothing(cfg, s, p, i, id, now);
      }
    } else {
      var s, i, id := SomeSlotIsRefused(cfg, p);
      assert Refused(cfg, s, p, i, id, 0);
    }
  }

  // ------------------------------------------------------------------ readers of one storage

  /** Light refreshes in the slots of `fast`, heavy ones in the others, all from one storage. */
  function ReadPlan(fast: set<SlotId>, slow: set<SlotId>, st: string): Plan {
    map x | x in fast + slow :: NewJob(SourceRefresh, if x in fast then 0 else 2, Some(st), 1, 0)
  }

  lemma ReadPlanFits(cfg: Config, fast: set<SlotId>, slow: set<SlotId>, st: string, x: SlotId)
    requires fast <= SlotsIn(cfg, FastReaders(cfg)) && slow <= SlotsIn(cfg, SlowReaders(cfg)) && x in fast + slow
    ensures Fits(cfg, x, ReadPlan(fast, slow, st)[x])
  {
  }

  lemma ReadPlanCounts(fast: set<SlotId>, slow: set<SlotId>, st: string)
    requires fast !! slow
    ensures var plan := ReadPlan(fast, slow, st);
      && plan.Keys == fast + slow && HeavyOf(plan, plan.Keys) == slow
      && ReadsOf(plan, plan.Keys, st) == fast + slow && forall other :: other != st ==> ReadsOf(plan, plan.Keys, other) == {}
  {
  }

  lemma ReadersDiffer(cfg: Config)
    ensures SlotsIn(cfg, FastReaders(cfg)) !! SlotsIn(cfg, SlowReaders(cfg))
  {
    hide TakesJob;
  }

  lemma ReadPlanOk(cfg: Config, fast: set<SlotId>, slow: set<SlotId>, st: string)
    requires fast <= SlotsIn(cfg, FastReaders(cfg)) && slow <= SlotsIn(cfg, SlowReaders(cfg)) && fast !! slow
    requires |slow| <= cfg.caps.maxHeavy && |fast| + |slow| <= cfg.caps.perStorage
    ensures PlanOk(cfg, ReadPlan(fast, slow, st))
  {
    var plan := ReadPlan(fast, slow, st);
    ReadPlanCounts(fast, slow, st);
    forall x | x in plan ensures Fits(cfg, x, plan[x]) { ReadPlanFits(cfg, fast, slow, st, x); }
    hide ReadPlan, Fits, HeavyOf, ReadsOf, SlotsIn, FastReaders, SlowReaders;
    assert |fast + slow| == |fast| + |slow|;
  }

  /** ReadsBound is reached: a fault-free reachable state in which exactly so many jobs read from the storage. */
  lemma ReadsReached(cfg: Config, st: string) returns (s: State)
    ensures ReachableFaultFree(cfg, s) && |ReadsOn(s.jobs, st)| == ReadsBound(cfg)
  {
    var light, heavy := SlotsIn(cfg, FastReaders(cfg)), SlotsIn(cfg, SlowReaders(cfg));
    ReadersDiffer(cfg);
    hide SlotsIn, FastReaders, SlowReaders, ReachableFaultFree, ReadsOn;
    var n := ReadsBound(cfg);
    var fast := SubsetOfSize(light, Min(n, |light|));
    var slow := SubsetOfSize(heavy, n - |fast|);
    ReadPlanOk(cfg, fast, slow, st);
    ReadPlanCounts(fast, slow, st);
    hide ReadPlan, PlanOk, Filled, RunningJobs, HeavyRunning, HeavyOf, ReadsOf;
    s := PlanRuns(cfg, ReadPlan(fast, slow, st));
    assert |fast + slow| == |fast| + |slow|;
  }

  /** At most n jobs ever read from any one storage. */
  ghost predicate ReadsAtMost(cfg: Config, n: int) {
    forall s, st :: ReachableFaultFree(cfg, s) ==> |ReadsOn(s.jobs, st)| <= n
  }

  /** The bound on the readers of a storage is the least one. */
  lemma ReadsAtMostIff(cfg: Config, n: int)
    requires ConfigOk(cfg)
    ensures ReadsAtMost(cfg, n) <==> ReadsBound(cfg) <= n
  {
    hide ReachableFaultFree, ReadsOn, ReadsBound;
    if ReadsBound(cfg) <= n {
      forall s, st | ReachableFaultFree(cfg, s) ensures |ReadsOn(s.jobs, st)| <= n {
        ReadsWithinSlots(cfg, s, st);
      }
    } else {
      var s := ReadsReached(cfg, "");
      assert |ReadsOn(s.jobs, "")| > n;
    }
  }

  // ------------------------------------------------------------------ running jobs

  /** A light job for the slot; a refresh reads from a storage that no other slot's job reads. */
  function LightFor(cfg: Config, x: SlotId): Job
    requires x.name in cfg.profiles
  {
    var lane := cfg.profiles[x.name].lane;
    if TakesJob(lane, PreviewUpload, 0) then NewJob(PreviewUpload, 0, None, 1, 0)
    else if TakesJob(lane, ImportUpload, 1) then NewJob(ImportUpload, 1, None, 1, 0)
    else NewJob(SourceRefresh, 0, Some(LikePattern.BareLabel(x.name, x.slot)), 1, 0)
  }

  lemma LightFits(cfg: Config, x: SlotId)
    requires x in SlotsIn(cfg, LightProfiles(cfg))
    ensures x.name in cfg.profiles && Fits(cfg, x, LightFor(cfg, x)) && LightFor(cfg, x).weight != 2
  {
    hide LikePattern.BareLabel;
  }

  /** Light jobs in the slots of `light`, heavy ones in the others. */
  function WorkPlan(cfg: Config, light: set<SlotId>, heavy: set<SlotId>): Plan {
    map x | x in light + heavy && x.name in cfg.profiles :: if x in light then LightFor(cfg, x) else HeavyFor(cfg, x)
  }

  /** A job that reads has a storage of its own slot. */
  lemma OwnStorage(cfg: Config, light: set<SlotId>, heavy: set<SlotId>, x: SlotId)
    requires x in WorkPlan(cfg, light, heavy) && WorkPlan(cfg, light, heavy)[x].storage.Some?
    ensures WorkPlan(cfg, light, heavy)[x].storage.value == LikePattern.BareLabel(x.name, x.slot)
  {
    hide LikePattern.BareLabel, TakesJob, HeavyKind;
  }

  lemma WorkReads(cfg: Config, light: set<SlotId>, heavy: set<SlotId>, st: string)
    ensures |ReadsOf(WorkPlan(cfg, light, heavy), WorkPlan(cfg, light, heavy).Keys, st)| <= 1
  {
    var plan := WorkPlan(cfg, light, heavy);
    var readers := ReadsOf(plan, plan.Keys, st);
    hide LikePattern.BareLabel, WorkPlan;
    if readers != {} {
      var x :| x in readers;
      forall y | y in readers ensures y == x {
        OwnStorage(cfg, light, heavy, x);
        OwnStorage(cfg, light, heavy, y);
        LikePattern.BareLabelInjective(x.name, x.slot, y.name, y.slot);
      }
      assert readers == {x};
    }
  }

  lemma WorkPlanFits(cfg: Config, light: set<SlotId>, heavy: set<SlotId>, x: SlotId)
    requires light <= SlotsIn(cfg, LightProfiles(cfg)) && heavy <= SlotsIn(cfg, HeavyProfiles(cfg))
            && x in light + heavy
    ensures x in WorkPlan(cfg, light, heavy) && Fits(cfg, x, WorkPlan(cfg, light, heavy)[x])
    ensures x in light ==> WorkPlan(cfg, light, heavy)[x].weight != 2
  {
    if x in light { LightFits(cfg, x); } else { HeavyFits(cfg, x); }
    hide LightFor, HeavyFor, Fits, SlotsIn, LightProfiles, HeavyProfiles;
  }

  lemma WorkPlanOk(cfg: Config, light: set<SlotId>, heavy: set<SlotId>)
    requires light <= SlotsIn(cfg, LightProfiles(cfg)) && heavy <= SlotsIn(cfg, HeavyProfiles(cfg)) && light !! heavy
    requires |heavy| <= cfg.caps.maxHeavy && cfg.caps.perStorage >= 1
    ensures PlanOk(cfg, WorkPlan(cfg, light, heavy)) && |WorkPlan(cfg, light, heavy)| == |light| + |heavy|
  {
    var plan := WorkPlan(cfg, light, heavy);
    forall x | x in light + heavy ensures x in plan && Fits(cfg, x, plan[x]) && (x in light ==> plan[x].weight != 2) {
      WorkPlanFits(cfg, light, heavy, x);
    }
    PlanWithin(cfg, light, heavy);
    hide WorkPlan, LightFor, HeavyFor, Fits, SlotsIn, LightProfiles, HeavyProfiles;
    assert plan.Keys == light + heavy;
    assert |plan.Keys| == |plan| && |light + heavy| == |light| + |heavy|;
    SubsetSize(HeavyOf(plan, plan.Keys), heavy);
    forall st ensures |ReadsOf(plan, plan.Keys, st)| <= cfg.caps.perStorage {
      WorkReads(cfg, light, heavy, st);
    }
  }

  lemma PlanWithin(cfg: Config, light: set<SlotId>, heavy: set<SlotId>)
    ensures WorkPlan(cfg, light, heavy).Keys <= light + heavy
  {
  }

  lemma LightAndHeavyDiffer(cfg: Config)
    ensures SlotsIn(cfg, LightProfiles(cfg)) !! SlotsIn(cfg, HeavyOnly(cfg))
    ensures SlotsIn(cfg, HeavyOnly(cfg)) <= SlotsIn(cfg, HeavyProfiles(cfg))
  {
    hide TakesLight, HeavyProfiles;
  }

  /** WorkBound is reached: a fault-free reachable state in which exactly so many jobs besides the cleanup run. */
  lemma WorkReached(cfg: Config) returns (s: State)
    requires cfg.caps.perStorage >= 1
    ensures ReachableFaultFree(cfg, s) && |Work(s.jobs)| == WorkBound(cfg)
  {
    var light, heavy := SlotsIn(cfg, LightProfiles(cfg)), SlotsIn(cfg, HeavyOnly(cfg));
    LightAndHeavyDiffer(cfg);
    hide SlotsIn, LightProfiles, HeavyOnly, HeavyProfiles, ReachableFaultFree, RunningJobs, Work, WorkPlan, PlanOk, Filled, HeavyRunning,
      HeavyOf, ReadsOn, ReadsOf;
    var some := SubsetOfSize(heavy, Min(|heavy|, cfg.caps.maxHeavy));
    WorkPlanOk(cfg, light, some);
    s := PlanRuns(cfg, WorkPlan(cfg, light, some));
    FilledIsWork(cfg, s, WorkPlan(cfg, light, some));
  }

  lemma FilledIsWork(cfg: Config, s: State, plan: Plan)
    requires Filled(cfg, s, plan, plan.Keys)
    ensures |Work(s.jobs)| == |plan|
  {
    FilledCounts(cfg, s, plan);
    assert Work(s.jobs) == RunningJobs(s.jobs);
  }

  /** At most n jobs besides the cleanup ever run at once. */
  ghost predicate WorkAtMost(cfg: Config, n: int) {
    forall s :: ReachableFaultFree(cfg, s) ==> |Work(s.jobs)| <= n
  }

  lemma WorkAtMostIff(cfg: Config, n: int)
    requires ConfigOk(cfg) && cfg.caps.perStorage >= 1
    ensures WorkAtMost(cfg, n) <==> WorkBound(cfg) <= n
  {
    hide ReachableFaultFree, Work, WorkBound;
    if WorkBound(cfg) <= n {
      forall s | ReachableFaultFree(cfg, s) ensures |Work(s.jobs)| <= n {
        WorkWithinSlots(cfg, s);
      }
    } else {
      var s := WorkReached(cfg);
      assert |Work(s.jobs)| > n;
    }
  }
}
