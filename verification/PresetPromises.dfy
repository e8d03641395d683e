/** What the screen promises about a capacity (src/lib/worker-presets.ts:201-245), and when the workers keep it. */
module PresetPromises {
  import opened Wrappers
  import opened JobQueue
  import opened WorkerFleet
  import opened QueueSafety
  import opened QueueSlots
  import opened QueueCapacity
  import opened CapacityExact
  import opened Presets

  // ------------------------------------------------------------------ summary

  function SlotsFor(cap: Capacity, name: string): real {
    if name in cap.slots then cap.slots[name] else 0.0
  }

  function SyncSlots(cap: Capacity): real {
    SlotsFor(cap, SYNC) + SlotsFor(cap, SYNC_LONG)
  }

  function UploadSlots(cap: Capacity): real {
    SlotsFor(cap, UPLOADS) + SlotsFor(cap, UPLOADS_HEAVY)
  }

  function HeavyLaneSlots(cap: Capacity): real {
    SlotsFor(cap, SYNC_LONG) + SlotsFor(cap, UPLOADS_HEAVY)
  }

  ghost function SumOver(slots: map<string, real>, names: set<string>): real
    requires names <= slots.Keys
  {
    if names == {} then 0.0 else
      var n :| n in names;
      slots[n] + SumOver(slots, names - {n})
  }

  /** The slots of the lanes plus those of all other profiles that are listed. */
  ghost function MaxConcurrent(cap: Capacity): real {
    SlotsFor(cap, SYNC) + SlotsFor(cap, SYNC_LONG) + SlotsFor(cap, UPLOADS) + SlotsFor(cap, UPLOADS_HEAVY)
    + SumOver(cap.slots, cap.slots.Keys - LaneSet())
  }

  function LaneSet(): set<string> {
    {SYNC, SYNC_LONG, UPLOADS, UPLOADS_HEAVY}
  }

  function MaxReadsPerStorage(cap: Capacity): real {
    if cap.perStorage < SyncSlots(cap) then cap.perStorage else SyncSlots(cap)
  }

  /** Estimated peak memory in tenths of a gigabyte: 0.5 GB, 3.5 GB per upload slot, 0.7 GB per sync slot, rounded half up. */
  function MemoryPeak(cap: Capacity): int {
    (5.0 + 35.0 * UploadSlots(cap) + 7.0 * SyncSlots(cap) + 0.5).Floor
  }

  // ------------------------------------------------------------------ validation

  /** A number of slots that a lane can have. */
  predicate WholeAndPositive(x: real) {
    x == x.Floor as real && x >= 1.0
  }

  datatype Warning = HeavyCapBelowLanes | HeavyCapBelowSync | ReadsAboveSlots | MemoryAboveLimit

  /** memoryLimit is in tenths of a gigabyte. */
  predicate Applies(w: Warning, cap: Capacity, memoryLimit: real) {
    match w
    case HeavyCapBelowLanes => cap.lanes && cap.maxHeavy < HeavyLaneSlots(cap)
    case HeavyCapBelowSync => !cap.lanes && SYNC in cap.slots && cap.maxHeavy < cap.slots[SYNC]
    case ReadsAboveSlots => SyncSlots(cap) > 0.0 && cap.perStorage > SyncSlots(cap)
    case MemoryAboveLimit => memoryLimit > 0.0 && MemoryPeak(cap) as real > memoryLimit
  }

  /** errors are the lanes whose number of slots is a fraction or less than one; a memory limit of 0 means none was given. */
  method ValidateCapacity(cap: Capacity, memoryLimit: real) returns (errors: seq<string>, warnings: seq<Warning>)
    ensures forall name :: name in errors <==> name in LaneNames() && name in cap.slots && !WholeAndPositive(cap.slots[name])
    ensures forall w :: w in warnings <==> Applies(w, cap, memoryLimit)
    // in numbers
    ensures forall name :: name in errors <==>
      name in [SYNC, SYNC_LONG, UPLOADS, UPLOADS_HEAVY] && name in cap.slots
      && !(cap.slots[name] >= 1.0 && cap.slots[name].Floor as real == cap.slots[name])
    ensures
      var sync, syncLong := if SYNC in cap.slots then cap.slots[SYNC] else 0.0, if SYNC_LONG in cap.slots then cap.slots[SYNC_LONG] else 0.0;
      var uploads, uploadsHeavy :=
        if UPLOADS in cap.slots then cap.slots[UPLOADS] else 0.0, if UPLOADS_HEAVY in cap.slots then cap.slots[UPLOADS_HEAVY] else 0.0;
      && (HeavyCapBelowLanes in warnings <==> cap.lanes && cap.maxHeavy < syncLong + uploadsHeavy)
      && (HeavyCapBelowSync in warnings <==> !cap.lanes && SYNC in cap.slots && cap.maxHeavy < sync)
      && (ReadsAboveSlots in warnings <==> sync + syncLong > 0.0 && cap.perStorage > sync + syncLong)
      && (MemoryAboveLimit in warnings <==>
          memoryLimit > 0.0 && (35.0 * (uploads + uploadsHeavy) + 7.0 * (sync + syncLong) + 5.5).Floor as real > memoryLimit)
  {
    WarningsInNumbers(cap, memoryLimit);
    assert LaneNames() == [SYNC, SYNC_LONG, UPLOADS, UPLOADS_HEAVY];
    errors, warnings := [], [];
    var lanes := LaneNames();
    hide LaneNames;
    for i := 0 to |lanes|
      invariant forall name :: name in errors <==> name in lanes[..i] && name in cap.slots && !WholeAndPositive(cap.slots[name])
    {
      assert lanes[..i + 1] == lanes[..i] + [lanes[i]];
      if lanes[i] in cap.slots {
        var slots := cap.slots[lanes[i]];
        if slots != slots.Floor as real || slots < 1.0 { errors := errors + [lanes[i]]; }
      }
    }
    assert lanes[..|lanes|] == lanes;
    warnings := Warn(cap, memoryLimit);
  }

  lemma WarningsInNumbers(cap: Capacity, memoryLimit: real)
    ensures
      var sync, syncLong := if SYNC in cap.slots then cap.slots[SYNC] else 0.0, if SYNC_LONG in cap.slots then cap.slots[SYNC_LONG] else 0.0;
      var uploads, uploadsHeavy :=
        if UPLOADS in cap.slots then cap.slots[UPLOADS] else 0.0, if UPLOADS_HEAVY in cap.slots then cap.slots[UPLOADS_HEAVY] else 0.0;
      && (Applies(HeavyCapBelowLanes, cap, memoryLimit) <==> cap.lanes && cap.maxHeavy < syncLong + uploadsHeavy)
      && (Applies(HeavyCapBelowSync, cap, memoryLimit) <==> !cap.lanes && SYNC in cap.slots && cap.maxHeavy < sync)
      && (Applies(ReadsAboveSlots, cap, memoryLimit) <==> sync + syncLong > 0.0 && cap.perStorage > sync + syncLong)
      && (Applies(MemoryAboveLimit, cap, memoryLimit) <==>
          memoryLimit > 0.0 && (35.0 * (uploads + uploadsHeavy) + 7.0 * (sync + syncLong) + 5.5).Floor as real > memoryLimit)
  {
  }

  method Warn(cap: Capacity, memoryLimit: real) returns (warnings: seq<Warning>)
    ensures forall w :: w in warnings <==> Applies(w, cap, memoryLimit)
  {
    hide SlotsFor;
    warnings := [];
    if cap.lanes {
      if cap.maxHeavy < HeavyLaneSlots(cap) { warnings := warnings + [HeavyCapBelowLanes]; }
    } else if SYNC in cap.slots && cap.maxHeavy < cap.slots[SYNC] {
      warnings := warnings + [HeavyCapBelowSync];
    }
    if SyncSlots(cap) > 0.0 && cap.perStorage > SyncSlots(cap) { warnings := warnings + [ReadsAboveSlots]; }
    if memoryLimit > 0.0 && MemoryPeak(cap) as real > memoryLimit { warnings := warnings + [MemoryAboveLimit]; }
  }

  /** Every preset passes its own checks: no error and, without a memory limit, no warning. */
  method PresetsPass(id: PresetId) returns (errors: seq<string>, warnings: seq<Warning>)
    ensures errors == [] && warnings == []
  {
    errors, warnings := ValidateCapacity(PresetOf(id), 0.0);
    PresetsApplyNoWarning(id);
    if errors != [] { SomeMember(errors); }
    if warnings != [] { SomeMember(warnings); }
  }

  lemma SomeMember<T>(s: seq<T>)
    requires s != []
    ensures exists x :: x in s
  {
    assert s[0] in s;
  }

  lemma PresetsApplyNoWarning(id: PresetId)
    ensures forall w :: !Applies(w, PresetOf(id), 0.0)
    ensures forall name :: name in PresetOf(id).slots ==> WholeAndPositive(PresetOf(id).slots[name])
  {
  }

  // ------------------------------------------------------------------ counting slots

  function SlotsOfOne(p: string, n: nat): set<SlotId> {
    set i: nat | 1 <= i <= n :: SlotId(p, i)
  }

  lemma {:induction false} CountSlots(p: string, n: nat)
    ensures |SlotsOfOne(p, n)| == n
  {
    if n > 0 {
      CountSlots(p, n - 1);
      assert SlotsOfOne(p, n) == SlotsOfOne(p, n - 1) + {SlotId(p, n)};
    } else {
      assert SlotsOfOne(p, 0) == {};
    }
  }

  lemma SlotsInOneMore(cfg: Config, names: set<string>, p: string)
    requires p in cfg.profiles && p !in names
    ensures |SlotsIn(cfg, names + {p})| == |SlotsIn(cfg, names)| + cfg.profiles[p].slots
  {
    var a, b := SlotsIn(cfg, names), SlotsOfOne(p, cfg.profiles[p].slots);
    CountSlots(p, cfg.profiles[p].slots);
    assert SlotsIn(cfg, names + {p}) == a + b;
    assert a !! b;
  }

  lemma NoSlotsInNone(cfg: Config)
    ensures |SlotsIn(cfg, {})| == 0
  {
    assert SlotsIn(cfg, {}) == {};
  }

  lemma {:induction false} SumCountsSlots(cfg: Config, slots: map<string, real>, names: set<string>)
    requires names <= slots.Keys && names <= cfg.profiles.Keys && forall p :: p in names ==> slots[p] == cfg.profiles[p].slots as real
    ensures |SlotsIn(cfg, names)| as real == SumOver(slots, names)
    decreases names
  {
    hide SlotsIn;
    if names == {} {
      NoSlotsInNone(cfg);
    } else {
      var n :| n in names && SumOver(slots, names) == slots[n] + SumOver(slots, names - {n});
      SumCountsSlots(cfg, slots, names - {n});
      SlotsInOneMore(cfg, names - {n}, n);
      assert names - {n} + {n} == names;
    }
  }

  lemma MoreNamesMoreSlots(cfg: Config, some: set<string>, all: set<string>)
    requires some <= all
    ensures |SlotsIn(cfg, some)| <= |SlotsIn(cfg, all)|
  {
    SubsetSize(SlotsIn(cfg, some), SlotsIn(cfg, all));
  }

  // ------------------------------------------------------------------ a configuration with the four lanes

  predicate IsLane(cfg: Config, lane: LaneSpec) {
    lane.name in cfg.profiles && cfg.profiles[lane.name].lane == Lane(lane.types, lane.weights)
  }

  /**
   * The workers run with this capacity: the four lanes are configured and listed. There may be any other profiles, listed
   * or not; whatever is listed has the slots that it is listed with.
   */
  ghost predicate Configured(cfg: Config, cap: Capacity) {
    && ConfigOk(cfg) && cap.lanes && cfg.caps.perStorage >= 1
    && cap.maxHeavy == cfg.caps.maxHeavy as real && cap.perStorage == cfg.caps.perStorage as real
    && LaneSet() <= cap.slots.Keys <= cfg.profiles.Keys
    && (forall p :: p in cap.slots ==> cap.slots[p] == cfg.profiles[p].slots as real && cfg.profiles[p].slots >= 1)
    && IsLane(cfg, LANES[0]) && IsLane(cfg, LANES[1]) && IsLane(cfg, LANES[2]) && IsLane(cfg, LANES[3])
  }

  lemma NamesDiffer()
    ensures SYNC != SYNC_LONG && SYNC != UPLOADS && SYNC != UPLOADS_HEAVY
    ensures SYNC_LONG != UPLOADS && SYNC_LONG != UPLOADS_HEAVY && UPLOADS != UPLOADS_HEAVY
  {
    assert |SYNC| == 11 && |SYNC_LONG| == 16 && |UPLOADS| == 14 && |UPLOADS_HEAVY| == 20;
  }

  /** What the four lanes take. */
  lemma LanesTake(cfg: Config, cap: Capacity)
    requires Configured(cfg, cap)
    ensures forall p :: p in LaneSet() ==> p in cfg.profiles && p in cap.slots
    ensures forall p :: p in LaneSet() ==> (p in HeavyProfiles(cfg) <==> p == SYNC_LONG || p == UPLOADS_HEAVY)
    ensures SYNC in FastReaders(cfg) && SYNC_LONG in SlowReaders(cfg)
    ensures UPLOADS !in FastReaders(cfg) + SlowReaders(cfg) && UPLOADS_HEAVY !in FastReaders(cfg) + SlowReaders(cfg)
  {
    NamesDiffer();
    LightLanes();
    assert TakesJob(cfg.profiles[SYNC_LONG].lane, DerivedRefresh, 2)
            && TakesJob(cfg.profiles[UPLOADS_HEAVY].lane, ImportUpload, 2);
    assert cfg.profiles[SYNC].lane == Lane(LANES[0].types, LANES[0].weights);
    assert cfg.profiles[UPLOADS].lane == Lane(LANES[2].types, LANES[2].weights);
  }

  lemma LightLanes()
    ensures forall kind :: !TakesJob(Lane(LANES[0].types, LANES[0].weights), kind, 2)
    ensures forall kind :: !TakesJob(Lane(LANES[2].types, LANES[2].weights), kind, 2)
  {
    assert 0 in LANES[0].weights && 2 !in LANES[0].weights && 0 in LANES[2].weights && 2 !in LANES[2].weights;
  }

  lemma TwoLanes(cfg: Config, cap: Capacity, a: string, b: string)
    requires Configured(cfg, cap) && a in cap.slots && b in cap.slots && a != b
    ensures |SlotsIn(cfg, {a, b})| as real == SlotsFor(cap, a) + SlotsFor(cap, b)
  {
    hide SlotsIn;
    NoSlotsInNone(cfg);
    SlotsInOneMore(cfg, {}, a);
    SlotsInOneMore(cfg, {a}, b);
    assert {} + {a} == {a} && {a} + {b} == {a, b};
  }

  lemma ListedSlots(cfg: Config, cap: Capacity)
    requires Configured(cfg, cap)
    ensures |SlotsIn(cfg, cap.slots.Keys)| as real == MaxConcurrent(cap)
  {
    var others := cap.slots.Keys - LaneSet();
    FourMoreNames(cfg, others);
    assert others + LaneSet() == cap.slots.Keys;
    SumCountsSlots(cfg, cap.slots, others);
    hide SlotsIn, SumOver;
  }

  lemma FourMoreNames(cfg: Config, others: set<string>)
    requires LaneSet() <= cfg.profiles.Keys && others !! LaneSet()
    ensures |SlotsIn(cfg, others + LaneSet())| == |SlotsIn(cfg, others)| + cfg.profiles[SYNC].slots + cfg.profiles[SYNC_LONG].slots
                                                + cfg.profiles[UPLOADS].slots + cfg.profiles[UPLOADS_HEAVY].slots
  {
    NamesDiffer();
    hide SlotsIn;
    var a := others + {SYNC};
    var b := a + {SYNC_LONG};
    var c := b + {UPLOADS};
    SlotsInOneMore(cfg, others, SYNC);
    SlotsInOneMore(cfg, a, SYNC_LONG);
    SlotsInOneMore(cfg, b, UPLOADS);
    SlotsInOneMore(cfg, c, UPLOADS_HEAVY);
    assert others + LaneSet() == c + {UPLOADS_HEAVY};
  }

  // ------------------------------------------------------------------ how many jobs run

  /** Without faults no more jobs run at a time than the summary of a capacity that lists every profile says. */
  lemma NeverMoreThanMaxConcurrent(cfg: Config, cap: Capacity, es: seq<Event>)
    requires Configured(cfg, cap) && cap.slots.Keys == cfg.profiles.Keys
    requires Feasible(cfg, Initial(cfg), es) && FaultFreeRun(es)
    ensures |RunningJobs(Run(cfg, Initial(cfg), es).jobs)| as real <= MaxConcurrent(cap)
  {
    ListedSlots(cfg, cap);
    hide SlotsIn, MaxConcurrent, Feasible, Run, FaultFreeRun, RunningJobs;
    RunningWithinSlots(cfg, es);
  }

  /** The jobs that run at once, besides the cleanup, never exceed the summary. */
  ghost predicate KeepsMaxConcurrent(cfg: Config, cap: Capacity) {
    forall s :: ReachableFaultFree(cfg, s) ==> |Work(s.jobs)| as real <= MaxConcurrent(cap)
  }

  /** For a capacity that may leave profiles out, exactly when the summary still holds. */
  lemma MaxConcurrentIff(cfg: Config, cap: Capacity)
    requires Configured(cfg, cap)
    ensures KeepsMaxConcurrent(cfg, cap) <==> WorkBound(cfg) as real <= MaxConcurrent(cap)
  {
    ListedSlots(cfg, cap);
    hide ReachableFaultFree, Work, WorkBound, MaxConcurrent, SlotsIn;
    WorkAtMostIff(cfg, |SlotsIn(cfg, cap.slots.Keys)|);
  }

  // ------------------------------------------------------------------ how many jobs read from one storage

  ghost predicate KeepsMaxReads(cfg: Config, cap: Capacity) {
    forall s, st :: ReachableFaultFree(cfg, s) ==> |ReadsOn(s.jobs, st)| as real <= MaxReadsPerStorage(cap)
  }

  /** The readers of one storage never exceed the summary exactly when all slots that can read are counted in. */
  lemma MaxReadsIff(cfg: Config, cap: Capacity)
    requires Configured(cfg, cap)
    ensures KeepsMaxReads(cfg, cap) <==> ReadsBound(cfg) as real <= MaxReadsPerStorage(cap)
  {
    NamesDiffer();
    TwoLanes(cfg, cap, SYNC, SYNC_LONG);
    hide ReachableFaultFree, ReadsOn, ReadsBound, SlotsIn;
    ReadsAtMostIff(cfg, Min(cfg.caps.perStorage, |SlotsIn(cfg, {SYNC, SYNC_LONG})|));
  }

  /** No profile but the lanes takes source refreshes. */
  predicate OnlyLanesRead(cfg: Config) {
    FastReaders(cfg) + SlowReaders(cfg) <= LaneSet()
  }

  /** Then the summary holds. */
  lemma NeverMoreReadsThanPromised(cfg: Config, cap: Capacity)
    requires Configured(cfg, cap) && OnlyLanesRead(cfg)
    ensures KeepsMaxReads(cfg, cap)
  {
    LanesTake(cfg, cap);
    NamesDiffer();
    assert FastReaders(cfg) + SlowReaders(cfg) <= {SYNC, SYNC_LONG};
    TwoLanes(cfg, cap, SYNC, SYNC_LONG);
    ReadersFit(cfg, {SYNC, SYNC_LONG});
    hide FastReaders, SlowReaders, SlotsIn, KeepsMaxReads, Configured;
    MaxReadsIff(cfg, cap);
  }

  lemma ReadersFit(cfg: Config, names: set<string>)
    requires FastReaders(cfg) + SlowReaders(cfg) <= names
    ensures |SlotsIn(cfg, FastReaders(cfg))| + |SlotsIn(cfg, SlowReaders(cfg))| <= |SlotsIn(cfg, names)|
  {
    ReadersDiffer(cfg);
    hide FastReaders, SlowReaders;
    var a, b := SlotsIn(cfg, FastReaders(cfg)), SlotsIn(cfg, SlowReaders(cfg));
    SubsetSize(a + b, SlotsIn(cfg, names));
    assert |a + b| == |a| + |b|;
  }

  // ------------------------------------------------------------------ the warning on heavy jobs

  /** The idle slots of the heavy lanes are never turned away by the cap on heavy jobs. */
  ghost predicate HeavyLanesNeverRefused(cfg: Config) {
    NeverRefused(cfg, SYNC_LONG) && NeverRefused(cfg, UPLOADS_HEAVY)
  }

  /**
   * With the four lanes configured and any other profiles: the slots of the heavy lanes are never turned away exactly when
   * the cap covers the slots of all profiles that take heavy jobs. The warning compares it with the two lanes only, so it
   * tells the truth if and only if the cap does not lie between the two.
   */
  lemma HeavyWarningIsExact(cfg: Config, cap: Capacity, memoryLimit: real)
    requires Configured(cfg, cap)
    ensures HeavyLanesNeverRefused(cfg) <==> |SlotsIn(cfg, HeavyProfiles(cfg))| <= cfg.caps.maxHeavy
    ensures (!Applies(HeavyCapBelowLanes, cap, memoryLimit) <==> HeavyLanesNeverRefused(cfg))
       <==> !(HeavyLaneSlots(cap) <= cap.maxHeavy && cfg.caps.maxHeavy < |SlotsIn(cfg, HeavyProfiles(cfg))|)
  {
    LanesTake(cfg, cap);
    NamesDiffer();
    TwoLanes(cfg, cap, SYNC_LONG, UPLOADS_HEAVY);
    MoreNamesMoreSlots(cfg, {SYNC_LONG, UPLOADS_HEAVY}, HeavyProfiles(cfg));
    hide SlotsIn, HeavyProfiles, NeverRefused, SlotsFor, FastReaders, SlowReaders;
    HeavyGateIff(cfg, SYNC_LONG);
    HeavyGateIff(cfg, UPLOADS_HEAVY);
  }

  /** When no other profile takes heavy jobs the warning always tells the truth. */
  lemma HeavyWarningHolds(cfg: Config, cap: Capacity, memoryLimit: real)
    requires Configured(cfg, cap) && HeavyProfiles(cfg) <= LaneSet()
    ensures !Applies(HeavyCapBelowLanes, cap, memoryLimit) <==> HeavyLanesNeverRefused(cfg)
  {
    LanesTake(cfg, cap);
    NamesDiffer();
    TwoLanes(cfg, cap, SYNC_LONG, UPLOADS_HEAVY);
    assert HeavyProfiles(cfg) == {SYNC_LONG, UPLOADS_HEAVY};
    hide SlotsIn, HeavyProfiles, HeavyLanesNeverRefused, FastReaders, SlowReaders;
    HeavyWarningIsExact(cfg, cap, memoryLimit);
  }

  // ------------------------------------------------------------------ one more profile

  const REPORTS := "worker-relatorios"

  /** The lanes with one slot each, the default caps, and a profile for source refreshes with the default weights, any. */
  const WITH_REPORTS := Config(
    map[SYNC := Profile(Lane(LANES[0].types, LANES[0].weights), 1), SYNC_LONG := Profile(Lane(LANES[1].types, LANES[1].weights), 1),
        UPLOADS := Profile(Lane(LANES[2].types, LANES[2].weights), 1), UPLOADS_HEAVY := Profile(Lane(LANES[3].types, LANES[3].weights), 1),
        REPORTS := Profile(Lane({SourceRefresh}, {}), 1)],
    Caps(2, 3))

  /** The capacity that the screen shows for it: it lists the lanes only. */
  const SHOWN := Capacity(FourSlots(1.0, 1.0, 1.0, 1.0), true, 2.0, 3.0, 150.0)

  lemma ReportsIsNoLane()
    ensures REPORTS !in LaneSet() && '@' !in SYNC + SYNC_LONG + UPLOADS + UPLOADS_HEAVY + REPORTS
  {
    assert |REPORTS| == 17 && |SYNC| == 11 && |SYNC_LONG| == 16 && |UPLOADS| == 14 && |UPLOADS_HEAVY| == 20;
  }

  lemma ShownIsConfigured()
    ensures Configured(WITH_REPORTS, SHOWN) && MaxConcurrent(SHOWN) == 4.0 && MaxReadsPerStorage(SHOWN) == 2.0
    ensures !Applies(HeavyCapBelowLanes, SHOWN, 0.0)
  {
    NamesDiffer();
    ReportsIsNoLane();
    assert '@' !in SYNC && '@' !in SYNC_LONG && '@' !in UPLOADS && '@' !in UPLOADS_HEAVY && '@' !in REPORTS;
    assert SHOWN.slots.Keys - LaneSet() == {};
  }

  lemma ProfilesWithReports()
    ensures {SYNC_LONG, UPLOADS_HEAVY, REPORTS} <= HeavyProfiles(WITH_REPORTS)
    ensures {SYNC, REPORTS} <= FastReaders(WITH_REPORTS) && {SYNC_LONG} <= SlowReaders(WITH_REPORTS)
    ensures {SYNC, UPLOADS, REPORTS} <= LightProfiles(WITH_REPORTS)
            && {SYNC_LONG, UPLOADS_HEAVY} <= HeavyOnly(WITH_REPORTS)
  {
    NamesDiffer();
    ReportsIsNoLane();
    var c := WITH_REPORTS.profiles;
    assert TakesJob(c[SYNC_LONG].lane, DerivedRefresh, 2) && TakesJob(c[UPLOADS_HEAVY].lane, ImportUpload, 2);
    assert TakesJob(c[REPORTS].lane, SourceRefresh, 2);
  }

  /** Slots of some profiles that have one each. */
  lemma {:induction false} OneEach(names: set<string>)
    requires names <= WITH_REPORTS.profiles.Keys
    ensures |SlotsIn(WITH_REPORTS, names)| == |names|
    decreases names
  {
    hide SlotsIn;
    if names == {} {
      NoSlotsInNone(WITH_REPORTS);
    } else {
      var p :| p in names;
      OneEach(names - {p});
      SlotsInOneMore(WITH_REPORTS, names - {p}, p);
      assert names - {p} + {p} == names;
    }
  }

  /**
   * With one more profile, of a kind that can be created in the settings, no promise holds though no warning is shown: in
   * fault-free reachable states an idle slot of the long sync lane is turned away by the cap, more jobs read from one storage
   * than the summary says, and more jobs run.
   */
  lemma OneMoreProfileBreaksThePromises() returns (s: State, i: nat, id: JobId, r: State, w: State)
    ensures Configured(WITH_REPORTS, SHOWN) && !Applies(HeavyCapBelowLanes, SHOWN, 0.0)
    ensures ReachableFaultFree(WITH_REPORTS, s) && Refused(WITH_REPORTS, s, SYNC_LONG, i, id, 0)
    ensures ReachableFaultFree(WITH_REPORTS, r) && |ReadsOn(r.jobs, "erp")| as real > MaxReadsPerStorage(SHOWN)
    ensures ReachableFaultFree(WITH_REPORTS, w) && |Work(w.jobs)| as real > MaxConcurrent(SHOWN)
  {
    ShownIsConfigured();
    ProfilesWithReports();
    NamesDiffer();
    ReportsIsNoLane();
    CountedSlots();
    hide SlotsIn, HeavyProfiles, FastReaders, SlowReaders, LightProfiles, HeavyOnly, ReachableFaultFree, Refused, ReadsOn, Work;
    s, i, id := SomeSlotIsRefused(WITH_REPORTS, SYNC_LONG);
    r := ReadsReached(WITH_REPORTS, "erp");
    w := WorkReached(WITH_REPORTS);
  }

  lemma CountedSlots()
    ensures |SlotsIn(WITH_REPORTS, HeavyProfiles(WITH_REPORTS))| >= 3
    ensures |SlotsIn(WITH_REPORTS, FastReaders(WITH_REPORTS))| >= 2
            && |SlotsIn(WITH_REPORTS, SlowReaders(WITH_REPORTS))| >= 1
    ensures |SlotsIn(WITH_REPORTS, LightProfiles(WITH_REPORTS))| >= 3
            && |SlotsIn(WITH_REPORTS, HeavyOnly(WITH_REPORTS))| >= 2
  {
    ProfilesWithReports();
    NamesDiffer();
    ReportsIsNoLane();
    hide SlotsIn, HeavyProfiles, FastReaders, SlowReaders, LightProfiles, HeavyOnly;
    OneEach({SYNC_LONG, UPLOADS_HEAVY, REPORTS});
    OneEach({SYNC, REPORTS});
    OneEach({SYNC_LONG});
    OneEach({SYNC, UPLOADS, REPORTS});
    OneEach({SYNC_LONG, UPLOADS_HEAVY});
    MoreNamesMoreSlots(WITH_REPORTS, {SYNC_LONG, UPLOADS_HEAVY, REPORTS}, HeavyProfiles(WITH_REPORTS));
    MoreNamesMoreSlots(WITH_REPORTS, {SYNC, REPORTS}, FastReaders(WITH_REPORTS));
    MoreNamesMoreSlots(WITH_REPORTS, {SYNC_LONG}, SlowReaders(WITH_REPORTS));
    MoreNamesMoreSlots(WITH_REPORTS, {SYNC, UPLOADS, REPORTS}, LightProfiles(WITH_REPORTS));
    MoreNamesMoreSlots(WITH_REPORTS, {SYNC_LONG, UPLOADS_HEAVY}, HeavyOnly(WITH_REPORTS));
  }
}
