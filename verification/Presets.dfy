/** Capacity presets (src/lib/worker-presets.ts): lanes, the preset that matches, what a preset changes, and its checks. */
module Presets {
  import opened Wrappers
  import opened JobQueue

  /** A lane is a worker profile that takes certain types and weights. */
  datatype LaneSpec = LaneSpec(name: string, types: set<JobType>, weights: set<int>)

  const SYNC := "worker-sync"
  const SYNC_LONG := "worker-sync-long"
  const UPLOADS := "worker-uploads"
  const UPLOADS_HEAVY := "worker-uploads-heavy"

  const LANES: seq<LaneSpec> := [
    LaneSpec(SYNC, {SourceRefresh, MetadataCleanup}, {0, 1}),
    LaneSpec(SYNC_LONG, {SourceRefresh, DerivedRefresh, MigrateProject, MigrateDataset}, {2}),
    LaneSpec(UPLOADS, {PreviewUpload, ImportUpload}, {0, 1}),
    LaneSpec(UPLOADS_HEAVY, {PreviewUpload, ImportUpload}, {2})]

  function LaneNames(): seq<string> {
    [SYNC, SYNC_LONG, UPLOADS, UPLOADS_HEAVY]
  }

  lemma LaneNamesAreTheLanes()
    ensures |LANES| == |LaneNames()| && forall i :: 0 <= i < |LANES| ==> LANES[i].name == LaneNames()[i]
    ensures Distinct(LaneNames())
  {
    assert SYNC != SYNC_LONG && SYNC != UPLOADS && SYNC != UPLOADS_HEAVY;
    assert SYNC_LONG[7] != UPLOADS[7] && SYNC_LONG[7] != UPLOADS_HEAVY[7];
    assert |UPLOADS| != |UPLOADS_HEAVY|;
  }

  predicate Distinct(names: seq<string>) {
    forall i, j :: 0 <= i < j < |names| ==> names[i] != names[j]
  }

  /**
   * slots holds the profiles that exist; lanes says whether the four lanes are configured. The numbers come from input
   * fields, so they need not be whole.
   */
  datatype Capacity = Capacity(slots: map<string, real>, lanes: bool, maxHeavy: real, perStorage: real, batchDelay: real)

  datatype PresetId = Economico | Equilibrado | Alto

  datatype Preset = Preset(id: PresetId, capacity: Capacity)

  function FourSlots(syncFast: real, syncLong: real, uploadsLight: real, uploadsHeavy: real): map<string, real> {
    map[SYNC := syncFast, SYNC_LONG := syncLong, UPLOADS := uploadsLight, UPLOADS_HEAVY := uploadsHeavy]
  }

  const PRESETS: seq<Preset> := [
    Preset(Economico, Capacity(FourSlots(1.0, 1.0, 1.0, 1.0), true, 2.0, 1.0, 500.0)),
    Preset(Equilibrado, Capacity(FourSlots(3.0, 1.0, 2.0, 1.0), true, 2.0, 2.0, 150.0)),
    Preset(Alto, Capacity(FourSlots(5.0, 2.0, 3.0, 2.0), true, 4.0, 4.0, 0.0))]

  function PresetOf(id: PresetId): Capacity {
    match id
    case Economico => PRESETS[0].capacity
    case Equilibrado => PRESETS[1].capacity
    case Alto => PRESETS[2].capacity
  }

  function Get(m: map<string, real>, name: string): Option<real> {
    if name in m then Some(m[name]) else None
  }

  predicate SameSlots(a: map<string, real>, b: map<string, real>, names: seq<string>) {
    forall i :: 0 <= i < |names| ==> Get(a, names[i]) == Get(b, names[i])
  }

  /** Agreement on everything a preset sets; profiles that are not lanes do not matter. */
  predicate SameCapacity(a: Capacity, b: Capacity) {
    && a.lanes == b.lanes
    && SameSlots(a.slots, b.slots, LaneNames())
    && a.maxHeavy == b.maxHeavy && a.perStorage == b.perStorage && a.batchDelay == b.batchDelay
  }

  /** The preset with exactly these values, or none: the capacity is a custom one. */
  method DetectPreset(current: Capacity) returns (found: Option<PresetId>)
    ensures found.Some? ==> SameCapacity(PresetOf(found.value), current)
    ensures found.None? ==> forall id :: !SameCapacity(PresetOf(id), current)
    ensures forall id :: SameCapacity(PresetOf(id), current) ==> found == Some(id)
    ensures found == Some(Economico)
            <==> current.lanes && HasSlots(current.slots, 1.0, 1.0, 1.0, 1.0)
                 && current.maxHeavy == 2.0 && current.perStorage == 1.0 && current.batchDelay == 500.0
    ensures found == Some(Equilibrado)
            <==> current.lanes && HasSlots(current.slots, 3.0, 1.0, 2.0, 1.0)
                 && current.maxHeavy == 2.0 && current.perStorage == 2.0 && current.batchDelay == 150.0
    ensures found == Some(Alto)
            <==> current.lanes && HasSlots(current.slots, 5.0, 2.0, 3.0, 2.0)
                 && current.maxHeavy == 4.0 && current.perStorage == 4.0 && current.batchDelay == 0.0
  {
    PresetsInNumbers(current);
    PresetsDiffer(current);
    hide SameCapacity, HasSlots;
    for i := 0 to |PRESETS|
      invariant forall k :: 0 <= k < i ==> !SameCapacity(PRESETS[k].capacity, current)
    {
      assert PRESETS[i].capacity == PresetOf(PRESETS[i].id);
      if SameCapacity(PRESETS[i].capacity, current) { return Some(PRESETS[i].id); }
    }
    forall id ensures !SameCapacity(PresetOf(id), current) {
      assert PresetOf(id) == PRESETS[if id.Economico? then 0 else if id.Equilibrado? then 1 else 2].capacity;
    }
    return None;
  }

  /** The four lanes have these slots. */
  predicate HasSlots(slots: map<string, real>, sync: real, syncLong: real, uploads: real, uploadsHeavy: real) {
    && SYNC in slots && slots[SYNC] == sync && SYNC_LONG in slots && slots[SYNC_LONG] == syncLong
    && UPLOADS in slots && slots[UPLOADS] == uploads && UPLOADS_HEAVY in slots && slots[UPLOADS_HEAVY] == uploadsHeavy
  }

  lemma FourSlotsAgree(slots: map<string, real>, a: real, b: real, c: real, d: real)
    ensures SameSlots(FourSlots(a, b, c, d), slots, LaneNames()) <==> HasSlots(slots, a, b, c, d)
  {
    LaneNamesAreTheLanes();
    var names, m := LaneNames(), FourSlots(a, b, c, d);
    assert names[0] == SYNC && names[1] == SYNC_LONG && names[2] == UPLOADS && names[3] == UPLOADS_HEAVY
            && |names| == 4;
    assert Get(m, SYNC) == Some(a) && Get(m, SYNC_LONG) == Some(b) && Get(m, UPLOADS) == Some(c)
            && Get(m, UPLOADS_HEAVY) == Some(d);
    hide LaneNames, FourSlots;
    assert SameSlots(m, slots, names) ==>
      Get(slots, names[0]) == Some(a) && Get(slots, names[1]) == Some(b) && Get(slots, names[2]) == Some(c) && Get(slots, names[3]) == Some(d);
  }

  /** The presets by their numbers. */
  lemma PresetsInNumbers(c: Capacity)
    ensures SameCapacity(PresetOf(Economico), c)
            <==> c.lanes && HasSlots(c.slots, 1.0, 1.0, 1.0, 1.0) && c.maxHeavy == 2.0 && c.perStorage == 1.0 && c.batchDelay == 500.0
    ensures SameCapacity(PresetOf(Equilibrado), c)
            <==> c.lanes && HasSlots(c.slots, 3.0, 1.0, 2.0, 1.0) && c.maxHeavy == 2.0 && c.perStorage == 2.0 && c.batchDelay == 150.0
    ensures SameCapacity(PresetOf(Alto), c)
            <==> c.lanes && HasSlots(c.slots, 5.0, 2.0, 3.0, 2.0) && c.maxHeavy == 4.0 && c.perStorage == 4.0 && c.batchDelay == 0.0
  {
    hide SameSlots, HasSlots, FourSlots, LaneNames;
    FourSlotsAgree(c.slots, 1.0, 1.0, 1.0, 1.0);
    FourSlotsAgree(c.slots, 3.0, 1.0, 2.0, 1.0);
    FourSlotsAgree(c.slots, 5.0, 2.0, 3.0, 2.0);
  }

  lemma PresetsDiffer(current: Capacity)
    ensures forall a, b :: SameCapacity(PresetOf(a), current) && SameCapacity(PresetOf(b), current) ==> a == b
  {
  }

  // ------------------------------------------------------------------ what changes on the way to another capacity

  datatype Key = LanesKey | SlotsKey(name: string) | ReadsKey | HeavyKey | DelayKey

  /** One line of the comparison; restart and creates say which profiles must restart or are created. */
  datatype DiffRow = DiffRow(key: Key, from: real, to: real, restart: seq<string>, creates: Option<string>)

  function Existing(slots: map<string, real>, names: seq<string>): seq<string> {
    if names == [] then []
    else Existing(slots, names[..|names| - 1]) + (if names[|names| - 1] in slots then [names[|names| - 1]] else [])
  }

  function LaneRows(current: Capacity, target: Capacity): seq<DiffRow> {
    if !current.lanes && target.lanes then [DiffRow(LanesKey, 0.0, 1.0, Existing(current.slots, LaneNames()), None)] else []
  }

  /** The line of one lane: it is created, or its number of slots changes, or there is none. */
  function SlotRow(current: Capacity, target: Capacity, name: string): seq<DiffRow> {
    match (Get(current.slots, name), Get(target.slots, name))
    case (None, Some(to)) => [DiffRow(SlotsKey(name), 0.0, to, [], Some(name))]
    case (Some(from), Some(to)) => if from != to then [DiffRow(SlotsKey(name), from, to, [name], None)] else []
    case _ => []
  }

  function SlotRows(current: Capacity, target: Capacity, names: seq<string>): seq<DiffRow> {
    if names == [] then [] else SlotRows(current, target, names[..|names| - 1]) + SlotRow(current, target, names[|names| - 1])
  }

  function NumberRow(key: Key, from: real, to: real): seq<DiffRow> {
    if from != to then [DiffRow(key, from, to, [], None)] else []
  }

  function NumberRows(current: Capacity, target: Capacity): seq<DiffRow> {
    NumberRow(ReadsKey, current.perStorage, target.perStorage)
    + (NumberRow(HeavyKey, current.maxHeavy, target.maxHeavy) + NumberRow(DelayKey, current.batchDelay, target.batchDelay))
  }

  function DiffRows(current: Capacity, target: Capacity): seq<DiffRow> {
    LaneRows(current, target) + (SlotRows(current, target, LaneNames()) + NumberRows(current, target))
  }

  lemma {:induction false} SlotRowsIff(current: Capacity, target: Capacity, names: seq<string>, row: DiffRow)
    ensures row in SlotRows(current, target, names) <==> exists i :: 0 <= i < |names| && row in SlotRow(current, target, names[i])
  {
    hide SlotRow;
    if names != [] {
      var k := |names| - 1;
      SlotRowsIff(current, target, names[..k], row);
      assert forall i :: 0 <= i < k ==> names[..k][i] == names[i];
    }
  }

  lemma ExistingLanesInFull(slots: map<string, real>)
    ensures Existing(slots, LaneNames())
         == (if SYNC in slots then [SYNC] else []) + (if SYNC_LONG in slots then [SYNC_LONG] else [])
            + (if UPLOADS in slots then [UPLOADS] else []) + (if UPLOADS_HEAVY in slots then [UPLOADS_HEAVY] else [])
  {
    var names := LaneNames();
    assert names[..3] == [SYNC, SYNC_LONG, UPLOADS] && names[..3][..2] == [SYNC, SYNC_LONG]
            && names[..3][..2][..1] == [SYNC];
    assert [SYNC][..0] == [] && Existing(slots, []) == [];
    ExistingOneMore(slots, [], SYNC);
    ExistingOneMore(slots, [SYNC], SYNC_LONG);
    ExistingOneMore(slots, [SYNC, SYNC_LONG], UPLOADS);
    ExistingOneMore(slots, [SYNC, SYNC_LONG, UPLOADS], UPLOADS_HEAVY);
    assert names == [SYNC, SYNC_LONG, UPLOADS] + [UPLOADS_HEAVY];
  }

  lemma ExistingOneMore(slots: map<string, real>, names: seq<string>, name: string)
    ensures Existing(slots, names + [name]) == Existing(slots, names) + (if name in slots then [name] else [])
  {
    assert (names + [name])[..|names|] == names;
  }

  lemma SlotRowInFull(current: Capacity, target: Capacity, name: string, row: DiffRow)
    ensures row in SlotRow(current, target, name) <==>
      && row.key == SlotsKey(name) && name in target.slots
      && if name in current.slots then
           current.slots[name] != target.slots[name] && row == DiffRow(SlotsKey(name), current.slots[name], target.slots[name], [name], None)
         else row == DiffRow(SlotsKey(name), 0.0, target.slots[name], [], Some(name))
  {
  }

  /** Which lines there are, and what each says. */
  predicate SaysDifference(row: DiffRow, current: Capacity, target: Capacity) {
    match row.key
    case LanesKey =>
      && !current.lanes && target.lanes && row.from == 0.0 && row.to == 1.0 && row.creates.None?
      && row.restart == (if SYNC in current.slots then [SYNC] else []) + (if SYNC_LONG in current.slots then [SYNC_LONG] else [])
                        + (if UPLOADS in current.slots then [UPLOADS] else []) + (if UPLOADS_HEAVY in current.slots then [UPLOADS_HEAVY] else [])
    case SlotsKey(name) =>
      && name in [SYNC, SYNC_LONG, UPLOADS, UPLOADS_HEAVY] && name in target.slots && row.to == target.slots[name]
      && if name in current.slots then row.from == current.slots[name] != row.to && row.restart == [name] && row.creates.None?
         else row.from == 0.0 && row.restart == [] && row.creates == Some(name)
    case ReadsKey => row == DiffRow(ReadsKey, current.perStorage, target.perStorage, [], None) && row.from != row.to
    case HeavyKey => row == DiffRow(HeavyKey, current.maxHeavy, target.maxHeavy, [], None) && row.from != row.to
    case DelayKey => row == DiffRow(DelayKey, current.batchDelay, target.batchDelay, [], None) && row.from != row.to
  }

  lemma SlotLinesInFull(current: Capacity, target: Capacity, row: DiffRow)
    ensures row in SlotRows(current, target, LaneNames()) <==> row.key.SlotsKey? && SaysDifference(row, current, target)
  {
    var names := LaneNames();
    assert names == [SYNC, SYNC_LONG, UPLOADS, UPLOADS_HEAVY];
    SlotRowsIff(current, target, names, row);
    hide SlotRows, SlotRow, LaneNames;
    forall i | 0 <= i < |names| ensures row in SlotRow(current, target, names[i]) ==> row.key == SlotsKey(names[i]) {
      SlotRowInFull(current, target, names[i], row);
    }
    if row.key.SlotsKey? { SlotRowInFull(current, target, row.key.name, row); }
  }

  lemma LaneLineInFull(current: Capacity, target: Capacity, row: DiffRow)
    ensures row in LaneRows(current, target) <==> row.key.LanesKey? && SaysDifference(row, current, target)
  {
    ExistingLanesInFull(current.slots);
    hide Existing, LaneNames;
  }

  lemma NumberLinesInFull(current: Capacity, target: Capacity, row: DiffRow)
    ensures row in NumberRows(current, target)
            <==> (row.key.ReadsKey? || row.key.HeavyKey? || row.key.DelayKey?) && SaysDifference(row, current, target)
  {
  }

  lemma DiffInFull(current: Capacity, target: Capacity, row: DiffRow)
    ensures row in DiffRows(current, target) <==> SaysDifference(row, current, target)
  {
    hide LaneRows, SlotRows, NumberRows, LaneNames, SaysDifference;
    LaneLineInFull(current, target, row);
    SlotLinesInFull(current, target, row);
    NumberLinesInFull(current, target, row);
  }

  /** The lines say exactly what differs, from which value to which, what must restart for it and what is created. */
  method DiffCapacity(current: Capacity, target: Capacity) returns (rows: seq<DiffRow>)
    ensures rows == DiffRows(current, target)
    ensures forall row :: row in rows <==> SaysDifference(row, current, target)
  {
    forall row ensures row in DiffRows(current, target) <==> SaysDifference(row, current, target) {
      DiffInFull(current, target, row);
    }
    hide DiffRows, SaysDifference, LaneNames, Existing, SlotRows, SlotRow;
    rows := ListDifferences(current, target);
  }

  method ListDifferences(current: Capacity, target: Capacity) returns (rows: seq<DiffRow>)
    ensures rows == DiffRows(current, target)
  {
    hide LaneNames;
    rows := [];
    if !current.lanes && target.lanes {
      var restart := ExistingLanes(current.slots);
      rows := [DiffRow(LanesKey, 0.0, 1.0, restart, None)];
    }
    var slots := DiffSlots(current, target);
    var numbers := DiffNumbers(current, target);
    rows := rows + (slots + numbers);
  }

  method ExistingLanes(slots: map<string, real>) returns (names: seq<string>)
    ensures names == Existing(slots, LaneNames())
  {
    names := [];
    var lanes := LaneNames();
    hide LaneNames;
    for i := 0 to |lanes|
      invariant names == Existing(slots, lanes[..i])
    {
      assert lanes[..i + 1][..i] == lanes[..i];
      if lanes[i] in slots { names := names + [lanes[i]]; }
    }
    assert lanes[..|lanes|] == lanes;
  }

  method DiffSlots(current: Capacity, target: Capacity) returns (rows: seq<DiffRow>)
    ensures rows == SlotRows(current, target, LaneNames())
  {
    rows := [];
    var lanes := LaneNames();
    hide LaneNames;
    for i := 0 to |lanes|
      invariant rows == SlotRows(current, target, lanes[..i])
    {
      assert lanes[..i + 1][..i] == lanes[..i];
      var name := lanes[i];
      var from := if name in current.slots then current.slots[name] else 0.0;
      var to := if name in target.slots then target.slots[name] else from;
      if name !in current.slots {
        if name in target.slots { rows := rows + [DiffRow(SlotsKey(name), 0.0, to, [], Some(name))]; }
      } else if from != to {
        rows := rows + [DiffRow(SlotsKey(name), from, to, [name], None)];
      }
    }
    assert lanes[..|lanes|] == lanes;
  }

  method DiffNumbers(current: Capacity, target: Capacity) returns (rows: seq<DiffRow>)
    ensures rows == NumberRows(current, target)
  {
    rows := [];
    if current.perStorage != target.perStorage { rows := rows + [DiffRow(ReadsKey, current.perStorage, target.perStorage, [], None)]; }
    if current.maxHeavy != target.maxHeavy { rows := rows + [DiffRow(HeavyKey, current.maxHeavy, target.maxHeavy, [], None)]; }
    if current.batchDelay != target.batchDelay { rows := rows + [DiffRow(DelayKey, current.batchDelay, target.batchDelay, [], None)]; }
  }

  /** The names that the target sets have its number of slots. */
  predicate SlotsReached(target: map<string, real>, current: map<string, real>, names: seq<string>) {
    forall i :: 0 <= i < |names| && names[i] in target ==> Get(current, names[i]) == Some(target[names[i]])
  }

  /** The capacity has everything that the target asks for; a target may leave the lanes off, or a lane unset. */
  predicate Reached(target: Capacity, current: Capacity) {
    && (target.lanes ==> current.lanes) && SlotsReached(target.slots, current.slots, LaneNames())
    && current.maxHeavy == target.maxHeavy && current.perStorage == target.perStorage && current.batchDelay == target.batchDelay
  }

  lemma {:induction false} NoSlotRowsIff(current: Capacity, target: Capacity, names: seq<string>)
    ensures SlotRows(current, target, names) == [] <==> SlotsReached(target.slots, current.slots, names)
  {
    if names != [] {
      var k := |names| - 1;
      NoSlotRowsIff(current, target, names[..k]);
      assert SlotsReached(target.slots, current.slots, names)
        <==> SlotsReached(target.slots, current.slots, names[..k])
             && (names[k] in target.slots ==> Get(current.slots, names[k]) == Some(target.slots[names[k]]));
    }
  }

  /** Nothing is left to change exactly when the capacity already has what the target asks for. */
  lemma NothingToChangeIff(current: Capacity, target: Capacity)
    ensures DiffRows(current, target) == [] <==> Reached(target, current)
  {
    NoSlotRowsIff(current, target, LaneNames());
    hide SlotRows, LaneNames, SlotsReached, Existing;
  }

  /** A target that sets every lane, as every preset does. */
  predicate SetsAllLanes(c: Capacity) {
    c.lanes && SetsAll(c.slots, LaneNames())
  }

  predicate SetsAll(slots: map<string, real>, names: seq<string>) {
    forall i :: 0 <= i < |names| ==> names[i] in slots
  }

  /** Such a target is reached by no other capacity than its own. */
  lemma ReachedIsSame(current: Capacity, target: Capacity)
    requires SetsAllLanes(target)
    ensures Reached(target, current) <==> SameCapacity(target, current)
  {
    hide LaneNames;
    if Reached(target, current) {
      forall i | 0 <= i < |LaneNames()| ensures Get(target.slots, LaneNames()[i]) == Get(current.slots, LaneNames()[i]) {
        assert LaneNames()[i] in target.slots;
      }
    }
    if SameCapacity(target, current) {
      forall i | 0 <= i < |LaneNames()| && LaneNames()[i] in target.slots
        ensures Get(current.slots, LaneNames()[i]) == Some(target.slots[LaneNames()[i]])
      {
        assert Get(target.slots, LaneNames()[i]) == Get(current.slots, LaneNames()[i]);
      }
    }
  }

  lemma PresetsSetAllLanes(id: PresetId)
    ensures SetsAllLanes(PresetOf(id))
  {
  }

  /** The comparison with a preset is empty exactly when that preset is the one detected. */
  method NothingToChangeMeansDetected(current: Capacity, id: PresetId)
    returns (rows: seq<DiffRow>, found: Option<PresetId>)
    ensures rows == [] <==> found == Some(id)
  {
    rows := DiffCapacity(current, PresetOf(id));
    found := DetectPreset(current);
    PresetsSetAllLanes(id);
    hide SetsAllLanes, DiffRows, SameCapacity, Reached;
    NothingToChangeIff(current, PresetOf(id));
    ReachedIsSame(current, PresetOf(id));
  }

  // ------------------------------------------------------------------ applying the changes

  function ApplyRow(c: Capacity, row: DiffRow): Capacity {
    match row.key
    case LanesKey => c.(lanes := true)
    case SlotsKey(name) => c.(slots := c.slots[name := row.to])
    case ReadsKey => c.(perStorage := row.to)
    case HeavyKey => c.(maxHeavy := row.to)
    case DelayKey => c.(batchDelay := row.to)
  }

  function ApplyRows(c: Capacity, rows: seq<DiffRow>): Capacity {
    if rows == [] then c else ApplyRow(ApplyRows(c, rows[..|rows| - 1]), rows[|rows| - 1])
  }

  lemma {:induction false} ApplyConcat(c: Capacity, a: seq<DiffRow>, b: seq<DiffRow>)
    ensures ApplyRows(c, a + b) == ApplyRows(ApplyRows(c, a), b)
  {
    if b == [] {
      assert a + b == a;
    } else {
      assert (a + b)[..|a + b| - 1] == a + b[..|b| - 1];
      ApplyConcat(c, a, b[..|b| - 1]);
    }
  }

  lemma ApplyAtMostOne(c: Capacity, rows: seq<DiffRow>)
    requires |rows| <= 1
    ensures ApplyRows(c, rows) == if rows == [] then c else ApplyRow(c, rows[0])
  {
    if rows != [] { assert rows[..0] == []; assert ApplyRows(c, []) == c; }
  }

  /** The number of slots a name has once the target is applied. */
  function Applied(current: map<string, real>, target: map<string, real>, name: string): Option<real> {
    if name in target then Some(target[name]) else Get(current, name)
  }

  lemma ApplySlotRow(c: Capacity, current: Capacity, target: Capacity, name: string)
    requires Get(c.slots, name) == Get(current.slots, name)
    ensures var r := ApplyRows(c, SlotRow(current, target, name));
      && r == c.(slots := r.slots) && Get(r.slots, name) == Applied(current.slots, target.slots, name)
      && forall other :: other != name ==> Get(r.slots, other) == Get(c.slots, other)
  {
    var row := SlotRow(current, target, name);
    ApplyAtMostOne(c, row);
    hide ApplyRows;
  }

  /** Applying the lines of some lanes sets exactly these lanes, to what the target says. */
  lemma {:induction false} ApplySlotRows(c: Capacity, current: Capacity, target: Capacity, names: seq<string>)
    requires c.slots == current.slots && Distinct(names)
    ensures var r := ApplyRows(c, SlotRows(current, target, names));
      && r == c.(slots := r.slots)
      && forall name :: Get(r.slots, name) == if name in names then Applied(current.slots, target.slots, name) else Get(current.slots, name)
  {
    if names != [] {
      var k := |names| - 1;
      var before, row := SlotRows(current, target, names[..k]), SlotRow(current, target, names[k]);
      assert SlotRows(current, target, names) == before + row;
      assert names[k] !in names[..k] && forall name :: name in names <==> name in names[..k] || name == names[k];
      ApplySlotRows(c, current, target, names[..k]);
      hide SlotRows, SlotRow, ApplyRows, Distinct, Get, Applied;
      ApplyConcat(c, before, row);
      ApplySlotRow(ApplyRows(c, before), current, target, names[k]);
    }
  }

  lemma ApplyNumber(c: Capacity, key: Key, from: real, to: real)
    requires match key case ReadsKey => c.perStorage == from case HeavyKey => c.maxHeavy == from case DelayKey => c.batchDelay == from case _ => false
    ensures ApplyRows(c, NumberRow(key, from, to)) == ApplyRow(c, DiffRow(key, from, to, [], None))
  {
    ApplyAtMostOne(c, NumberRow(key, from, to));
    hide ApplyRows;
  }

  lemma ApplyNumberRows(c: Capacity, current: Capacity, target: Capacity)
    requires c.perStorage == current.perStorage && c.maxHeavy == current.maxHeavy && c.batchDelay == current.batchDelay
    ensures ApplyRows(c, NumberRows(current, target))
         == c.(perStorage := target.perStorage, maxHeavy := target.maxHeavy, batchDelay := target.batchDelay)
  {
    hide ApplyRows, NumberRow;
    var first := NumberRow(ReadsKey, current.perStorage, target.perStorage);
    var heavy := NumberRow(HeavyKey, current.maxHeavy, target.maxHeavy);
    var delay := NumberRow(DelayKey, current.batchDelay, target.batchDelay);
    ApplyConcat(c, first, heavy + delay);
    ApplyConcat(ApplyRows(c, first), heavy, delay);
    ApplyNumber(c, ReadsKey, current.perStorage, target.perStorage);
    var c1 := c.(perStorage := target.perStorage);
    ApplyNumber(c1, HeavyKey, current.maxHeavy, target.maxHeavy);
    var c2 := c1.(maxHeavy := target.maxHeavy);
    ApplyNumber(c2, DelayKey, current.batchDelay, target.batchDelay);
  }

  /**
   * The comparison is complete and says nothing else: carrying out its lines turns the lanes on if the target has them on,
   * gives every lane that the target sets its slots, sets the three numbers, and keeps everything else.
   */
  lemma ApplyingTheDiffReachesTheTarget(current: Capacity, target: Capacity)
    ensures var r := ApplyRows(current, DiffRows(current, target));
      && r.lanes == (current.lanes || target.lanes)
      && r.maxHeavy == target.maxHeavy && r.perStorage == target.perStorage && r.batchDelay == target.batchDelay
      && forall name :: Get(r.slots, name)
           == if name in LaneNames() && name in target.slots then Some(target.slots[name]) else Get(current.slots, name)
    ensures Reached(target, ApplyRows(current, DiffRows(current, target)))
  {
    LaneNamesAreTheLanes();
    var names := LaneNames();
    var lane, slots, numbers := LaneRows(current, target), SlotRows(current, target, names), NumberRows(current, target);
    hide LaneNames, SlotRows, NumberRows, Existing, ApplyRows, Distinct;
    ApplyConcat(current, lane, slots + numbers);
    ApplyAtMostOne(current, lane);
    var c := ApplyRows(current, lane);
    assert c == current.(lanes := current.lanes || target.lanes);
    ApplyConcat(c, slots, numbers);
    ApplySlotRows(c, current, target, names);
    ApplyNumberRows(ApplyRows(c, slots), current, target);
    var r := ApplyRows(current, DiffRows(current, target));
    forall i | 0 <= i < |names| && names[i] in target.slots ensures Get(r.slots, names[i]) == Some(target.slots[names[i]]) {
      assert names[i] in names;
    }
  }
}
