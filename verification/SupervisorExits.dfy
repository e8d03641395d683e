/**
 * What the exits of a worker mean (src/supervisor/core.ts:216-238), over every run and in numbers: which exits count as
 * crashes, what CRASH_LOOP says about the past, and when the next process starts.
 */
module SupervisorExits {
  import opened Wrappers
  import opened SupervisorModel
  import opened SupervisorSafety
  import opened SupervisorTiming
  import opened SupervisorLoops
  import opened SupervisorReconcile
  import opened SupervisorBackoff
  import opened SupervisorSignals

  // ------------------------------------------------------------------ steps without an exit

  /** A record keeps its crashes and its process; its wait can only end, and a new process starts at the clock's time. */
  predicate CarriesOn(a: Slot, b: Slot, now: int) {
    && b.crashes == a.crashes && (b.backoffUntil == a.backoffUntil || b.backoffUntil.None?)
    && if b.child == a.child then b.startedAt == a.startedAt else a.child.None? && b.startedAt == Some(now)
  }

  predicate IsNew(b: Slot, now: int) {
    b.crashes == 0 && b.backoffUntil.None? && (b.child.Some? ==> b.startedAt == Some(now))
  }

  ghost predicate Carried(s: State, t: State, now: int) {
    forall n :: n in t.slots ==> if n in s.slots then CarriesOn(s.slots[n], t.slots[n], now) else IsNew(t.slots[n], now)
  }

  lemma CarriedTwice(s: State, m: State, t: State, now: int)
    requires Carried(s, m, now) && Carried(m, t, now) && s.slots.Keys <= m.slots.Keys
    ensures Carried(s, t, now)
  {
  }

  lemma SameCarried(s: State, t: State, now: int)
    requires t.slots == s.slots
    ensures Carried(s, t, now)
  {
  }

  lemma OneCarried(s: State, t: State, name: Name, b: Slot, now: int)
    requires t.slots == s.slots[name := b]
    requires if name in s.slots then CarriesOn(s.slots[name], b, now) else IsNew(b, now)
    ensures Carried(s, t, now) && s.slots.Keys <= t.slots.Keys
  {
  }

  lemma SlotCarries(sl: Slot, p: Profile, proc: Proc, mode: Mode, timeoutMs: int, now: int)
    ensures CarriesOn(sl, BeginDrain(sl, mode, timeoutMs, now), now) && CarriesOn(sl, Refreshed(sl, p, now), now)
    ensures CarriesOn(sl, SettleSlot(sl, timeoutMs, now), now) && CarriesOn(sl, EnforceSlot(sl, now), now)
    ensures sl.child.None? ==> CarriesOn(sl, SpawnSlot(sl, proc, now), now)
  {
  }

  lemma DrainCarries(s: State, names: set<Name>, mode: Mode, timeoutMs: int, clock: int, now: int)
    ensures Carried(s, DrainNames(s, names, mode, timeoutMs, clock), now)
    ensures DrainNames(s, names, mode, timeoutMs, clock).slots.Keys == s.slots.Keys
  {
    forall sl: Slot ensures CarriesOn(sl, BeginDrain(sl, mode, timeoutMs, clock), now) && CarriesOn(sl, sl, now) {}
    hide BeginDrain, CarriesOn, AllDrainSignals;
  }

  /** What a reconcile makes of the slot of one profile. */
  lemma ReconciledSlotCarries(sl: Slot, p: Profile, proc: Proc, shuttingDown: bool, stopTimeoutMs: int, now: int)
    ensures CarriesOn(sl, ReconciledSlot(sl, p, proc, shuttingDown, stopTimeoutMs, now), now)
    ensures Refreshed(sl, p, now).profile == p
            && SettleSlot(Refreshed(sl, p, now), stopTimeoutMs, now).profile == Refreshed(sl, p, now).profile
  {
    var r := Refreshed(sl, p, now);
    SlotCarries(sl, p, proc, Safe, stopTimeoutMs, now);
    SlotCarries(r, p, proc, Safe, stopTimeoutMs, now);
    SettleKeepsProfile(r, stopTimeoutMs, now);
    StartsFree(r, shuttingDown, now);
    assert r.profile == p;
    hide Refreshed, SettleSlot, SpawnSlot, Starts;
  }

  lemma EnsuredCarries(s: State, p: Profile, now: int)
    ensures Carried(s, Ensured(s, p), now) && s.slots.Keys <= Ensured(s, p).slots.Keys && p.name in Ensured(s, p).slots
  {
    hide Carried, CarriesOn;
    if p.name in s.slots { SameCarried(s, s, now); } else { OneCarried(s, Ensured(s, p), p.name, NewSlot(s.nextUid, p), now); }
  }

  lemma OneProfileCarries(s: State, p: Profile, now: int)
    ensures Carried(s, ReconcileOne(s, p, now), now) && s.slots.Keys <= ReconcileOne(s, p, now).slots.Keys
  {
    var e := Ensured(s, p);
    EnsuredCarries(s, p, now);
    var sl := Refreshed(e.slots[p.name], p, now);
    hide Ensured, Carried, CarriesOn, Refreshed, SettleSlot, Starts, SpawnSlot, ReconcileOne;
    var b := ReconciledSlot(e.slots[p.name], p, e.os.next, s.shuttingDown, s.cfg.stopTimeoutMs, now);
    ReconciledSlotCarries(e.slots[p.name], p, e.os.next, s.shuttingDown, s.cfg.stopTimeoutMs, now);
    ReconcileOneSlots(s, e, sl, p, now);
    OneCarried(e, ReconcileOne(s, p, now), p.name, b, now);
    CarriedTwice(s, e, ReconcileOne(s, p, now), now);
  }

  lemma StartsFree(sl: Slot, shuttingDown: bool, now: int)
    ensures Starts(sl, shuttingDown, now) ==> sl.child.None?
  {
  }

  lemma {:induction false} ListCarries(s: State, ps: seq<Profile>, now: int)
    ensures Carried(s, ReconcileList(s, ps, now), now) && s.slots.Keys <= ReconcileList(s, ps, now).slots.Keys
  {
    hide Carried, ReconcileOne;
    if ps == [] {
      SameCarried(s, s, now);
    } else {
      var m := ReconcileList(s, ps[..|ps| - 1], now);
      ListCarries(s, ps[..|ps| - 1], now);
      OneProfileCarries(m, ps[|ps| - 1], now);
      CarriedTwice(s, m, ReconcileOne(m, ps[|ps| - 1], now), now);
    }
  }

  lemma FewerCarried(s: State, d: State, t: State, now: int)
    requires Carried(s, d, now) && forall n :: n in t.slots ==> n in d.slots && t.slots[n] == d.slots[n]
    ensures Carried(s, t, now)
  {
    hide CarriesOn, IsNew;
  }

  lemma ReconcileCarries(s: State, ps: seq<Profile>, now: int)
    ensures Carried(s, Reconcile(s, ps, now), now)
  {
    var m := ReconcileList(s, ps, now);
    var u := Unseen(m, NamesOf(ps));
    hide Carried, ReconcileList, DrainNames, NamesOf;
    ListCarries(s, ps, now);
    var d := DrainNames(m, u, Safe, m.cfg.stopTimeoutMs, now);
    DrainCarries(m, u, Safe, m.cfg.stopTimeoutMs, now, now);
    CarriedTwice(s, m, d, now);
    FewerCarried(s, d, Reconcile(s, ps, now), now);
  }

  lemma RestartCarries(s: State, c: Command, found: Option<Name>, now: int)
    requires Inv(s)
    ensures Carried(s, RestartProfile(s, c, found, now), now)
            && s.slots.Keys <= RestartProfile(s, c, found, now).slots.Keys
  {
    var t := RestartProfile(s, c, found, now);
    if found.None? || found.value !in s.slots || !s.slots[found.value].profile.enabled {
      MarkKeepsSlots(s, c.id, Failed);
      hide Inv, Carried, Mark;
      SameCarried(s, t, now);
    } else {
      SlotOfName(s, found.value);
      var sl := s.slots[found.value];
      var ready := sl.(backoffUntil := None);
      SlotCarries(ready, sl.profile, s.os.next, c.mode, c.timeoutMs, now);
      SlotCarries(sl, sl.profile, s.os.next, c.mode, c.timeoutMs, now);
      SpawnKeepsName(ready, s.os.next, now);
      DrainKeepsName(sl, c.mode, c.timeoutMs, now);
      var m := if s.shuttingDown then WithSlot(s, ready) else Spawn(s, ready, now);
      MarkKeepsSlots(m, c.id, Done);
      var b := if sl.child.Some? then BeginDrain(sl, c.mode, c.timeoutMs, now)
               else if s.shuttingDown then ready else SpawnSlot(ready, s.os.next, now);
      assert CarriesOn(sl, b, now);
      hide Inv, SlotOk, Carried, Mark, BeginDrain, DrainSignals, SpawnSlot, CarriesOn;
      OneCarried(s, t, found.value, b, now);
    }
  }

  lemma StopCarries(s: State, id: CmdId, now: int)
    requires Inv(s) && id in s.stops
    ensures Carried(s, ResumeStop(s, id), now) && s.slots.Keys <= ResumeStop(s, id).slots.Keys
  {
    var f, t := s.stops[id], ResumeStop(s, id);
    var u := s.(stops := s.stops - {id});
    if !Attached(s, f) {
      MarkKeepsSlots(u, id, Done);
      hide Inv, Carried, Mark;
      SameCarried(s, t, now);
    } else {
      SlotOfName(s, f.name);
      var sl := s.slots[f.name].(profile := s.slots[f.name].profile.(enabled := false));
      SlotCarries(sl, sl.profile, 0, f.command.mode, f.command.timeoutMs, f.now);
      DrainKeepsName(sl, f.command.mode, f.command.timeoutMs, f.now);
      MarkKeepsSlots(WithSlot(u, sl), id, Done);
      var b := if sl.child.None? then sl else BeginDrain(sl, f.command.mode, f.command.timeoutMs, f.now);
      assert CarriesOn(s.slots[f.name], b, now);
      hide Inv, SlotOk, Carried, Mark, BeginDrain, DrainSignals, CarriesOn;
      OneCarried(s, t, f.name, b, now);
    }
  }

  lemma StartCarries(s: State, id: CmdId)
    requires Inv(s) && id in s.starts
    ensures Carried(s, ResumeStart(s, id), s.starts[id].now) && s.slots.Keys <= ResumeStart(s, id).slots.Keys
  {
    var f, t := s.starts[id], ResumeStart(s, id);
    var u := s.(starts := s.starts - {id});
    if !Attached(s, f) {
      MarkKeepsSlots(if s.shuttingDown then u else u.(os := Spawned(s.os, f.name)), id, Done);
      hide Inv, Carried, Mark;
      SameCarried(s, t, f.now);
    } else {
      SlotOfName(s, f.name);
      var sl := s.slots[f.name].(profile := s.slots[f.name].profile.(enabled := true), backoffUntil := None);
      SlotCarries(sl, sl.profile, s.os.next, Safe, 0, f.now);
      SpawnKeepsName(sl, s.os.next, f.now);
      var starts := sl.child.None? && !s.shuttingDown;
      MarkKeepsSlots(if starts then Spawn(u, sl, f.now) else WithSlot(u, sl), id, Done);
      var b := if starts then SpawnSlot(sl, s.os.next, f.now) else sl;
      assert CarriesOn(s.slots[f.name], b, f.now);
      hide Inv, SlotOk, Carried, Mark, SpawnSlot, CarriesOn;
      OneCarried(s, t, f.name, b, f.now);
    }
  }

  lemma RestartAllCarries(s: State, c: Command, now: int)
    ensures Carried(s, RestartAll(s, c, now), now) && s.slots.Keys <= RestartAll(s, c, now).slots.Keys
  {
    RestartAllStep(s, c, now);
    var d := DrainNames(s, Hit(s), c.mode, c.timeoutMs, now);
    var m := DrainAndClear(s, Hit(s), Idle(s), c.mode, c.timeoutMs, now);
    hide RestartAll, DrainNames, Hit, Idle;
    DrainCarries(s, Hit(s), c.mode, c.timeoutMs, now, now);
    assert Carried(d, m, now);
    hide Carried;
    CarriedTwice(s, d, m, now);
    SameCarried(m, RestartAll(s, c, now), now);
    CarriedTwice(s, m, RestartAll(s, c, now), now);
  }

  lemma AllCarry(s: State, mode: Mode, timeoutMs: int, now: int)
    ensures var t := DrainNames(s.(shuttingDown := true), WithChild(s), mode, timeoutMs, now);
      Carried(s, t, now) && t.slots.Keys == s.slots.Keys
  {
    hide DrainNames, Carried, WithChild;
    var u := s.(shuttingDown := true);
    DrainCarries(u, WithChild(s), mode, timeoutMs, now, now);
    SameCarried(s, u, now);
    CarriedTwice(s, u, DrainNames(u, WithChild(s), mode, timeoutMs, now), now);
  }

  lemma EnforceCarries(s: State, now: int)
    ensures Carried(s, EnforceDeadlines(s, now), now) && EnforceDeadlines(s, now).slots.Keys == s.slots.Keys
  {
    forall sl: Slot ensures CarriesOn(sl, EnforceSlot(sl, now), now) {}
    hide EnforceSlot, CarriesOn, EnforceCommand, EnforceSignals;
  }

  /** Every step but an exit carries the records on; only a reconcile drops any. */
  lemma NextCarries(s: State, e: Event)
    requires Inv(s) && Enabled(s, e) && !e.Exit?
    ensures Carried(s, Next(s, e), ClockOf(s, e)) && (!e.DoReconcile? ==> s.slots.Keys <= Next(s, e).slots.Keys)
  {
    hide Inv, Carried, Reconcile, RestartProfile, ResumeStop, ResumeStart, RestartAll, DrainNames, RestartSupervisor, WithChild,
      EnforceDeadlines;
    match e
    case DoReconcile(ps, now) => ReconcileCarries(s, ps, now);
    case Enforce(now) => EnforceCarries(s, now);
    case CmdRestart(c, found, now) => RestartCarries(s, c, found, now);
    case StopWritten(id) => StopCarries(s, id, ClockOf(s, e));
    case StartWritten(id) => StartCarries(s, id);
    case CmdRestartAll(c, now) => RestartAllCarries(s, c, now);
    case CmdRestartSupervisor(c, now) => SupervisorCarries(s, c, now);
    case Shutdown(timeoutMs, now) => AllCarry(s, Safe, timeoutMs, now);
    case _ => OtherStepsCarry(s, e);
  }

  lemma SupervisorCarries(s: State, c: Command, now: int)
    ensures Carried(s, RestartSupervisor(s, c, now), now) && s.slots.Keys <= RestartSupervisor(s, c, now).slots.Keys
  {
    hide *;
    var d := DrainNames(s.(shuttingDown := true), WithChild(s), c.mode, c.timeoutMs, now);
    AllCarry(s, c.mode, c.timeoutMs, now);
    RestartSupervisorStep(s, c, now);
    SameCarried(d, RestartSupervisor(s, c, now), now);
    CarriedTwice(s, d, RestartSupervisor(s, c, now), now);
  }

  lemma OtherStepsCarry(s: State, e: Event)
    requires Enabled(s, e)
    requires e.LoadConfig? || e.CmdStop? || e.CmdStart? || e.CmdError? || e.Finish? || e.ExitProcess?
    ensures Carried(s, Next(s, e), ClockOf(s, e)) && s.slots.Keys <= Next(s, e).slots.Keys
  {
    OtherStepsKeepSlots(s, e);
    hide Next, Enabled, Carried;
    SameCarried(s, Next(s, e), ClockOf(s, e));
  }

  // ------------------------------------------------------------------ one exit, in numbers

  /** The wait after the k-th crash in a row. */
  function Wait(k: nat, maxMs: int): int
    requires k >= 1
  {
    if 1000 * Pow2(k - 1) < maxMs then 1000 * Pow2(k - 1) else maxMs
  }

  /** An exit on request, or with code 0 after at least 5 s, is no crash; after 60 s of running the crashes count anew. */
  predicate ExitsAs(a: Slot, b: Slot, code: Option<int>, uptime: int, now: int, maxMs: int) {
    && b.child.None? && !b.draining
    && if a.draining || (code == Some(0) && uptime >= 5_000) then
         b.crashes == 0 && b.backoffUntil.None? && b.state == Stopped
       else
         && b.crashes == (if uptime >= 60_000 then 1 else a.crashes + 1)
         && b.backoffUntil == Some(now + Wait(b.crashes, maxMs))
         && b.state == (if b.crashes >= 5 then CrashLoop else Backoff)
  }

  lemma ExitInNumbers(n: Name, sl: Slot, code: Option<int>, now: int, cfg: Config)
    requires SlotOk(n, sl) && sl.child.Some?
    ensures sl.startedAt.Some?
    ensures ExitsAs(sl, ExitSlot(sl, code, now, cfg), code, now - sl.startedAt.value, now, cfg.backoffMaxMs)
  {
    hide Pow2;
  }

  lemma ExitKeys(s: State, e: Event)
    requires Inv(s) && Enabled(s, e) && e.Exit?
    ensures e.proc in s.os.born && s.os.born[e.proc] in s.slots && s.slots[s.os.born[e.proc]].child == Some(e.proc)
    ensures Next(s, e).slots.Keys == s.slots.Keys && Next(s, e).shuttingDown == s.shuttingDown
    ensures ExitSlot(s.slots[s.os.born[e.proc]], e.code, e.now, s.cfg).profile.name == s.os.born[e.proc]
  {
    var name := s.os.born[e.proc];
    SlotOfName(s, name);
    ExitKeepsName(s.slots[name], e.code, e.now, s.cfg);
    hide Inv, SlotOk, ExitSlot;
  }

  /** An exit ends the process of one slot at most, and leaves the other slots alone. */
  lemma NextExits(s: State, e: Event, n: Name)
    requires Inv(s) && Enabled(s, e) && e.Exit?
    ensures Next(s, e).slots.Keys == s.slots.Keys && Next(s, e).shuttingDown == s.shuttingDown
    ensures n in s.slots ==>
      var a, b := s.slots[n], Next(s, e).slots[n];
      if a.child == Some(e.proc) then
        a.startedAt.Some? && ExitsAs(a, b, e.code, e.now - a.startedAt.value, e.now, s.cfg.backoffMaxMs)
      else b == a
  {
    ExitKeys(s, e);
    assert Next(s, e) == ChildExits(s, e.proc, e.code, e.now);
    if n in s.slots {
      SlotOfName(s, n);
      hide Inv, SlotOk, ExitSlot, ExitsAs, Next, Enabled, ChildExits;
      if s.slots[n].child == Some(e.proc) {
        ExitInNumbers(n, s.slots[n], e.code, e.now, s.cfg);
        ExitedSlot(s, e, n);
      } else {
        ExitSlots(s, e.proc, e.code, e.now, n);
      }
    }
  }

  lemma ExitedSlot(s: State, e: Event, n: Name)
    requires Inv(s) && Enabled(s, e) && e.Exit? && n in s.slots && s.slots[n].child == Some(e.proc)
    ensures n in Next(s, e).slots && Next(s, e).slots[n] == ExitSlot(s.slots[n], e.code, e.now, s.cfg)
  {
    ExitKeys(s, e);
    assert e.proc in s.os.live;
    OneParent(s, e.proc, n);
    hide Inv, ExitSlot;
  }

  lemma OneParent(s: State, p: Proc, n: Name)
    requires Inv(s) && p in s.os.live && n in s.slots && s.slots[n].child == Some(p)
    ensures s.os.born[p] == n
  {
    hide SlotOk, CommandsOk, FramesHold;
    assert BornAs(s.os, p, n);
  }

  // ------------------------------------------------------------------ the past of a record

  /** An exit as it was: whether it was asked for, its code, and how long the process had run. */
  datatype ExitNote = ExitNote(requested: bool, code: Option<int>, uptime: int)

  predicate IsExitOf(s: State, e: Event, n: Name) {
    n in s.slots && e.Exit? && s.slots[n].child == Some(e.proc)
  }

  function NoteOf(s: State, e: Event, n: Name): ExitNote
    requires IsExitOf(s, e, n)
  {
    ExitNote(s.slots[n].draining, e.code, if s.slots[n].startedAt.Some? then e.now - s.slots[n].startedAt.value else 0)
  }

  /** The exits of n's processes since its record was created. */
  function Past(before: seq<ExitNote>, s: State, es: seq<Event>, n: Name): seq<ExitNote>
    requires Feasible(s, es)
    decreases |es|
  {
    if es == [] then before
    else
      var t := Next(s, es[0]);
      Past(if n !in t.slots then [] else if IsExitOf(s, es[0], n) then before + [NoteOf(s, es[0], n)] else before, t, es[1..], n)
  }

  predicate NoCrash(x: ExitNote) {
    x.requested || (x.code == Some(0) && x.uptime >= 5_000)
  }

  /** The crashes in a row at the end; one after a minute of running starts a new row. */
  function CrashRow(past: seq<ExitNote>): nat {
    if past == [] || NoCrash(past[|past| - 1]) then 0
    else if past[|past| - 1].uptime >= 60_000 then 1
    else CrashRow(past[..|past| - 1]) + 1
  }

  ghost predicate Counts(s: State, n: Name, past: seq<ExitNote>) {
    if n in s.slots then s.slots[n].crashes == CrashRow(past) else past == []
  }

  lemma NextCounts(s: State, e: Event, n: Name, past: seq<ExitNote>)
    requires Inv(s) && Enabled(s, e) && Counts(s, n, past)
    ensures var t := Next(s, e);
      Counts(t, n, if n !in t.slots then [] else if IsExitOf(s, e, n) then past + [NoteOf(s, e, n)] else past)
  {
    hide Inv, Next, Enabled, Wait, ClockOf;
    if e.Exit? {
      NextExits(s, e, n);
      if IsExitOf(s, e, n) {
        assert (past + [NoteOf(s, e, n)])[..|past|] == past;
      }
    } else {
      NextCarries(s, e);
    }
  }

  lemma {:induction false} RunCounts(s: State, es: seq<Event>, n: Name, past: seq<ExitNote>)
    requires Inv(s) && Feasible(s, es) && Counts(s, n, past)
    ensures Counts(Run(s, es), n, Past(past, s, es, n))
    decreases |es|
  {
    hide Inv, Next, Enabled, Counts, NoteOf, IsExitOf;
    if es != [] {
      var t := Next(s, es[0]);
      NextKeepsInv(s, es[0]);
      NextCounts(s, es[0], n, past);
      RunCounts(t, es[1..], n,
                if n !in t.slots then [] else if IsExitOf(s, es[0], n) then past + [NoteOf(s, es[0], n)] else past);
    }
  }

  lemma {:induction false} RowIsCrashes(past: seq<ExitNote>, i: nat)
    requires i < CrashRow(past)
    ensures CrashRow(past) <= |past|
    ensures var x := past[|past| - 1 - i];
      !NoCrash(x) && (i + 1 < CrashRow(past) ==> x.uptime < 60_000)
  {
    if past[|past| - 1].uptime < 60_000 && CrashRow(past) > 1 {
      RowIsCrashes(past[..|past| - 1], if i == 0 then 0 else i - 1);
    }
  }

  /** In every run: the crash counter of a record is the number of crashes in a row at the end of its past. */
  lemma CrashesAreCounted(es: seq<Event>, n: Name)
    requires Feasible(INITIAL, es) && n in Run(INITIAL, es).slots
    ensures Run(INITIAL, es).slots[n].crashes == CrashRow(Past([], INITIAL, es, n))
  {
    hide Feasible, Run, Past, CrashRow;
    InitialInv();
    RunCounts(INITIAL, es, n, []);
  }

  /**
   * In every run: CRASH_LOOP means that the last five exits were not asked for, that none of them was a clean exit after 5 s,
   * and that each of them but the first followed less than a minute of running.
   */
  lemma CrashLoopMeansFiveCrashes(es: seq<Event>, n: Name)
    requires Feasible(INITIAL, es) && n in Run(INITIAL, es).slots && Run(INITIAL, es).slots[n].state.CrashLoop?
    ensures var past := Past([], INITIAL, es, n);
      && |past| >= 5
      && (forall i :: |past| - 5 <= i < |past| ==> !past[i].requested && !(past[i].code == Some(0) && past[i].uptime >= 5_000))
      && (forall i :: |past| - 4 <= i < |past| ==> past[i].uptime < 60_000)
  {
    hide Feasible, Run, Past, CrashRow, Inv;
    CrashesAreCounted(es, n);
    InitialInv();
    RunKeepsInv(INITIAL, es);
    SlotOfName(Run(INITIAL, es), n);
    var past := Past([], INITIAL, es, n);
    RowIsCrashes(past, 0);
    forall i | |past| - 5 <= i < |past| ensures !NoCrash(past[i]) && (i >= |past| - 4 ==> past[i].uptime < 60_000) {
      RowIsCrashes(past, |past| - 1 - i);
    }
  }

  // ------------------------------------------------------------------ when the next process starts

  /** Between reconciles a wait can end, but none begins unless the process exits. */
  lemma {:induction false} RunKeepsWait(s: State, es: seq<Event>, n: Name, until: Option<int>)
    requires Inv(s) && Feasible(s, es) && n in s.slots
            && (s.slots[n].backoffUntil == until || s.slots[n].backoffUntil.None?)
    requires forall i :: 0 <= i < |es| ==> !es[i].DoReconcile?
    requires forall i: nat :: i < |es| && Feasible(s, es[..i]) ==> !IsExitOf(Run(s, es[..i]), es[i], n)
    ensures n in Run(s, es).slots
            && (Run(s, es).slots[n].backoffUntil == until || Run(s, es).slots[n].backoffUntil.None?)
    decreases |es|
  {
    hide Inv, Next, Enabled, ClockOf, IsExitOf;
    if es != [] {
      var t := Next(s, es[0]);
      assert es[..0] == [] && Run(s, es[..0]) == s;
      NextKeepsInv(s, es[0]);
      NextKeepsWait(s, es[0], n);
      forall i: nat | i < |es[1..]| && Feasible(t, es[1..][..i]) ensures !IsExitOf(Run(t, es[1..][..i]), es[1..][i], n) {
        assert es[..i + 1][1..] == es[1..][..i] && es[..i + 1][0] == es[0] && es[1..][i] == es[i + 1];
        assert Feasible(s, es[..i + 1]) && Run(s, es[..i + 1]) == Run(t, es[1..][..i]);
      }
      RunKeepsWait(t, es[1..], n, until);
    }
  }

  lemma NextKeepsWait(s: State, e: Event, n: Name)
    requires Inv(s) && Enabled(s, e) && n in s.slots && !e.DoReconcile? && !IsExitOf(s, e, n)
    ensures n in Next(s, e).slots
            && (Next(s, e).slots[n].backoffUntil == s.slots[n].backoffUntil || Next(s, e).slots[n].backoffUntil.None?)
  {
    hide Inv, Next, Enabled, ClockOf, ExitsAs;
    if e.Exit? { NextExits(s, e, n); } else { NextCarries(s, e); }
  }

  /** A reconcile starts a listed, enabled profile whose wait, if any, is over. */
  lemma ReconcileStarts(s: State, ps: seq<Profile>, p: Profile, now: int)
    requires Inv(s) && DistinctNames(ps) && p in ps && p.enabled && !s.shuttingDown && p.name in s.slots
    requires s.slots[p.name].backoffUntil.Some? ==> s.slots[p.name].backoffUntil.value <= now
    ensures p.name in Reconcile(s, ps, now).slots && Reconcile(s, ps, now).slots[p.name].child.Some?
  {
    var t := Reconcile(s, ps, now);
    hide Inv, Reconcile, NamesOf;
    ReconcileEstablishesDesired(s, ps, now);
    ReconcileSettles(s, ps, now);
    ReconcileCarries(s, ps, now);
  }

  /**
   * After an exit on request, or with code 0 after at least 5 s, there is no wait: whatever else happens to other processes
   * before the next reconcile, that reconcile, at any clock reading, finds or starts a process for the profile if it is listed
   * and enabled, unless the supervisor is shutting down.
   */
  lemma CleanExitStartsAgain(s: State, e: Event, es: seq<Event>, ps: seq<Profile>, p: Profile, now: int)
    requires Inv(s) && Enabled(s, e) && IsExitOf(s, e, p.name) && s.slots[p.name].startedAt.Some?
    requires s.slots[p.name].draining || (e.code == Some(0) && e.now - s.slots[p.name].startedAt.value >= 5_000)
    requires Feasible(Next(s, e), es) && forall i :: 0 <= i < |es| ==> !es[i].DoReconcile?
    requires forall i: nat :: i < |es| && Feasible(Next(s, e), es[..i]) ==> !IsExitOf(Run(Next(s, e), es[..i]), es[i], p.name)
    requires DistinctNames(ps) && p in ps && p.enabled && !Run(Next(s, e), es).shuttingDown
    ensures var t := Next(s, e);
      p.name in t.slots && t.slots[p.name].crashes == 0 && t.slots[p.name].backoffUntil.None? && t.slots[p.name].state == Stopped
    ensures var u := Reconcile(Run(Next(s, e), es), ps, now);
      p.name in u.slots && u.slots[p.name].child.Some?
  {
    hide Inv, Next, Enabled, Run, Feasible, Reconcile;
    NextExits(s, e, p.name);
    NextKeepsInv(s, e);
    RunKeepsWait(Next(s, e), es, p.name, None);
    RunKeepsInv(Next(s, e), es);
    ReconcileStarts(Run(Next(s, e), es), ps, p, now);
  }

  /**
   * A crash after at least a minute of running counts as the first one and waits at most 1 s: in the same way a reconcile from
   * then on finds or starts a process.
   */
  lemma StableCrashWaitsOneSecond(s: State, e: Event, es: seq<Event>, ps: seq<Profile>, p: Profile, now: int)
    requires Inv(s) && Enabled(s, e) && IsExitOf(s, e, p.name) && s.slots[p.name].startedAt.Some?
    requires !s.slots[p.name].draining && e.code != Some(0) && e.now - s.slots[p.name].startedAt.value >= 60_000
    requires Feasible(Next(s, e), es) && forall i :: 0 <= i < |es| ==> !es[i].DoReconcile?
    requires forall i: nat :: i < |es| && Feasible(Next(s, e), es[..i]) ==> !IsExitOf(Run(Next(s, e), es[..i]), es[i], p.name)
    requires DistinctNames(ps) && p in ps && p.enabled && !Run(Next(s, e), es).shuttingDown && now >= e.now + 1_000
    ensures var t := Next(s, e);
      && p.name in t.slots && t.slots[p.name].crashes == 1 && t.slots[p.name].state == Backoff
      && t.slots[p.name].backoffUntil == Some(e.now + if s.cfg.backoffMaxMs <= 1_000 then s.cfg.backoffMaxMs else 1_000)
    ensures var u := Reconcile(Run(Next(s, e), es), ps, now);
      p.name in u.slots && u.slots[p.name].child.Some?
  {
    hide Inv, Next, Enabled, Run, Feasible, Reconcile;
    NextExits(s, e, p.name);
    NextKeepsInv(s, e);
    RunKeepsWait(Next(s, e), es, p.name, Next(s, e).slots[p.name].backoffUntil);
    RunKeepsInv(Next(s, e), es);
    ReconcileStarts(Run(Next(s, e), es), ps, p, now);
  }
}
