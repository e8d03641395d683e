/** Escalation: a drained process that does not leave is killed in bounded time, whatever else is asked meanwhile. */
module SupervisorTiming {
  import opened Wrappers
  import opened SupervisorModel
  import opened SupervisorSafety

  // ------------------------------------------------------------------ a drain request never postpones escalation

  function Max(a: int, b: int): int {
    if a > b then a else b
  }

  /** The projected time of the first SIGKILL, as seen at `now`. */
  function FirstKill(sl: Slot, now: int): int {
    if sl.killAt.Some? then sl.killAt.value
    else if sl.drainDeadline.Some? then Max(sl.drainDeadline.value, now) + SIGKILL_AFTER_MS
    else now
  }

  /** On a slot already draining, a further request of any mode and timeout never moves the first SIGKILL later. */
  lemma DrainNeverPostpones(n: Name, sl: Slot, mode: Mode, timeoutMs: int, now: int)
    requires SlotOk(n, sl) && sl.draining
    ensures FirstKill(BeginDrain(sl, mode, timeoutMs, now), now) <= FirstKill(sl, now)
  {
  }

  /** Enforcing deadlines keeps the projection until the kill itself. */
  lemma EnforceKeepsProjection(n: Name, sl: Slot, now: int)
    requires SlotOk(n, sl) && sl.draining && Signal(sl.child.value, Kill, now) !in EnforceSignals(sl, now)
    ensures FirstKill(EnforceSlot(sl, now), now) == FirstKill(sl, now)
  {
    assert !KillDue(TermSlot(sl, now), now);
  }

  // ------------------------------------------------------------------ timed runs

  /** The clock reading a step works with, if it uses one. */
  function Reading(e: Event): Option<int> {
    match e
    case DoReconcile(_, now) => Some(now)
    case Exit(_, _, now) => Some(now)
    case Enforce(now) => Some(now)
    case Shutdown(_, now) => Some(now)
    case CmdRestart(_, _, now) => Some(now)
    case CmdStop(_, _, now) => Some(now)
    case CmdStart(_, _, now) => Some(now)
    case CmdRestartAll(_, now) => Some(now)
    case CmdRestartSupervisor(_, now) => Some(now)
    case _ => None
  }

  /** The latest enforcement so far. */
  function Enforced(last: int, e: Event): int {
    if e.Enforce? then Max(last, e.now) else last
  }

  function LastEnforced(last: int, es: seq<Event>): int
    decreases |es|
  {
    if es == [] then last else LastEnforced(Enforced(last, es[0]), es[1..])
  }

  /** Ticks at most delta apart: no step reads a clock more than delta later than the latest enforcement. */
  predicate Timely(last: int, es: seq<Event>, delta: nat)
    decreases |es|
  {
    es == [] || ((Reading(es[0]).Some? ==> Reading(es[0]).value <= last + delta) && Timely(Enforced(last, es[0]), es[1..], delta))
  }

  predicate FramesTimely(s: State, bound: int) {
    && (forall id :: id in s.stops ==> s.stops[id].now <= bound)
    && (forall id :: id in s.starts ==> s.starts[id].now <= bound)
  }

  // ------------------------------------------------------------------ what one step does to a draining slot

  /** Any step but an enforcement: the deadline stays, and a SIGTERM it sends is followed by SIGKILL 10 s later. */
  predicate DrainKept(a: Slot, b: Slot, bound: int) {
    && b.child == a.child && b.uid == a.uid
    && (a.draining ==> b.draining)
    && (a.drainDeadline.Some? ==> b.drainDeadline == a.drainDeadline)
    && ((b.termSent == a.termSent && b.killAt == a.killAt)
        || (!a.termSent && b.termSent && b.killAt.Some? && b.killAt.value <= bound + IMMEDIATE_KILL_AFTER_MS))
  }

  /** The slot of n, with the process p it had, kept its drain; no signal was taken back. */
  ghost predicate StepKeepsDrain(s: State, t: State, n: Name, p: Proc, bound: int) {
    && n in s.slots && n in t.slots && t.slots[n].child == Some(p) && DrainKept(s.slots[n], t.slots[n], bound)
    && s.os.signals <= t.os.signals
  }

  lemma BeginDrainKept(sl: Slot, mode: Mode, timeoutMs: int, now: int, bound: int)
    requires sl.child.Some? && now <= bound && (sl.termSent <==> sl.killAt.Some?)
    ensures DrainKept(sl, BeginDrain(sl, mode, timeoutMs, now), bound)
  {
  }

  lemma DrainNamesKeepsDrain(s: State, names: set<Name>, mode: Mode, timeoutMs: int, now: int, n: Name, p: Proc,
                             bound: int)
    requires SlotsOk(s) && n in s.slots && s.slots[n].child == Some(p) && now <= bound
    ensures StepKeepsDrain(s, DrainNames(s, names, mode, timeoutMs, now), n, p, bound)
  {
    assert SlotOk(n, s.slots[n]);
    BeginDrainKept(s.slots[n], mode, timeoutMs, now, bound);
    KeptSame(s.slots[n], bound);
    hide BeginDrain, AllDrainSignals, SlotsOk, DrainKept;
  }

  lemma KeptTwice(a: Slot, b: Slot, c: Slot, bound: int)
    requires DrainKept(a, b, bound) && DrainKept(b, c, bound)
    ensures DrainKept(a, c, bound)
  {
  }

  lemma SettleKept(sl: Slot, p: Profile, stopTimeoutMs: int, now: int, bound: int)
    requires SlotOk(p.name, sl) && sl.child.Some? && now <= bound
    ensures DrainKept(sl, SettleSlot(Refreshed(sl, p, now), stopTimeoutMs, now), bound)
    ensures !Starts(Refreshed(sl, p, now), true, now) && !Starts(Refreshed(sl, p, now), false, now)
  {
  }

  /** Replacing one slot, of another name or by one that keeps the drain. */
  lemma OneSlotKeepsDrain(s: State, t: State, name: Name, sl: Slot, n: Name, p: Proc, bound: int)
    requires n in s.slots && s.slots[n].child == Some(p)
    requires t.slots == s.slots[name := sl] && s.os.signals <= t.os.signals
    requires name == n ==> sl.child == Some(p) && DrainKept(s.slots[n], sl, bound)
    ensures StepKeepsDrain(s, t, n, p, bound)
  {
    KeptSame(s.slots[n], bound);
    hide DrainKept;
  }

  lemma SameSlotsKeepDrain(s: State, t: State, n: Name, p: Proc, bound: int)
    requires n in s.slots && s.slots[n].child == Some(p) && t.slots == s.slots && t.os.signals == s.os.signals
    ensures StepKeepsDrain(s, t, n, p, bound)
  {
    KeptSame(s.slots[n], bound);
    hide DrainKept;
  }

  lemma ReconcileOneKeepsDrain(s: State, q: Profile, now: int, n: Name, p: Proc, bound: int)
    requires Inv(s) && n in s.slots && s.slots[n].child == Some(p) && now <= bound
    ensures StepKeepsDrain(s, ReconcileOne(s, q, now), n, p, bound)
  {
    var e := Ensured(s, q);
    EnsuredKeepsInv(s, q);
    EnsuredKeepsSlot(s, q, n);
    SlotOfName(e, q.name);
    hide Inv, Ensured, StepKeepsDrain;
    RefreshedOk(e.slots[q.name], q, now);
    var sl := Refreshed(e.slots[q.name], q, now);
    SettleSlotOk(q.name, sl, s.cfg.stopTimeoutMs, now);
    if q.name == n { SettleKept(s.slots[n], q, s.cfg.stopTimeoutMs, now, bound); }
    hide *;
    ReconcileOneSlots(s, e, sl, q, now);
    var b := if Starts(sl, s.shuttingDown, now) then SpawnSlot(sl, e.os.next, now) else SettleSlot(sl, s.cfg.stopTimeoutMs, now);
    OneSlotKeepsDrain(e, ReconcileOne(s, q, now), q.name, b, n, p, bound);
    StepFrom(s, e, ReconcileOne(s, q, now), n, p, bound);
  }

  lemma EnsuredKeepsSlot(s: State, q: Profile, n: Name)
    requires n in s.slots
    ensures var e := Ensured(s, q);
      n in e.slots && q.name in e.slots && e.slots[n] == s.slots[n] && e.os == s.os && e.cfg == s.cfg
  {
    hide NewSlot;
    if q.name !in s.slots { assert n != q.name; }
  }

  lemma ReconcileOneSlots(s: State, e: State, sl: Slot, q: Profile, now: int)
    requires e == Ensured(s, q) && q.name in e.slots && sl == Refreshed(e.slots[q.name], q, now)
            && sl.profile.name == q.name
    requires SettleSlot(sl, s.cfg.stopTimeoutMs, now).profile == sl.profile
    ensures var t := ReconcileOne(s, q, now);
      && t.slots == e.slots[q.name := if Starts(sl, s.shuttingDown, now) then SpawnSlot(sl, e.os.next, now)
                                      else SettleSlot(sl, s.cfg.stopTimeoutMs, now)]
      && e.os.signals <= t.os.signals
  {
    hide Ensured, Refreshed, SettleSlot, SettleSignals, Starts;
  }

  lemma StepFrom(s: State, e: State, t: State, n: Name, p: Proc, bound: int)
    requires n in s.slots && n in e.slots && e.slots[n] == s.slots[n] && e.os.signals == s.os.signals
            && StepKeepsDrain(e, t, n, p, bound)
    ensures StepKeepsDrain(s, t, n, p, bound)
  {
    hide DrainKept;
  }

  lemma {:induction false} ReconcileListKeepsDrain(s: State, ps: seq<Profile>, now: int, n: Name, p: Proc, bound: int)
    requires Inv(s) && n in s.slots && s.slots[n].child == Some(p) && now <= bound
    ensures StepKeepsDrain(s, ReconcileList(s, ps, now), n, p, bound)
  {
    hide Inv, ReconcileOne, DrainKept;
    if ps == [] {
      KeptSame(s.slots[n], bound);
    } else {
      var m := ReconcileList(s, ps[..|ps| - 1], now);
      ReconcileListKeepsDrain(s, ps[..|ps| - 1], now, n, p, bound);
      ReconcileListKeepsInv(s, ps[..|ps| - 1], now);
      ReconcileOneKeepsDrain(m, ps[|ps| - 1], now, n, p, bound);
      KeptTwice(s.slots[n], m.slots[n], ReconcileOne(m, ps[|ps| - 1], now).slots[n], bound);
    }
  }

  lemma KeptSame(sl: Slot, bound: int)
    ensures DrainKept(sl, sl, bound)
  {
  }

  lemma ReconcileKeepsDrain(s: State, ps: seq<Profile>, now: int, n: Name, p: Proc, bound: int)
    requires Inv(s) && n in s.slots && s.slots[n].child == Some(p) && now <= bound
    ensures StepKeepsDrain(s, Reconcile(s, ps, now), n, p, bound)
  {
    ReconcileListKeepsDrain(s, ps, now, n, p, bound);
    ReconcileListKeepsInv(s, ps, now);
    var m := ReconcileList(s, ps, now);
    var u := Unseen(m, NamesOf(ps));
    DrainNamesKeepsDrain(m, u, Safe, m.cfg.stopTimeoutMs, now, n, p, bound);
    var d := DrainNames(m, u, Safe, m.cfg.stopTimeoutMs, now);
    hide Inv, ReconcileList, DrainKept, DrainNames, NamesOf;
    KeptTwice(s.slots[n], m.slots[n], d.slots[n], bound);
  }

  lemma RestartIdleKeepsDrain(s: State, c: Command, name: Name, now: int, n: Name, p: Proc, bound: int)
    requires name in s.slots && s.slots[name].profile.name == name && s.slots[name].child.None?
    requires n in s.slots && s.slots[n].child == Some(p)
    ensures StepKeepsDrain(s, RestartProfile(s, c, Some(name), now), n, p, bound)
  {
    hide DrainKept, StepKeepsDrain, SpawnSlot;
    var ready := s.slots[name].(backoffUntil := None);
    if !s.slots[name].profile.enabled {
      SameSlotsKeepDrain(s, RestartProfile(s, c, Some(name), now), n, p, bound);
    } else {
      var sl := if s.shuttingDown then ready else SpawnSlot(ready, s.os.next, now);
      SpawnKeepsName(ready, s.os.next, now);
      OneSlotKeepsDrain(s, RestartProfile(s, c, Some(name), now), name, sl, n, p, bound);
    }
  }

  lemma RestartBusyKeepsDrain(s: State, c: Command, name: Name, now: int, n: Name, p: Proc, bound: int)
    requires Inv(s) && name in s.slots && s.slots[name].child.Some? && now <= bound
    requires n in s.slots && s.slots[n].child == Some(p)
    ensures StepKeepsDrain(s, RestartProfile(s, c, Some(name), now), n, p, bound)
  {
    SlotOfName(s, name);
    BeginDrainOk(name, s.slots[name], c.mode, c.timeoutMs, now);
    if name == n { BeginDrainKept(s.slots[n], c.mode, c.timeoutMs, now, bound); }
    hide Inv, DrainKept, StepKeepsDrain, BeginDrain, DrainSignals, SlotOk;
    if s.slots[name].profile.enabled {
      OneSlotKeepsDrain(s, RestartProfile(s, c, Some(name), now), name, BeginDrain(s.slots[name], c.mode, c.timeoutMs, now), n, p, bound);
    } else {
      SameSlotsKeepDrain(s, RestartProfile(s, c, Some(name), now), n, p, bound);
    }
  }

  lemma RestartProfileKeepsDrain(s: State, c: Command, found: Option<Name>, now: int, n: Name, p: Proc, bound: int)
    requires Inv(s) && n in s.slots && s.slots[n].child == Some(p) && now <= bound
    ensures StepKeepsDrain(s, RestartProfile(s, c, found, now), n, p, bound)
  {
    if found.None? || found.value !in s.slots {
      SameSlotsKeepDrain(s, RestartProfile(s, c, found, now), n, p, bound);
    } else {
      SlotOfName(s, found.value);
      hide *;
      if s.slots[found.value].child.None? {
        RestartIdleKeepsDrain(s, c, found.value, now, n, p, bound);
      } else {
        RestartBusyKeepsDrain(s, c, found.value, now, n, p, bound);
      }
    }
  }

  lemma ResumeStopKeepsDrain(s: State, id: CmdId, n: Name, p: Proc, bound: int)
    requires Inv(s) && id in s.stops && n in s.slots && s.slots[n].child == Some(p) && s.stops[id].now <= bound
    ensures StepKeepsDrain(s, ResumeStop(s, id), n, p, bound)
  {
    var f := s.stops[id];
    if Attached(s, f) {
      SlotOfName(s, f.name);
      var sl := s.slots[f.name].(profile := s.slots[f.name].profile.(enabled := false));
      BeginDrainOk(f.name, sl, f.command.mode, f.command.timeoutMs, f.now);
      DrainKeepsName(sl, f.command.mode, f.command.timeoutMs, f.now);
      if f.name == n { BeginDrainKept(sl, f.command.mode, f.command.timeoutMs, f.now, bound); }
      assert f.name == n ==> DrainKept(s.slots[n], BeginDrain(sl, f.command.mode, f.command.timeoutMs, f.now), bound);
      assert f.name == n ==> DrainKept(s.slots[n], sl, bound);
      hide Inv, SlotOk, DrainKept, StepKeepsDrain, BeginDrain, DrainSignals;
      OneSlotKeepsDrain(s, ResumeStop(s, id), f.name,
                        if sl.child.None? then sl else BeginDrain(sl, f.command.mode, f.command.timeoutMs, f.now), n, p, bound);
    } else {
      hide Inv, DrainKept, StepKeepsDrain;
      SameSlotsKeepDrain(s, ResumeStop(s, id), n, p, bound);
    }
  }

  lemma ResumeStartKeepsDrain(s: State, id: CmdId, n: Name, p: Proc, bound: int)
    requires Inv(s) && id in s.starts && n in s.slots && s.slots[n].child == Some(p)
    ensures StepKeepsDrain(s, ResumeStart(s, id), n, p, bound)
  {
    var f := s.starts[id];
    if Attached(s, f) {
      SlotOfName(s, f.name);
      var sl := s.slots[f.name].(profile := s.slots[f.name].profile.(enabled := true), backoffUntil := None);
      assert f.name == n ==> DrainKept(s.slots[n], sl, bound);
      var b := if sl.child.None? && !s.shuttingDown then SpawnSlot(sl, s.os.next, f.now) else sl;
      assert b.profile == sl.profile;
      hide Inv, SlotOk, DrainKept, StepKeepsDrain, SpawnSlot;
      OneSlotKeepsDrain(s, ResumeStart(s, id), f.name, b, n, p, bound);
    } else {
      hide Inv, DrainKept, StepKeepsDrain;
      SameSlotsKeepDrain(s, ResumeStart(s, id), n, p, bound);
    }
  }

  lemma RestartAllKeepsDrain(s: State, c: Command, now: int, n: Name, p: Proc, bound: int)
    requires Inv(s) && n in s.slots && s.slots[n].child == Some(p) && now <= bound
    ensures StepKeepsDrain(s, RestartAll(s, c, now), n, p, bound)
  {
    var hit, idle := Hit(s), Idle(s);
    assert n !in idle && SlotsOk(s);
    hide Inv, SlotsOk, Hit, Idle, StepKeepsDrain;
    DrainNamesKeepsDrain(s, hit, c.mode, c.timeoutMs, now, n, p, bound);
    DrainAndClearKeepsDrain(s, hit, idle, c.mode, c.timeoutMs, now, n, p, bound);
    RestartAllStep(s, c, now);
    SameStep(s, DrainAndClear(s, hit, idle, c.mode, c.timeoutMs, now), RestartAll(s, c, now), n, p, bound);
  }

  lemma RestartAllStep(s: State, c: Command, now: int)
    ensures var t := RestartAll(s, c, now);
      var r := DrainAndClear(s, Hit(s), Idle(s), c.mode, c.timeoutMs, now);
      t.slots == r.slots && t.os == r.os && t.stops == r.stops && t.starts == r.starts
  {
    hide DrainAndClear, Children, Hit, Idle, Mark, Activate;
    var r := DrainAndClear(s, Hit(s), Idle(s), c.mode, c.timeoutMs, now);
    MarkKeepsSlots(r, c.id, Done);
    MarkKeepsFrames(r, c.id, Done);
    var a := Active(Restart, Children(s, Hit(s)), s.os.next, false);
    ActivateKeepsFrames(r, c.id, a);
    ActivateKeepsSlots(r, c.id, a);
  }

  lemma SameStep(s: State, r: State, t: State, n: Name, p: Proc, bound: int)
    requires StepKeepsDrain(s, r, n, p, bound) && t.slots == r.slots && t.os == r.os
    ensures StepKeepsDrain(s, t, n, p, bound)
  {
    hide DrainKept;
  }

  lemma DrainAndClearKeepsDrain(s: State, hit: set<Name>, idle: set<Name>, mode: Mode, timeoutMs: int, now: int,
                                n: Name, p: Proc, bound: int)
    requires StepKeepsDrain(s, DrainNames(s, hit, mode, timeoutMs, now), n, p, bound) && n !in idle
    ensures StepKeepsDrain(s, DrainAndClear(s, hit, idle, mode, timeoutMs, now), n, p, bound)
  {
    hide DrainKept, DrainNames;
  }

  lemma ExitKeepsDrain(s: State, q: Proc, code: Option<int>, now: int, n: Name, p: Proc, bound: int)
    requires Inv(s) && q in s.os.live && p != q && n in s.slots && s.slots[n].child == Some(p)
    ensures StepKeepsDrain(s, ChildExits(s, q, code, now), n, p, bound)
  {
    SlotOfName(s, s.os.born[q]);
    ExitSlotOk(s.os.born[q], s.slots[s.os.born[q]], code, now, s.cfg);
    KeptSame(s.slots[n], bound);
    hide ExitSlot, SlotOk, DrainKept;
  }

  /** Every step except an enforcement and the process's own exit keeps the drain. */
  lemma NextKeepsDrain(s: State, e: Event, n: Name, p: Proc, bound: int)
    requires Inv(s) && Enabled(s, e) && !e.Enforce? && !(e.Exit? && e.proc == p)
    requires n in s.slots && s.slots[n].child == Some(p)
    requires (Reading(e).Some? ==> Reading(e).value <= bound) && FramesTimely(s, bound)
    ensures StepKeepsDrain(s, Next(s, e), n, p, bound)
  {
    hide Inv, StepKeepsDrain, Reconcile, RestartProfile, ResumeStop, ResumeStart, RestartAll, ChildExits, DrainNames,
      RestartSupervisor, BeginStop, BeginStart, FinishOne;
    match e
    case DoReconcile(ps, now) => ReconcileKeepsDrain(s, ps, now, n, p, bound);
    case Exit(q, code, now) => ExitKeepsDrain(s, q, code, now, n, p, bound);
    case CmdRestart(c, found, now) => RestartProfileKeepsDrain(s, c, found, now, n, p, bound);
    case StopWritten(id) => ResumeStopKeepsDrain(s, id, n, p, bound);
    case StartWritten(id) => ResumeStartKeepsDrain(s, id, n, p, bound);
    case CmdRestartAll(c, now) => RestartAllKeepsDrain(s, c, now, n, p, bound);
    case CmdRestartSupervisor(c, now) =>
      ShutdownKeepsDrain(s, c.mode, c.timeoutMs, now, n, p, bound);
      RestartSupervisorStep(s, c, now);
      SameStep(s, DrainNames(s.(shuttingDown := true), WithChild(s), c.mode, c.timeoutMs, now), Next(s, e), n, p, bound);
    case Shutdown(timeoutMs, now) => ShutdownKeepsDrain(s, Safe, timeoutMs, now, n, p, bound);
    case _ =>
      OtherStepsKeepDrain(s, e, n, p, bound);
  }

  lemma OtherStepsKeepDrain(s: State, e: Event, n: Name, p: Proc, bound: int)
    requires Enabled(s, e) && n in s.slots && s.slots[n].child == Some(p)
    requires e.LoadConfig? || e.CmdStop? || e.CmdStart? || e.CmdError? || e.Finish? || e.ExitProcess?
    ensures StepKeepsDrain(s, Next(s, e), n, p, bound)
  {
    OtherStepsKeepSlots(s, e);
    hide Next, Enabled, StepKeepsDrain;
    SameSlotsKeepDrain(s, Next(s, e), n, p, bound);
  }

  lemma RestartSupervisorStep(s: State, c: Command, now: int)
    ensures var t := RestartSupervisor(s, c, now);
      var d := DrainNames(s.(shuttingDown := true), WithChild(s), c.mode, c.timeoutMs, now);
      t.slots == d.slots && t.os == d.os && t.stops == d.stops && t.starts == d.starts
  {
    hide DrainNames, WithChild, Children;
  }

  /** Configuration, lookups and the end of commands touch neither slots nor processes. */
  lemma OtherStepsKeepSlots(s: State, e: Event)
    requires Enabled(s, e)
    requires e.LoadConfig? || e.CmdStop? || e.CmdStart? || e.CmdError? || e.Finish? || e.ExitProcess?
    ensures Next(s, e).slots == s.slots && Next(s, e).os == s.os
  {
    hide FinishOne, Mark;
    match e
    case CmdStop(c, _, _) => MarkKeepsSlots(s, c.id, Failed);
    case CmdStart(c, _, _) => MarkKeepsSlots(s, c.id, Failed);
    case CmdError(id) => MarkKeepsSlots(s.(stops := s.stops - {id}, starts := s.starts - {id}), id, Failed);
    case Finish(id) => FinishKeepsSlots(s, id);
    case _ =>
  }

  lemma MarkKeepsSlots(s: State, id: CmdId, o: Outcome)
    ensures Mark(s, id, o).slots == s.slots && Mark(s, id, o).os == s.os
  {
  }

  lemma ActivateKeepsSlots(s: State, id: CmdId, a: Active)
    ensures Activate(s, id, a).slots == s.slots && Activate(s, id, a).os == s.os
  {
  }

  lemma FinishKeepsSlots(s: State, id: CmdId)
    requires id in s.commands
    ensures FinishOne(s, id).slots == s.slots && FinishOne(s, id).os == s.os
  {
    hide TargetsReached;
  }

  lemma ShutdownKeepsDrain(s: State, mode: Mode, timeoutMs: int, now: int, n: Name, p: Proc, bound: int)
    requires Inv(s) && n in s.slots && s.slots[n].child == Some(p) && now <= bound
    ensures StepKeepsDrain(s, DrainNames(s.(shuttingDown := true), WithChild(s), mode, timeoutMs, now), n, p, bound)
  {
    var u := s.(shuttingDown := true);
    DrainNamesKeepsDrain(u, WithChild(s), mode, timeoutMs, now, n, p, bound);
    hide DrainKept, DrainNames, Inv;
  }

  // ------------------------------------------------------------------ the bound

  /**
   * p, whose drain deadline is at most D, is on its way out: either SIGKILL was sent in time, or SIGTERM was and SIGKILL is due
   * in time, or the deadline has not been enforced yet.
   */
  ghost predicate OnItsWayOut(s: State, n: Name, p: Proc, D: int, last: int, delta: nat) {
    && n in s.slots && s.slots[n].child == Some(p)
    && var sl := s.slots[n];
       || KilledBy(s, p, D + SIGKILL_AFTER_MS + 2 * delta)
       || (&& sl.draining
           && if sl.termSent then sl.killAt.Some? && sl.killAt.value <= D + SIGKILL_AFTER_MS + delta && last < D + SIGKILL_AFTER_MS + delta
              else sl.drainDeadline.Some? && sl.drainDeadline.value <= D && last < D)
  }

  ghost predicate KilledBy(s: State, p: Proc, t: int) {
    exists g :: g in s.os.signals && g.proc == p && g.kind == Kill && g.at <= t
  }

  lemma EnforceOnItsWay(s: State, now: int, n: Name, p: Proc, D: int, last: int, delta: nat)
    requires Inv(s) && OnItsWayOut(s, n, p, D, last, delta) && now <= last + delta
    ensures OnItsWayOut(EnforceDeadlines(s, now), n, p, D, Max(last, now), delta)
  {
    var t := EnforceDeadlines(s, now);
    var sl := s.slots[n];
    EnforceSlotOk(n, sl, now);
    assert t.slots[n] == EnforceSlot(sl, now);
    assert s.os.signals <= t.os.signals;
    if KilledBy(s, p, D + SIGKILL_AFTER_MS + 2 * delta) {
      var g :| g in s.os.signals && g.proc == p && g.kind == Kill && g.at <= D + SIGKILL_AFTER_MS + 2 * delta;
      assert g in t.os.signals;
    } else if KillDue(TermSlot(sl, now), now) {
      var g := Signal(p, Kill, now);
      assert g in EnforceSignals(sl, now);
      assert g in t.os.signals;
    }
  }

  lemma NextOnItsWay(s: State, e: Event, n: Name, p: Proc, D: int, last: int, delta: nat)
    requires Inv(s) && Enabled(s, e) && OnItsWayOut(s, n, p, D, last, delta) && !(e.Exit? && e.proc == p)
    requires (Reading(e).Some? ==> Reading(e).value <= last + delta) && FramesTimely(s, last + delta)
    ensures OnItsWayOut(Next(s, e), n, p, D, Enforced(last, e), delta)
  {
    hide Inv;
    if e.Enforce? {
      EnforceOnItsWay(s, e.now, n, p, D, last, delta);
    } else {
      NextKeepsDrain(s, e, n, p, last + delta);
      hide Next, Enabled;
      if KilledBy(s, p, D + SIGKILL_AFTER_MS + 2 * delta) {
        var g :| g in s.os.signals && g.proc == p && g.kind == Kill && g.at <= D + SIGKILL_AFTER_MS + 2 * delta;
        assert g in Next(s, e).os.signals;
      }
    }
  }

  /** A step keeps the waiting commands, but for those that it resumes, drops or adds with its own clock reading. */
  lemma NextFramesTimely(s: State, e: Event, bound: int)
    requires Enabled(s, e) && FramesTimely(s, bound) && (Reading(e).Some? ==> Reading(e).value <= bound)
    ensures FramesTimely(Next(s, e), bound)
  {
    NextFrames(s, e);
    hide Next, Enabled;
  }

  lemma NextFrames(s: State, e: Event)
    requires Enabled(s, e)
    ensures var t := Next(s, e);
      && (forall id :: id in t.stops ==>
            (id in s.stops && t.stops[id] == s.stops[id]) || (e.CmdStop? && t.stops[id].now == e.now))
      && forall id :: id in t.starts ==>
           (id in s.starts && t.starts[id] == s.starts[id]) || (e.CmdStart? && t.starts[id].now == e.now)
  {
    hide Reconcile, RestartProfile, ResumeStop, ResumeStart, RestartAll, DrainNames, RestartSupervisor, ChildExits, EnforceDeadlines,
      FinishOne, BeginShutdown, Mark;
    match e
    case DoReconcile(ps, now) => ReconcileKeepsFrames(s, ps, now);
    case CmdRestart(c, found, now) => RestartKeepsFrames(s, c, found, now);
    case StopWritten(id) => ResumeStopKeepsFrames(s, id);
    case StartWritten(id) => ResumeStartKeepsFrames(s, id);
    case CmdRestartAll(c, now) => RestartAllKeepsFrames(s, c, now);
    case CmdRestartSupervisor(c, now) => RestartSupervisorKeepsFrames(s, c, now);
    case Shutdown(timeoutMs, now) => ShutdownKeepsFrames(s, timeoutMs, now);
    case Enforce(now) => EnforceKeepsFrames(s, now);
    case Exit(q, code, now) => ExitKeepsFrames(s, q, code, now);
    case Finish(id) => FinishKeepsFrames(s, id);
    case CmdStop(c, found, now) => MarkKeepsFrames(s, c.id, Failed);
    case CmdStart(c, found, now) => MarkKeepsFrames(s, c.id, Failed);
    case CmdError(id) => MarkKeepsFrames(s.(stops := s.stops - {id}, starts := s.starts - {id}), id, Failed);
    case _ =>
  }

  predicate SameFrames(s: State, t: State) {
    t.stops == s.stops && t.starts == s.starts
  }

  lemma MarkKeepsFrames(s: State, id: CmdId, o: Outcome)
    ensures SameFrames(s, Mark(s, id, o))
  {
  }

  lemma ActivateKeepsFrames(s: State, id: CmdId, a: Active)
    ensures SameFrames(s, Activate(s, id, a))
  {
  }

  lemma SlotKeepsFrames(s: State, sl: Slot, more: set<Signal>)
    ensures SameFrames(s, WithSlot(s, sl)) && SameFrames(s, WithSignals(s, more))
  {
  }

  lemma SpawnKeepsFrames(s: State, sl: Slot, now: int)
    ensures SameFrames(s, Spawn(s, sl, now))
  {
    hide SpawnSlot;
  }

  /** What a stop or a restart of one profile does to the waiting commands: nothing. */
  lemma DrainThenActivateKeepsFrames(s: State, id: CmdId, sl: Slot, more: set<Signal>, a: Active)
    ensures SameFrames(s, Activate(WithSignals(WithSlot(s, sl), more), id, a))
  {
    hide *;
    SlotKeepsFrames(s, sl, more);
    SlotKeepsFrames(WithSlot(s, sl), sl, more);
    ActivateKeepsFrames(WithSignals(WithSlot(s, sl), more), id, a);
    SameFramesTwice(s, WithSlot(s, sl), WithSignals(WithSlot(s, sl), more));
    SameFramesTwice(s, WithSignals(WithSlot(s, sl), more), Activate(WithSignals(WithSlot(s, sl), more), id, a));
  }

  lemma SameFramesTwice(s: State, t: State, u: State)
    requires SameFrames(s, t) && SameFrames(t, u)
    ensures SameFrames(s, u)
  {
  }

  lemma RestartSupervisorKeepsFrames(s: State, c: Command, now: int)
    ensures SameFrames(s, RestartSupervisor(s, c, now))
  {
    RestartSupervisorStep(s, c, now);
    DrainNamesKeepsFrames(s.(shuttingDown := true), WithChild(s), c.mode, c.timeoutMs, now);
    hide RestartSupervisor, DrainNames, WithChild;
  }

  lemma ShutdownKeepsFrames(s: State, timeoutMs: int, now: int)
    ensures SameFrames(s, BeginShutdown(s, timeoutMs, now))
  {
    DrainNamesKeepsFrames(s.(shuttingDown := true), WithChild(s), Safe, timeoutMs, now);
    hide DrainNames, WithChild;
  }

  lemma DrainNamesKeepsFrames(s: State, names: set<Name>, mode: Mode, timeoutMs: int, now: int)
    ensures DrainNames(s, names, mode, timeoutMs, now).stops == s.stops
            && DrainNames(s, names, mode, timeoutMs, now).starts == s.starts
  {
    hide BeginDrain, AllDrainSignals;
  }

  lemma EnforceKeepsFrames(s: State, now: int)
    ensures EnforceDeadlines(s, now).stops == s.stops && EnforceDeadlines(s, now).starts == s.starts
  {
    hide EnforceSlot, EnforceSignals, EnforceCommand;
  }

  lemma ExitKeepsFrames(s: State, q: Proc, code: Option<int>, now: int)
    ensures ChildExits(s, q, code, now).stops == s.stops && ChildExits(s, q, code, now).starts == s.starts
  {
    hide ExitSlot, WithSlot;
    var gone := s.(os := s.os.(live := s.os.live - {q}));
    if q in s.os.born && s.os.born[q] in s.slots {
      SlotKeepsFrames(gone, ExitSlot(s.slots[s.os.born[q]], code, now, s.cfg), {});
    }
  }

  lemma FinishKeepsFrames(s: State, id: CmdId)
    requires id in s.commands
    ensures FinishOne(s, id).stops == s.stops && FinishOne(s, id).starts == s.starts
  {
    hide TargetsReached;
  }

  lemma {:induction false} ListKeepsFrames(s: State, ps: seq<Profile>, now: int)
    ensures ReconcileList(s, ps, now).stops == s.stops && ReconcileList(s, ps, now).starts == s.starts
  {
    hide ReconcileOne;
    if ps != [] {
      ListKeepsFrames(s, ps[..|ps| - 1], now);
      ReconcileOneKeepsRest(ReconcileList(s, ps[..|ps| - 1], now), ps[|ps| - 1], now);
    }
  }

  lemma ReconcileKeepsFrames(s: State, ps: seq<Profile>, now: int)
    ensures Reconcile(s, ps, now).stops == s.stops && Reconcile(s, ps, now).starts == s.starts
  {
    ListKeepsFrames(s, ps, now);
    hide ReconcileList, BeginDrain, AllDrainSignals, NamesOf;
  }

  lemma RestartKeepsFrames(s: State, c: Command, found: Option<Name>, now: int)
    ensures SameFrames(s, RestartProfile(s, c, found, now))
  {
    hide BeginDrain, DrainSignals, SpawnSlot, Mark, Activate, Spawn, WithSlot, WithSignals, SameFrames;
    if found.None? || found.value !in s.slots || !s.slots[found.value].profile.enabled {
      MarkKeepsFrames(s, c.id, Failed);
    } else {
      var sl := s.slots[found.value];
      if sl.child.None? {
        var ready := sl.(backoffUntil := None);
        SlotKeepsFrames(s, ready, {});
        SpawnKeepsFrames(s, ready, now);
        var r := if s.shuttingDown then WithSlot(s, ready) else Spawn(s, ready, now);
        MarkKeepsFrames(r, c.id, Done);
        SameFramesTwice(s, r, Mark(r, c.id, Done));
      } else {
        DrainThenActivateKeepsFrames(s, c.id, BeginDrain(sl, c.mode, c.timeoutMs, now), DrainSignals(sl, c.mode, now),
                                     Active(Restart, map[found.value := sl.child.value], s.os.next, false));
      }
    }
  }

  lemma RestartAllKeepsFrames(s: State, c: Command, now: int)
    ensures SameFrames(s, RestartAll(s, c, now))
  {
    RestartAllStep(s, c, now);
    hide RestartAll, DrainNames, Hit, Idle;
    DrainNamesKeepsFrames(s, Hit(s), c.mode, c.timeoutMs, now);
  }

  lemma ResumeStopKeepsFrames(s: State, id: CmdId)
    requires id in s.stops
    ensures SameFrames(s.(stops := s.stops - {id}), ResumeStop(s, id))
  {
    hide BeginDrain, DrainSignals, Mark, Activate, WithSlot, WithSignals, SameFrames;
    var f, r := s.stops[id], s.(stops := s.stops - {id});
    if !Attached(s, f) {
      MarkKeepsFrames(r, id, Done);
    } else {
      var sl := s.slots[f.name].(profile := s.slots[f.name].profile.(enabled := false));
      if sl.child.None? {
        SlotKeepsFrames(r, sl, {});
        MarkKeepsFrames(WithSlot(r, sl), id, Done);
        SameFramesTwice(r, WithSlot(r, sl), Mark(WithSlot(r, sl), id, Done));
      } else {
        DrainThenActivateKeepsFrames(r, id, BeginDrain(sl, f.command.mode, f.command.timeoutMs, f.now), DrainSignals(sl, f.command.mode, f.now),
                                     Active(Stop, map[f.name := sl.child.value], s.os.next, false));
      }
    }
  }

  lemma ResumeStartKeepsFrames(s: State, id: CmdId)
    requires id in s.starts
    ensures SameFrames(s.(starts := s.starts - {id}), ResumeStart(s, id))
  {
    hide Mark, Spawn, WithSlot, SameFrames;
    var f, r := s.starts[id], s.(starts := s.starts - {id});
    if !Attached(s, f) {
      StrayKeepsFrames(r, Spawned(s.os, f.name));
      var u := if s.shuttingDown then r else r.(os := Spawned(s.os, f.name));
      MarkKeepsFrames(u, id, Done);
      SameFramesTwice(r, u, Mark(u, id, Done));
    } else {
      var sl := s.slots[f.name].(profile := s.slots[f.name].profile.(enabled := true), backoffUntil := None);
      SlotKeepsFrames(r, sl, {});
      SpawnKeepsFrames(r, sl, f.now);
      var u := if sl.child.None? && !s.shuttingDown then Spawn(r, sl, f.now) else WithSlot(r, sl);
      MarkKeepsFrames(u, id, Done);
      SameFramesTwice(r, u, Mark(u, id, Done));
    }
  }

  lemma StrayKeepsFrames(s: State, os: Os)
    ensures SameFrames(s, s.(os := os)) && SameFrames(s, s)
  {
  }

  lemma {:induction false} RunOnItsWay(s: State, es: seq<Event>, n: Name, p: Proc, D: int, last: int, delta: nat)
    requires Inv(s) && Feasible(s, es) && Timely(last, es, delta) && FramesTimely(s, last + delta)
    requires OnItsWayOut(s, n, p, D, last, delta)
    requires forall i :: 0 <= i < |es| ==> !(es[i].Exit? && es[i].proc == p)
    ensures OnItsWayOut(Run(s, es), n, p, D, LastEnforced(last, es), delta)
    decreases |es|
  {
    hide Inv, Next, Enabled, OnItsWayOut, Reading;
    if es != [] {
      var e := es[0];
      assert !(e.Exit? && e.proc == p);
      NextOnItsWay(s, e, n, p, D, last, delta);
      NextKeepsInv(s, e);
      NextFramesTimely(s, e, last + delta);
      assert FramesTimely(Next(s, e), Enforced(last, e) + delta);
      assert forall i :: 0 <= i < |es[1..]| ==> es[1..][i] == es[i + 1];
      RunOnItsWay(Next(s, e), es[1..], n, p, D, Enforced(last, e), delta);
    }
  }

  /**
   * A process asked to drain by D (the request's time plus its timeout) that never exits has been sent
   * SIGKILL by D + 30 s + 2 * delta, in every run whose ticks are at most delta apart, once the enforcement has gone on
   * long enough; and no other command, reconcile or shutdown in between changes that.
   */
  lemma DrainedIsKilled(s: State, es: seq<Event>, n: Name, p: Proc, D: int, last: int, delta: nat)
    requires Inv(s) && Feasible(s, es) && Timely(last, es, delta) && FramesTimely(s, last + delta)
    requires n in s.slots && s.slots[n].child == Some(p) && s.slots[n].draining
    requires s.slots[n].drainDeadline.Some? && s.slots[n].drainDeadline.value <= D && !s.slots[n].termSent && last < D
    requires forall i :: 0 <= i < |es| ==> !(es[i].Exit? && es[i].proc == p)
    requires LastEnforced(last, es) >= D + SIGKILL_AFTER_MS + delta
    ensures KilledBy(Run(s, es), p, D + SIGKILL_AFTER_MS + 2 * delta)
  {
    hide Inv, Feasible, Run, Timely, LastEnforced;
    RunOnItsWay(s, es, n, p, D, last, delta);
  }

  /** A process that was sent SIGTERM and has its SIGKILL due at K is sent it by K + delta, in every such run. */
  lemma TerminatedIsKilled(s: State, es: seq<Event>, n: Name, p: Proc, K: int, last: int, delta: nat)
    requires Inv(s) && Feasible(s, es) && Timely(last, es, delta) && FramesTimely(s, last + delta)
    requires n in s.slots && s.slots[n].child == Some(p) && s.slots[n].draining
    requires s.slots[n].killAt.Some? && s.slots[n].killAt.value <= K && last < K
    requires forall i :: 0 <= i < |es| ==> !(es[i].Exit? && es[i].proc == p)
    requires LastEnforced(last, es) >= K
    ensures KilledBy(Run(s, es), p, K + delta)
  {
    assert s.slots[n].termSent by { SlotOfName(s, n); }
    hide Inv, Feasible, Run, Timely, LastEnforced;
    RunOnItsWay(s, es, n, p, K - SIGKILL_AFTER_MS - delta, last, delta);
  }
}
