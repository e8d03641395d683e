/** What each operator command leaves behind when it has been started, and when it ends (src/supervisor/core.ts:307-396). */
module SupervisorCommands {
  import opened Wrappers
  import opened SupervisorModel
  import opened SupervisorSafety
  import opened SupervisorTiming
  import opened SupervisorOutcomes
  import opened SupervisorSignals

  // ------------------------------------------------------------------ what a command waits for

  predicate IsRequest(e: Event) {
    e.CmdRestart? || e.StopWritten? || e.CmdRestartAll? || e.CmdRestartSupervisor?
  }

  function IdOf(e: Event): CmdId
    requires IsRequest(e)
  {
    if e.StopWritten? then e.id else e.c.id
  }

  /** The command waits for the exit of the processes that it asks to leave, a restart also for their successors. */
  ghost predicate WaitsFor(s: State, e: Event, t: State, kind: Kind)
    requires IsRequest(e)
  {
    var id := IdOf(e);
    && id in t.active && id in t.commands && t.commands[id].kind == kind && t.commands[id].since == s.os.next && !t.commands[id].forced
    && t.commands[id].targets.Keys == Targets(s, e)
    && (forall n :: n in Targets(s, e) ==> n in s.slots && s.slots[n].child == Some(t.commands[id].targets[n]))
    && t.outcomes == s.outcomes
  }

  function KindOf(e: Event): Kind
    requires IsRequest(e)
  {
    if e.StopWritten? then Stop else if e.CmdRestartSupervisor? then WholeSupervisor else Restart
  }

  lemma ActivatedWaits(s: State, e: Event, d: State, t: State, a: Active)
    requires IsRequest(e) && t == Activate(d, IdOf(e), a) && d.outcomes == s.outcomes
    requires a.kind == KindOf(e) && a.since == s.os.next && !a.forced && a.targets.Keys == Targets(s, e)
    requires forall n :: n in a.targets ==> n in s.slots && s.slots[n].child == Some(a.targets[n])
    ensures WaitsFor(s, e, t, KindOf(e))
  {
    hide Targets;
  }

  lemma DrainedKeepsOutcomes(s: State, sl: Slot, more: set<Signal>)
    ensures WithSignals(WithSlot(s, sl), more).outcomes == s.outcomes
  {
  }

  lemma RestartWaits(s: State, c: Command, n: Name, now: int)
    requires n in s.slots && s.slots[n].profile.enabled && s.slots[n].child.Some?
    ensures WaitsFor(s, CmdRestart(c, Some(n), now), RestartProfile(s, c, Some(n), now), Restart)
  {
    var e, sl := CmdRestart(c, Some(n), now), s.slots[n];
    assert Targets(s, e) == {n};
    var a := Active(Restart, map[n := sl.child.value], s.os.next, false);
    assert a.targets.Keys == {n};
    hide BeginDrain, DrainSignals, Activate, WaitsFor, WithSlot, WithSignals, Targets;
    DrainedKeepsOutcomes(s, BeginDrain(sl, c.mode, c.timeoutMs, now), DrainSignals(sl, c.mode, now));
    ActivatedWaits(s, e, WithSignals(WithSlot(s, BeginDrain(sl, c.mode, c.timeoutMs, now)), DrainSignals(sl, c.mode, now)),
                   RestartProfile(s, c, Some(n), now), a);
  }

  lemma StopWaits(s: State, id: CmdId)
    requires id in s.stops && Attached(s, s.stops[id]) && s.slots[s.stops[id].name].child.Some?
    ensures WaitsFor(s, StopWritten(id), ResumeStop(s, id), Stop)
  {
    var f, e := s.stops[id], StopWritten(id);
    var sl := s.slots[f.name].(profile := s.slots[f.name].profile.(enabled := false));
    var r := s.(stops := s.stops - {id});
    assert Targets(s, e) == {f.name};
    var a := Active(Stop, map[f.name := sl.child.value], s.os.next, false);
    assert a.targets.Keys == {f.name};
    var b, more := BeginDrain(sl, f.command.mode, f.command.timeoutMs, f.now), DrainSignals(sl, f.command.mode, f.now);
    hide BeginDrain, DrainSignals, Activate, WaitsFor, WithSlot, WithSignals, Targets;
    DrainedKeepsOutcomes(r, b, more);
    ActivatedWaits(s, e, WithSignals(WithSlot(r, b), more), ResumeStop(s, id), a);
  }

  lemma RestartAllWaits(s: State, c: Command, now: int)
    requires Hit(s) != {}
    ensures WaitsFor(s, CmdRestartAll(c, now), RestartAll(s, c, now), Restart)
  {
    var e := CmdRestartAll(c, now);
    RestartAllTargets(s, c, now);
    DrainNamesRecord(s, Hit(s), c.mode, c.timeoutMs, now);
    var r := DrainAndClear(s, Hit(s), Idle(s), c.mode, c.timeoutMs, now);
    var a := Active(Restart, Children(s, Hit(s)), s.os.next, false);
    assert r.outcomes == s.outcomes && a.targets.Keys == Hit(s);
    hide DrainAndClear, Hit, Idle, Activate, WaitsFor, Targets, DrainNames;
    ActivatedWaits(s, e, r, RestartAll(s, c, now), a);
  }

  lemma SupervisorWaits(s: State, c: Command, now: int)
    ensures WaitsFor(s, CmdRestartSupervisor(c, now), RestartSupervisor(s, c, now), WholeSupervisor)
  {
    var e := CmdRestartSupervisor(c, now);
    var d := DrainNames(s.(shuttingDown := true), WithChild(s), c.mode, c.timeoutMs, now);
    DrainNamesRecord(s.(shuttingDown := true), WithChild(s), c.mode, c.timeoutMs, now);
    var a := Active(WholeSupervisor, Children(s, WithChild(s)), s.os.next, false);
    assert Targets(s, e) == WithChild(s) && a.targets.Keys == WithChild(s);
    hide DrainNames, Activate, WaitsFor, Targets;
    ActivatedWaits(s, e, d, RestartSupervisor(s, c, now), a);
  }

  lemma RestartTarget(s: State, c: Command, n: Name, now: int)
    requires n in s.slots && s.slots[n].profile.enabled && s.slots[n].child.Some?
    ensures n in Targets(s, CmdRestart(c, Some(n), now))
  {
  }

  lemma RestartEndsAtOnce(s: State, c: Command, found: Option<Name>, now: int)
    requires Inv(s) && FreshCommand(s, c.id) && Targets(s, CmdRestart(c, found, now)) == {}
    ensures c.id in RestartProfile(s, c, found, now).outcomes
  {
    if found.Some? && found.value in s.slots && s.slots[found.value].profile.enabled && s.slots[found.value].child.Some? {
      RestartTarget(s, c, found.value, now);
    } else {
      hide Inv, Ahead, RestartProfile;
      RestartProfileCases(s, c, found, now);
    }
  }

  lemma StopTarget(s: State, id: CmdId)
    requires id in s.stops && Attached(s, s.stops[id]) && s.slots[s.stops[id].name].child.Some?
    ensures s.stops[id].name in Targets(s, StopWritten(id))
  {
  }

  lemma StopEndsAtOnce(s: State, id: CmdId)
    requires Inv(s) && id in s.stops && Targets(s, StopWritten(id)) == {}
    ensures id in ResumeStop(s, id).outcomes
  {
    if Attached(s, s.stops[id]) && s.slots[s.stops[id].name].child.Some? {
      StopTarget(s, id);
    } else {
      hide Inv, Ahead, ResumeStop;
      ResumeStopCases(s, id);
    }
  }

  /**
   * A command that asks processes to leave waits for exactly these processes; RESTART_SUPERVISOR waits in any case, and the
   * others are over at once when there is no process to ask.
   */
  lemma CommandsWaitForTargets(s: State, e: Event)
    requires Inv(s) && Enabled(s, e) && IsRequest(e)
    ensures if e.CmdRestartSupervisor? || Targets(s, e) != {} then WaitsFor(s, e, Next(s, e), KindOf(e))
            else IdOf(e) in Next(s, e).outcomes
  {
    hide Inv, RestartProfile, ResumeStop, RestartAll, RestartSupervisor, WaitsFor;
    match e
    case CmdRestart(c, found, now) =>
      if Targets(s, e) != {} {
        RestartWaits(s, c, found.value, now);
      } else {
        RestartEndsAtOnce(s, c, found, now);
      }
    case StopWritten(id) =>
      if Targets(s, e) != {} {
        StopWaits(s, id);
      } else {
        StopEndsAtOnce(s, id);
      }
    case CmdRestartAll(c, now) =>
      RestartAllTargets(s, c, now);
      if Targets(s, e) != {} { RestartAllWaits(s, c, now); } else { RestartAllCases(s, c, now); }
    case CmdRestartSupervisor(c, now) => SupervisorWaits(s, c, now);
  }

  // ------------------------------------------------------------------ what a command changes

  /** A STOP leaves its record, if it is still there, disabled, and keeps every other record. */
  lemma StopDisables(s: State, id: CmdId)
    requires Inv(s) && id in s.stops
    ensures var t, f := ResumeStop(s, id), s.stops[id];
      && t.slots.Keys == s.slots.Keys && id !in t.stops
      && forall n :: n in s.slots ==>
           if n == f.name && s.slots[n].uid == f.uid then !t.slots[n].profile.enabled && t.slots[n].child == s.slots[n].child
           else t.slots[n] == s.slots[n]
  {
    var f := s.stops[id];
    var r := s.(stops := s.stops - {id});
    if !Attached(s, f) {
      hide Inv, Mark;
      MarkKeepsSlots(r, id, Done);
      MarkKeepsFrames(r, id, Done);
    } else {
      SlotOfName(s, f.name);
      var sl := s.slots[f.name].(profile := s.slots[f.name].profile.(enabled := false));
      DrainKeepsName(sl, f.command.mode, f.command.timeoutMs, f.now);
      MarkKeepsSlots(WithSlot(r, sl), id, Done);
      hide Inv, SlotOk, BeginDrain, DrainSignals, Mark;
      ResumeStopKeepsFrames(s, id);
    }
  }

  lemma StartTouchesOne(s: State, id: CmdId, sl: Slot)
    requires id in s.starts && Attached(s, s.starts[id]) && s.slots[s.starts[id].name].profile.name == s.starts[id].name
    requires var a := s.slots[s.starts[id].name]; sl == a.(profile := a.profile.(enabled := true), backoffUntil := None)
    ensures ResumeStart(s, id).slots
         == s.slots[s.starts[id].name := if sl.child.None? && !s.shuttingDown then SpawnSlot(sl, s.os.next, s.starts[id].now) else sl]
  {
    hide SpawnSlot, Mark;
    var f, r := s.starts[id], s.(starts := s.starts - {id});
    StartedSlot(sl, s.os.next, f.now);
    MarkKeepsSlots(if sl.child.None? && !s.shuttingDown then Spawn(r, sl, f.now) else WithSlot(r, sl), id, Done);
  }

  lemma StartTouchesNone(s: State, id: CmdId)
    requires id in s.starts && !Attached(s, s.starts[id])
    ensures ResumeStart(s, id).slots == s.slots
  {
    hide Mark;
    var r := s.(starts := s.starts - {id});
    MarkKeepsSlots(if s.shuttingDown then r else r.(os := Spawned(s.os, s.starts[id].name)), id, Done);
  }

  /** A START leaves its record, if it is still there, enabled, without a wait, and with a process unless the supervisor shuts down. */
  lemma StartEnables(s: State, id: CmdId)
    requires Inv(s) && id in s.starts
    ensures var t, f := ResumeStart(s, id), s.starts[id];
      && t.slots.Keys == s.slots.Keys && id in t.outcomes
      && forall n :: n in s.slots ==>
           if n == f.name && s.slots[n].uid == f.uid then
             && t.slots[n].profile.enabled && t.slots[n].backoffUntil.None?
             && (s.slots[n].child.Some? ==> t.slots[n].child == s.slots[n].child)
             && (s.slots[n].child.None? ==> t.slots[n].child == if s.shuttingDown then None else Some(s.os.next))
           else t.slots[n] == s.slots[n]
  {
    hide Inv, SlotOk, SpawnSlot, Ahead, ResumeStart;
    var f := s.starts[id];
    ResumeStartCases(s, id);
    if !Attached(s, f) {
      StartTouchesNone(s, id);
    } else {
      assert s.slots[f.name].profile.name == f.name by { SlotHasName(s, f.name); }
      var sl := s.slots[f.name].(profile := s.slots[f.name].profile.(enabled := true), backoffUntil := None);
      StartedSlot(sl, s.os.next, f.now);
      StartTouchesOne(s, id, sl);
    }
  }

  lemma SlotHasName(s: State, n: Name)
    requires Inv(s) && n in s.slots
    ensures s.slots[n].profile.name == n
  {
    SlotOfName(s, n);
  }

  lemma StartedSlot(sl: Slot, proc: Proc, now: int)
    ensures var b := SpawnSlot(sl, proc, now); b.profile == sl.profile && b.child == Some(proc) && b.backoffUntil.None?
  {
  }

  /** One slot in a restart of everything. */
  lemma RestartAllSlot(s: State, c: Command, now: int, n: Name)
    requires n in s.slots
    ensures var b := DrainAndClear(s, Hit(s), Idle(s), c.mode, c.timeoutMs, now).slots;
      && b.Keys == s.slots.Keys
      && b[n] == if !s.slots[n].profile.enabled then s.slots[n]
                 else if s.slots[n].child.None? then s.slots[n].(backoffUntil := None)
                 else BeginDrain(s.slots[n], c.mode, c.timeoutMs, now)
  {
    hide BeginDrain, AllDrainSignals;
  }

  lemma DrainedLeaves(sl: Slot, mode: Mode, timeoutMs: int, now: int)
    ensures var b := BeginDrain(sl, mode, timeoutMs, now);
      b.child == sl.child && (sl.child.Some? ==> b.draining)
  {
  }

  /**
   * RESTART_ALL takes every enabled profile without a process out of its wait, asks every enabled one with a process to leave,
   * and leaves the disabled ones alone.
   */
  lemma RestartAllReachesEveryone(s: State, c: Command, now: int)
    ensures forall n :: n in s.slots ==>
      n in RestartAll(s, c, now).slots
      && var a, b := s.slots[n], RestartAll(s, c, now).slots[n];
         && b.child == a.child
         && if !a.profile.enabled then b == a else if a.child.None? then b == a.(backoffUntil := None) else b.draining
  {
    hide *;
    RestartAllStep(s, c, now);
    forall n | n in s.slots
      ensures n in RestartAll(s, c, now).slots
      ensures var a, b := s.slots[n], RestartAll(s, c, now).slots[n];
        && b.child == a.child
        && if !a.profile.enabled then b == a else if a.child.None? then b == a.(backoffUntil := None) else b.draining
    {
      RestartAllSlot(s, c, now, n);
      DrainedLeaves(s.slots[n], c.mode, c.timeoutMs, now);
    }
  }

  /** Both ways of shutting down ask every process to leave. */
  lemma ShutdownReachesEveryone(s: State, e: Event)
    requires Inv(s) && Enabled(s, e) && (e.Shutdown? || e.CmdRestartSupervisor?)
    ensures var t := Next(s, e);
      && t.shuttingDown
      && forall n :: n in s.slots && s.slots[n].child.Some? ==>
           n in t.slots && t.slots[n].child == s.slots[n].child && t.slots[n].draining
  {
    assert Next(s, e).shuttingDown by { hide DrainNames, WithChild, Children; }
    forall n | n in s.slots && s.slots[n].child.Some?
      ensures n in Next(s, e).slots && Next(s, e).slots[n].child == s.slots[n].child && Next(s, e).slots[n].draining
    {
      assert n in Targets(s, e);
      hide Inv, Next, Enabled, Targets;
      TargetsAreTold(s, e, n, s.slots[n].child.value);
    }
  }

  // ------------------------------------------------------------------ the end of a command

  /**
   * The check of finishCommands ends a command if and only if each process it waits for is gone and, for a restart, its profile
   * has another one: it becomes DONE, or FORCED when its flag is set, and RESTART_SUPERVISOR then calls exit(0).
   */
  lemma CommandEndsIff(s: State, id: CmdId)
    requires Inv(s) && id in s.active
    ensures id in s.commands
    ensures var t, a := FinishOne(s, id), s.commands[id];
      var ends := forall n :: n in a.targets ==>
        if a.kind == Restart then n in s.slots && s.slots[n].child.Some? && s.slots[n].child.value != a.targets[n]
        else !(n in s.slots && s.slots[n].child.Some?);
      && (ends <==> id !in t.active)
      && (ends && id !in s.outcomes ==> t.outcomes == s.outcomes[id := if a.forced then Forced else Done])
      && (!ends ==> t == s)
      && (t.exiting <==> s.exiting || (ends && a.kind == WholeSupervisor))
  {
    hide *;
    ActiveIsCommand(s, id);
    ReachedInFull(s, s.commands[id]);
    FinishParts(s, id);
  }

  lemma ReachedInFull(s: State, a: Active)
    ensures TargetsReached(s, a) <==>
      forall n :: n in a.targets ==>
        if a.kind == Restart then n in s.slots && s.slots[n].child.Some? && s.slots[n].child.value != a.targets[n]
        else !(n in s.slots && s.slots[n].child.Some?)
  {
  }

  lemma FinishParts(s: State, id: CmdId)
    requires id in s.active && id in s.commands
    ensures var t, a := FinishOne(s, id), s.commands[id];
      && (TargetsReached(s, a) <==> id !in t.active)
      && (TargetsReached(s, a) && id !in s.outcomes ==> t.outcomes == s.outcomes[id := if a.forced then Forced else Done])
      && (!TargetsReached(s, a) ==> t == s)
      && (t.exiting <==> s.exiting || (TargetsReached(s, a) && a.kind == WholeSupervisor))
  {
    hide TargetsReached;
  }

  lemma ActiveIsCommand(s: State, id: CmdId)
    requires Inv(s) && id in s.active
    ensures id in s.commands
  {
    hide ProcessesAgree, SlotsAgree, FramesHold, CommandHolds, CarriedOutIn;
  }
}
