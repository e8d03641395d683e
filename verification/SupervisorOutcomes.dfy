/**
 * What DONE and FORCED mean in the command table (src/supervisor/core.ts:297-395): in every run the step that wrote one of
 * them did, or waited for, what the command asked for, but for restarts and starts during a shutdown.
 */
module SupervisorOutcomes {
  import opened Wrappers
  import opened SupervisorModel
  import opened SupervisorSafety
  import opened SupervisorTiming

  /** A process of the profile is alive. */
  ghost predicate HasProcess(os: Os, n: Name) {
    exists p: Proc :: p in os.live && BornAs(os, p, n)
  }

  /** DONE or FORCED. */
  predicate Succeeded(s: State, id: CmdId) {
    id in s.outcomes && !s.outcomes[id].Failed?
  }

  // ------------------------------------------------------------------ what no step takes back

  /**
   * The later state knows every process, every outcome and every command that waited, as the earlier one does, and no
   * process that had exited lives again. Both shut down or neither.
   */
  ghost predicate Ahead(s: State, t: State) {
    && OsAhead(s.os, t.os) && t.shuttingDown == s.shuttingDown
    && (forall id :: id in s.outcomes ==> id in t.outcomes && t.outcomes[id] == s.outcomes[id])
    && (forall id :: id in s.commands ==> id in t.commands && t.commands[id] == s.commands[id])
  }

  ghost predicate OsAhead(a: Os, b: Os) {
    && a.next <= b.next
    && (forall p: Proc :: p in a.born ==> p in b.born && b.born[p] == a.born[p])
    && (forall p: Proc :: p in b.live && p < a.next ==> p in a.live)
  }

  ghost predicate BornInOrder(os: Os) {
    forall p: Proc :: p in os.born <==> p < os.next
  }

  lemma AheadTwice(s: State, t: State, u: State)
    requires Ahead(s, t) && Ahead(t, u)
    ensures Ahead(s, u)
  {
  }

  /** Only slots, signals, shutdown and waiting commands changed. */
  lemma SameRecord(s: State, t: State)
    requires t.os.next == s.os.next && t.os.born == s.os.born && t.os.live <= s.os.live
    requires t.outcomes == s.outcomes && t.commands == s.commands && t.shuttingDown == s.shuttingDown
    ensures Ahead(s, t)
  {
  }

  lemma MarkAhead(s: State, id: CmdId, o: Outcome)
    ensures Ahead(s, Mark(s, id, o))
  {
  }

  lemma ActivateAhead(s: State, id: CmdId, a: Active)
    requires id !in s.commands
    ensures Ahead(s, Activate(s, id, a))
  {
  }

  lemma SpawnedAhead(os: Os, n: Name)
    requires BornInOrder(os)
    ensures OsAhead(os, Spawned(os, n)) && BornInOrder(Spawned(os, n)) && SpawnedSince(Spawned(os, n), n, os.next)
  {
    assert BornAs(Spawned(os, n), os.next, n);
  }

  lemma SpawnAhead(s: State, sl: Slot, now: int)
    requires BornInOrder(s.os)
    ensures Ahead(s, Spawn(s, sl, now)) && Spawn(s, sl, now).os == Spawned(s.os, sl.profile.name)
    ensures Spawn(s, sl, now).outcomes == s.outcomes && BornInOrder(Spawn(s, sl, now).os)
  {
    SpawnedAhead(s.os, sl.profile.name);
    hide SpawnSlot;
  }

  lemma DrainNamesRecord(s: State, names: set<Name>, mode: Mode, timeoutMs: int, now: int)
    ensures var t := DrainNames(s, names, mode, timeoutMs, now);
      && t.os == s.os.(signals := t.os.signals) && t.outcomes == s.outcomes && t.commands == s.commands
      && t.shuttingDown == s.shuttingDown
  {
    hide BeginDrain, AllDrainSignals;
  }

  // ------------------------------------------------------------------ reconcile

  lemma ReconcileOneAhead(s: State, p: Profile, now: int)
    requires BornInOrder(s.os)
    ensures var t := ReconcileOne(s, p, now);
      && Ahead(s, t) && BornInOrder(t.os) && t.outcomes == s.outcomes
  {
    var e := Ensured(s, p);
    var sl := Refreshed(e.slots[p.name], p, now);
    EnsuredRecord(s, p);
    SameRecord(s, e);
    hide Ensured, Refreshed, SettleSlot, SettleSignals, SpawnSlot, Starts, Ahead;
    if Starts(sl, s.shuttingDown, now) {
      SpawnAhead(e, sl, now);
      AheadTwice(s, e, Spawn(e, sl, now));
    } else {
      SameRecord(e, ReconcileOne(s, p, now));
      AheadTwice(s, e, ReconcileOne(s, p, now));
    }
  }

  lemma EnsuredRecord(s: State, p: Profile)
    ensures var t := Ensured(s, p);
      p.name in t.slots && t.os == s.os && t.outcomes == s.outcomes && t.commands == s.commands && t.shuttingDown == s.shuttingDown
  {
  }

  lemma {:induction false} ReconcileListAhead(s: State, ps: seq<Profile>, now: int)
    requires BornInOrder(s.os)
    ensures var t := ReconcileList(s, ps, now);
      && Ahead(s, t) && BornInOrder(t.os) && t.outcomes == s.outcomes
  {
    if ps == [] {
      SameRecord(s, s);
    } else {
      var m := ReconcileList(s, ps[..|ps| - 1], now);
      hide Ahead, ReconcileOne, BornInOrder;
      ReconcileListAhead(s, ps[..|ps| - 1], now);
      ReconcileOneAhead(m, ps[|ps| - 1], now);
      AheadTwice(s, m, ReconcileOne(m, ps[|ps| - 1], now));
    }
  }

  lemma ReconcileAhead(s: State, ps: seq<Profile>, now: int)
    requires BornInOrder(s.os)
    ensures Ahead(s, Reconcile(s, ps, now)) && Reconcile(s, ps, now).outcomes == s.outcomes
  {
    var m := ReconcileList(s, ps, now);
    ReconcileListAhead(s, ps, now);
    DrainNamesRecord(m, Unseen(m, NamesOf(ps)), Safe, m.cfg.stopTimeoutMs, now);
    hide ReconcileList, DrainNames, Ahead, BornInOrder, NamesOf;
    SameRecord(m, Sweep(m, NamesOf(ps), now));
    AheadTwice(s, m, Sweep(m, NamesOf(ps), now));
  }

  // ------------------------------------------------------------------ exits and deadlines

  lemma WithSlotRecord(s: State, sl: Slot)
    ensures WithSlot(s, sl).os == s.os && WithSlot(s, sl).outcomes == s.outcomes
            && WithSlot(s, sl).commands == s.commands
            && WithSlot(s, sl).shuttingDown == s.shuttingDown
  {
  }

  lemma ExitAhead(s: State, proc: Proc, code: Option<int>, now: int)
    ensures Ahead(s, ChildExits(s, proc, code, now)) && ChildExits(s, proc, code, now).outcomes == s.outcomes
  {
    hide ExitSlot, Ahead, WithSlot;
    var gone := s.(os := s.os.(live := s.os.live - {proc}));
    if proc in s.os.born && s.os.born[proc] in s.slots {
      WithSlotRecord(gone, ExitSlot(s.slots[s.os.born[proc]], code, now, s.cfg));
    }
    SameRecord(s, ChildExits(s, proc, code, now));
  }

  lemma EnforceAhead(s: State, now: int)
    ensures Ahead(s.(commands := EnforceDeadlines(s, now).commands), EnforceDeadlines(s, now))
    ensures EnforceDeadlines(s, now).outcomes == s.outcomes && EnforceDeadlines(s, now).commands.Keys == s.commands.Keys
    ensures forall id :: id in s.commands ==> EnforceDeadlines(s, now).commands[id] == EnforceCommand(s, id, now)
  {
    hide EnforceSlot, EnforceSignals, EnforceCommand;
  }

  lemma ShutdownAhead(s: State, timeoutMs: int, now: int)
    ensures Ahead(s.(shuttingDown := true), BeginShutdown(s, timeoutMs, now))
            && BeginShutdown(s, timeoutMs, now).outcomes == s.outcomes
  {
    DrainNamesRecord(s.(shuttingDown := true), WithChild(s), Safe, timeoutMs, now);
    hide DrainNames, WithChild, Ahead;
    SameRecord(s.(shuttingDown := true), BeginShutdown(s, timeoutMs, now));
  }

  // ------------------------------------------------------------------ commands

  /** One profile is drained for a command that waits for it. */
  lemma DrainThenActivateAhead(s: State, id: CmdId, sl: Slot, more: set<Signal>, a: Active)
    requires id !in s.commands
    ensures var t := Activate(WithSignals(WithSlot(s, sl), more), id, a);
      Ahead(s, t) && t.outcomes == s.outcomes && t.os == s.os.(signals := t.os.signals) && id in t.commands && t.commands[id] == a
  {
    var d := WithSignals(WithSlot(s, sl), more);
    hide Ahead;
    SameRecord(s, d);
    ActivateAhead(d, id, a);
    AheadTwice(s, d, Activate(d, id, a));
  }

  /** What a restart of one profile does, by cases: it fails, starts the profile at once, or drains it and waits. */
  lemma RestartProfileCases(s: State, c: Command, found: Option<Name>, now: int)
    requires Inv(s) && FreshCommand(s, c.id)
    ensures var t := RestartProfile(s, c, found, now);
      && Ahead(s, t)
      && if found.None? || found.value !in s.slots || !s.slots[found.value].profile.enabled then t.outcomes == s.outcomes[c.id := Failed]
         else if s.slots[found.value].child.None? then
           t.outcomes == s.outcomes[c.id := Done] && t.os == if s.shuttingDown then s.os else Spawned(s.os, found.value)
         else
           && t.outcomes == s.outcomes && c.id in t.commands
           && t.commands[c.id] == Active(Restart, map[found.value := s.slots[found.value].child.value], s.os.next, false)
  {
    if found.None? || found.value !in s.slots || !s.slots[found.value].profile.enabled {
      hide Inv, Ahead;
      MarkAhead(s, c.id, Failed);
    } else {
      SlotOfName(s, found.value);
      KnownProcesses(s);
      hide *;
      if s.slots[found.value].child.None? {
        RestartIdleCase(s, c, found.value, now);
      } else {
        RestartBusyCase(s, c, found.value, now);
      }
    }
  }

  lemma RestartIdleCase(s: State, c: Command, n: Name, now: int)
    requires BornInOrder(s.os) && FreshCommand(s, c.id) && n in s.slots && s.slots[n].profile.name == n
    requires s.slots[n].profile.enabled && s.slots[n].child.None?
    ensures var t := RestartProfile(s, c, Some(n), now);
      && Ahead(s, t) && t.outcomes == s.outcomes[c.id := Done] && t.os == if s.shuttingDown then s.os else Spawned(s.os, n)
  {
    hide Ahead, SpawnSlot, BornInOrder;
    var ready := s.slots[n].(backoffUntil := None);
    SpawnAhead(s, ready, now);
    SameRecord(s, WithSlot(s, ready));
    var r := if s.shuttingDown then WithSlot(s, ready) else Spawn(s, ready, now);
    MarkAhead(r, c.id, Done);
    AheadTwice(s, r, Mark(r, c.id, Done));
  }

  lemma RestartBusyCase(s: State, c: Command, n: Name, now: int)
    requires FreshCommand(s, c.id) && n in s.slots && s.slots[n].profile.enabled && s.slots[n].child.Some?
    ensures var t := RestartProfile(s, c, Some(n), now);
      && Ahead(s, t) && t.outcomes == s.outcomes && c.id in t.commands
      && t.commands[c.id] == Active(Restart, map[n := s.slots[n].child.value], s.os.next, false)
  {
    var sl := s.slots[n];
    var a := Active(Restart, map[n := sl.child.value], s.os.next, false);
    DrainThenActivateAhead(s, c.id, BeginDrain(sl, c.mode, c.timeoutMs, now), DrainSignals(sl, c.mode, now), a);
    hide Ahead, BeginDrain, DrainSignals, Activate, WithSignals, WithSlot;
  }

  lemma KnownProcesses(s: State)
    requires Inv(s)
    ensures BornInOrder(s.os)
  {
  }

  lemma BeginStopCases(s: State, c: Command, found: Option<Name>, now: int)
    requires FreshCommand(s, c.id)
    ensures var t := BeginStop(s, c, found, now);
      Ahead(s, t) && (t.outcomes == s.outcomes || t.outcomes == s.outcomes[c.id := Failed])
  {
    hide Ahead;
    MarkAhead(s, c.id, Failed);
    if found.Some? && found.value in s.slots { SameRecord(s, BeginStop(s, c, found, now)); }
  }

  lemma BeginStartCases(s: State, c: Command, found: Option<Name>, now: int)
    requires FreshCommand(s, c.id)
    ensures var t := BeginStart(s, c, found, now);
      && Ahead(s, t)
      && if found.None? || found.value !in s.slots then t.outcomes == s.outcomes[c.id := Failed]
         else t.outcomes == s.outcomes && c.id in t.starts && t.starts[c.id].name == found.value
  {
    hide Ahead;
    MarkAhead(s, c.id, Failed);
    if found.Some? && found.value in s.slots { SameRecord(s, BeginStart(s, c, found, now)); }
  }

  /** A stop ends at once when its record has no process, and otherwise waits. */
  lemma ResumeStopCases(s: State, id: CmdId)
    requires Inv(s) && id in s.stops
    ensures var t := ResumeStop(s, id);
      && Ahead(s, t) && t.os == s.os.(signals := t.os.signals)
      && if Attached(s, s.stops[id]) && s.slots[s.stops[id].name].child.Some? then t.outcomes == s.outcomes
         else t.outcomes == s.outcomes[id := Done]
  {
    var f := s.stops[id];
    var r := s.(stops := s.stops - {id});
    StopFacts(s, id);
    hide *;
    StopTaken(s, id);
    if !Attached(s, f) {
      StopDroppedCase(s, id);
    } else {
      StopAttachedCase(s, id);
    }
  }

  lemma StopFacts(s: State, id: CmdId)
    requires Inv(s) && id in s.stops
    ensures id !in s.commands && id !in s.outcomes
  {
  }

  lemma StopTaken(s: State, id: CmdId)
    ensures Ahead(s, s.(stops := s.stops - {id}))
  {
    hide Ahead;
    SameRecord(s, s.(stops := s.stops - {id}));
  }

  lemma StopDroppedCase(s: State, id: CmdId)
    requires id in s.stops && id !in s.outcomes && !Attached(s, s.stops[id])
    ensures Ahead(s, ResumeStop(s, id)) && ResumeStop(s, id).os == s.os
            && ResumeStop(s, id).outcomes == s.outcomes[id := Done]
  {
    var r := s.(stops := s.stops - {id});
    StopTaken(s, id);
    hide Ahead, Attached;
    MarkAhead(r, id, Done);
    AheadTwice(s, r, Mark(r, id, Done));
  }

  lemma StopAttachedCase(s: State, id: CmdId)
    requires id in s.stops && id !in s.outcomes && id !in s.commands && Attached(s, s.stops[id])
    ensures var t := ResumeStop(s, id);
      && Ahead(s, t) && t.os == s.os.(signals := t.os.signals) && s.stops[id].name in s.slots
      && t.outcomes == if s.slots[s.stops[id].name].child.Some? then s.outcomes else s.outcomes[id := Done]
  {
    var f := s.stops[id];
    var r := s.(stops := s.stops - {id});
    StopTaken(s, id);
    var sl := s.slots[f.name].(profile := s.slots[f.name].profile.(enabled := false));
    hide Ahead, BeginDrain, DrainSignals;
    if sl.child.None? {
      hide Activate, WithSignals;
      SameRecord(s, WithSlot(r, sl));
      MarkAhead(WithSlot(r, sl), id, Done);
      AheadTwice(s, WithSlot(r, sl), Mark(WithSlot(r, sl), id, Done));
    } else {
      hide WithSlot, WithSignals, Activate, Mark;
      var b, more := BeginDrain(sl, f.command.mode, f.command.timeoutMs, f.now), DrainSignals(sl, f.command.mode, f.now);
      var a := Active(Stop, map[f.name := sl.child.value], s.os.next, false);
      DrainThenActivateAhead(r, id, b, more, a);
      AheadTwice(s, r, Activate(WithSignals(WithSlot(r, b), more), id, a));
    }
  }

  /** A start ends at once; it starts a process exactly when its record has none and the supervisor is not shutting down. */
  lemma ResumeStartCases(s: State, id: CmdId)
    requires Inv(s) && id in s.starts
    ensures var t, n := ResumeStart(s, id), s.starts[id].name;
      && Ahead(s, t) && t.outcomes == s.outcomes[id := Done]
      && t.os == if !s.shuttingDown && !(n in s.slots && s.slots[n].child.Some?) then Spawned(s.os, n) else s.os
  {
    var f := s.starts[id];
    KnownProcesses(s);
    StartFacts(s, id);
    hide *;
    if Attached(s, f) {
      StartAttachedCase(s, id);
    } else {
      StartDroppedCase(s, id);
    }
  }

  lemma StartFacts(s: State, id: CmdId)
    requires Inv(s) && id in s.starts
    ensures id !in s.commands && id !in s.outcomes && (s.shuttingDown || Attached(s, s.starts[id]))
    ensures Attached(s, s.starts[id]) ==> s.slots[s.starts[id].name].profile.name == s.starts[id].name
  {
    if Attached(s, s.starts[id]) { SlotOfName(s, s.starts[id].name); }
  }

  lemma StartDroppedCase(s: State, id: CmdId)
    requires id in s.starts && id !in s.outcomes && !Attached(s, s.starts[id]) && s.shuttingDown
    ensures var t := ResumeStart(s, id);
      Ahead(s, t) && t.outcomes == s.outcomes[id := Done] && t.os == s.os
  {
    var r := s.(starts := s.starts - {id});
    hide Ahead, Spawned, Attached;
    SameRecord(s, r);
    MarkAhead(r, id, Done);
    AheadTwice(s, r, Mark(r, id, Done));
  }

  lemma StartAttachedCase(s: State, id: CmdId)
    requires id in s.starts && id !in s.outcomes && Attached(s, s.starts[id]) && BornInOrder(s.os)
    requires var n := s.starts[id].name; n in s.slots && s.slots[n].profile.name == n
    ensures var t, n := ResumeStart(s, id), s.starts[id].name;
      && Ahead(s, t) && t.outcomes == s.outcomes[id := Done]
      && t.os == if !s.shuttingDown && !(n in s.slots && s.slots[n].child.Some?) then Spawned(s.os, n) else s.os
  {
    var f := s.starts[id];
    var r := s.(starts := s.starts - {id});
    var sl := s.slots[f.name].(profile := s.slots[f.name].profile.(enabled := true), backoffUntil := None);
    var u := if sl.child.None? && !s.shuttingDown then Spawn(r, sl, f.now) else WithSlot(r, sl);
    hide Ahead, SpawnSlot, BornInOrder, Attached;
    SpawnAhead(r, sl, f.now);
    SameRecord(s, r);
    SameRecord(r, WithSlot(r, sl));
    AheadTwice(s, r, u);
    MarkAhead(u, id, Done);
    AheadTwice(s, u, Mark(u, id, Done));
  }

  lemma RestartAllCases(s: State, c: Command, now: int)
    requires FreshCommand(s, c.id)
    ensures var t := RestartAll(s, c, now);
      && Ahead(s, t) && t.outcomes == if Hit(s) == {} then s.outcomes[c.id := Done] else s.outcomes
  {
    var r := DrainAndClear(s, Hit(s), Idle(s), c.mode, c.timeoutMs, now);
    DrainNamesRecord(s, Hit(s), c.mode, c.timeoutMs, now);
    hide DrainNames, Hit, Idle, Children, Ahead;
    SameRecord(s, r);
    if Hit(s) == {} {
      MarkAhead(r, c.id, Done);
      AheadTwice(s, r, Mark(r, c.id, Done));
    } else {
      var a := Active(Restart, Children(s, Hit(s)), s.os.next, false);
      ActivateAhead(r, c.id, a);
      AheadTwice(s, r, Activate(r, c.id, a));
    }
  }

  lemma RestartSupervisorCases(s: State, c: Command, now: int)
    requires FreshCommand(s, c.id)
    ensures Ahead(s.(shuttingDown := true), RestartSupervisor(s, c, now))
            && RestartSupervisor(s, c, now).outcomes == s.outcomes
  {
    var u := s.(shuttingDown := true);
    var d := DrainNames(s.(shuttingDown := true), WithChild(s), c.mode, c.timeoutMs, now);
    DrainNamesRecord(s.(shuttingDown := true), WithChild(s), c.mode, c.timeoutMs, now);
    var a := Active(WholeSupervisor, Children(s, WithChild(s)), s.os.next, false);
    hide DrainNames, WithChild, Children, Ahead;
    SameRecord(u, d);
    ActivateAhead(d, c.id, a);
    AheadTwice(u, d, Activate(d, c.id, a));
  }

  /** The command's targets are where they should be, and its entry says so. */
  predicate FinishedAs(s: State, t: State, id: CmdId)
    requires id in s.commands
  {
    && TargetsReached(s, s.commands[id])
    && t.outcomes == s.outcomes[id := if s.commands[id].forced then Forced else Done]
  }

  lemma FinishCases(s: State, id: CmdId)
    requires id in s.commands
    ensures var t := FinishOne(s, id);
      && Ahead(s, t) && t.os == s.os
      && (t.outcomes == s.outcomes || FinishedAs(s, t, id))
  {
    hide TargetsReached;
  }

  lemma ErrorAhead(s: State, id: CmdId)
    ensures var t := Mark(s.(stops := s.stops - {id}, starts := s.starts - {id}), id, Failed);
      Ahead(s, t) && (t.outcomes == s.outcomes || t.outcomes == s.outcomes[id := Failed])
  {
    hide Ahead;
    var r := s.(stops := s.stops - {id}, starts := s.starts - {id});
    SameRecord(s, r);
    MarkAhead(r, id, Failed);
    AheadTwice(s, r, Mark(r, id, Failed));
  }

  /** Two requests make the supervisor shut down. */
  predicate Stops(e: Event) {
    e.Shutdown? || e.CmdRestartSupervisor?
  }

  /** What a step may change of what is known: the two requests begin the shutdown, and an enforcement marks commands. */
  function Noted(s: State, e: Event): State {
    if Stops(e) then s.(shuttingDown := true)
    else if e.Enforce? then s.(commands := EnforceDeadlines(s, e.now).commands)
    else s
  }

  /** A command is taken up, or goes on after its database write. */
  predicate OfCommand(e: Event) {
    e.CmdRestart? || e.CmdStop? || e.CmdStart? || e.StopWritten? || e.StartWritten? || e.CmdRestartAll? || e.CmdRestartSupervisor?
  }

  lemma CommandAhead(s: State, e: Event)
    requires Inv(s) && Enabled(s, e) && OfCommand(e)
    ensures Ahead(Noted(s, e), Next(s, e))
  {
    hide Inv, Ahead, RestartProfile, ResumeStop, ResumeStart, RestartAll, RestartSupervisor, BeginStop, BeginStart, Spawned, Attached;
    match e
    case CmdRestart(c, found, now) => RestartProfileCases(s, c, found, now);
    case CmdStop(c, found, now) => BeginStopCases(s, c, found, now);
    case CmdStart(c, found, now) => BeginStartCases(s, c, found, now);
    case StopWritten(id) => ResumeStopCases(s, id);
    case StartWritten(id) => ResumeStartCases(s, id);
    case CmdRestartAll(c, now) => RestartAllCases(s, c, now);
    case CmdRestartSupervisor(c, now) => RestartSupervisorCases(s, c, now);
  }

  lemma OtherAhead(s: State, e: Event)
    requires BornInOrder(s.os) && Enabled(s, e) && !OfCommand(e)
    ensures Ahead(Noted(s, e), Next(s, e))
  {
    hide Ahead, BornInOrder, Reconcile, ChildExits, EnforceDeadlines, BeginShutdown, FinishOne, Mark, FinishedAs;
    match e
    case LoadConfig(cfg) => SameRecord(s, Next(s, e));
    case DoReconcile(ps, now) => ReconcileAhead(s, ps, now);
    case Exit(proc, code, now) => ExitAhead(s, proc, code, now);
    case Enforce(now) => EnforceAhead(s, now);
    case Shutdown(timeoutMs, now) => ShutdownAhead(s, timeoutMs, now);
    case CmdError(id) => ErrorAhead(s, id);
    case Finish(id) => FinishCases(s, id);
    case ExitProcess => SameRecord(s, Next(s, e));
  }

  lemma NextAhead(s: State, e: Event)
    requires Inv(s) && Enabled(s, e)
    ensures Ahead(Noted(s, e), Next(s, e))
  {
    KnownProcesses(s);
    hide *;
    if OfCommand(e) { CommandAhead(s, e); } else { OtherAhead(s, e); }
  }

  /** The same over several steps, of which some may have begun a shutdown or marked commands as forced. */
  ghost predicate Later(s: State, t: State) {
    && OsAhead(s.os, t.os) && (s.shuttingDown ==> t.shuttingDown)
    && (forall id :: id in s.outcomes ==> id in t.outcomes && t.outcomes[id] == s.outcomes[id])
    && (forall id :: id in s.commands ==> id in t.commands && SameCommand(s.commands[id], t.commands[id]))
  }

  predicate SameCommand(a: Active, b: Active) {
    b.(forced := a.forced) == a
  }

  lemma NextLater(s: State, e: Event)
    requires Inv(s) && Enabled(s, e)
    ensures Later(s, Next(s, e))
  {
    hide *;
    NextAhead(s, e);
    NotedIsLittle(s, e);
    AheadOfNoted(s, Noted(s, e), Next(s, e));
  }

  ghost predicate LittleNoted(s: State, m: State) {
    && m == s.(shuttingDown := m.shuttingDown, commands := m.commands) && (s.shuttingDown ==> m.shuttingDown)
    && m.commands.Keys == s.commands.Keys && forall id :: id in s.commands ==> SameCommand(s.commands[id], m.commands[id])
  }

  lemma NotedIsLittle(s: State, e: Event)
    ensures LittleNoted(s, Noted(s, e))
  {
    hide EnforceDeadlines, EnforceCommand;
    if e.Enforce? {
      EnforceAhead(s, e.now);
      forall id | id in s.commands ensures SameCommand(s.commands[id], EnforceCommand(s, id, e.now)) {
        EnforceMarks(s, id, e.now);
      }
    }
  }

  lemma AheadOfNoted(s: State, m: State, t: State)
    requires LittleNoted(s, m) && Ahead(m, t)
    ensures Later(s, t)
  {
    hide OsAhead, SameCommand;
  }

  lemma EnforceMarks(s: State, id: CmdId, now: int)
    requires id in s.commands
    ensures SameCommand(s.commands[id], EnforceCommand(s, id, now))
  {
    hide TargetExpired;
  }

  lemma LaterTwice(s: State, t: State, u: State)
    requires Later(s, t) && Later(t, u)
    ensures Later(s, u)
  {
    OsAheadTwice(s.os, t.os, u.os);
    hide OsAhead;
    forall id | id in s.commands ensures SameCommand(s.commands[id], u.commands[id]) {
      assert SameCommand(t.commands[id], u.commands[id]);
    }
  }

  lemma OsAheadTwice(a: Os, b: Os, c: Os)
    requires OsAhead(a, b) && OsAhead(b, c)
    ensures OsAhead(a, c)
  {
  }

  /** A command is marked as forced exactly when an enforcement finds that one of its targets used up its drain time. */
  lemma ForcedFlagIff(s: State, e: Event, id: CmdId)
    requires Inv(s) && Enabled(s, e) && id in s.commands && !s.commands[id].forced
    ensures id in Next(s, e).commands
    ensures Next(s, e).commands[id].forced <==> e.Enforce? && id in s.active && TargetExpired(s, s.commands[id], e.now)
  {
    NextAhead(s, e);
    hide Inv, Enabled, Next, OsAhead, EnforceDeadlines, TargetExpired;
    if e.Enforce? { EnforceAhead(s, e.now); }
  }

  lemma {:induction false} RunLater(s: State, es: seq<Event>)
    requires Inv(s) && Feasible(s, es)
    ensures Later(s, Run(s, es)) && Inv(Run(s, es))
    decreases |es|
  {
    if es == [] {
      assert Later(s, s);
    } else {
      hide Inv, Later, Next, Enabled;
      NextLater(s, es[0]);
      NextKeepsInv(s, es[0]);
      RunLater(Next(s, es[0]), es[1..]);
      LaterTwice(s, Next(s, es[0]), Run(s, es));
    }
  }

  // ------------------------------------------------------------------ records that were dropped

  /** The record that a waiting stop holds is the one in the table, or was dropped and its profile has no process. */
  ghost predicate DroppedIdle(s: State) {
    forall id :: id in s.stops ==> HoldsOrIdle(s, s.stops[id])
  }

  predicate HoldsOrIdle(s: State, f: Frame) {
    Attached(s, f) || f.name !in s.slots || s.slots[f.name].child.None?
  }

  lemma {:induction false} LatestFrame(frames: map<CmdId, Frame>) returns (bound: int)
    ensures forall id :: id in frames ==> frames[id].now <= bound
    decreases frames.Keys
  {
    if frames == map[] {
      bound := 0;
    } else {
      var id :| id in frames;
      var rest := LatestFrame(frames - {id});
      bound := Max(rest, frames[id].now);
      assert forall k :: k in frames && k != id ==> k in frames - {id};
    }
  }

  /** A slot keeps its record as long as its process lives. */
  lemma ChildKeepsRecord(s: State, e: Event, n: Name, p: Proc)
    requires Inv(s) && Enabled(s, e) && n in s.slots && s.slots[n].child == Some(p) && !(e.Exit? && e.proc == p)
    ensures n in Next(s, e).slots && Next(s, e).slots[n].uid == s.slots[n].uid
  {
    if e.Enforce? {
      SlotOfName(s, n);
      EnforceSlotOk(n, s.slots[n], e.now);
      hide EnforceSlot, EnforceSignals, EnforceCommand, Inv, SlotOk;
    } else {
      var a := LatestFrame(s.stops);
      var b := LatestFrame(s.starts);
      var bound := Max(Max(a, b), if Reading(e).Some? then Reading(e).value else a);
      hide Inv, Next, Enabled;
      NextKeepsDrain(s, e, n, p, bound);
    }
  }

  /** A process that a slot has after a step that spawns nothing was there before, in the same record. */
  lemma NoNewRecord(s: State, e: Event, n: Name)
    requires Inv(s) && Enabled(s, e) && Next(s, e).os.next == s.os.next
    requires n in Next(s, e).slots && Next(s, e).slots[n].child.Some?
    ensures n in s.slots && s.slots[n].child == Next(s, e).slots[n].child && s.slots[n].uid == Next(s, e).slots[n].uid
  {
    var t := Next(s, e);
    var p := t.slots[n].child.value;
    NextLater(s, e);
    NextKeepsInv(s, e);
    ChildIsLive(s, t, n, p);
    ExitedIsGone(s, e, p);
    hide Inv, Next, Enabled;
    ChildKeepsRecord(s, e, n, p);
  }

  lemma ChildIsLive(s: State, t: State, n: Name, p: Proc)
    requires Inv(s) && Inv(t) && Later(s, t) && t.os.next == s.os.next && n in t.slots && t.slots[n].child == Some(p)
    ensures n in s.slots && s.slots[n].child == Some(p) && p in t.os.live
  {
    hide CommandsOk, FramesHold, SlotOk;
    assert p in t.os.live && BornAs(t.os, p, n);
    assert p in s.os.live;
  }

  lemma ExitedIsGone(s: State, e: Event, p: Proc)
    requires Enabled(s, e) && p in Next(s, e).os.live
    ensures !(e.Exit? && e.proc == p)
  {
    hide ExitSlot, WithSlot;
    if e.Exit? {
      var gone := s.(os := s.os.(live := s.os.live - {e.proc}));
      if e.proc in s.os.born && s.os.born[e.proc] in s.slots {
        WithSlotRecord(gone, ExitSlot(s.slots[s.os.born[e.proc]], e.code, e.now, s.cfg));
      }
      assert Next(s, e) == ChildExits(s, e.proc, e.code, e.now);
    }
  }

  /** Only the two shutdown requests set the flag, and neither spawns. */
  lemma ShutdownBegins(s: State, e: Event)
    requires Inv(s) && Enabled(s, e) && !s.shuttingDown && Next(s, e).shuttingDown
    ensures Next(s, e).os.next == s.os.next
  {
    NextAhead(s, e);
    AheadFlag(Noted(s, e), Next(s, e));
    hide Inv, Ahead, DrainNames, WithChild, Children, EnforceDeadlines;
    var mode, timeoutMs := if e.Shutdown? then Safe else e.c.mode, if e.Shutdown? then e.timeoutMs else e.c.timeoutMs;
    DrainNamesRecord(s.(shuttingDown := true), WithChild(s), mode, timeoutMs, e.now);
  }

  lemma AheadFlag(s: State, t: State)
    requires Ahead(s, t)
    ensures t.shuttingDown == s.shuttingDown
  {
  }

  lemma NextKeepsDroppedIdle(s: State, e: Event)
    requires Inv(s) && DroppedIdle(s) && Enabled(s, e)
    ensures DroppedIdle(Next(s, e))
  {
    var t := Next(s, e);
    NextFrames(s, e);
    NextKeepsInv(s, e);
    forall id | id in t.stops ensures HoldsOrIdle(t, t.stops[id]) {
      if id in s.stops && t.stops[id] == s.stops[id] {
        FrameHoldsOrIdle(s, e, s.stops[id]) by { StopHolds(s, id); }
      } else {
        assert e.CmdStop?;
        NewFrameHolds(s, e.c, e.found, e.now, id);
      }
    }
  }

  lemma StopHolds(s: State, id: CmdId)
    requires Inv(s) && id in s.stops
    ensures s.shuttingDown || Attached(s, s.stops[id])
  {
  }

  lemma NewFrameHolds(s: State, c: Command, found: Option<Name>, now: int, id: CmdId)
    requires id in BeginStop(s, c, found, now).stops
            && !(id in s.stops && BeginStop(s, c, found, now).stops[id] == s.stops[id])
    ensures HoldsOrIdle(BeginStop(s, c, found, now), BeginStop(s, c, found, now).stops[id])
  {
  }

  lemma FrameHoldsOrIdle(s: State, e: Event, f: Frame)
    requires Inv(s) && Enabled(s, e) && HoldsOrIdle(s, f) && (s.shuttingDown || Attached(s, f))
    requires !Next(s, e).shuttingDown ==> Attached(Next(s, e), f)
    ensures HoldsOrIdle(Next(s, e), f)
  {
    var t := Next(s, e);
    if t.shuttingDown && f.name in t.slots && t.slots[f.name].child.Some? {
      if s.shuttingDown { NextSpawnsNothing(s, e); } else { ShutdownBegins(s, e); }
      hide Inv, Enabled, Next;
      NoNewRecord(s, e, f.name);
    }
  }

  // ------------------------------------------------------------------ the step that writes an outcome

  /** The step writes DONE or FORCED for the command. */
  predicate Writes(s: State, t: State, id: CmdId) {
    id !in s.outcomes && Succeeded(t, id)
  }

  /**
   * What is true when the step e, from s to t, writes DONE or FORCED for a command. A command that waited was carried out.
   * A restart that ends at once found no process and starts one, exactly when the supervisor is not shutting down. After a
   * start the profile has a process, unless it had none and the supervisor is shutting down. A stop that ends at once
   * leaves no process, and a restart of everything ends at once only when no enabled profile had one.
   */
  ghost predicate Earned(s: State, e: Event, t: State, id: CmdId) {
    && id in t.outcomes
    && match e
       case Finish(k) => k == id && id in s.commands && TargetsReached(s, s.commands[id]) && CarriedOut(t, s.commands[id])
       case CmdRestart(c, found, _) =>
         && c.id == id && t.outcomes[id] == Done && found.Some? && !HasProcess(s.os, found.value)
         && (SpawnedSince(t.os, found.value, s.os.next) <==> !s.shuttingDown)
       case StartWritten(k) =>
         && k == id && id in s.starts && t.outcomes[id] == Done && StartEarned(s, t, s.starts[id].name)
       case StopWritten(k) =>
         && k == id && id in s.stops && t.outcomes[id] == Done && !HasProcess(t.os, s.stops[id].name)
       case CmdRestartAll(c, _) =>
         && c.id == id && t.outcomes[id] == Done
         && forall n :: n in s.slots && s.slots[n].profile.enabled ==> !HasProcess(s.os, n)
       case _ => false
  }

  ghost predicate StartEarned(s: State, t: State, n: Name) {
    && (HasProcess(t.os, n) <==> HasProcess(s.os, n) || !s.shuttingDown)
    && (SpawnedSince(t.os, n, s.os.next) <==> !HasProcess(s.os, n) && !s.shuttingDown)
  }

  /** A profile has a live process exactly when its slot has a child. */
  lemma ProcessIsChild(s: State, n: Name)
    requires Inv(s)
    ensures HasProcess(s.os, n) <==> n in s.slots && s.slots[n].child.Some?
  {
    hide SlotsAgree, FramesHold, CommandsOk;
    if n in s.slots && s.slots[n].child.Some? { assert BornAs(s.os, s.slots[n].child.value, n); }
  }

  lemma SpawnedHasProcess(os: Os, n: Name)
    requires BornInOrder(os)
    ensures HasProcess(Spawned(os, n), n) && SpawnedSince(Spawned(os, n), n, os.next)
    ensures !SpawnedSince(os, n, os.next)
  {
    assert BornAs(Spawned(os, n), os.next, n);
  }

  lemma SameProcesses(a: Os, b: Os, n: Name)
    requires b.live == a.live && b.born == a.born
    ensures HasProcess(b, n) <==> HasProcess(a, n)
  {
    if HasProcess(a, n) { var p: Proc :| p in a.live && BornAs(a, p, n); assert BornAs(b, p, n); }
    if HasProcess(b, n) { var p: Proc :| p in b.live && BornAs(b, p, n); assert BornAs(a, p, n); }
  }

  lemma FinishEarns(s: State, id: CmdId)
    requires Inv(s) && id in s.commands && Writes(s, FinishOne(s, id), id)
    ensures Earned(s, Finish(id), FinishOne(s, id), id)
  {
    FinishCases(s, id);
    hide TargetsReached, CarriedOutIn, ProcessesAgree, SlotsAgree, FramesHold, CommandHolds, FinishOne;
    ReachedMeansCarriedOut(s, s.commands[id]);
  }

  lemma RestartEarns(s: State, c: Command, found: Option<Name>, now: int)
    requires Inv(s) && FreshCommand(s, c.id) && Writes(s, RestartProfile(s, c, found, now), c.id)
    ensures Earned(s, CmdRestart(c, found, now), RestartProfile(s, c, found, now), c.id)
  {
    RestartProfileCases(s, c, found, now);
    KnownProcesses(s);
    hide Inv, RestartProfile, Ahead, BornInOrder, HasProcess, SpawnedSince, Spawned;
    ProcessIsChild(s, found.value);
    SpawnedHasProcess(s.os, found.value);
  }

  lemma StartEarns(s: State, id: CmdId)
    requires Inv(s) && id in s.starts
    ensures Earned(s, StartWritten(id), ResumeStart(s, id), id)
  {
    var n := s.starts[id].name;
    ResumeStartCases(s, id);
    KnownProcesses(s);
    hide Inv, ResumeStart, Ahead, BornInOrder, HasProcess, SpawnedSince, Spawned;
    ProcessIsChild(s, n);
    SpawnedHasProcess(s.os, n);
  }

  lemma StopEarns(s: State, id: CmdId)
    requires Inv(s) && DroppedIdle(s) && id in s.stops && Writes(s, ResumeStop(s, id), id)
    ensures Earned(s, StopWritten(id), ResumeStop(s, id), id)
  {
    var f := s.stops[id];
    ResumeStopCases(s, id);
    assert HoldsOrIdle(s, f);
    hide Inv, ResumeStop, Ahead, HasProcess, DroppedIdle;
    ProcessIsChild(s, f.name);
    SameProcesses(s.os, ResumeStop(s, id).os, f.name);
  }

  lemma RestartAllEarns(s: State, c: Command, now: int)
    requires Inv(s) && FreshCommand(s, c.id) && Writes(s, RestartAll(s, c, now), c.id)
    ensures Earned(s, CmdRestartAll(c, now), RestartAll(s, c, now), c.id)
  {
    RestartAllCases(s, c, now);
    hide Inv, RestartAll, Ahead, HasProcess;
    forall n | n in s.slots && s.slots[n].profile.enabled ensures !HasProcess(s.os, n) {
      ProcessIsChild(s, n);
      assert n !in Hit(s);
    }
  }

  /** Every step that writes DONE or FORCED for a command has earned it. */
  lemma NextEarns(s: State, e: Event, id: CmdId)
    requires Inv(s) && DroppedIdle(s) && Enabled(s, e) && Writes(s, Next(s, e), id)
    ensures Earned(s, e, Next(s, e), id)
  {
    if OfCommand(e) { CommandWritesOwn(s, e); } else { KnownProcesses(s); OtherWritesOwn(s, e); }
    hide Inv, DroppedIdle, Earned, BornInOrder, Reconcile, RestartProfile, ResumeStop, ResumeStart, RestartAll, RestartSupervisor, ChildExits,
      EnforceDeadlines, BeginShutdown, FinishOne, BeginStop, BeginStart, Mark;
    match e
    case CmdRestart(c, found, now) => RestartEarns(s, c, found, now);
    case StopWritten(k) => StopEarns(s, k);
    case StartWritten(k) => StartEarns(s, k);
    case CmdRestartAll(c, now) => RestartAllEarns(s, c, now);
    case Finish(k) => FinishEarns(s, k);
    case _ =>
  }

  /** The command whose outcome a step may write. */
  function Subject(e: Event): Option<CmdId> {
    match e
    case CmdRestart(c, _, _) => Some(c.id)
    case CmdRestartAll(c, _) => Some(c.id)
    case StopWritten(id) => Some(id)
    case StartWritten(id) => Some(id)
    case Finish(id) => Some(id)
    case _ => None
  }

  /** A step writes an outcome of its own command only; the others write none but FAILED. */
  ghost predicate WritesOwn(s: State, e: Event, t: State) {
    forall id :: Writes(s, t, id) ==> Subject(e) == Some(id)
  }

  lemma CommandWritesOwn(s: State, e: Event)
    requires Inv(s) && Enabled(s, e) && OfCommand(e)
    ensures WritesOwn(s, e, Next(s, e))
  {
    hide Inv, Ahead, RestartProfile, ResumeStop, ResumeStart, RestartAll, RestartSupervisor, BeginStop, BeginStart, Spawned, Attached,
      Hit;
    match e
    case CmdRestart(c, found, now) => RestartProfileCases(s, c, found, now);
    case CmdStop(c, found, now) => BeginStopCases(s, c, found, now);
    case CmdStart(c, found, now) => BeginStartCases(s, c, found, now);
    case StopWritten(id) => ResumeStopCases(s, id);
    case StartWritten(id) => ResumeStartCases(s, id);
    case CmdRestartAll(c, now) => RestartAllCases(s, c, now);
    case CmdRestartSupervisor(c, now) => RestartSupervisorCases(s, c, now);
  }

  lemma OtherWritesOwn(s: State, e: Event)
    requires BornInOrder(s.os) && Enabled(s, e) && !OfCommand(e)
    ensures WritesOwn(s, e, Next(s, e))
  {
    hide Ahead, BornInOrder, Reconcile, ChildExits, EnforceDeadlines, BeginShutdown, FinishOne, Mark, TargetsReached;
    match e
    case LoadConfig(_) =>
    case DoReconcile(ps, now) => ReconcileAhead(s, ps, now);
    case Exit(proc, code, now) => ExitAhead(s, proc, code, now);
    case Enforce(now) => EnforceAhead(s, now);
    case Shutdown(timeoutMs, now) => ShutdownAhead(s, timeoutMs, now);
    case CmdError(id) => ErrorAhead(s, id);
    case Finish(id) => FinishCases(s, id);
    case ExitProcess =>
  }

  // ------------------------------------------------------------------ every run

  /** Step k of the run wrote the command's outcome, and earned it. */
  ghost predicate WrittenAt(s: State, es: seq<Event>, k: nat, id: CmdId)
    requires Feasible(s, es)
  {
    && k < |es| && Feasible(s, es[..k]) && Enabled(Run(s, es[..k]), es[k])
    && var a := Run(s, es[..k]);
       var b := Next(a, es[k]);
       && id !in a.outcomes && id in b.outcomes && Earned(a, es[k], b, id)
       && id in Run(s, es).outcomes && b.outcomes[id] == Run(s, es).outcomes[id]
  }

  lemma {:induction false} RunEarns(s: State, es: seq<Event>, id: CmdId) returns (k: nat)
    requires Inv(s) && DroppedIdle(s) && Feasible(s, es) && id !in s.outcomes && Succeeded(Run(s, es), id)
    ensures WrittenAt(s, es, k, id)
    decreases |es|
  {
    hide *;
    SomeStep(s, es, id);
    FirstStep(s, es);
    var t := Next(s, es[0]);
    NextKeepsInv(s, es[0]);
    NextKeepsDroppedIdle(s, es[0]);
    if id in t.outcomes {
      k := 0;
      WrittenFirst(s, es, id);
    } else {
      var i := RunEarns(t, es[1..], id);
      k := i + 1;
      WrittenLater(s, es, i, id);
    }
  }

  lemma SomeStep(s: State, es: seq<Event>, id: CmdId)
    requires Feasible(s, es) && id !in s.outcomes && Succeeded(Run(s, es), id)
    ensures es != []
  {
  }

  lemma FirstStep(s: State, es: seq<Event>)
    requires Feasible(s, es) && es != []
    ensures Enabled(s, es[0]) && Feasible(Next(s, es[0]), es[1..]) && Run(s, es) == Run(Next(s, es[0]), es[1..])
  {
    hide Enabled, Next;
  }

  lemma WrittenFirst(s: State, es: seq<Event>, id: CmdId)
    requires Inv(s) && DroppedIdle(s) && Feasible(s, es) && es != [] && Enabled(s, es[0]) && Inv(Next(s, es[0]))
    requires id !in s.outcomes && id in Next(s, es[0]).outcomes && Succeeded(Run(s, es), id)
    ensures WrittenAt(s, es, 0, id)
  {
    hide Inv, DroppedIdle, Earned, Later, Next, Enabled;
    FirstStep(s, es);
    RunLater(Next(s, es[0]), es[1..]);
    OutcomeStays(Next(s, es[0]), Run(s, es), id);
    NextEarns(s, es[0], id);
    assert es[..0] == [];
  }

  lemma WrittenLater(s: State, es: seq<Event>, i: nat, id: CmdId)
    requires Feasible(s, es) && es != [] && Enabled(s, es[0]) && Feasible(Next(s, es[0]), es[1..])
    requires WrittenAt(Next(s, es[0]), es[1..], i, id)
    ensures WrittenAt(s, es, i + 1, id)
  {
    hide Earned, Next, Enabled;
    assert es[..i + 1][1..] == es[1..][..i] && es[..i + 1][0] == es[0] && es[1..][i] == es[i + 1];
  }

  lemma OutcomeStays(s: State, t: State, id: CmdId)
    requires Later(s, t) && id in s.outcomes
    ensures id in t.outcomes && t.outcomes[id] == s.outcomes[id]
  {
  }

  /** What succeeds in the end was never marked as failed. */
  lemma NeverFailed(s: State, t: State, id: CmdId)
    requires Later(s, t) && Succeeded(t, id)
    ensures id in s.outcomes ==> !s.outcomes[id].Failed?
  {
  }

  lemma NotYetWritten(s: State, t: State, id: CmdId)
    requires Later(s, t) && id !in t.outcomes
    ensures id !in s.outcomes
  {
  }

  lemma InitialDroppedIdle()
    ensures DroppedIdle(INITIAL) && Inv(INITIAL)
  {
    InitialInv();
  }

  /** In every run: DONE or FORCED of any command, of any kind, was written by one step that earned it. */
  lemma SuccessIsEarned(es: seq<Event>, id: CmdId) returns (k: nat)
    requires Feasible(INITIAL, es) && Succeeded(Run(INITIAL, es), id)
    ensures WrittenAt(INITIAL, es, k, id)
  {
    hide *;
    InitialDroppedIdle();
    NothingWritten(id);
    k := RunEarns(INITIAL, es, id);
  }

  lemma NothingWritten(id: CmdId)
    ensures id !in INITIAL.outcomes
  {
  }

  // ------------------------------------------------------------------ restarts and starts, from request to outcome

  lemma CommandStays(s: State, t: State, id: CmdId)
    requires Later(s, t) && id in s.commands
    ensures id in t.commands && SameCommand(s.commands[id], t.commands[id])
  {
  }

  lemma SpawnStays(s: State, t: State, n: Name, since: Proc)
    requires Later(s, t) && SpawnedSince(s.os, n, since)
    ensures SpawnedSince(t.os, n, since)
  {
    var p: Proc :| since <= p < s.os.next && BornAs(s.os, p, n);
    assert BornAs(t.os, p, n);
  }

  /**
   * A restart of one profile that any continuation ends as DONE or FORCED has brought a new process of that profile, if and
   * only if it did not find the profile without a process during a shutdown.
   */
  lemma RestartSucceedsIff(s: State, c: Command, found: Option<Name>, now: int, es: seq<Event>)
    requires Inv(s) && Enabled(s, CmdRestart(c, found, now)) && Feasible(Next(s, CmdRestart(c, found, now)), es)
    requires Succeeded(Run(Next(s, CmdRestart(c, found, now)), es), c.id)
    ensures found.Some? && found.value in s.slots
    ensures SpawnedSince(Run(Next(s, CmdRestart(c, found, now)), es).os, found.value, s.os.next)
       <==> !(s.shuttingDown && s.slots[found.value].child.None?)
  {
    var e := CmdRestart(c, found, now);
    var t := Next(s, e);
    var u := Run(t, es);
    RestartProfileCases(s, c, found, now);
    NextKeepsInv(s, e);
    KnownProcesses(s);
    RestartKeepsFlag(s, c, found, now);
    assert t == RestartProfile(s, c, found, now);
    hide Inv, Enabled, Next, Feasible, Run, RestartProfile, Ahead, Later, BornInOrder, SpawnedSince, Spawned;
    RunLater(t, es);
    NeverFailed(t, u, c.id);
    if s.slots[found.value].child.None? {
      SpawnedHasProcess(s.os, found.value);
      if s.shuttingDown {
        ShutdownSpawnsNothing(t, es);
        NothingSince(u.os, found.value, s.os.next);
      } else {
        SpawnStays(t, u, found.value, s.os.next);
      }
    } else {
      CommandStays(t, u, c.id);
      RestartWasCarriedOut(u, c.id, found.value, s.os.next);
    }
  }

  lemma NothingSince(os: Os, n: Name, since: Proc)
    requires os.next <= since
    ensures !SpawnedSince(os, n, since)
  {
  }

  lemma RestartWasCarriedOut(u: State, id: CmdId, n: Name, since: Proc)
    requires Inv(u) && id in u.commands && Succeeded(u, id)
    requires u.commands[id].kind.Restart? && n in u.commands[id].targets && u.commands[id].since == since
    ensures SpawnedSince(u.os, n, since)
  {
    hide ProcessesAgree, SlotsAgree, FramesHold, CommandHolds;
  }

  lemma RestartKeepsFlag(s: State, c: Command, found: Option<Name>, now: int)
    requires Inv(s) && FreshCommand(s, c.id)
    ensures RestartProfile(s, c, found, now).shuttingDown == s.shuttingDown
    ensures s.shuttingDown ==> RestartProfile(s, c, found, now).os.next == s.os.next
  {
    RestartProfileCases(s, c, found, now);
    hide Inv, RestartProfile;
    if s.shuttingDown { RestartProfileSpawnsNothing(s, c, found, now); }
  }

  /** A restart that finds an enabled profile without a process is DONE at once, and starts one unless it is shutting down. */
  lemma IdleRestartStartsIff(s: State, c: Command, name: Name, now: int)
    requires Inv(s) && FreshCommand(s, c.id) && name in s.slots && s.slots[name].profile.enabled
            && s.slots[name].child.None?
    ensures var t := RestartProfile(s, c, Some(name), now);
      && t.outcomes == s.outcomes[c.id := Done] && (s.shuttingDown ==> t.os == s.os)
      && (SpawnedSince(t.os, name, s.os.next) <==> !s.shuttingDown)
  {
    KnownProcesses(s);
    RestartProfileCases(s, c, Some(name), now);
    hide Inv, RestartProfile, Ahead, BornInOrder, SpawnedSince, Spawned;
    SpawnedHasProcess(s.os, name);
  }

  /** A waiting start keeps waiting, with the record it looked up, until it is written. */
  lemma NextKeepsStart(s: State, e: Event, id: CmdId)
    requires Inv(s) && Enabled(s, e) && id in s.starts && id !in Next(s, e).outcomes
    ensures id in Next(s, e).starts && Next(s, e).starts[id] == s.starts[id]
  {
    hide Inv, Reconcile, RestartProfile, ResumeStop, ResumeStart, RestartAll, DrainNames, RestartSupervisor, ChildExits, EnforceDeadlines,
      FinishOne, BeginShutdown, Mark;
    match e
    case DoReconcile(ps, now) => ReconcileKeepsFrames(s, ps, now);
    case CmdRestart(c, found, now) => RestartKeepsFrames(s, c, found, now);
    case StopWritten(k) => ResumeStopKeepsFrames(s, k);
    case StartWritten(k) =>
      ResumeStartKeepsFrames(s, k);
      ResumeStartCases(s, k);
    case CmdRestartAll(c, now) => RestartAllKeepsFrames(s, c, now);
    case CmdRestartSupervisor(c, now) => RestartSupervisorKeepsFrames(s, c, now);
    case Shutdown(timeoutMs, now) => ShutdownKeepsFrames(s, timeoutMs, now);
    case Enforce(now) => EnforceKeepsFrames(s, now);
    case Exit(q, code, now) => ExitKeepsFrames(s, q, code, now);
    case Finish(k) => FinishKeepsFrames(s, k);
    case CmdStop(c, found, now) => MarkKeepsFrames(s, c.id, Failed);
    case CmdStart(c, found, now) => MarkKeepsFrames(s, c.id, Failed);
    case CmdError(k) => ErrorEnds(s, k);
    case _ =>
  }

  lemma ErrorEnds(s: State, k: CmdId)
    ensures var t := Mark(s.(stops := s.stops - {k}, starts := s.starts - {k}), k, Failed);
      k in t.outcomes && t.starts == s.starts - {k}
  {
  }

  lemma {:induction false} RunKeepsStart(s: State, es: seq<Event>, id: CmdId)
    requires Inv(s) && Feasible(s, es) && id in s.starts && id !in Run(s, es).outcomes
    ensures id in Run(s, es).starts && Run(s, es).starts[id] == s.starts[id]
    decreases |es|
  {
    if es != [] {
      var t := Next(s, es[0]);
      hide Inv, Later, Next, Enabled;
      NextKeepsInv(s, es[0]);
      RunLater(t, es[1..]);
      NotYetWritten(t, Run(s, es), id);
      NextKeepsStart(s, es[0], id);
      RunKeepsStart(t, es[1..], id);
    }
  }

  /**
   * A start of one profile that any continuation ends as DONE or FORCED: from the step that writes it the profile has a
   * process, if and only if it had one before or the supervisor is not shutting down.
   */
  lemma StartSucceedsIff(s: State, c: Command, found: Option<Name>, now: int, es: seq<Event>) returns (k: nat)
    requires Inv(s) && DroppedIdle(s) && Enabled(s, CmdStart(c, found, now))
            && Feasible(Next(s, CmdStart(c, found, now)), es)
    requires Succeeded(Run(Next(s, CmdStart(c, found, now)), es), c.id)
    ensures found.Some? && WrittenAt(Next(s, CmdStart(c, found, now)), es, k, c.id) && es[k] == StartWritten(c.id)
    ensures var a := Run(Next(s, CmdStart(c, found, now)), es[..k]);
      StartEarned(a, Next(a, es[k]), found.value)
  {
    var e := CmdStart(c, found, now);
    var t := Next(s, e);
    StartWaits(s, c, found, now);
    hide *;
    NextKeepsInv(s, e);
    NextKeepsDroppedIdle(s, e);
    RunLater(t, es);
    NeverFailed(t, Run(t, es), c.id);
    StillWaits(t, Run(t, es), c.id);
    k := RunEarns(t, es, c.id);
    WrittenParts(t, es, k, c.id);
    RunLater(t, es[..k]);
    RunKeepsStart(t, es[..k], c.id);
    OnlyItsWrite(Run(t, es[..k]), es[k], c.id);
    StartHasEarned(Run(t, es[..k]), es[k], c.id);
  }

  /** A start fails at once, or waits for its slot. */
  lemma StartWaits(s: State, c: Command, found: Option<Name>, now: int)
    requires Enabled(s, CmdStart(c, found, now))
    ensures var t := Next(s, CmdStart(c, found, now));
      if c.id in t.outcomes then t.outcomes[c.id].Failed?
      else found.Some? && c.id in t.starts && t.starts[c.id].name == found.value
  {
    hide Ahead;
    BeginStartCases(s, c, found, now);
  }

  lemma StillWaits(t: State, u: State, id: CmdId)
    requires id in t.outcomes ==> t.outcomes[id].Failed?
    requires id in t.outcomes ==> !t.outcomes[id].Failed?
    requires Succeeded(u, id)
    ensures id !in t.outcomes
  {
  }

  lemma WrittenParts(s: State, es: seq<Event>, k: nat, id: CmdId)
    requires Feasible(s, es) && WrittenAt(s, es, k, id)
    ensures k < |es| && Feasible(s, es[..k]) && Enabled(Run(s, es[..k]), es[k]) && id !in Run(s, es[..k]).outcomes
    ensures Earned(Run(s, es[..k]), es[k], Next(Run(s, es[..k]), es[k]), id)
  {
    hide Earned, Next, Enabled, Feasible, Run;
  }

  lemma StartHasEarned(a: State, e: Event, id: CmdId)
    requires id in a.starts && Enabled(a, e) && e == StartWritten(id) && Earned(a, e, Next(a, e), id)
    ensures StartEarned(a, Next(a, e), a.starts[id].name)
  {
    hide StartEarned, Next;
  }

  /** While a start waits, only its own write can end it well. */
  lemma OnlyItsWrite(a: State, e: Event, id: CmdId)
    requires Inv(a) && id in a.starts && Enabled(a, e) && Earned(a, e, Next(a, e), id)
    ensures e == StartWritten(id)
  {
    assert id !in a.commands && id !in a.stops;
    hide Inv, Next, StartEarned, HasProcess, CarriedOutIn, TargetsReached;
  }
}
