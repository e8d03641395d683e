/** What every run of the supervisor keeps: processes and slots agree, commands end only when they are carried out. */
module SupervisorSafety {
  import opened Wrappers
  import opened SupervisorModel

  predicate SlotOk(n: Name, sl: Slot) {
    && sl.profile.name == n
    && (sl.draining <==> sl.state.Draining?)
    && (sl.draining ==> sl.child.Some?)
    && (sl.termSent <==> sl.killAt.Some?)
    && (sl.draining <==> sl.termSent || sl.drainDeadline.Some?)
    && (sl.backoffUntil.Some? ==> sl.child.None?)
    && (sl.child.Some? ==> sl.startedAt.Some? && sl.spawned.Some? && sl.spawnCount >= 1)
    && (sl.child.Some? <==> sl.state.Starting? || sl.state.Running? || sl.state.Draining?)
    && (sl.state.CrashLoop? ==> sl.crashes >= CRASH_LOOP_AFTER)
    && (sl.state.Backoff? ==> 1 <= sl.crashes < CRASH_LOOP_AFTER)
  }

  ghost predicate SlotsOk(s: State) {
    SlotsAgree(s.slots, s.nextUid)
  }

  ghost predicate SlotsAgree(slots: map<Name, Slot>, nextUid: nat) {
    && (forall n :: n in slots ==> SlotOk(n, slots[n]) && slots[n].uid < nextUid)
    && (forall m, n :: m in slots && n in slots && m != n ==> slots[m].uid != slots[n].uid)
  }

  predicate BornAs(os: Os, p: Proc, n: Name) {
    p in os.born && os.born[p] == n
  }

  ghost predicate ProcessesOk(s: State) {
    ProcessesAgree(s.slots, s.os)
  }

  /** The live processes are exactly the children of the slots, each under the name it was spawned for. */
  ghost predicate ProcessesAgree(slots: map<Name, Slot>, os: Os) {
    && (forall p: Proc :: p in os.born <==> p < os.next)
    && (forall p: Proc :: p in os.live ==> p in os.born && os.born[p] in slots && slots[os.born[p]].child == Some(p))
    && (forall n :: n in slots && slots[n].child.Some? ==> slots[n].child.value in os.live && BornAs(os, slots[n].child.value, n))
  }

  ghost predicate FramesOk(s: State) {
    FramesHold(s, s.stops) && FramesHold(s, s.starts)
  }

  /** Before shutdown every waiting command still holds the slot that is in the table. */
  ghost predicate FramesHold(s: State, frames: map<CmdId, Frame>) {
    forall id :: id in frames ==> frames[id].uid < s.nextUid && (s.shuttingDown || Attached(s, frames[id]))
  }

  ghost predicate CommandOk(s: State, a: Active) {
    CommandHolds(s.os, s.shuttingDown, a)
  }

  /** The old process of each target, and nothing else of that profile, was alive when the command started. */
  ghost predicate CommandHolds(os: Os, shuttingDown: bool, a: Active) {
    && a.since <= os.next
    && (forall n :: n in a.targets ==> a.targets[n] < a.since && BornAs(os, a.targets[n], n))
    && (forall n, p: Proc :: n in a.targets && p in os.live && p < a.since && BornAs(os, p, n) ==> p == a.targets[n])
    && (a.kind.WholeSupervisor? ==> shuttingDown && forall p: Proc :: p in os.live ==> p in os.born && os.born[p] in a.targets)
  }

  ghost predicate CarriedOut(s: State, a: Active) {
    CarriedOutIn(s.os, a)
  }

  /** A finished command was carried out: old processes exited, and a restart spawned a newer process for every target. */
  ghost predicate CarriedOutIn(os: Os, a: Active) {
    && (forall n :: n in a.targets ==> a.targets[n] !in os.live)
    && (a.kind.Restart? ==> forall n :: n in a.targets ==> SpawnedSince(os, n, a.since))
  }

  ghost predicate SpawnedSince(os: Os, n: Name, since: Proc) {
    exists p: Proc :: since <= p < os.next && BornAs(os, p, n)
  }

  ghost predicate CommandsOk(s: State) {
    && s.active <= s.commands.Keys
    && (forall id :: id in s.commands ==> CommandOk(s, s.commands[id]))
    && (forall id :: id in s.commands && id in s.outcomes && (s.outcomes[id].Done? || s.outcomes[id].Forced?) ==>
          CarriedOut(s, s.commands[id]))
    && (s.exiting || s.exited ==> s.shuttingDown && s.os.live == {})
  }

  /** A command that waits for a write has neither started draining nor ended. */
  predicate IdsOk(s: State) {
    && s.stops.Keys !! s.starts.Keys
    && s.stops.Keys + s.starts.Keys !! s.commands.Keys + s.outcomes.Keys
  }

  ghost predicate Inv(s: State)
  {
    ProcessesOk(s) && SlotsOk(s) && FramesOk(s) && CommandsOk(s) && IdsOk(s)
  }

  // ------------------------------------------------------------------ kinds of steps

  /** A step that neither spawns nor ends a process and keeps every slot's identity. */
  ghost predicate KeepsProcesses(s: State, t: State) {
    && t.os.live == s.os.live && t.os.next == s.os.next && t.os.born == s.os.born
    && (s.shuttingDown ==> t.shuttingDown)
    && (forall n :: n in s.slots && s.slots[n].child.Some? ==> n in t.slots)
    && (forall n :: n in t.slots ==> if n in s.slots then t.slots[n].child == s.slots[n].child else t.slots[n].child.None?)
  }

  lemma KeepsProcessesOk(s: State, t: State)
    requires ProcessesOk(s) && KeepsProcesses(s, t)
    ensures ProcessesOk(t)
    ensures forall a :: CommandOk(s, a) ==> CommandOk(t, a)
    ensures forall a :: CarriedOut(s, a) ==> CarriedOut(t, a)
  {
    forall a | CarriedOut(s, a) ensures CarriedOut(t, a) {
      if a.kind.Restart? {
        forall n | n in a.targets ensures SpawnedSince(t.os, n, a.since) {
          assert SpawnedSince(s.os, n, a.since);
          var p: Proc :| a.since <= p < s.os.next && BornAs(s.os, p, n);
          assert BornAs(t.os, p, n);
        }
      }
    }
  }

  /** A step that also keeps the commands, up to their forced flags, and the outcomes. */
  ghost predicate KeepsCommands(s: State, t: State) {
    && t.active <= s.active && t.commands.Keys == s.commands.Keys
    && (forall id :: id in s.commands ==> t.commands[id].(forced := s.commands[id].forced) == s.commands[id])
    && t.outcomes == s.outcomes && t.exiting == s.exiting && t.exited == s.exited
  }

  lemma ForcedIrrelevant(s: State, a: Active, b: Active)
    requires a.(forced := b.forced) == b
    ensures CommandOk(s, a) <==> CommandOk(s, b)
    ensures CarriedOut(s, a) <==> CarriedOut(s, b)
  {
  }

  lemma KeepsCommandsOk(s: State, t: State)
    requires ProcessesOk(s) && CommandsOk(s) && KeepsProcesses(s, t) && KeepsCommands(s, t)
    ensures CommandsOk(t)
  {
    KeepsProcessesOk(s, t);
    hide CommandHolds, CarriedOutIn;
    CommandsFollow(s, t);
  }

  /** The commands stay correct when the processes change in a way that keeps each of them correct. */
  lemma CommandsFollow(s: State, t: State)
    requires CommandsOk(s) && KeepsCommands(s, t)
    requires forall a :: CommandOk(s, a) ==> CommandOk(t, a)
    requires forall a :: CarriedOut(s, a) ==> CarriedOut(t, a)
    requires t.os.live <= s.os.live && (s.shuttingDown ==> t.shuttingDown)
    ensures CommandsOk(t)
  {
    forall id | id in t.commands
      ensures CommandOk(t, t.commands[id])
      ensures id in t.outcomes && !t.outcomes[id].Failed? ==> CarriedOut(t, t.commands[id])
    {
      ForcedIrrelevant(t, t.commands[id], s.commands[id]);
    }
  }

  /** Slots keep their identity and none is added. */
  ghost predicate KeepsSlots(s: State, t: State) {
    && t.slots.Keys == s.slots.Keys && t.nextUid == s.nextUid
    && (forall n :: n in s.slots ==> t.slots[n].uid == s.slots[n].uid)
    && (forall id :: id in t.stops ==> id in s.stops && t.stops[id] == s.stops[id])
    && (forall id :: id in t.starts ==> id in s.starts && t.starts[id] == s.starts[id])
    && (s.shuttingDown ==> t.shuttingDown)
  }

  lemma KeepsSlotsOk(s: State, t: State)
    requires SlotsOk(s) && FramesOk(s) && KeepsSlots(s, t)
    requires forall n :: n in t.slots ==> SlotOk(n, t.slots[n])
    ensures SlotsOk(t) && FramesOk(t)
  {
    hide SlotOk;
    assert SlotsOk(t) by {
      forall m, n | m in t.slots && n in t.slots && m != n ensures t.slots[m].uid != t.slots[n].uid {
        assert s.slots[m].uid != s.slots[n].uid;
      }
    }
    forall id | id in t.stops ensures t.stops[id].uid < t.nextUid && (t.shuttingDown || Attached(t, t.stops[id])) {
      assert s.shuttingDown || Attached(s, s.stops[id]);
    }
    forall id | id in t.starts ensures t.starts[id].uid < t.nextUid && (t.shuttingDown || Attached(t, t.starts[id])) {
      assert s.shuttingDown || Attached(s, s.starts[id]);
    }
  }

  // ------------------------------------------------------------------ one spawn

  /** sl is the slot under its name, possibly with a new profile or backoff, and has no process. */
  predicate ReadyToSpawn(s: State, sl: Slot) {
    var name := sl.profile.name;
    && name in s.slots && s.slots[name].child.None? && sl.child.None? && sl.uid == s.slots[name].uid
  }

  lemma SpawnProcesses(s: State, sl: Slot, now: int)
    requires ProcessesOk(s) && ReadyToSpawn(s, sl)
    ensures ProcessesOk(Spawn(s, sl, now))
  {
    var t, name := Spawn(s, sl, now), sl.profile.name;
    assert forall p: Proc :: p in s.os.live ==> s.os.born[p] != name;
  }

  lemma SpawnSlots(s: State, sl: Slot, now: int)
    requires SlotsOk(s) && FramesOk(s) && ReadyToSpawn(s, sl)
    ensures SlotsOk(Spawn(s, sl, now)) && FramesOk(Spawn(s, sl, now))
  {
    var t := Spawn(s, sl, now);
    assert t.slots.Keys == s.slots.Keys;
    KeepsSlotsOk(s, t);
  }

  lemma SpawnCommands(s: State, sl: Slot, now: int)
    requires ProcessesOk(s) && CommandsOk(s) && !s.shuttingDown && ReadyToSpawn(s, sl)
    ensures CommandsOk(Spawn(s, sl, now))
  {
    var t := Spawn(s, sl, now);
    forall id | id in t.commands
      ensures CommandOk(t, t.commands[id])
      ensures id in t.outcomes && !t.outcomes[id].Failed? ==> CarriedOut(t, t.commands[id])
    {
      var a := s.commands[id];
      assert CommandOk(s, a);
      if id in s.outcomes && !s.outcomes[id].Failed? {
        SpawnKeepsCarriedOut(s, t, a);
      }
    }
  }

  lemma SpawnKeepsCarriedOut(s: State, t: State, a: Active)
    requires ProcessesOk(s) && CarriedOut(s, a) && CommandOk(s, a)
    requires exists name :: t.os == Spawned(s.os, name)
    ensures CarriedOut(t, a)
  {
    if a.kind.Restart? {
      forall n | n in a.targets ensures SpawnedSince(t.os, n, a.since) {
        assert SpawnedSince(s.os, n, a.since);
        var p: Proc :| a.since <= p < s.os.next && BornAs(s.os, p, n);
        assert BornAs(t.os, p, n);
      }
    }
  }

  lemma SpawnKeepsInv(s: State, sl: Slot, now: int)
    requires Inv(s) && !s.shuttingDown && ReadyToSpawn(s, sl)
    ensures Inv(Spawn(s, sl, now))
  {
    SpawnProcesses(s, sl, now);
    SpawnSlots(s, sl, now);
    SpawnCommands(s, sl, now);
  }

  // ------------------------------------------------------------------ steps without a spawn or an exit

  /** What a quiet step may do to the slots: change fields that say nothing about identity or process. */
  ghost predicate Quiet(s: State, t: State) {
    && KeepsSlots(s, t) && KeepsCommands(s, t)
    && t.os.live == s.os.live && t.os.next == s.os.next && t.os.born == s.os.born
    && forall n :: n in s.slots ==> t.slots[n].child == s.slots[n].child && SlotOk(n, t.slots[n])
  }

  lemma QuietKeepsInv(s: State, t: State)
    requires Inv(s) && Quiet(s, t)
    ensures Inv(t)
  {
    hide SlotOk, CommandsOk, FramesHold, SlotsAgree;
    KeepsSlotsOk(s, t);
    KeepsCommandsOk(s, t);
    KeepsProcessesOk(s, t);
  }

  lemma BeginDrainOk(n: Name, sl: Slot, mode: Mode, timeoutMs: int, now: int)
    requires SlotOk(n, sl)
    ensures var d := BeginDrain(sl, mode, timeoutMs, now);
      SlotOk(n, d) && d.uid == sl.uid && d.child == sl.child && (sl.child.Some? ==> d.draining)
  {
  }

  lemma DrainKeepsName(sl: Slot, mode: Mode, timeoutMs: int, now: int)
    ensures BeginDrain(sl, mode, timeoutMs, now).profile == sl.profile
            && BeginDrain(sl, mode, timeoutMs, now).child == sl.child
  {
  }

  lemma SpawnKeepsName(sl: Slot, proc: Proc, now: int)
    ensures SpawnSlot(sl, proc, now).profile == sl.profile && SpawnSlot(sl, proc, now).child == Some(proc)
  {
  }

  lemma ExitKeepsName(sl: Slot, code: Option<int>, now: int, cfg: Config)
    ensures ExitSlot(sl, code, now, cfg).profile == sl.profile && ExitSlot(sl, code, now, cfg).child.None?
  {
    hide IsCrash, Uptime, BackoffDelay;
  }

  lemma EnforceSlotOk(n: Name, sl: Slot, now: int)
    requires SlotOk(n, sl)
    ensures SlotOk(n, EnforceSlot(sl, now)) && EnforceSlot(sl, now).uid == sl.uid
            && EnforceSlot(sl, now).child == sl.child
  {
  }

  lemma DrainNamesQuiet(s: State, names: set<Name>, mode: Mode, timeoutMs: int, now: int)
    requires SlotsOk(s)
    ensures Quiet(s, DrainNames(s, names, mode, timeoutMs, now))
  {
    hide SlotOk, BeginDrain, AllDrainSignals;
    forall n | n in s.slots ensures SlotOk(n, s.slots[n]) {}
    forall n | n in s.slots && n in names
      ensures var d := BeginDrain(s.slots[n], mode, timeoutMs, now);
        SlotOk(n, d) && d.uid == s.slots[n].uid && d.child == s.slots[n].child
    {
      BeginDrainOk(n, s.slots[n], mode, timeoutMs, now);
    }
  }

  lemma EnforceQuiet(s: State, now: int)
    requires SlotsOk(s)
    ensures Quiet(s, EnforceDeadlines(s, now))
  {
    hide SlotOk, EnforceSlot, EnforceSignals;
    forall n | n in s.slots
      ensures SlotOk(n, EnforceSlot(s.slots[n], now)) && EnforceSlot(s.slots[n], now).uid == s.slots[n].uid
      ensures EnforceSlot(s.slots[n], now).child == s.slots[n].child
    {
      EnforceSlotOk(n, s.slots[n], now);
    }
  }

  /** Replacing one slot by itself with other flags. */
  lemma WithSlotQuiet(s: State, sl: Slot)
    requires SlotsOk(s) && sl.profile.name in s.slots && SlotOk(sl.profile.name, sl)
    requires sl.uid == s.slots[sl.profile.name].uid && sl.child == s.slots[sl.profile.name].child
    ensures Quiet(s, WithSlot(s, sl))
  {
    hide SlotOk;
    forall n | n in s.slots ensures SlotOk(n, s.slots[n]) {}
  }

  lemma QuietThenSignals(s: State, t: State, more: set<Signal>)
    requires Quiet(s, t)
    ensures Quiet(s, WithSignals(t, more))
  {
    hide SlotOk;
  }

  lemma SameOs(s: State, t: State)
    requires s.os == t.os && s.shuttingDown == t.shuttingDown
    ensures forall a :: CommandOk(t, a) == CommandOk(s, a) && CarriedOut(t, a) == CarriedOut(s, a)
  {
  }

  lemma SameSlots(s: State, t: State)
    requires s.slots == t.slots && s.os == t.os && s.nextUid == t.nextUid && s.shuttingDown == t.shuttingDown
    requires s.stops == t.stops && s.starts == t.starts
    requires ProcessesOk(s) && SlotsOk(s) && FramesOk(s)
    ensures ProcessesOk(t) && SlotsOk(t) && FramesOk(t)
  {
    hide SlotOk;
  }

  /** Marking an outcome that is a failure, or that is justified, changes nothing else. */
  lemma MarkKeepsInv(s: State, id: CmdId, o: Outcome)
    requires Inv(s) && id !in s.stops && id !in s.starts
    requires o.Failed? || id !in s.commands || CarriedOut(s, s.commands[id])
    ensures Inv(Mark(s, id, o))
  {
    var t := Mark(s, id, o);
    MarkKeepsRest(s, id, o);
    hide Mark;
    SameSlots(s, t);
    MarkKeepsCommands(s, t, id, o);
    hide ProcessesAgree, SlotsAgree, FramesHold, CommandHolds, CarriedOutIn, CommandsOk;
  }

  lemma MarkKeepsRest(s: State, id: CmdId, o: Outcome)
    ensures var t := Mark(s, id, o);
      t == s.(outcomes := t.outcomes) && (t.outcomes == s.outcomes || t.outcomes == s.outcomes[id := o])
  {
  }

  lemma MarkKeepsCommands(s: State, t: State, id: CmdId, o: Outcome)
    requires CommandsOk(s) && t == s.(outcomes := t.outcomes)
            && (t.outcomes == s.outcomes || t.outcomes == s.outcomes[id := o])
    requires o.Failed? || id !in s.commands || CarriedOut(s, s.commands[id])
    ensures CommandsOk(t)
  {
    hide CommandHolds, CarriedOutIn;
  }

  lemma ShuttingDownKeepsInv(s: State)
    requires Inv(s)
    ensures Inv(s.(shuttingDown := true))
  {
    hide SlotOk;
  }

  // ------------------------------------------------------------------ reconcile

  lemma EnsuredKeepsInv(s: State, p: Profile)
    requires Inv(s)
    ensures Inv(Ensured(s, p))
  {
    if p.name !in s.slots {
      var t := Ensured(s, p);
      NewSlotKeepsSlots(s, p);
      hide SlotsAgree, FramesHold, CommandsOk, CommandHolds, CarriedOutIn;
      assert KeepsProcesses(s, t) && KeepsCommands(s, t);
      KeepsCommandsOk(s, t);
      KeepsProcessesOk(s, t);
    }
  }

  lemma NewSlotKeepsSlots(s: State, p: Profile)
    requires SlotsOk(s) && FramesOk(s) && p.name !in s.slots
    ensures SlotsOk(Ensured(s, p)) && FramesOk(Ensured(s, p))
  {
    var t := Ensured(s, p);
    assert SlotOk(p.name, t.slots[p.name]);
    hide SlotOk;
    forall m, n | m in t.slots && n in t.slots && m != n ensures t.slots[m].uid != t.slots[n].uid {
      if m in s.slots && n in s.slots { assert s.slots[m].uid != s.slots[n].uid; }
    }
  }

  lemma RefreshedOk(sl: Slot, p: Profile, now: int)
    requires SlotOk(p.name, sl)
    ensures var r := Refreshed(sl, p, now);
      SlotOk(p.name, r) && r.uid == sl.uid && r.child == sl.child && r.draining == sl.draining && r.profile == p
  {
  }

  lemma SettleSlotOk(n: Name, sl: Slot, stopTimeoutMs: int, now: int)
    requires SlotOk(n, sl)
    ensures var d := SettleSlot(sl, stopTimeoutMs, now);
      SlotOk(n, d) && d.uid == sl.uid && d.child == sl.child && d.profile == sl.profile
  {
  }

  lemma ReconcileOneKeepsInv(s: State, p: Profile, now: int)
    requires Inv(s)
    ensures Inv(ReconcileOne(s, p, now))
  {
    EnsuredKeepsInv(s, p);
    var e := Ensured(s, p);
    RefreshedOk(e.slots[p.name], p, now);
    var sl := Refreshed(e.slots[p.name], p, now);
    SettleSlotOk(p.name, sl, s.cfg.stopTimeoutMs, now);
    hide SlotOk, Refreshed, SettleSlot, SettleSignals, Quiet, ProcessesAgree, FramesHold, CommandsOk;
    if Starts(sl, s.shuttingDown, now) {
      SpawnKeepsInv(e, sl, now);
    } else {
      WithSlotQuiet(e, SettleSlot(sl, s.cfg.stopTimeoutMs, now));
      QuietThenSignals(e, WithSlot(e, SettleSlot(sl, s.cfg.stopTimeoutMs, now)), SettleSignals(sl, now));
      QuietKeepsInv(e, ReconcileOne(s, p, now));
    }
  }

  lemma DrainOneQuiet(s: State, sl: Slot, mode: Mode, timeoutMs: int, now: int)
    requires SlotsOk(s) && sl.profile.name in s.slots && SlotOk(sl.profile.name, sl)
    requires sl.uid == s.slots[sl.profile.name].uid && sl.child == s.slots[sl.profile.name].child
    ensures Quiet(s, WithSignals(WithSlot(s, BeginDrain(sl, mode, timeoutMs, now)), DrainSignals(sl, mode, now)))
  {
    BeginDrainOk(sl.profile.name, sl, mode, timeoutMs, now);
    hide SlotOk, DrainSignals;
    WithSlotQuiet(s, BeginDrain(sl, mode, timeoutMs, now));
    QuietThenSignals(s, WithSlot(s, BeginDrain(sl, mode, timeoutMs, now)), DrainSignals(sl, mode, now));
  }

  lemma ReconcileOneKeepsRest(s: State, p: Profile, now: int)
    ensures var t := ReconcileOne(s, p, now);
      t.stops == s.stops && t.starts == s.starts && t.shuttingDown == s.shuttingDown && t.cfg == s.cfg
  {
    hide Ensured, Refreshed, SettleSlot, SettleSignals, SpawnSlot, Starts;
    EnsuredKeepsRest(s, p);
    var e := Ensured(s, p);
    var sl := Refreshed(e.slots[p.name], p, now);
    if Starts(sl, s.shuttingDown, now) {
      assert ReconcileOne(s, p, now) == Spawn(e, sl, now);
    } else {
      assert ReconcileOne(s, p, now) == WithSignals(WithSlot(e, SettleSlot(sl, s.cfg.stopTimeoutMs, now)), SettleSignals(sl, now));
    }
  }

  lemma EnsuredKeepsRest(s: State, p: Profile)
    ensures var t := Ensured(s, p);
      && p.name in t.slots && t.slots[p.name].profile.name == (if p.name in s.slots then s.slots[p.name].profile.name else p.name)
      && t.stops == s.stops && t.starts == s.starts && t.shuttingDown == s.shuttingDown && t.cfg == s.cfg && t.os == s.os
  {
  }

  lemma {:induction false} ReconcileListKeepsInv(s: State, ps: seq<Profile>, now: int)
    requires Inv(s)
    ensures Inv(ReconcileList(s, ps, now))
    ensures var t := ReconcileList(s, ps, now);
      t.stops == s.stops && t.starts == s.starts && t.shuttingDown == s.shuttingDown && t.cfg == s.cfg
  {
    hide Inv, ReconcileOne;
    if ps != [] {
      var t := ReconcileList(s, ps[..|ps| - 1], now);
      ReconcileListKeepsInv(s, ps[..|ps| - 1], now);
      ReconcileOneKeepsInv(t, ps[|ps| - 1], now);
      ReconcileOneKeepsRest(t, ps[|ps| - 1], now);
    }
  }

  function Unseen(s: State, seen: set<Name>): set<Name> {
    set n | n in s.slots && n !in seen && s.slots[n].child.Some? && !s.slots[n].draining
  }

  lemma SweepKeepsInv(s: State, seen: set<Name>, now: int)
    requires Inv(s) && (s.shuttingDown || (s.stops == map[] && s.starts == map[]))
    ensures Inv(Sweep(s, seen, now))
  {
    var d := DrainNames(s, Unseen(s, seen), Safe, s.cfg.stopTimeoutMs, now);
    DrainNamesQuiet(s, Unseen(s, seen), Safe, s.cfg.stopTimeoutMs, now);
    QuietKeepsInv(s, d);
    hide SlotOk, BeginDrain, AllDrainSignals, CommandsOk;
    DropKeepsInv(d, Sweep(s, seen, now));
  }

  /** Dropping slots without a process, while no command waits on a slot or the supervisor is shutting down. */
  lemma DropKeepsInv(s: State, t: State)
    requires Inv(s) && (s.shuttingDown || (s.stops == map[] && s.starts == map[]))
    requires t == s.(slots := t.slots) && t.slots.Keys <= s.slots.Keys
    requires forall n :: n in t.slots ==> t.slots[n] == s.slots[n]
    requires forall n :: n in s.slots && s.slots[n].child.Some? ==> n in t.slots
    ensures Inv(t)
  {
    hide SlotOk, CommandsOk, CommandHolds, CarriedOutIn;
    assert SlotsOk(t) && FramesOk(t);
    assert KeepsProcesses(s, t) && KeepsCommands(s, t);
    KeepsCommandsOk(s, t);
    KeepsProcessesOk(s, t);
  }

  lemma ReconcileKeepsInv(s: State, ps: seq<Profile>, now: int)
    requires Inv(s) && (s.shuttingDown || (s.stops == map[] && s.starts == map[]))
    ensures Inv(Reconcile(s, ps, now))
  {
    hide Inv, Sweep, ReconcileList;
    ReconcileListKeepsInv(s, ps, now);
    SweepKeepsInv(ReconcileList(s, ps, now), NamesOf(ps), now);
  }

  // ------------------------------------------------------------------ exits

  lemma ExitSlotOk(n: Name, sl: Slot, code: Option<int>, now: int, cfg: Config)
    requires SlotOk(n, sl) && sl.child.Some?
    ensures SlotOk(n, ExitSlot(sl, code, now, cfg)) && ExitSlot(sl, code, now, cfg).uid == sl.uid
    ensures ExitSlot(sl, code, now, cfg).child.None? && ExitSlot(sl, code, now, cfg).profile == sl.profile
  {
  }

  lemma ExitKeepsInv(s: State, proc: Proc, code: Option<int>, now: int)
    requires Inv(s) && proc in s.os.live
    ensures Inv(ChildExits(s, proc, code, now))
  {
    var t, name := ChildExits(s, proc, code, now), s.os.born[proc];
    ExitSlotOk(name, s.slots[name], code, now, s.cfg);
    ExitKeepsProcesses(s, proc, code, now);
    hide SlotOk, ExitSlot, CommandHolds, CarriedOutIn;
    assert KeepsSlots(s, t);
    assert forall n :: n in t.slots ==> SlotOk(n, t.slots[n]);
    hide CommandsOk;
    KeepsSlotsOk(s, t);
    forall a: Active
      ensures CommandOk(s, a) ==> CommandOk(t, a)
      ensures CarriedOut(s, a) ==> CarriedOut(t, a)
    {
      ExitKeepsCommand(s, t, a, proc);
    }
    CommandsFollow(s, t);
  }

  lemma ExitKeepsProcesses(s: State, proc: Proc, code: Option<int>, now: int)
    requires ProcessesOk(s) && SlotsOk(s) && proc in s.os.live
    ensures ProcessesOk(ChildExits(s, proc, code, now))
  {
    var t, name := ChildExits(s, proc, code, now), s.os.born[proc];
    ExitSlotOk(name, s.slots[name], code, now, s.cfg);
    assert s.slots[name].profile.name == name;
    hide SlotOk, ExitSlot;
    assert t.slots[name].child.None?;
    forall n | n in t.slots && t.slots[n].child.Some?
      ensures t.slots[n].child.value in t.os.live && BornAs(t.os, t.slots[n].child.value, n)
    {
      assert n != name;
    }
  }

  lemma ExitKeepsCommand(s: State, t: State, a: Active, proc: Proc)
    requires t.os == s.os.(live := s.os.live - {proc}) && t.shuttingDown == s.shuttingDown
    ensures CommandOk(s, a) ==> CommandOk(t, a)
    ensures CarriedOut(s, a) ==> CarriedOut(t, a)
  {
    if CarriedOut(s, a) && a.kind.Restart? {
      forall n | n in a.targets ensures SpawnedSince(t.os, n, a.since) {
        assert SpawnedSince(s.os, n, a.since);
        var p: Proc :| a.since <= p < s.os.next && BornAs(s.os, p, n);
        assert BornAs(t.os, p, n);
      }
    }
  }

  // ------------------------------------------------------------------ commands

  /** A new command's targets are the children of their slots; for the whole supervisor, all of them. */
  lemma ActivateKeepsInv(s: State, id: CmdId, a: Active)
    requires Inv(s) && FreshCommand(s, id) && a.since == s.os.next
    requires forall n :: n in a.targets ==> n in s.slots && s.slots[n].child == Some(a.targets[n])
    requires a.kind.WholeSupervisor? ==> s.shuttingDown && forall n :: n in s.slots && s.slots[n].child.Some? ==> n in a.targets
    ensures Inv(Activate(s, id, a))
  {
    var t := Activate(s, id, a);
    hide SlotOk, ProcessesAgree, SlotsAgree, FramesHold, CommandHolds, CarriedOutIn;
    TargetsAreChildren(s, a);
    SameOs(s, t);
    SameSlots(s, t);
  }

  lemma TargetsAreChildren(s: State, a: Active)
    requires ProcessesOk(s) && a.since == s.os.next
    requires forall n :: n in a.targets ==> n in s.slots && s.slots[n].child == Some(a.targets[n])
    requires a.kind.WholeSupervisor? ==> s.shuttingDown && forall n :: n in s.slots && s.slots[n].child.Some? ==> n in a.targets
    ensures CommandOk(s, a)
  {
  }

  lemma DrainThenActivate(s: State, id: CmdId, sl: Slot, kind: Kind, mode: Mode, timeoutMs: int, now: int)
    requires Inv(s) && FreshCommand(s, id) && !kind.WholeSupervisor?
    requires sl.profile.name in s.slots && SlotOk(sl.profile.name, sl)
    requires sl.uid == s.slots[sl.profile.name].uid && sl.child == s.slots[sl.profile.name].child && sl.child.Some?
    ensures Inv(Activate(WithSignals(WithSlot(s, BeginDrain(sl, mode, timeoutMs, now)), DrainSignals(sl, mode, now)),
                         id, Active(kind, map[sl.profile.name := sl.child.value], s.os.next, false)))
  {
    var d := WithSignals(WithSlot(s, BeginDrain(sl, mode, timeoutMs, now)), DrainSignals(sl, mode, now));
    DrainOneQuiet(s, sl, mode, timeoutMs, now);
    BeginDrainOk(sl.profile.name, sl, mode, timeoutMs, now);
    QuietKeepsInv(s, d);
    hide Inv, Quiet, SlotOk, BeginDrain, DrainSignals;
    ActivateKeepsInv(d, id, Active(kind, map[sl.profile.name := sl.child.value], s.os.next, false));
  }

  lemma SlotOfName(s: State, n: Name)
    requires Inv(s) && n in s.slots
    ensures SlotOk(n, s.slots[n]) && s.slots[n].profile.name == n
  {
  }

  lemma RestartProfileKeepsInv(s: State, c: Command, found: Option<Name>, now: int)
    requires Inv(s) && FreshCommand(s, c.id)
    ensures Inv(RestartProfile(s, c, found, now))
  {
    if found.None? || found.value !in s.slots || !s.slots[found.value].profile.enabled {
      MarkKeepsInv(s, c.id, Failed);
    } else {
      SlotOfName(s, found.value);
      var sl := s.slots[found.value];
      if sl.child.None? {
        var ready := sl.(backoffUntil := None);
        assert SlotOk(found.value, ready);
        hide SlotOk, Quiet, ProcessesAgree, FramesHold, CommandsOk, SpawnSlot;
        if s.shuttingDown {
          WithSlotQuiet(s, ready);
          QuietKeepsInv(s, WithSlot(s, ready));
          MarkKeepsInv(WithSlot(s, ready), c.id, Done);
        } else {
          SpawnKeepsInv(s, ready, now);
          MarkKeepsInv(Spawn(s, ready, now), c.id, Done);
        }
      } else {
        hide Inv, SlotOk, BeginDrain, DrainSignals;
        DrainThenActivate(s, c.id, sl, Restart, c.mode, c.timeoutMs, now);
      }
    }
  }

  /** Waiting commands may be added, each holding a slot of the table, or removed. */
  lemma FramesChange(s: State, t: State)
    requires Inv(s) && t == s.(stops := t.stops, starts := t.starts) && FramesOk(t) && IdsOk(t)
    ensures Inv(t)
  {
    hide ProcessesAgree, SlotsAgree, FramesHold, CommandHolds, CarriedOutIn, IdsOk;
  }

  lemma BeginStopKeepsInv(s: State, c: Command, found: Option<Name>, now: int)
    requires Inv(s) && FreshCommand(s, c.id)
    ensures Inv(BeginStop(s, c, found, now))
  {
    hide ProcessesAgree, CommandsOk, SlotOk;
    if found.None? || found.value !in s.slots {
      MarkKeepsInv(s, c.id, Failed);
    } else {
      FramesChange(s, BeginStop(s, c, found, now));
    }
  }

  lemma BeginStartKeepsInv(s: State, c: Command, found: Option<Name>, now: int)
    requires Inv(s) && FreshCommand(s, c.id)
    ensures Inv(BeginStart(s, c, found, now))
  {
    hide ProcessesAgree, CommandsOk, SlotOk;
    if found.None? || found.value !in s.slots {
      MarkKeepsInv(s, c.id, Failed);
    } else {
      FramesChange(s, BeginStart(s, c, found, now));
    }
  }

  lemma FewerFramesKeepInv(s: State, t: State)
    requires Inv(s) && t == s.(stops := t.stops, starts := t.starts)
    requires forall id :: id in t.stops ==> id in s.stops && t.stops[id] == s.stops[id]
    requires forall id :: id in t.starts ==> id in s.starts && t.starts[id] == s.starts[id]
    ensures Inv(t)
  {
    hide ProcessesAgree, CommandsOk, SlotsAgree;
    FramesChange(s, t);
  }

  lemma ResumeStopKeepsInv(s: State, id: CmdId)
    requires Inv(s) && id in s.stops
    ensures Inv(ResumeStop(s, id))
  {
    var f := s.stops[id];
    var r := s.(stops := s.stops - {id});
    FewerFramesKeepInv(s, r);
    if !Attached(s, f) {
      MarkKeepsInv(r, id, Done);
    } else {
      SlotOfName(s, f.name);
      var sl := s.slots[f.name].(profile := s.slots[f.name].profile.(enabled := false));
      assert SlotOk(f.name, sl);
      if sl.child.None? {
        hide SlotOk, Quiet, ProcessesAgree, FramesHold, CommandsOk;
        WithSlotQuiet(r, sl);
        QuietKeepsInv(r, WithSlot(r, sl));
        MarkKeepsInv(WithSlot(r, sl), id, Done);
      } else {
        assert FreshCommand(r, id);
        hide Inv, SlotOk, BeginDrain, DrainSignals;
        DrainThenActivate(r, id, sl, Stop, f.command.mode, f.command.timeoutMs, f.now);
      }
    }
  }

  lemma ResumeStartKeepsInv(s: State, id: CmdId)
    requires Inv(s) && id in s.starts
    ensures Inv(ResumeStart(s, id))
  {
    var f := s.starts[id];
    var r := s.(starts := s.starts - {id});
    FewerFramesKeepInv(s, r);
    if !Attached(s, f) {
      MarkKeepsInv(r, id, Done);
    } else {
      SlotOfName(s, f.name);
      var sl := s.slots[f.name].(profile := s.slots[f.name].profile.(enabled := true), backoffUntil := None);
      assert SlotOk(f.name, sl);
      hide SlotOk, Quiet, ProcessesAgree, FramesHold, CommandsOk, SpawnSlot;
      if sl.child.None? && !s.shuttingDown {
        SpawnKeepsInv(r, sl, f.now);
        MarkKeepsInv(Spawn(r, sl, f.now), id, Done);
      } else {
        WithSlotQuiet(r, sl);
        QuietKeepsInv(r, WithSlot(r, sl));
        MarkKeepsInv(WithSlot(r, sl), id, Done);
      }
    }
  }

  lemma ClearBackoffQuiet(s: State, t: State, idle: set<Name>)
    requires SlotsOk(s)
    requires forall n :: n in idle && n in s.slots ==> s.slots[n].child.None?
    requires t == s.(slots := map n | n in s.slots :: if n in idle then s.slots[n].(backoffUntil := None) else s.slots[n])
    ensures Quiet(s, t)
  {
    forall n | n in s.slots
      ensures SlotOk(n, t.slots[n]) && t.slots[n].child == s.slots[n].child && t.slots[n].uid == s.slots[n].uid
    {
      assert SlotOk(n, s.slots[n]);
    }
    hide SlotOk;
  }

  /** Draining some slots and clearing the backoff of others that have no process. */
  lemma DrainAndClearKeepsInv(s: State, hit: set<Name>, idle: set<Name>, mode: Mode, timeoutMs: int, now: int)
    requires Inv(s)
    requires forall n :: n in idle && n in s.slots ==> s.slots[n].child.None?
    ensures var r := DrainAndClear(s, hit, idle, mode, timeoutMs, now);
      && Inv(r) && r == s.(slots := r.slots, os := r.os) && r.os.next == s.os.next && SameChildren(s, r)
  {
    var d, r := DrainNames(s, hit, mode, timeoutMs, now), DrainAndClear(s, hit, idle, mode, timeoutMs, now);
    DrainNamesQuiet(s, hit, mode, timeoutMs, now);
    QuietKeepsInv(s, d);
    ClearBackoffQuiet(d, r, idle);
    QuietKeepsInv(d, r);
    hide SlotOk, BeginDrain, AllDrainSignals, ProcessesAgree, CommandsOk;
  }

  predicate SameChildren(s: State, t: State) {
    t.slots.Keys == s.slots.Keys && forall n :: n in s.slots ==> t.slots[n].child == s.slots[n].child
  }

  lemma RestartAllKeepsInv(s: State, c: Command, now: int)
    requires Inv(s) && FreshCommand(s, c.id)
    ensures Inv(RestartAll(s, c, now))
  {
    hide Inv, DrainAndClear, Mark, Activate;
    var hit, idle := Hit(s), Idle(s);
    DrainAndClearKeepsInv(s, hit, idle, c.mode, c.timeoutMs, now);
    var r := DrainAndClear(s, hit, idle, c.mode, c.timeoutMs, now);
    if hit == {} {
      MarkKeepsInv(r, c.id, Done);
    } else {
      ActivateKeepsInv(r, c.id, Active(Restart, Children(s, hit), s.os.next, false));
    }
  }

  lemma RestartSupervisorKeepsInv(s: State, c: Command, now: int)
    requires Inv(s) && FreshCommand(s, c.id)
    ensures Inv(RestartSupervisor(s, c, now))
  {
    var hit := WithChild(s);
    var u := s.(shuttingDown := true);
    var d := DrainNames(u, hit, c.mode, c.timeoutMs, now);
    ShuttingDownKeepsInv(s);
    DrainNamesQuiet(u, hit, c.mode, c.timeoutMs, now);
    QuietKeepsInv(u, d);
    hide Inv, SlotOk, BeginDrain, AllDrainSignals;
    assert SameChildren(s, d);
    ActivateKeepsInv(d, c.id, Active(WholeSupervisor, Children(s, hit), s.os.next, false));
  }

  /** The finishing check is right: when it passes, the command has been carried out, whatever happened in between. */
  lemma ReachedMeansCarriedOut(s: State, a: Active)
    requires ProcessesOk(s) && CommandOk(s, a) && TargetsReached(s, a)
    ensures CarriedOut(s, a)
    ensures a.kind.WholeSupervisor? ==> s.shuttingDown && s.os.live == {}
  {
    forall n | n in a.targets ensures a.targets[n] !in s.os.live {
      assert BornAs(s.os, a.targets[n], n);
    }
    if a.kind.Restart? {
      forall n | n in a.targets ensures SpawnedSince(s.os, n, a.since) {
        var p := s.slots[n].child.value;
        assert BornAs(s.os, p, n) && p != a.targets[n];
      }
    }
  }

  lemma FinishKeepsInv(s: State, id: CmdId)
    requires Inv(s) && id in s.commands
    ensures Inv(FinishOne(s, id))
  {
    var a := s.commands[id];
    if TargetsReached(s, a) {
      ReachedMeansCarriedOut(s, a);
      var t := s.(active := s.active - {id}, exiting := s.exiting || a.kind.WholeSupervisor?);
      SameSlots(s, t);
      SameOs(s, t);
      hide ProcessesAgree, SlotsAgree, FramesHold, CommandHolds, CarriedOutIn;
      assert Inv(t);
      MarkKeepsInv(t, id, if a.forced then Forced else Done);
    }
  }

  // ------------------------------------------------------------------ every step, every run

  lemma NextKeepsInv(s: State, e: Event)
    requires Inv(s) && Enabled(s, e)
    ensures Inv(Next(s, e))
  {
    match e
    case LoadConfig(cfg) => OnlyConfig(s, s.(cfg := cfg));
    case DoReconcile(ps, now) => ReconcileKeepsInv(s, ps, now);
    case Exit(proc, code, now) => ExitKeepsInv(s, proc, code, now);
    case Enforce(now) => EnforceQuiet(s, now); QuietKeepsInv(s, EnforceDeadlines(s, now));
    case Shutdown(timeoutMs, now) =>
      ShuttingDownKeepsInv(s);
      var u := s.(shuttingDown := true);
      DrainNamesQuiet(u, WithChild(s), Safe, timeoutMs, now);
      QuietKeepsInv(u, BeginShutdown(s, timeoutMs, now));
    case CmdRestart(c, found, now) => RestartProfileKeepsInv(s, c, found, now);
    case CmdStop(c, found, now) => BeginStopKeepsInv(s, c, found, now);
    case CmdStart(c, found, now) => BeginStartKeepsInv(s, c, found, now);
    case StopWritten(id) => ResumeStopKeepsInv(s, id);
    case StartWritten(id) => ResumeStartKeepsInv(s, id);
    case CmdRestartAll(c, now) => RestartAllKeepsInv(s, c, now);
    case CmdRestartSupervisor(c, now) => RestartSupervisorKeepsInv(s, c, now);
    case CmdError(id) =>
      var r := s.(stops := s.stops - {id}, starts := s.starts - {id});
      FewerFramesKeepInv(s, r);
      MarkKeepsInv(r, id, Failed);
    case Finish(id) => FinishKeepsInv(s, id);
    case ExitProcess => OnlyExited(s);
  }

  lemma OnlyConfig(s: State, t: State)
    requires Inv(s) && t == s.(cfg := t.cfg)
    ensures Inv(t)
  {
    SameSlots(s, t);
    SameOs(s, t);
    hide ProcessesAgree, SlotsAgree, FramesHold, CommandHolds, CarriedOutIn;
  }

  lemma OnlyExited(s: State)
    requires Inv(s) && s.exiting
    ensures Inv(s.(exited := true))
  {
    SameSlots(s, s.(exited := true));
    SameOs(s, s.(exited := true));
    hide ProcessesAgree, SlotsAgree, FramesHold, CommandHolds, CarriedOutIn;
  }

  /** Every run from the start, in any interleaving, keeps the invariant. */
  lemma {:induction false} RunKeepsInv(s: State, es: seq<Event>)
    requires Inv(s) && Feasible(s, es)
    ensures Inv(Run(s, es))
    decreases |es|
  {
    hide Inv, Next, Enabled;
    if es != [] {
      NextKeepsInv(s, es[0]);
      RunKeepsInv(Next(s, es[0]), es[1..]);
    }
  }

  /** The last step of a run, which follows the run without it. */
  lemma {:induction false} LastStep(s: State, es: seq<Event>)
    requires Feasible(s, es) && es != []
    ensures var m := |es| - 1;
      Feasible(s, es[..m]) && Enabled(Run(s, es[..m]), es[m]) && Run(s, es) == Next(Run(s, es[..m]), es[m])
    decreases |es|
  {
    hide Next, Enabled;
    var m := |es| - 1;
    if m == 0 {
      assert es[1..] == [];
    } else {
      LastStep(Next(s, es[0]), es[1..]);
      assert es[1..][..m - 1] == es[..m][1..] && es[..m][0] == es[0] && es[1..][m - 1] == es[m];
    }
  }

  lemma InitialInv()
    ensures Inv(INITIAL)
  {
  }

  /**
   * In every run: the live processes are exactly the children of the slots, at most one per profile name, and the
   * fields of every slot agree.
   */
  lemma ProcessesAreChildren(es: seq<Event>)
    requires Feasible(INITIAL, es)
    ensures var s := Run(INITIAL, es);
      && s.os.live == (set n | n in s.slots && s.slots[n].child.Some? :: s.slots[n].child.value)
      && (forall p: Proc, q: Proc :: p in s.os.live && q in s.os.live && p != q ==>
            p in s.os.born && q in s.os.born && s.os.born[p] != s.os.born[q])
      && (forall n :: n in s.slots ==> SlotOk(n, s.slots[n]))
  {
    hide Feasible, Run, SlotOk, CommandsOk, FramesHold;
    InitialInv();
    RunKeepsInv(INITIAL, es);
    var s := Run(INITIAL, es);
    var children := set n | n in s.slots && s.slots[n].child.Some? :: s.slots[n].child.value;
    forall p: Proc | p in s.os.live ensures p in children {
      assert s.slots[s.os.born[p]].child.value == p;
    }
    assert children == s.os.live;
  }

  /**
   * In every run: a command marked DONE or FORCED was carried out. Each process it had to replace or stop has exited,
   * and a restart has spawned a newer process of every target's profile after the command started.
   */
  lemma CommandsAreCarriedOut(es: seq<Event>, id: CmdId)
    requires Feasible(INITIAL, es)
    requires var s := Run(INITIAL, es);
      id in s.commands && id in s.outcomes && (s.outcomes[id].Done? || s.outcomes[id].Forced?)
    ensures CarriedOut(Run(INITIAL, es), Run(INITIAL, es).commands[id])
  {
    hide Feasible, Run, CarriedOutIn, CommandHolds;
    InitialInv();
    RunKeepsInv(INITIAL, es);
  }

  /** The supervisor leaves with exit(0) only when no worker it ever spawned is still alive. */
  lemma ExitsWithoutWorkers(es: seq<Event>)
    requires Feasible(INITIAL, es) && Run(INITIAL, es).exited
    ensures Run(INITIAL, es).os.live == {} && Run(INITIAL, es).shuttingDown
  {
    hide Feasible, Run, CarriedOutIn, CommandHolds;
    InitialInv();
    RunKeepsInv(INITIAL, es);
  }

  // ------------------------------------------------------------------ nothing is spawned after shutdown

  lemma {:induction false} ReconcileListSpawnsNothing(s: State, ps: seq<Profile>, now: int)
    requires s.shuttingDown
    ensures ReconcileList(s, ps, now).os.next == s.os.next && ReconcileList(s, ps, now).shuttingDown
  {
    hide Refreshed, SettleSlot, SettleSignals;
    if ps != [] { ReconcileListSpawnsNothing(s, ps[..|ps| - 1], now); }
  }

  lemma ReconcileSpawnsNothing(s: State, ps: seq<Profile>, now: int)
    requires s.shuttingDown
    ensures Reconcile(s, ps, now).os.next == s.os.next && Reconcile(s, ps, now).shuttingDown
  {
    hide ReconcileList, BeginDrain, AllDrainSignals, NamesOf;
    ReconcileListSpawnsNothing(s, ps, now);
  }

  /** No process is spawned, and the supervisor keeps shutting down. */
  predicate SpawnsNothing(s: State, t: State) {
    t.os.next == s.os.next && t.shuttingDown
  }

  lemma RestartProfileSpawnsNothing(s: State, c: Command, found: Option<Name>, now: int)
    requires s.shuttingDown
    ensures SpawnsNothing(s, RestartProfile(s, c, found, now))
  {
    hide BeginDrain, DrainSignals, WithSlot, WithSignals;
    if found.Some? && found.value in s.slots && s.slots[found.value].profile.enabled {
      var sl := s.slots[found.value];
      WithSlotKeepsOs(s, sl.(backoffUntil := None));
      WithSlotKeepsOs(s, BeginDrain(sl, c.mode, c.timeoutMs, now));
      WithSignalsKeepsProcesses(WithSlot(s, BeginDrain(sl, c.mode, c.timeoutMs, now)), DrainSignals(sl, c.mode, now));
    }
  }

  lemma WithSlotKeepsOs(s: State, sl: Slot)
    ensures WithSlot(s, sl).os == s.os && WithSlot(s, sl).shuttingDown == s.shuttingDown
  {
  }

  lemma WithSignalsKeepsProcesses(s: State, more: set<Signal>)
    ensures var t := WithSignals(s, more);
      t.os == s.os.(signals := t.os.signals) && t.shuttingDown == s.shuttingDown
  {
  }

  lemma RestartAllSpawnsNothing(s: State, c: Command, now: int)
    requires s.shuttingDown
    ensures SpawnsNothing(s, RestartAll(s, c, now))
  {
    hide BeginDrain, AllDrainSignals, Children;
  }

  lemma RestartSupervisorSpawnsNothing(s: State, c: Command, now: int)
    requires s.shuttingDown
    ensures SpawnsNothing(s, RestartSupervisor(s, c, now))
  {
    hide BeginDrain, AllDrainSignals, WithChild, Children;
  }

  lemma ResumeStopSpawnsNothing(s: State, id: CmdId)
    requires s.shuttingDown && id in s.stops
    ensures SpawnsNothing(s, ResumeStop(s, id))
  {
    hide BeginDrain, DrainSignals;
  }

  lemma ResumeStartSpawnsNothing(s: State, id: CmdId)
    requires s.shuttingDown && id in s.starts
    ensures SpawnsNothing(s, ResumeStart(s, id))
  {
    hide SpawnSlot;
  }

  lemma BeginStopSpawnsNothing(s: State, c: Command, found: Option<Name>, now: int)
    requires s.shuttingDown
    ensures SpawnsNothing(s, BeginStop(s, c, found, now))
  {
  }

  lemma BeginStartSpawnsNothing(s: State, c: Command, found: Option<Name>, now: int)
    requires s.shuttingDown
    ensures SpawnsNothing(s, BeginStart(s, c, found, now))
  {
  }

  lemma FinishSpawnsNothing(s: State, id: CmdId)
    requires s.shuttingDown && id in s.commands
    ensures SpawnsNothing(s, FinishOne(s, id))
  {
    hide TargetsReached;
  }

  lemma NextSpawnsNothing(s: State, e: Event)
    requires s.shuttingDown && Enabled(s, e)
    ensures Next(s, e).os.next == s.os.next && Next(s, e).shuttingDown
  {
    hide Reconcile, RestartProfile, RestartAll, RestartSupervisor, ResumeStop, ResumeStart, AllDrainSignals, BeginDrain,
      ExitSlot, EnforceSlot, EnforceSignals, EnforceCommand, WithChild, TargetsReached, BeginStop, BeginStart, FinishOne;
    match e
    case CmdStop(c, found, now) => BeginStopSpawnsNothing(s, c, found, now);
    case CmdStart(c, found, now) => BeginStartSpawnsNothing(s, c, found, now);
    case Finish(id) => FinishSpawnsNothing(s, id);
    case DoReconcile(ps, now) => ReconcileSpawnsNothing(s, ps, now);
    case CmdRestart(c, found, now) => RestartProfileSpawnsNothing(s, c, found, now);
    case CmdRestartAll(c, now) => RestartAllSpawnsNothing(s, c, now);
    case CmdRestartSupervisor(c, now) => RestartSupervisorSpawnsNothing(s, c, now);
    case StopWritten(id) => ResumeStopSpawnsNothing(s, id);
    case StartWritten(id) => ResumeStartSpawnsNothing(s, id);
    case _ =>
  }

  /** Once the supervisor is shutting down no process is spawned, in any continuation of any run. */
  lemma {:induction false} ShutdownSpawnsNothing(s: State, es: seq<Event>)
    requires s.shuttingDown && Feasible(s, es)
    ensures Run(s, es).os.next == s.os.next && Run(s, es).shuttingDown
    decreases |es|
  {
    hide Next, Enabled;
    if es != [] {
      NextSpawnsNothing(s, es[0]);
      ShutdownSpawnsNothing(Next(s, es[0]), es[1..]);
    }
  }
}
