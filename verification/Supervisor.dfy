/**
 * The supervisor as the program has it (src/supervisor/core.ts): mutable slot records in a map, a table of active
 * commands, loops that update them in place. Every step is proved to be the step of the state machine it abstracts to.
 */
module Supervisor {
  import opened Wrappers
  import M = SupervisorModel
  import L = SupervisorLoops
  import Safety = SupervisorSafety

  class Slot {
    /** The name it was created under, and a number that no other record has. */
    ghost const name: M.Name
    ghost const uid: nat

    var profile: M.Profile
    var child: Option<M.Proc>
    var state: M.SlotState
    var spawned: Option<M.Shape>
    var startedAt: Option<int>
    var spawnCount: nat
    var crashes: nat
    var backoffUntil: Option<int>
    var lastExitCode: Option<int>
    var lastExitAt: Option<int>
    var draining: bool
    var drainDeadline: Option<int>
    var termSent: bool
    var killAt: Option<int>
    var forced: bool

    ghost function View(): M.Slot
      reads this
    {
      M.Slot(uid, profile, child, state, spawned, startedAt, spawnCount, crashes, backoffUntil, lastExitCode, lastExitAt,
             draining, drainDeadline, termSent, killAt, forced)
    }

    constructor (p: M.Profile, ghost number: nat)
      ensures View() == M.NewSlot(number, p) && name == p.name && uid == number
    {
      name, uid, profile, child, state, spawned, startedAt := p.name, number, p, None, M.Stopped, None, None;
      spawnCount, crashes, backoffUntil, lastExitCode, lastExitAt := 0, 0, None, None, None;
      draining, drainDeadline, termSent, killAt, forced := false, None, false, None, false;
    }

    /** The slot takes the profile as it was just read; a process that has run long enough counts as running. */
    method Refresh(p: M.Profile, now: int)
      modifies this
      ensures View() == M.Refreshed(old(View()), p, now)
      ensures var runs := old(state) == M.Starting && old(child).Some? && old(startedAt).Some?
              && old(startedAt).value + 2_000 <= now;
        View() == old(View()).(profile := p, state := if runs then M.Running else old(state))
    {
      profile := p;
      if state.Starting? && child.Some? && startedAt.Some? && now - startedAt.value >= M.RUNNING_AFTER_MS {
        state := M.Running;
      }
    }

    /** Nothing is about to be done to the process. */
    method ClearDrain()
      modifies this
      ensures View() == old(View()).(draining := false, drainDeadline := None, termSent := false, killAt := None)
    {
      draining := false;
      drainDeadline := None;
      termSent := false;
      killAt := None;
    }

    method Started(proc: M.Proc, now: int)
      modifies this
      ensures View() == M.SpawnSlot(old(View()), proc, now)
      ensures child == Some(proc) && state == M.Starting && startedAt == Some(now) && spawnCount == old(spawnCount) + 1
      ensures spawned == Some(old(profile).shape) && backoffUntil.None? && !draining && drainDeadline.None?
              && !termSent && killAt.None?
      ensures profile == old(profile) && crashes == old(crashes) && forced == old(forced)
    {
      ClearDrain();
      child := Some(proc);
      state := M.Starting;
      startedAt := Some(now);
      backoffUntil := None;
      spawnCount := spawnCount + 1;
      spawned := Some(profile.shape);
    }

    /** The process is gone, with everything that was about to be done to it. */
    method Forget(code: Option<int>, now: int)
      modifies this
      ensures View() == old(View()).(child := None, lastExitCode := code, lastExitAt := Some(now), draining := false,
                                     drainDeadline := None, termSent := false, killAt := None)
    {
      ClearDrain();
      child := None;
      lastExitCode := code;
      lastExitAt := Some(now);
    }

    method Crashed(now: int, uptime: int, backoffMaxMs: int)
      modifies this
      ensures var k := if uptime >= M.STABLE_MS then 1 else old(View()).crashes + 1;
        View() == old(View()).(crashes := k, backoffUntil := Some(now + M.BackoffDelay(k, backoffMaxMs)),
                               state := if k >= M.CRASH_LOOP_AFTER then M.CrashLoop else M.Backoff)
    {
      hide M.BackoffDelay;
      crashes := if uptime >= M.STABLE_MS then 1 else crashes + 1;
      backoffUntil := Some(now + M.BackoffDelay(crashes, backoffMaxMs));
      state := if crashes >= M.CRASH_LOOP_AFTER then M.CrashLoop else M.Backoff;
    }

    /** What the exit of the process means: the end of a drain, a clean exit, or a crash to back off from. */
    method Exited(code: Option<int>, now: int, cfg: M.Config)
      modifies this
      ensures View() == M.ExitSlot(old(View()), code, now, cfg)
      ensures child.None? && lastExitCode == code && lastExitAt == Some(now)
      ensures !draining && drainDeadline.None? && !termSent && killAt.None?
      ensures profile == old(profile) && startedAt == old(startedAt) && spawned == old(spawned)
              && spawnCount == old(spawnCount) && forced == old(forced)
      ensures var uptime := if old(startedAt).None? then 0 else now - old(startedAt).value;
        if old(draining) || (code == Some(0) && uptime >= 5_000) then
          crashes == 0 && state == M.Stopped && backoffUntil == (if old(draining) then None else old(backoffUntil))
        else
          && crashes == (if uptime >= 60_000 then 1 else old(crashes) + 1)
          && state == (if crashes >= 5 then M.CrashLoop else M.Backoff)
          && backoffUntil == Some(now + if 1_000 * M.Pow2(crashes - 1) <= cfg.backoffMaxMs then 1_000 * M.Pow2(crashes - 1) else cfg.backoffMaxMs)
    {
      hide M.BackoffDelay;
      var uptime := if startedAt.None? then 0 else now - startedAt.value;
      var requested := draining;
      assert uptime == M.Uptime(View(), now);
      Forget(code, now);
      if requested {
        crashes := 0;
        backoffUntil := None;
        state := M.Stopped;
      } else if code == Some(0) && uptime >= M.CLEAN_EXIT_MS {
        crashes := 0;
        state := M.Stopped;
      } else {
        Crashed(now, uptime, cfg.backoffMaxMs);
        L.DelayInNumbers(crashes, cfg.backoffMaxMs);
      }
    }

    /** Asks the process to leave: after its current jobs, or at once with SIGTERM. Returns the signals sent. */
    method BeginDrain(mode: M.Mode, timeoutMs: int, now: int) returns (sent: set<M.Signal>)
      modifies this
      ensures View() == M.BeginDrain(old(View()), mode, timeoutMs, now)
      ensures sent == M.DrainSignals(old(View()), mode, now)
      ensures old(child).None? ==> sent == {} && View() == old(View())
      ensures old(child).Some? && mode == M.Immediate ==>
        if old(termSent) then sent == {} && View() == old(View()).(state := M.Draining, draining := true)
        else
          && sent == {M.Signal(old(child).value, M.Term, now)}
          && View() == old(View()).(state := M.Draining, draining := true, termSent := true, killAt := Some(now + 10_000))
      ensures old(child).Some? && mode == M.Safe ==>
        if old(drainDeadline).Some? then sent == {} && View() == old(View()).(state := M.Draining, draining := true)
        else
          && sent == {M.Signal(old(child).value, M.AskDrain, now)}
          && View() == old(View()).(state := M.Draining, draining := true, drainDeadline := Some(now + timeoutMs))
    {
      sent := {};
      if child.None? { return; }
      state := M.Draining;
      draining := true;
      if mode.Immediate? {
        if !termSent {
          sent := {M.Signal(child.value, M.Term, now)};
          termSent := true;
          killAt := Some(now + M.IMMEDIATE_KILL_AFTER_MS);
        }
        return;
      }
      if drainDeadline.None? {
        sent := {M.Signal(child.value, M.AskDrain, now)};
        drainDeadline := Some(now + timeoutMs);
      }
    }

    /** Escalates: SIGTERM once the drain deadline has passed, SIGKILL once that has not helped. */
    method Enforce(now: int) returns (sent: set<M.Signal>, expired: bool)
      modifies this
      ensures View() == M.EnforceSlot(old(View()), now)
      ensures sent == M.EnforceSignals(old(View()), now) && expired == M.DrainExpired(old(View()), now)
      ensures expired <==>
        old(child).Some? && old(draining) && !old(termSent) && old(drainDeadline).Some? && old(drainDeadline).value <= now
      ensures var kills := old(child).Some? && old(draining) && old(termSent) && old(killAt).Some?
              && old(killAt).value <= now;
        if expired then
          && sent == {M.Signal(old(child).value, M.Term, now)}
          && View() == old(View()).(termSent := true, forced := true, killAt := Some(now + 30_000))
        else if kills then
          sent == {M.Signal(old(child).value, M.Kill, now)} && View() == old(View()).(killAt := Some(now + 30_000))
        else sent == {} && View() == old(View())
    {
      sent, expired := {}, false;
      if child.None? || !draining { return; }
      if !termSent && drainDeadline.Some? && now >= drainDeadline.value {
        sent := {M.Signal(child.value, M.Term, now)};
        termSent := true;
        forced := true;
        killAt := Some(now + M.SIGKILL_AFTER_MS);
        expired := true;
      }
      if termSent && killAt.Some? && now >= killAt.value {
        sent := sent + {M.Signal(child.value, M.Kill, now)};
        killAt := Some(now + M.SIGKILL_AFTER_MS);
      }
    }
  }

  /** A command suspended at a database write, with the slot record it looked up. */
  datatype Waiting = Waiting(slot: Slot, command: M.Command, now: int)

  class Supervisor {
    var slots: map<M.Name, Slot>
    var order: seq<M.Name> // the names of the slots, in the order they were added
    var active: map<M.CmdId, M.Active>
    var shuttingDown: bool
    var cfg: M.Config
    var commands: map<M.CmdId, M.Active> // every command that was ever active: suspended loops still hold copies of entries
    ghost var nextUid: nat

    // What the supervisor's dependencies know: processes and signals, the exit callbacks registered on the processes,
    // suspended commands, the final statuses in the command table, and whether exit(0) was called and took effect.
    var os: M.Os
    var handlers: map<M.Proc, Slot>
    var stops: map<M.CmdId, Waiting>
    var starts: map<M.CmdId, Waiting>
    var outcomes: map<M.CmdId, M.Outcome>
    var exiting: bool
    var exited: bool

    ghost function Views(): map<M.Name, M.Slot>
      reads `slots, slots.Values
    {
      map n | n in slots :: slots[n].View()
    }

    ghost function Frames(waiting: map<M.CmdId, Waiting>): map<M.CmdId, M.Frame> {
      map id | id in waiting :: M.Frame(waiting[id].slot.name, waiting[id].slot.uid, waiting[id].command, waiting[id].now)
    }

    /** The state of the model that this object is in. */
    ghost function Abs(): M.State
      reads this, slots.Values
    {
      M.State(Views(), commands, active.Keys, shuttingDown, cfg, nextUid, os, Frames(stops), Frames(starts), outcomes, exiting, exited)
    }

    ghost predicate InTable(sl: Slot)
      reads `slots
    {
      sl.name in slots && slots[sl.name] == sl
    }

    ghost function Held(waiting: map<M.CmdId, Waiting>): set<Slot> {
      set id | id in waiting :: waiting[id].slot
    }

    ghost predicate Valid()
      reads this, slots.Values, Held(stops), Held(starts)
    {
      && SlotsValid() && OrderValid()
      && WaitingValid(stops) && WaitingValid(starts)
      && HandlersValid()
      && active.Keys <= commands.Keys && (forall id :: id in active ==> active[id] == commands[id])
    }

    /** Every record is in the table under its own name. */
    ghost predicate SlotsValid()
      reads `slots, `nextUid, slots.Values
    {
      forall n :: n in slots ==> slots[n].name == n && slots[n].profile.name == n && slots[n].uid < nextUid
    }

    /** The order lists every slot once. */
    ghost predicate OrderValid()
      reads `slots, `order
    {
      Lists(order, slots.Keys)
    }

    /** A waiting command's record is the one in the table, or was dropped from it when it had no process. */
    ghost predicate WaitingValid(waiting: map<M.CmdId, Waiting>)
      reads `slots, `nextUid, Held(waiting)
    {
      forall id :: id in waiting ==> RecordValid(waiting[id].slot)
    }

    ghost predicate RecordValid(sl: Slot)
      reads `slots, `nextUid, sl
    {
      && sl.uid < nextUid
      && (sl.name in slots && slots[sl.name].uid == sl.uid ==> InTable(sl))
      && (InTable(sl) || sl.child.None?)
    }

    /** The exit callback of a live process closes over the record whose process it is. */
    ghost predicate HandlersValid()
      reads `slots, `os, `handlers, slots.Values
    {
      forall p: M.Proc :: p in os.live ==>
        && p in handlers && p in os.born && os.born[p] in slots
        && handlers[p] == slots[os.born[p]] && slots[os.born[p]].child == Some(p) && p < os.next
    }

    constructor ()
      ensures Valid() && Abs() == M.INITIAL
    {
      slots, order, active, shuttingDown, cfg, commands, nextUid := map[], [], map[], false, M.Config(600_000, 60_000), map[], 0;
      os, handlers, stops, starts, outcomes, exiting, exited := M.Os({}, 0, map[], {}), map[], map[], map[], map[], false, false;
      new;
      assert Views() == map[] && Frames(stops) == map[] && Frames(starts) == map[];
    }

    // ---------------------------------------------------------------- one slot

    /** Only one record changed, and it is still under its name. */
    twostate lemma OneChanged(slot: Slot)
      requires old(Valid()) && old(InTable(slot)) && slots == old(slots) && nextUid == old(nextUid)
      requires stops == old(stops) && starts == old(starts)
      requires forall o: Slot {:trigger o.child} {:trigger o.profile} {:trigger o.View()} :: old(allocated(o)) && o != slot ==> unchanged(o)
      requires slot.profile.name == slot.name
      ensures SlotsValid() && WaitingValid(stops) && WaitingValid(starts)
      ensures Views() == old(Views())[slot.name := slot.View()]
    {
      hide HandlersValid, Slot.View;
      forall sl | sl in Held(stops) + Held(starts) ensures RecordValid(sl) {
        assert old(RecordValid(sl));
      }
    }

    /** As long as processes, callbacks and the children of the records stay. */
    twostate lemma HandlersStay(slot: Slot)
      requires old(HandlersValid()) && slots == old(slots) && handlers == old(handlers)
      requires os.live == old(os.live) && os.born == old(os.born) && os.next == old(os.next)
      requires forall o: Slot {:trigger o.child} {:trigger o.profile} {:trigger o.View()} :: old(allocated(o)) && o != slot ==> unchanged(o)
      requires slot.child == old(slot.child)
      ensures HandlersValid()
    {
    }

    /** Drains one slot (beginDrain). */
    method Drain(slot: Slot, mode: M.Mode, timeoutMs: int, now: int)
      requires Valid() && InTable(slot)
      modifies slot, `os
      ensures Valid() && slot.child == old(slot.child) && os.next == old(os.next)
      ensures Abs() == M.WithSignals(M.WithSlot(old(Abs()), M.BeginDrain(old(slot.View()), mode, timeoutMs, now)),
                                     M.DrainSignals(old(slot.View()), mode, now))
    {
      ghost var was := slot.View();
      var sent := slot.BeginDrain(mode, timeoutMs, now);
      os := os.(signals := os.signals + sent);
      Safety.DrainKeepsName(was, mode, timeoutMs, now);
      SameIdentity(slot, was);
      hide Slot.View, M.BeginDrain, M.DrainSignals;
      OneChanged(slot);
      HandlersStay(slot);
      hide Views, SlotsValid, WaitingValid, HandlersValid, Frames;
    }

    lemma SameIdentity(slot: Slot, was: M.Slot)
      requires slot.View().child == was.child && slot.View().profile == was.profile
      ensures slot.child == was.child && slot.profile == was.profile
    {
    }

    /** Starts a process for a slot without one (spawnSlot) and registers its exit callback. */
    method SpawnSlot(slot: Slot, now: int)
      requires Valid() && InTable(slot) && slot.child.None?
      modifies slot, `os, `handlers
      ensures Valid()
      ensures Abs() == M.Spawn(old(Abs()), old(slot.View()), now)
    {
      hide Slot.View, M.SpawnSlot, Lists;
      ghost var was := slot.View();
      ViewParts(slot);
      var proc := os.next;
      os := M.Spawned(os, slot.profile.name);
      slot.Started(proc, now);
      handlers := handlers[proc := slot];
      Safety.SpawnKeepsName(was, proc, now);
      ViewParts(slot);
      SpawnedHandlers(slot);
      OneChanged(slot);
      hide Views, SlotsValid, WaitingValid, HandlersValid, Frames;
    }

    lemma ViewParts(slot: Slot)
      ensures slot.View().child == slot.child && slot.View().profile == slot.profile
    {
    }

    /** The new process is the child of the slot that had none. */
    twostate lemma SpawnedHandlers(slot: Slot)
      requires old(HandlersValid()) && old(SlotsValid()) && old(InTable(slot)) && old(slot.child.None?)
      requires slots == old(slots) && os == M.Spawned(old(os), slot.name)
              && handlers == old(handlers)[old(os.next) := slot]
      requires forall o: Slot {:trigger o.child} {:trigger o.profile} {:trigger o.View()} :: old(allocated(o)) && o != slot ==> unchanged(o)
      requires slot.child == Some(old(os.next))
      ensures HandlersValid()
    {
    }

    twostate lemma SlotAdded(new slot: Slot)
      requires old(Valid()) && fresh(slot) && slot.name !in old(slots) && slots == old(slots)[slot.name := slot]
      requires slot.uid == old(nextUid) && nextUid == old(nextUid) + 1 && slot.profile.name == slot.name
      requires stops == old(stops) && starts == old(starts) && os == old(os) && handlers == old(handlers)
      requires forall o: Slot {:trigger o.child} {:trigger o.profile} {:trigger o.View()} :: old(allocated(o)) ==> unchanged(o)
      ensures SlotsValid() && WaitingValid(stops) && WaitingValid(starts) && HandlersValid()
      ensures Views() == old(Views())[slot.name := slot.View()]
    {
      hide Slot.View;
      forall sl | sl in Held(stops) + Held(starts) ensures RecordValid(sl) {
        assert old(RecordValid(sl));
      }
    }

    method CreateSlot(p: M.Profile) returns (slot: Slot)
      requires Valid() && p.name !in slots
      modifies `slots, `order, `nextUid
      ensures Valid() && fresh(slot) && slot.name == p.name && slots == old(slots)[p.name := slot]
      ensures slot.View() == M.NewSlot(old(nextUid), p)
      ensures Abs() == M.Ensured(old(Abs()), p)
    {
      NamesMatch();
      hide Slot.View, Lists, Frames, Views, SlotsValid, WaitingValid, HandlersValid;
      slot := new Slot(p, nextUid);
      slots := slots[p.name := slot];
      order := order + [p.name];
      nextUid := nextUid + 1;
      FreshProfile(slot, old(nextUid), p);
      SlotAdded(slot);
      OneMoreListed(old(order), old(slots.Keys), p.name);
      assert slots.Keys == old(slots.Keys) + {p.name};
    }

    lemma FreshProfile(slot: Slot, number: nat, p: M.Profile)
      requires slot.View() == M.NewSlot(number, p)
      ensures slot.profile == p
    {
      assert slot.profile == slot.View().profile;
    }

    /** The slot of a profile, created when it is missing. */
    method EnsureSlot(p: M.Profile) returns (slot: Slot)
      requires Valid()
      modifies `slots, `order, `nextUid
      ensures Valid() && Abs() == M.Ensured(old(Abs()), p) && InTable(slot) && slot.name == p.name
      ensures slot.View() == Abs().slots[p.name] && unchanged(`os) && unchanged(`shuttingDown) && unchanged(`cfg)
      ensures if p.name in old(slots) then slot == old(slots)[p.name] && slots == old(slots)
              else fresh(slot) && slots == old(slots)[p.name := slot]
    {
      if p.name in slots {
        slot := slots[p.name];
      } else {
        slot := CreateSlot(p);
      }
    }

    method RefreshSlot(slot: Slot, p: M.Profile, now: int)
      requires Valid() && InTable(slot) && slot.name == p.name
      modifies slot
      ensures Valid() && slot.View() == M.Refreshed(old(slot.View()), p, now) && slot.profile == p
      ensures Abs() == M.WithSlot(old(Abs()), M.Refreshed(old(slot.View()), p, now))
    {
      ghost var was := slot.View();
      slot.Refresh(p, now);
      assert slot.View().child == was.child && slot.View().profile == p;
      SameIdentity(slot, was.(profile := p));
      hide Slot.View, M.Refreshed;
      OneChanged(slot);
      HandlersStay(slot);
      hide Views, SlotsValid, WaitingValid, HandlersValid, Frames;
    }

    /** A slot that should not run and has no process. */
    method StopSlot(slot: Slot)
      requires Valid() && InTable(slot)
      modifies slot
      ensures Valid() && Abs() == M.WithSlot(old(Abs()), old(slot.View()).(state := M.Stopped))
    {
      ghost var was := slot.View();
      slot.state := M.Stopped;
      assert slot.View() == was.(state := M.Stopped);
      hide Slot.View;
      OneChanged(slot);
      HandlersStay(slot);
      hide Views, SlotsValid, WaitingValid, HandlersValid, Frames;
    }

    // ---------------------------------------------------------------- reconcile

    /** A disabled slot is drained; without a process it is stopped. */
    method SettleDisabled(slot: Slot, now: int)
      requires Valid() && InTable(slot) && !slot.profile.enabled
      modifies slot, `os
      ensures Valid()
      ensures Abs() == M.WithSignals(M.WithSlot(old(Abs()), M.SettleSlot(old(slot.View()), cfg.stopTimeoutMs, now)),
                                     M.SettleSignals(old(slot.View()), now))
    {
      if slot.child.Some? && !slot.draining { Drain(slot, M.Safe, cfg.stopTimeoutMs, now); }
      if slot.child.None? { StopSlot(slot); }
    }

    /** An enabled slot without a process gets one, unless the supervisor shuts down or the slot backs off. */
    method StartIfWanted(slot: Slot, now: int)
      requires Valid() && InTable(slot) && slot.profile.enabled
      modifies slot, `os, `handlers
      ensures Valid()
      ensures Abs() == if M.Starts(old(slot.View()), shuttingDown, now) then M.Spawn(old(Abs()), old(slot.View()), now) else old(Abs())
    {
      if slot.child.Some? || shuttingDown { return; }
      if slot.backoffUntil.Some? && now < slot.backoffUntil.value { return; }
      SpawnSlot(slot, now);
    }

    /** The slot of a profile, created when missing, with the profile as it was just read. */
    method TakeProfile(p: M.Profile, now: int) returns (slot: Slot)
      requires Valid()
      modifies `slots, `order, `nextUid, slots.Values
      ensures Valid() && InTable(slot) && slot.name == p.name && slot.profile == p
      ensures (slot in old(slots.Values) && slots == old(slots)) || (fresh(slot) && slots == old(slots)[p.name := slot])
      ensures var e := M.Ensured(old(Abs()), p);
        slot.View() == M.Refreshed(e.slots[p.name], p, now) && Abs() == M.WithSlot(e, M.Refreshed(e.slots[p.name], p, now))
    {
      slot := EnsureSlot(p);
      RefreshSlot(slot, p, now);
    }

    /** Starts, drains or stops the slot of a profile, as its profile asks. */
    method ApplyProfile(slot: Slot, now: int)
      requires Valid() && InTable(slot)
      modifies slot, `os, `handlers
      ensures Valid() && Abs() == L.Applied(old(Abs()), old(slot.View()), now)
    {
      hide M.Starts, M.Spawn, M.SettleSlot, M.SettleSignals;
      if slot.profile.enabled {
        StartIfWanted(slot, now);
      } else {
        SettleDisabled(slot, now);
      }
    }

    /** One round of the loop over the profiles. */
    method ReconcileProfile(p: M.Profile, now: int)
      requires Valid()
      modifies `slots, `order, `nextUid, `os, `handlers, slots.Values
      ensures Valid() && Abs() == M.ReconcileOne(old(Abs()), p, now)
      ensures forall n :: n in slots ==> (n in old(slots) && slots[n] == old(slots[n])) || fresh(slots[n])
    {
      L.ReconcileParts(Abs(), p, now);
      hide *;
      var slot := TakeProfile(p, now);
      ApplyProfile(slot, now);
    }

    /** Removes a record without a process from the table. */
    method DropSlot(slot: Slot)
      requires Valid() && InTable(slot) && slot.child.None?
      modifies `slots, `order
      ensures Valid() && Abs() == old(Abs()).(slots := old(Abs()).slots - {slot.name})
              && slots == old(slots) - {slot.name}
    {
      slots := slots - {slot.profile.name};
      order := Without(order, slot.profile.name);
      hide Slot.View, Without, Lists;
      SlotDropped(slot);
      WithoutLists(old(order), old(slots.Keys), slot.name);
      assert slots.Keys == old(slots.Keys) - {slot.name};
      hide Views, SlotsValid, RecordValid, HandlersValid, Frames;
    }

    twostate lemma SlotDropped(slot: Slot)
      requires old(Valid()) && old(InTable(slot)) && old(slot.child.None?) && slots == old(slots) - {slot.name}
      requires nextUid == old(nextUid) && stops == old(stops) && starts == old(starts) && os == old(os)
              && handlers == old(handlers)
      requires forall o: Slot {:trigger o.child} {:trigger o.profile} {:trigger o.View()} :: old(allocated(o)) ==> unchanged(o)
      ensures SlotsValid() && WaitingValid(stops) && WaitingValid(starts) && HandlersValid()
      ensures Views() == old(Views()) - {slot.name}
    {
      hide Slot.View, Lists;
      assert Views() == old(Views()) - {slot.name};
      forall sl | sl in Held(stops) + Held(starts) ensures RecordValid(sl) {
        assert old(RecordValid(sl));
      }
    }

    /** One deleted profile: drained while it has a process, dropped once it has none. */
    method SweepSlot(slot: Slot, now: int)
      requires Valid() && InTable(slot)
      modifies slot, `os, `slots, `order
      ensures Valid() && Abs() == L.SweptOne(old(Abs()), slot.name, now)
      ensures slots == old(slots) || slots == old(slots) - {slot.name}
    {
      hide M.BeginDrain, M.DrainSignals;
      if slot.child.Some? && !slot.draining { Drain(slot, M.Safe, cfg.stopTimeoutMs, now); }
      if slot.child.None? { DropSlot(slot); }
    }

    /** One round of the sweep, which has passed the slots of `done`. */
    method SweepNext(n: M.Name, seen: set<M.Name>, now: int, ghost s: M.State, ghost done: set<M.Name>,
                     ghost todo: set<M.Name>)
      requires Valid() && n in todo && L.SweepReached(s, seen, done, todo, Abs(), now)
      modifies `os, `slots, `order, slots.Values
      ensures Valid() && L.SweepReached(s, seen, done + {n}, todo - {n}, Abs(), now)
      ensures slots == old(slots) || slots == old(slots) - {n}
    {
      L.SweepStep(s, seen, done, todo, Abs(), n, now);
      Lookup(n);
      hide *;
      if n !in seen { SweepSlot(slots[n], now); }
    }

    /** The loop over the slots of profiles that were not read. */
    method Sweep(seen: set<M.Name>, now: int)
      requires Valid()
      modifies `os, `slots, `order, slots.Values
      ensures Valid() && Abs() == M.Sweep(old(Abs()), seen, now)
    {
      ghost var s, done := Abs(), {};
      var todo := slots.Keys;
      NamesMatch();
      hide *;
      L.SweepBegins(s, seen, now);
      while todo != {}
        invariant Valid() && L.SweepReached(s, seen, done, todo, Abs(), now)
        invariant forall n :: n in slots ==> n in old(slots) && slots[n] == old(slots[n])
        decreases todo
      {
        var n :| n in todo;
        SweepNext(n, seen, now, s, done, todo);
        todo, done := todo - {n}, done + {n};
      }
      L.SweepEnds(s, seen, done, Abs(), now);
    }

    /** The loop over the profiles that were read; collects their names. */
    method ReconcileProfiles(profiles: seq<M.Profile>, now: int) returns (seen: set<M.Name>)
      requires Valid()
      modifies `slots, `order, `nextUid, `os, `handlers, slots.Values
      ensures Valid() && Abs() == M.ReconcileList(old(Abs()), profiles, now) && seen == M.NamesOf(profiles)
      ensures forall n :: n in slots ==> (n in old(slots) && slots[n] == old(slots[n])) || fresh(slots[n])
    {
      ghost var s := Abs();
      seen := {};
      var i := 0;
      L.NoProfile(s, profiles, now);
      hide *;
      while i < |profiles|
        invariant 0 <= i <= |profiles| && Valid()
        invariant Abs() == M.ReconcileList(s, profiles[..i], now) && seen == M.NamesOf(profiles[..i])
        invariant forall n :: n in slots ==> (n in old(slots) && slots[n] == old(slots[n])) || fresh(slots[n])
      {
        L.OneMoreProfile(s, profiles, i, now);
        L.OneMoreName(profiles, i);
        seen := seen + {profiles[i].name};
        ReconcileProfile(profiles[i], now);
        i := i + 1;
      }
      assert profiles[..|profiles|] == profiles;
    }

    method Reconcile(profiles: seq<M.Profile>, now: int)
      requires Valid()
      modifies `slots, `order, `nextUid, `os, `handlers, slots.Values
      ensures Valid() && Abs() == M.Reconcile(old(Abs()), profiles, now)
    {
      var seen := ReconcileProfiles(profiles, now);
      hide M.ReconcileList, M.Sweep, M.NamesOf, Valid, Abs;
      Sweep(seen, now);
    }

    // ---------------------------------------------------------------- exits and deadlines

    /** The exit callback of a process: its record looks at whether it still has that process (onChildExit). */
    method OnChildExit(proc: M.Proc, code: Option<int>, now: int)
      requires Valid() && proc in os.live
      modifies `os, slots.Values
      ensures Valid() && Abs() == M.ChildExits(old(Abs()), proc, code, now)
    {
      var slot := handlers[proc];
      HandlerIsChild(proc);
      L.ExitParts(Abs(), proc, code, now);
      hide *;
      ProcessGone(proc);
      if slot.child == Some(proc) { ExitRecord(slot, code, now); }
    }

    method ProcessGone(proc: M.Proc)
      requires Valid()
      modifies `os
      ensures Valid() && Abs() == old(Abs()).(os := L.Without(old(os), proc)) && os == L.Without(old(os), proc)
      ensures os.live == old(os.live) - {proc} && os.born == old(os.born)
    {
      os := L.Without(os, proc);
      hide Views, SlotsValid, WaitingValid, Frames;
    }

    lemma HandlerIsChild(proc: M.Proc)
      requires Valid() && proc in os.live
      ensures proc in handlers && InTable(handlers[proc]) && handlers[proc].child == Some(proc)
      ensures proc in os.born && os.born[proc] == handlers[proc].name
      ensures forall p: M.Proc :: p in os.live && p != proc ==> p in os.born && os.born[p] != os.born[proc]
      ensures handlers[proc].name in Abs().slots && Abs().slots[handlers[proc].name] == handlers[proc].View()
      ensures handlers[proc].View().child == Some(proc) && Abs().os == os && Abs().cfg == cfg
    {
    }

    method ExitRecord(slot: Slot, code: Option<int>, now: int)
      requires Valid() && InTable(slot)
      requires forall p: M.Proc :: p in os.live ==> p in os.born && os.born[p] != slot.name
      modifies slot
      ensures Valid() && Abs() == M.WithSlot(old(Abs()), M.ExitSlot(old(slot.View()), code, now, cfg))
    {
      ghost var was := slot.View();
      slot.Exited(code, now, cfg);
      Safety.ExitKeepsName(was, code, now, cfg);
      SameIdentity(slot, M.ExitSlot(was, code, now, cfg));
      hide Slot.View, M.ExitSlot;
      OneChanged(slot);
      ExitedHandlers(slot);
      hide Views, SlotsValid, WaitingValid, HandlersValid, Frames;
    }

    /** The live processes are the children of other slots. */
    twostate lemma ExitedHandlers(slot: Slot)
      requires old(HandlersValid()) && old(SlotsValid()) && slots == old(slots) && handlers == old(handlers)
              && os == old(os)
      requires forall p: M.Proc :: p in os.live ==> p in os.born && os.born[p] != slot.name
      requires forall o: Slot {:trigger o.child} {:trigger o.profile} {:trigger o.View()} :: old(allocated(o)) && o != slot ==> unchanged(o)
      ensures HandlersValid()
    {
    }

    /** Marks the active commands that wait for the slot as forced; entries that suspended loops hold are the same ones. */
    method MarkForced(n: M.Name)
      requires active.Keys <= commands.Keys && (forall id :: id in active ==> active[id] == commands[id])
      modifies `active, `commands
      ensures active.Keys == old(active.Keys) && commands == L.ForcedFor(old(commands), old(active.Keys), n)
      ensures active.Keys <= commands.Keys && (forall id :: id in active ==> active[id] == commands[id])
    {
      ghost var was := commands;
      var keys := active.Keys;
      var todo := keys;
      while todo != {}
        invariant todo <= keys == active.Keys && commands.Keys == was.Keys
        invariant forall id :: id in keys ==> active[id] == commands[id]
        invariant forall id :: id in was ==>
          commands[id] == if id in keys && id !in todo && n in was[id].targets then was[id].(forced := true) else was[id]
        decreases todo
      {
        var id :| id in todo;
        var a := active[id];
        if n in a.targets {
          active := active[id := a.(forced := true)];
          commands := commands[id := a.(forced := true)];
        }
        todo := todo - {id};
      }
    }

    method EnforceRecord(slot: Slot, now: int) returns (expired: bool)
      requires Valid() && InTable(slot)
      modifies slot, `os
      ensures Valid() && expired == M.DrainExpired(old(slot.View()), now) && slot.profile == old(slot.profile)
      ensures Abs() == M.WithSignals(M.WithSlot(old(Abs()), M.EnforceSlot(old(slot.View()), now)), M.EnforceSignals(old(slot.View()), now))
    {
      ghost var was := slot.View();
      var sent;
      sent, expired := slot.Enforce(now);
      os := os.(signals := os.signals + sent);
      L.EnforceKeepsName(was, now);
      SameIdentity(slot, was);
      hide Slot.View, M.EnforceSlot, M.EnforceSignals, M.DrainExpired;
      OneChanged(slot);
      HandlersStay(slot);
      hide Views, SlotsValid, WaitingValid, HandlersValid, Frames;
    }

    /** One slot of the loop over deadlines. */
    method EnforceSlot(slot: Slot, now: int)
      requires Valid() && InTable(slot)
      modifies slot, `os, `active, `commands
      ensures Valid() && Abs() == L.EnforceOne(old(Abs()), slot.name, now)
    {
      Lookup(slot.name);
      hide M.EnforceSlot, M.EnforceSignals, M.DrainExpired, L.ForcedFor;
      var expired := EnforceRecord(slot, now);
      if expired { ForceCommands(slot.profile.name); }
    }

    method ForceCommands(n: M.Name)
      requires Valid()
      modifies `active, `commands
      ensures Valid() && Abs() == old(Abs()).(commands := L.ForcedFor(old(Abs()).commands, old(Abs()).active, n))
    {
      hide Views, SlotsValid, RecordValid, HandlersValid, Frames, L.ForcedFor;
      MarkForced(n);
    }

    /** One round of the loop over deadlines, which has passed the slots of `done`. */
    method EnforceNext(n: M.Name, now: int, ghost s: M.State, ghost done: set<M.Name>, ghost todo: set<M.Name>)
      requires Valid() && n in todo && L.EnforceReached(s, done, todo, Abs(), now)
      modifies `os, `active, `commands, slots.Values
      ensures Valid() && L.EnforceReached(s, done + {n}, todo - {n}, Abs(), now)
    {
      L.EnforceStep(s, done, todo, Abs(), n, now);
      Lookup(n);
      hide *;
      EnforceSlot(slots[n], now);
    }

    method EnforceDeadlines(now: int)
      requires Valid()
      modifies `os, `active, `commands, slots.Values
      ensures Valid() && Abs() == M.EnforceDeadlines(old(Abs()), now)
    {
      ghost var s, done := Abs(), {};
      var todo := slots.Keys;
      NamesMatch();
      hide *;
      L.EnforceBegins(s, now);
      while todo != {}
        invariant Valid() && L.EnforceReached(s, done, todo, Abs(), now)
        decreases todo
      {
        var n :| n in todo;
        EnforceNext(n, now, s, done, todo);
        todo, done := todo - {n}, done + {n};
      }
      L.EnforceEnds(s, done, Abs(), now);
    }

    // ---------------------------------------------------------------- shutdown

    /** One round of a loop that drains every slot with a process, which has passed the slots of `done`. */
    method DrainNext(n: M.Name, mode: M.Mode, timeoutMs: int, now: int, targets: map<M.Name, M.Proc>,
                     ghost s: M.State, ghost done: set<M.Name>, ghost todo: set<M.Name>)
      returns (more: map<M.Name, M.Proc>)
      requires Valid() && n in todo && L.DrainReached(s, done, todo, Abs(), targets, mode, timeoutMs, now)
      modifies `os, slots.Values
      ensures Valid() && L.DrainReached(s, done + {n}, todo - {n}, Abs(), more, mode, timeoutMs, now)
    {
      L.DrainStep(s, done, todo, Abs(), targets, n, mode, timeoutMs, now);
      Lookup(n);
      hide M.BeginDrain, M.DrainSignals, L.DrainReached, Valid, Abs, Slot.View;
      more := targets;
      if slots[n].child.Some? {
        more := targets[n := slots[n].child.value];
        Drain(slots[n], mode, timeoutMs, now);
      }
    }

    /** Drains every slot that has a process; returns the processes. */
    method DrainChildren(mode: M.Mode, timeoutMs: int, now: int) returns (targets: map<M.Name, M.Proc>)
      requires Valid()
      modifies `os, slots.Values
      ensures Valid() && Abs() == M.DrainNames(old(Abs()), M.WithChild(old(Abs())), mode, timeoutMs, now)
      ensures targets == M.Children(old(Abs()), M.WithChild(old(Abs())))
    {
      ghost var s, done := Abs(), {};
      var todo := slots.Keys;
      targets := map[];
      NamesMatch();
      hide *;
      L.DrainBegins(s, mode, timeoutMs, now);
      while todo != {}
        invariant Valid() && L.DrainReached(s, done, todo, Abs(), targets, mode, timeoutMs, now)
        decreases todo
      {
        var n :| n in todo;
        targets := DrainNext(n, mode, timeoutMs, now, targets, s, done, todo);
        todo, done := todo - {n}, done + {n};
      }
      L.DrainEnds(s, done, Abs(), targets, mode, timeoutMs, now);
    }

    /** SIGTERM to the supervisor itself: everything is drained and nothing is started any more. */
    method BeginShutdown(timeoutMs: int, now: int)
      requires Valid()
      modifies `shuttingDown, `os, slots.Values
      ensures Valid() && Abs() == M.BeginShutdown(old(Abs()), timeoutMs, now)
    {
      SetShuttingDown();
      hide M.DrainNames;
      var _ := DrainChildren(M.Safe, timeoutMs, now);
    }

    method SetShuttingDown()
      requires Valid()
      modifies `shuttingDown
      ensures Valid() && Abs() == old(Abs()).(shuttingDown := true)
    {
      shuttingDown := true;
    }

    // ---------------------------------------------------------------- commands

    /** A write to the command table; a terminal status is never overwritten. */
    method UpdateCommand(id: M.CmdId, o: M.Outcome)
      requires Valid()
      modifies `outcomes
      ensures Valid() && Abs() == M.Mark(old(Abs()), id, o)
    {
      hide Views, SlotsValid, RecordValid, HandlersValid, Frames;
      if id !in outcomes { outcomes := outcomes[id := o]; }
    }

    /** The command becomes active; `since` tells which processes existed then. */
    method Activate(id: M.CmdId, kind: M.Kind, targets: map<M.Name, M.Proc>)
      requires Valid()
      modifies `active, `commands
      ensures Valid() && Abs() == M.Activate(old(Abs()), id, M.Active(kind, targets, os.next, false))
    {
      hide Views, SlotsValid, RecordValid, HandlersValid, Frames;
      var a := M.Active(kind, targets, os.next, false);
      active := active[id := a];
      commands := commands[id := a];
      assert active.Keys == old(active.Keys) + {id};
    }

    method ClearBackoff(slot: Slot)
      requires Valid() && InTable(slot)
      modifies slot
      ensures Valid() && slot.View() == old(slot.View()).(backoffUntil := None)
      ensures Abs() == M.WithSlot(old(Abs()), old(slot.View()).(backoffUntil := None))
    {
      ghost var was := slot.View();
      slot.backoffUntil := None;
      assert slot.View() == was.(backoffUntil := None);
      hide Slot.View;
      OneChanged(slot);
      HandlersStay(slot);
      hide Views, SlotsValid, WaitingValid, HandlersValid, Frames;
    }

    /** The first record, in the order of the table, whose profile has the id (slotById). */
    method SlotById(id: Option<M.ProfileId>) returns (found: Option<Slot>)
      requires Valid()
      ensures Valid() && Abs() == old(Abs())
      ensures found.Some? ==> InTable(found.value) && L.LooksUp(Abs(), id, Some(found.value.name))
      ensures found.Some? ==> exists i :: FirstWith(id, i) && slots[order[i]] == found.value
      ensures found.None? ==> L.LooksUp(Abs(), id, None)
    {
      hide WaitingValid, HandlersValid, Frames;
      for i := 0 to |order|
        invariant forall k :: 0 <= k < i ==> order[k] in slots && Some(slots[order[k]].profile.id) != id
      {
        var n := order[i];
        if Some(slots[n].profile.id) == id {
          assert FirstWith(id, i);
          return Some(slots[n]);
        }
      }
      assert forall n :: n in slots ==> n in order;
      return None;
    }

    /** Entry i of the order is the first whose profile has the id. */
    ghost predicate FirstWith(id: Option<M.ProfileId>, i: int)
      reads `slots, `order, slots.Values
    {
      && 0 <= i < |order| && order[i] in slots && Some(slots[order[i]].profile.id) == id
      && forall k :: 0 <= k < i ==> order[k] in slots && Some(slots[order[k]].profile.id) != id
    }

    /** RESTART_PROFILE: a stopped or backing-off profile is started now, a running one is drained. */
    method RestartProfile(c: M.Command, profileId: Option<M.ProfileId>, now: int) returns (ghost found: Option<M.Name>)
      requires Valid() && M.FreshCommand(Abs(), c.id)
      modifies `os, `handlers, `active, `commands, `outcomes, slots.Values
      ensures L.LooksUp(old(Abs()), profileId, found)
      ensures Valid() && Abs() == M.RestartProfile(old(Abs()), c, found, now)
    {
      var slot := SlotById(profileId);
      found := if slot.None? then None else Some(slot.value.name);
      if slot.None? || !slot.value.profile.enabled {
        if slot.Some? { Lookup(slot.value.name); }
        UpdateCommand(c.id, M.Failed);
      } else {
        RestartSlot(slot.value, c, now);
      }
    }

    method RestartSlot(slot: Slot, c: M.Command, now: int)
      requires Valid() && InTable(slot) && slot.profile.enabled
      modifies `os, `handlers, `active, `commands, `outcomes, slot
      ensures Valid() && Abs() == M.RestartProfile(old(Abs()), c, Some(slot.name), now)
    {
      Lookup(slot.name);
      if slot.child.None? {
        L.SpawnOver(Abs(), slot.View().(backoffUntil := None), now);
        hide M.Spawn, M.Mark, Valid, Abs, Slot.View;
        StartSlot(slot, now);
        UpdateCommand(c.id, M.Done);
      } else {
        var targets := map[slot.profile.name := slot.child.value];
        Drain(slot, c.mode, c.timeoutMs, now);
        Activate(c.id, M.Restart, targets);
      }
    }

    /** Out of its backoff, and started unless the supervisor shuts down. */
    method StartSlot(slot: Slot, now: int)
      requires Valid() && InTable(slot)
      modifies `os, `handlers, slot
      ensures Valid()
      ensures var ready := old(slot.View()).(backoffUntil := None);
        Abs() == L.StartIfFree(M.WithSlot(old(Abs()), ready), ready, now)
    {
      ClearBackoff(slot);
      RecordValidInTable(slot);
      hide *;
      StartIfFree(slot, now);
    }

    lemma RecordValidInTable(slot: Slot)
      requires Valid() && InTable(slot)
      ensures RecordValid(slot)
    {
    }

    method SuspendStop(c: M.Command, slot: Slot, now: int)
      requires Valid() && InTable(slot)
      modifies `stops
      ensures Valid() && Abs() == old(Abs()).(stops := old(Abs()).stops[c.id := M.Frame(slot.name, slot.uid, c, now)])
    {
      assert RecordValid(slot);
      hide Views, SlotsValid, HandlersValid;
      stops := stops[c.id := Waiting(slot, c, now)];
      assert Frames(stops) == Frames(old(stops))[c.id := M.Frame(slot.name, slot.uid, c, now)];
    }

    method SuspendStart(c: M.Command, slot: Slot, now: int)
      requires Valid() && InTable(slot)
      modifies `starts
      ensures Valid() && Abs() == old(Abs()).(starts := old(Abs()).starts[c.id := M.Frame(slot.name, slot.uid, c, now)])
    {
      assert RecordValid(slot);
      hide Views, SlotsValid, HandlersValid;
      starts := starts[c.id := Waiting(slot, c, now)];
      assert Frames(starts) == Frames(old(starts))[c.id := M.Frame(slot.name, slot.uid, c, now)];
    }

    lemma NamedSlot(slot: Slot)
      requires Valid() && InTable(slot)
      ensures slot.name in Abs().slots && Abs().slots[slot.name].uid == slot.uid
    {
    }

    /** STOP_PROFILE and START_PROFILE look up the slot, then wait for the database to take the profile's new setting. */
    method BeginStop(c: M.Command, profileId: Option<M.ProfileId>, now: int) returns (ghost found: Option<M.Name>)
      requires Valid()
      modifies `stops, `outcomes
      ensures L.LooksUp(old(Abs()), profileId, found)
      ensures Valid() && Abs() == M.BeginStop(old(Abs()), c, found, now)
    {
      hide Valid, Abs, L.LooksUp, M.Mark, InTable, FirstWith, Slot.View;
      var slot := SlotById(profileId);
      found := if slot.None? then None else Some(slot.value.name);
      if slot.None? {
        UpdateCommand(c.id, M.Failed);
      } else {
        NamedSlot(slot.value);
        SuspendStop(c, slot.value, now);
      }
    }

    method BeginStart(c: M.Command, profileId: Option<M.ProfileId>, now: int) returns (ghost found: Option<M.Name>)
      requires Valid()
      modifies `starts, `outcomes
      ensures L.LooksUp(old(Abs()), profileId, found)
      ensures Valid() && Abs() == M.BeginStart(old(Abs()), c, found, now)
    {
      hide Valid, Abs, L.LooksUp, M.Mark, InTable, FirstWith, Slot.View;
      var slot := SlotById(profileId);
      found := if slot.None? then None else Some(slot.value.name);
      if slot.None? {
        UpdateCommand(c.id, M.Failed);
      } else {
        NamedSlot(slot.value);
        SuspendStart(c, slot.value, now);
      }
    }

    /** Writes the new setting into a record, which may have been dropped from the table while the command waited. */
    method Switch(slot: Slot, on: bool)
      requires Valid() && RecordValid(slot)
      modifies slot
      ensures Valid() && RecordValid(slot) && slot.View() == L.Switched(old(slot.View()), on)
      ensures Abs() == if InTable(slot) then M.WithSlot(old(Abs()), L.Switched(old(slot.View()), on)) else old(Abs())
    {
      ghost var was := slot.View();
      slot.profile := slot.profile.(enabled := on);
      if on { slot.backoffUntil := None; }
      assert slot.View() == L.Switched(was, on);
      SwitchKeepsIdentity(was, on);
      if InTable(slot) {
        hide Slot.View;
        OneChanged(slot);
        HandlersStay(slot);
      } else {
        DroppedChanged(slot);
      }
      hide Views, SlotsValid, WaitingValid, HandlersValid, Frames;
    }

    /** A record outside the table changed. */
    twostate lemma DroppedChanged(slot: Slot)
      requires old(Valid()) && !old(InTable(slot)) && slots == old(slots) && nextUid == old(nextUid)
      requires stops == old(stops) && starts == old(starts) && os == old(os) && handlers == old(handlers)
      requires forall o: Slot {:trigger o.child} {:trigger o.profile} {:trigger o.View()} :: old(allocated(o)) && o != slot ==> unchanged(o)
      requires slot.child == old(slot.child)
      ensures SlotsValid() && WaitingValid(stops) && WaitingValid(starts) && HandlersValid()
      ensures Views() == old(Views())
    {
      forall sl | sl in Held(stops) + Held(starts) ensures RecordValid(sl) {
        assert old(RecordValid(sl));
      }
    }

    /** STOP_PROFILE goes on once the database has the new setting. */
    method ResumeStop(id: M.CmdId)
      requires Valid() && id in stops
      modifies `stops, `os, `active, `commands, `outcomes, stops[id].slot
      ensures Valid() && Abs() == M.ResumeStop(old(Abs()), id)
    {
      var w := stops[id];
      HeldRecord(w.slot, Abs().stops[id]);
      L.StopParts(Abs(), id, w.slot.View());
      hide *;
      TakeStop(id);
      Switch(w.slot, false);
      FinishStop(id, w);
    }

    /** A process that is still there is drained, and the command waits for its exit. */
    method FinishStop(id: M.CmdId, w: Waiting)
      requires Valid() && RecordValid(w.slot)
      modifies `os, `active, `commands, `outcomes, w.slot
      ensures Valid() && Abs() == L.StopNow(old(Abs()), id, old(w.slot.View()), w.command, w.now)
    {
      RecordView(w.slot);
      hide Valid, Abs, M.Mark, M.Activate, M.BeginDrain, M.DrainSignals, RecordValid;
      if w.slot.child.None? {
        UpdateCommand(id, M.Done);
      } else {
        var targets := map[w.slot.profile.name := w.slot.child.value];
        Drain(w.slot, w.command.mode, w.command.timeoutMs, w.now);
        Activate(id, M.Stop, targets);
      }
    }

    method TakeStop(id: M.CmdId)
      requires Valid()
      modifies `stops
      ensures Valid() && Abs() == old(Abs()).(stops := old(Abs()).stops - {id})
      ensures id in old(stops) ==> RecordValid(old(stops[id].slot))
    {
      hide Views, SlotsValid, HandlersValid;
      stops := stops - {id};
      assert Frames(stops) == Frames(old(stops)) - {id};
    }

    method TakeStart(id: M.CmdId)
      requires Valid()
      modifies `starts
      ensures Valid() && Abs() == old(Abs()).(starts := old(Abs()).starts - {id})
      ensures id in old(starts) ==> RecordValid(old(starts[id].slot))
    {
      hide Views, SlotsValid, HandlersValid;
      starts := starts - {id};
      assert Frames(starts) == Frames(old(starts)) - {id};
    }

    /** START_PROFILE goes on; before shutdown its record cannot have been dropped. */
    method ResumeStart(id: M.CmdId)
      requires Valid() && id in starts && Safety.Inv(Abs())
      modifies `starts, `os, `handlers, `outcomes, starts[id].slot
      ensures Valid() && Abs() == M.ResumeStart(old(Abs()), id)
    {
      hide *;
      var w := starts[id];
      HeldStart(id);
      L.StartParts(Abs(), id, w.slot.View());
      TakeStart(id);
      Switch(w.slot, true);
      StartIfFree(w.slot, w.now);
      UpdateCommand(id, M.Done);
    }

    /** Starts the process of a slot that has none, unless the supervisor shuts down. */
    method StartIfFree(slot: Slot, now: int)
      requires Valid() && RecordValid(slot) && (InTable(slot) || shuttingDown)
      modifies `os, `handlers, slot
      ensures Valid() && Abs() == L.StartIfFree(old(Abs()), old(slot.View()), now)
    {
      RecordView(slot);
      hide *;
      if slot.child.None? && !shuttingDown { SpawnSlot(slot, now); }
    }

    /** What a waiting start holds: the record in the table or, during a shutdown, one that may have been dropped. */
    lemma HeldStart(id: M.CmdId)
      requires Valid() && id in starts && Safety.Inv(Abs())
      ensures id in Abs().starts && Abs().starts[id].now == starts[id].now && Abs().shuttingDown == shuttingDown
      ensures RecordValid(starts[id].slot) && (InTable(starts[id].slot) <==> M.Attached(Abs(), Abs().starts[id]))
      ensures var f := Abs().starts[id];
        if M.Attached(Abs(), f) then Abs().slots[f.name] == starts[id].slot.View() && starts[id].slot.View().profile.name == f.name
        else shuttingDown
    {
      HeldRecord(starts[id].slot, Abs().starts[id]);
      hide Slot.View, HandlersValid;
      assert id in Abs().starts;
    }

    lemma HeldRecord(slot: Slot, f: M.Frame)
      requires Valid() && slot in Held(stops) + Held(starts) && f.name == slot.name && f.uid == slot.uid
      ensures RecordValid(slot) && (InTable(slot) <==> M.Attached(Abs(), f))
      ensures InTable(slot) ==> Abs().slots[f.name] == slot.View() && slot.View().profile.name == f.name
    {
    }

    lemma RecordView(slot: Slot)
      requires Valid() && RecordValid(slot)
      ensures slot.View().child == slot.child && slot.View().profile == slot.profile
              && (slot.child.Some? ==> InTable(slot))
      ensures Abs().os == os && Abs().shuttingDown == shuttingDown
    {
    }

    /** One round of RESTART_ALL, which has passed the slots of `done`. */
    method RestartNext(n: M.Name, mode: M.Mode, timeoutMs: int, now: int, targets: map<M.Name, M.Proc>,
                       ghost s: M.State, ghost done: set<M.Name>, ghost todo: set<M.Name>)
      returns (more: map<M.Name, M.Proc>)
      requires Valid() && n in todo && L.RestartReached(s, done, todo, Abs(), targets, mode, timeoutMs, now)
      modifies `os, slots.Values
      ensures Valid() && L.RestartReached(s, done + {n}, todo - {n}, Abs(), more, mode, timeoutMs, now)
    {
      L.RestartStep(s, done, todo, Abs(), targets, n, mode, timeoutMs, now);
      Lookup(n);
      hide M.BeginDrain, M.DrainSignals, L.RestartReached, Valid, Abs, Slot.View;
      more := targets;
      if slots[n].profile.enabled {
        if slots[n].child.Some? {
          more := targets[n := slots[n].child.value];
          Drain(slots[n], mode, timeoutMs, now);
        } else {
          ClearBackoff(slots[n]);
        }
      }
    }

    /** RESTART_ALL: drains every enabled slot with a process and takes the others out of their backoff. */
    method RestartAll(c: M.Command, now: int)
      requires Valid()
      modifies `os, `active, `commands, `outcomes, slots.Values
      ensures Valid() && Abs() == M.RestartAll(old(Abs()), c, now)
    {
      ghost var s, done := Abs(), {};
      var todo := slots.Keys;
      var targets: map<M.Name, M.Proc> := map[];
      NamesMatch();
      hide *;
      L.RestartBegins(s, c.mode, c.timeoutMs, now);
      while todo != {}
        invariant Valid() && L.RestartReached(s, done, todo, Abs(), targets, c.mode, c.timeoutMs, now)
        decreases todo
      {
        var n :| n in todo;
        targets := RestartNext(n, c.mode, c.timeoutMs, now, targets, s, done, todo);
        todo, done := todo - {n}, done + {n};
      }
      L.RestartEnds(s, done, Abs(), targets, c, now);
      EndRestartAll(c, targets, s, now);
    }

    method EndRestartAll(c: M.Command, targets: map<M.Name, M.Proc>, ghost s: M.State, now: int)
      requires Valid() && Abs().os.next == s.os.next
      requires M.RestartAll(s, c, now)
            == if targets == map[] then M.Mark(Abs(), c.id, M.Done) else M.Activate(Abs(), c.id, M.Active(M.Restart, targets, s.os.next, false))
      modifies `active, `commands, `outcomes
      ensures Valid() && Abs() == M.RestartAll(s, c, now)
    {
      NamesMatch();
      hide *;
      if targets == map[] {
        UpdateCommand(c.id, M.Done);
      } else {
        Activate(c.id, M.Restart, targets);
      }
    }

    /** RESTART_SUPERVISOR: shuts down, and exits once every process has. */
    method RestartSupervisor(c: M.Command, now: int)
      requires Valid()
      modifies `shuttingDown, `os, `active, `commands, slots.Values
      ensures Valid() && Abs() == M.RestartSupervisor(old(Abs()), c, now)
    {
      SetShuttingDown();
      hide M.DrainNames, M.Activate;
      var targets := DrainChildren(c.mode, c.timeoutMs, now);
      Activate(c.id, M.WholeSupervisor, targets);
    }

    /** Whether every target of the command is where it should be. */
    method Reached(a: M.Active) returns (done: bool)
      requires Valid()
      ensures done == M.TargetsReached(Abs(), a)
    {
      hide WaitingValid, HandlersValid, Frames;
      var todo := a.targets.Keys;
      while todo != {}
        invariant todo <= a.targets.Keys
        invariant forall n :: n in a.targets && n !in todo ==> L.TargetReached(Abs(), a, n)
        decreases todo
      {
        var n :| n in todo;
        var there := n in slots && slots[n].child.Some?;
        if !(if a.kind.Restart? then there && slots[n].child != Some(a.targets[n]) else !there) { return false; }
        todo := todo - {n};
      }
      return true;
    }

    /** One entry of finishCommands, which walks a copy of the table: the entry may have been finished meanwhile. */
    method FinishCommand(id: M.CmdId)
      requires Valid() && id in commands
      modifies `active, `exiting, `outcomes
      ensures Valid() && Abs() == M.FinishOne(old(Abs()), id)
    {
      var a := commands[id];
      var done := Reached(a);
      assert id in Abs().commands && Abs().commands[id] == a;
      hide M.TargetsReached, M.Mark, Valid, Abs;
      if !done { return; }
      RemoveActive(id, a.kind.WholeSupervisor?);
      UpdateCommand(id, if a.forced then M.Forced else M.Done);
    }

    method RemoveActive(id: M.CmdId, last: bool)
      requires Valid()
      modifies `active, `exiting
      ensures Valid() && Abs() == old(Abs()).(active := old(Abs()).active - {id}, exiting := old(Abs()).exiting || last)
    {
      hide Views, SlotsValid, RecordValid, HandlersValid, Frames;
      active := active - {id};
      exiting := exiting || last;
      assert active.Keys == old(active.Keys) - {id};
    }

    /** A command failed: whatever it waited for is forgotten. */
    method FailCommand(id: M.CmdId)
      requires Valid()
      modifies `stops, `starts, `outcomes
      ensures Valid()
              && Abs() == M.Mark(old(Abs()).(stops := old(Abs()).stops - {id}, starts := old(Abs()).starts - {id}), id, M.Failed)
    {
      TakeStop(id);
      TakeStart(id);
      hide M.Mark, Valid, Abs;
      UpdateCommand(id, M.Failed);
    }

    method LoadConfig(latest: M.Config)
      requires Valid()
      modifies `cfg
      ensures Valid() && Abs() == old(Abs()).(cfg := latest)
    {
      hide Views, SlotsValid, RecordValid, HandlersValid, Frames;
      cfg := latest;
    }

    /** exit(0) takes effect. */
    method ExitProcess()
      requires Valid() && exiting
      modifies `exited
      ensures Valid() && Abs() == old(Abs()).(exited := true)
    {
      hide Views, SlotsValid, RecordValid, HandlersValid, Frames;
      exited := true;
    }

    /** Every name of the table belongs to a record of that name. */
    lemma NamesMatch()
      requires Valid()
      ensures forall n :: n in Abs().slots ==> Abs().slots[n].profile.name == n
      ensures Abs().slots.Keys == slots.Keys && Abs().cfg == cfg && Abs().shuttingDown == shuttingDown && Abs().os == os
      ensures Abs().stops.Keys == stops.Keys && Abs().starts.Keys == starts.Keys && Abs().commands == commands
              && Abs().exiting == exiting
    {
    }

    lemma Lookup(n: M.Name)
      requires Valid() && n in slots
      ensures InTable(slots[n]) && slots[n].name == n && n in Abs().slots && Abs().slots[n] == slots[n].View()
      ensures slots[n].profile == slots[n].View().profile && slots[n].child == slots[n].View().child
    {
    }

    // ---------------------------------------------------------------- any step

    /** Commands that name a profile. */
    predicate IsLookup(e: M.Event) {
      e.CmdRestart? || e.CmdStop? || e.CmdStart?
    }

    predicate IsCommand(e: M.Event) {
      IsLookup(e) || e.StopWritten? || e.StartWritten? || e.CmdRestartAll? || e.CmdRestartSupervisor? || e.CmdError?
    }

    method PerformOwn(e: M.Event)
      requires Valid() && M.Enabled(Abs(), e) && !IsCommand(e)
      modifies this, slots.Values
      ensures Valid() && Abs() == M.Next(old(Abs()), e)
    {
      NamesMatch();
      hide Valid, Abs, M.Reconcile, M.ChildExits, M.EnforceDeadlines, M.BeginShutdown, M.FinishOne;
      match e {
        case LoadConfig(latest) => LoadConfig(latest);
        case DoReconcile(profiles, now) => Reconcile(profiles, now);
        case Exit(proc, code, now) => OnChildExit(proc, code, now);
        case Enforce(now) => EnforceDeadlines(now);
        case Shutdown(timeoutMs, now) => BeginShutdown(timeoutMs, now);
        case Finish(id) => FinishCommand(id);
        case ExitProcess => ExitProcess();
      }
    }

    method PerformLookup(e: M.Event, profileId: Option<M.ProfileId>) returns (ghost step: M.Event)
      requires Valid() && M.Enabled(Abs(), e) && IsLookup(e)
      modifies this, slots.Values
      ensures Valid() && M.Enabled(old(Abs()), step) && Abs() == M.Next(old(Abs()), step)
      ensures IsLookup(step) && step == e.(found := step.found) && L.LooksUp(old(Abs()), profileId, step.found)
    {
      hide Valid, Abs, L.LooksUp, M.RestartProfile, M.BeginStop, M.BeginStart;
      ghost var found;
      match e {
        case CmdRestart(c, _, now) => found := RestartProfile(c, profileId, now);
        case CmdStop(c, _, now) => found := BeginStop(c, profileId, now);
        case CmdStart(c, _, now) => found := BeginStart(c, profileId, now);
      }
      step := e.(found := found);
    }

    method PerformCommand(e: M.Event)
      requires Valid() && Safety.Inv(Abs()) && M.Enabled(Abs(), e) && IsCommand(e) && !IsLookup(e)
      modifies this, slots.Values, Held(stops), Held(starts)
      ensures Valid() && Abs() == M.Next(old(Abs()), e)
    {
      hide Valid, Abs, Safety.Inv, M.ResumeStop, M.ResumeStart, M.RestartAll, M.RestartSupervisor, M.Mark, IsLookup;
      NamesMatch();
      match e {
        case StopWritten(id) => ResumeStop(id);
        case StartWritten(id) => ResumeStart(id);
        case CmdRestartAll(c, now) => RestartAll(c, now);
        case CmdRestartSupervisor(c, now) => RestartSupervisor(c, now);
        case CmdError(id) => FailCommand(id);
      }
    }

    /**
     * Performs a step, with profileId the profile that a command names. Whatever happens, the object goes through a step
     * that the state machine allows, so every theorem about runs holds of this object.
     */
    method Perform(e: M.Event, profileId: Option<M.ProfileId>) returns (ghost step: M.Event)
      requires Valid() && Safety.Inv(Abs()) && M.Enabled(Abs(), e)
      modifies this, slots.Values, Held(stops), Held(starts)
      ensures M.Enabled(old(Abs()), step) && Abs() == M.Next(old(Abs()), step)
      ensures if IsLookup(e) then IsLookup(step) && step == e.(found := step.found) && L.LooksUp(old(Abs()), profileId, step.found) else step == e
      ensures Valid() && Safety.Inv(Abs())
    {
      ghost var s := Abs();
      hide Valid, Abs, Safety.Inv, M.Enabled, M.Next, L.LooksUp, Held;
      step := e;
      if IsLookup(e) {
        step := PerformLookup(e, profileId);
      } else if IsCommand(e) {
        PerformCommand(e);
      } else {
        PerformOwn(e);
      }
      Safety.NextKeepsInv(s, step);
    }
  }

  /** Every name once. */
  ghost predicate Lists(order: seq<M.Name>, names: set<M.Name>) {
    (forall n :: n in order <==> n in names) && forall i, j :: 0 <= i < j < |order| ==> order[i] != order[j]
  }

  lemma WithoutLists(order: seq<M.Name>, names: set<M.Name>, n: M.Name)
    requires Lists(order, names)
    ensures Lists(Without(order, n), names - {n})
  {
    WithoutOne(order, n);
  }

  lemma OneMoreListed(order: seq<M.Name>, names: set<M.Name>, n: M.Name)
    requires Lists(order, names) && n !in names
    ensures Lists(order + [n], names + {n})
  {
    assert n !in order;
  }

  function Without(names: seq<M.Name>, n: M.Name): seq<M.Name> {
    if names == [] then [] else (if names[0] == n then [] else [names[0]]) + Without(names[1..], n)
  }

  lemma {:induction false} WithoutOne(names: seq<M.Name>, n: M.Name)
    requires forall i, j :: 0 <= i < j < |names| ==> names[i] != names[j]
    ensures forall m :: m in Without(names, n) <==> m in names && m != n
    ensures forall i, j :: 0 <= i < j < |Without(names, n)| ==> Without(names, n)[i] != Without(names, n)[j]
    decreases |names|
  {
    if names != [] {
      var rest := Without(names[1..], n);
      WithoutOne(names[1..], n);
      assert forall m :: m in names <==> m == names[0] || m in names[1..];
      assert names[0] !in names[1..] && names[0] !in rest;
      assert Without(names, n) == (if names[0] == n then [] else [names[0]]) + rest;
    }
  }

  lemma SwitchKeepsIdentity(sl: M.Slot, on: bool)
    ensures L.Switched(sl, on).child == sl.child && L.Switched(sl, on).profile.name == sl.profile.name
  {
  }
}
