/** The loops of the supervisor, slot by slot: what they have done after some of the slots adds up to one step. */
module SupervisorLoops {
  import opened Wrappers
  import opened SupervisorModel
  import opened SupervisorSafety

  lemma DelayInNumbers(k: nat, maxMs: int)
    requires k >= 1
    ensures BackoffDelay(k, maxMs) == if 1_000 * Pow2(k - 1) <= maxMs then 1_000 * Pow2(k - 1) else maxMs
  {
  }

  /** A loop over the slots of s has passed those of `done` and has those of `todo` ahead. */
  ghost predicate Between(s: State, done: set<Name>, todo: set<Name>) {
    && done + todo == s.slots.Keys && done !! todo
    && forall n :: n in s.slots ==> s.slots[n].profile.name == n
  }

  lemma NextName(s: State, done: set<Name>, todo: set<Name>, n: Name)
    requires Between(s, done, todo) && n in todo
    ensures n in s.slots && n !in done && s.slots[n].profile.name == n && Between(s, done + {n}, todo - {n})
  {
  }

  /** The body of a loop that drains: one more slot. */
  function DrainOne(s: State, n: Name, mode: Mode, timeoutMs: int, now: int): State
    requires n in s.slots
  {
    WithSignals(WithSlot(s, BeginDrain(s.slots[n], mode, timeoutMs, now)), DrainSignals(s.slots[n], mode, now))
  }

  lemma DrainNone(s: State, mode: Mode, timeoutMs: int, now: int)
    ensures DrainNames(s, {}, mode, timeoutMs, now) == s
  {
    assert DrainNames(s, {}, mode, timeoutMs, now).slots == s.slots;
    assert AllDrainSignals(s.slots, {}, mode, now) == {};
    assert s.os.signals + {} == s.os.signals;
  }

  /** Draining n after the slots of names, which do not include it. */
  lemma DrainOneMore(s: State, names: set<Name>, n: Name, mode: Mode, timeoutMs: int, now: int)
    requires n in s.slots && n !in names && s.slots[n].profile.name == n
    ensures var d := DrainNames(s, names, mode, timeoutMs, now);
      n in d.slots && d.slots[n] == s.slots[n] && DrainOne(d, n, mode, timeoutMs, now) == DrainNames(s, names + {n}, mode, timeoutMs, now)
  {
    var d := DrainNames(s, names, mode, timeoutMs, now);
    DrainKeepsName(s.slots[n], mode, timeoutMs, now);
    OneMoreSignals(s.slots, names, n, mode, now);
    hide BeginDrain, DrainSignals, AllDrainSignals;
    var a, b := DrainOne(d, n, mode, timeoutMs, now), DrainNames(s, names + {n}, mode, timeoutMs, now);
    assert a.slots == b.slots;
    assert a.os.signals == b.os.signals;
  }

  lemma OneMoreSignals(slots: map<Name, Slot>, names: set<Name>, n: Name, mode: Mode, now: int)
    requires n in slots
    ensures AllDrainSignals(slots, names + {n}, mode, now) == AllDrainSignals(slots, names, mode, now) + DrainSignals(slots[n], mode, now)
  {
    hide DrainSignals;
  }

  /** found is a slot whose profile has the id, if there is one. */
  ghost predicate LooksUp(s: State, id: Option<ProfileId>, found: Option<Name>) {
    match found
    case Some(n) => n in s.slots && Some(s.slots[n].profile.id) == id
    case None => forall n :: n in s.slots ==> Some(s.slots[n].profile.id) != id
  }

  /** A slot is started, unless it has a process or the supervisor shuts down. */
  function StartIfFree(s: State, sl: Slot, now: int): State {
    if sl.child.None? && !s.shuttingDown then Spawn(s, sl, now) else s
  }

  /** The new setting of a profile; a start also ends the backoff. */
  function Switched(sl: Slot, on: bool): Slot {
    var p := sl.(profile := sl.profile.(enabled := on));
    if on then p.(backoffUntil := None) else p
  }

  /** A stop: nothing to do without a process, else the process is drained and the command waits for it. */
  function StopNow(s: State, id: CmdId, sl: Slot, c: Command, now: int): State {
    if sl.child.None? then Mark(s, id, Done)
    else Activate(WithSignals(WithSlot(s, BeginDrain(sl, c.mode, c.timeoutMs, now)), DrainSignals(sl, c.mode, now)),
                  id, Active(Stop, map[sl.profile.name := sl.child.value], s.os.next, false))
  }

  lemma StopParts(s: State, id: CmdId, sl: Slot)
    requires id in s.stops
    requires var f := s.stops[id];
      if Attached(s, f) then s.slots[f.name] == sl && sl.profile.name == f.name else sl.child.None?
    ensures var f, r := s.stops[id], s.(stops := s.stops - {id});
      var b := Switched(sl, false);
      ResumeStop(s, id) == StopNow(if Attached(s, f) then WithSlot(r, b) else r, id, b, f.command, f.now)
  {
    var f, r := s.stops[id], s.(stops := s.stops - {id});
    var b := Switched(sl, false);
    if Attached(s, f) && sl.child.Some? {
      DrainKeepsName(b, f.command.mode, f.command.timeoutMs, f.now);
      hide BeginDrain, DrainSignals;
      assert WithSlot(r, b).slots[f.name := BeginDrain(b, f.command.mode, f.command.timeoutMs, f.now)]
          == r.slots[f.name := BeginDrain(b, f.command.mode, f.command.timeoutMs, f.now)];
    }
  }

  lemma StartParts(s: State, id: CmdId, sl: Slot)
    requires id in s.starts
    requires var f := s.starts[id];
      if Attached(s, f) then s.slots[f.name] == sl && sl.profile.name == f.name else s.shuttingDown
    ensures var f, r := s.starts[id], s.(starts := s.starts - {id});
      var b := Switched(sl, true);
      ResumeStart(s, id) == Mark(StartIfFree(if Attached(s, f) then WithSlot(r, b) else r, b, f.now), id, Done)
  {
    var f, r := s.starts[id], s.(starts := s.starts - {id});
    var b := Switched(sl, true);
    if Attached(s, f) {
      SpawnOver(r, b, f.now);
      hide Spawn, Mark;
    }
  }

  lemma SpawnOver(s: State, sl: Slot, now: int)
    ensures Spawn(WithSlot(s, sl), sl, now) == Spawn(s, sl, now)
  {
    assert SpawnSlot(sl, s.os.next, now).profile == sl.profile;
    hide SpawnSlot;
    assert WithSlot(s, sl).slots[sl.profile.name := SpawnSlot(sl, s.os.next, now)] == s.slots[sl.profile.name := SpawnSlot(sl, s.os.next, now)];
  }

  // ------------------------------------------------------------------ the loop that drains every process

  function DrainedSome(s: State, done: set<Name>, mode: Mode, timeoutMs: int, now: int): State {
    DrainNames(s, WithChild(s) * done, mode, timeoutMs, now)
  }

  lemma DrainedNone(s: State, mode: Mode, timeoutMs: int, now: int)
    ensures DrainedSome(s, {}, mode, timeoutMs, now) == s && TargetsAmong(s, {}) == map[]
  {
    DrainNone(s, mode, timeoutMs, now);
    assert WithChild(s) * {} == {};
  }

  lemma DrainedAll(s: State, mode: Mode, timeoutMs: int, now: int)
    ensures DrainedSome(s, s.slots.Keys, mode, timeoutMs, now) == DrainNames(s, WithChild(s), mode, timeoutMs, now)
    ensures TargetsAmong(s, s.slots.Keys) == Children(s, WithChild(s))
  {
    assert WithChild(s) * s.slots.Keys == WithChild(s);
  }

  lemma DrainedOneMore(s: State, done: set<Name>, n: Name, mode: Mode, timeoutMs: int, now: int)
    requires n in s.slots && n !in done && s.slots[n].profile.name == n
    ensures var d := DrainedSome(s, done, mode, timeoutMs, now);
      && n in d.slots && d.slots[n] == s.slots[n]
      && DrainedSome(s, done + {n}, mode, timeoutMs, now)
      == if s.slots[n].child.None? then d
         else WithSignals(WithSlot(d, BeginDrain(s.slots[n], mode, timeoutMs, now)), DrainSignals(s.slots[n], mode, now))
  {
    if s.slots[n].child.Some? {
      assert WithChild(s) * (done + {n}) == WithChild(s) * done + {n};
      DrainOneMore(s, WithChild(s) * done, n, mode, timeoutMs, now);
    } else {
      assert WithChild(s) * (done + {n}) == WithChild(s) * done;
    }
  }

  /** The processes that the loop has met. */
  function TargetsAmong(s: State, done: set<Name>): map<Name, Proc> {
    map n | n in s.slots && n in done && s.slots[n].child.Some? :: s.slots[n].child.value
  }

  lemma OneMoreTarget(s: State, done: set<Name>, n: Name)
    requires n in s.slots && n !in done
    ensures TargetsAmong(s, done + {n}) == match s.slots[n].child case Some(p) => TargetsAmong(s, done)[n := p] case None => TargetsAmong(s, done)
  {
  }

  /** A loop that drains every process has passed the slots of `done`: the state it is in and the processes it has met. */
  ghost predicate DrainReached(s: State, done: set<Name>, todo: set<Name>, t: State, targets: map<Name, Proc>,
                               mode: Mode, timeoutMs: int, now: int) {
    Between(s, done, todo) && t == DrainedSome(s, done, mode, timeoutMs, now) && targets == TargetsAmong(s, done)
  }

  lemma DrainBegins(s: State, mode: Mode, timeoutMs: int, now: int)
    requires forall n :: n in s.slots ==> s.slots[n].profile.name == n
    ensures DrainReached(s, {}, s.slots.Keys, s, map[], mode, timeoutMs, now)
  {
    DrainedNone(s, mode, timeoutMs, now);
  }

  lemma DrainStep(s: State, done: set<Name>, todo: set<Name>, t: State, targets: map<Name, Proc>, n: Name, mode: Mode,
                  timeoutMs: int, now: int)
    requires DrainReached(s, done, todo, t, targets, mode, timeoutMs, now) && n in todo
    ensures n in t.slots
    ensures var more := if t.slots[n].child.Some? then targets[n := t.slots[n].child.value] else targets;
      var u := if t.slots[n].child.Some? then DrainOne(t, n, mode, timeoutMs, now) else t;
      DrainReached(s, done + {n}, todo - {n}, u, more, mode, timeoutMs, now)
  {
    NextName(s, done, todo, n);
    DrainedOneMore(s, done, n, mode, timeoutMs, now);
    OneMoreTarget(s, done, n);
    hide DrainedSome, TargetsAmong, BeginDrain, DrainSignals;
  }

  lemma DrainEnds(s: State, done: set<Name>, t: State, targets: map<Name, Proc>, mode: Mode, timeoutMs: int, now: int)
    requires DrainReached(s, done, {}, t, targets, mode, timeoutMs, now)
    ensures t == DrainNames(s, WithChild(s), mode, timeoutMs, now) && targets == Children(s, WithChild(s))
  {
    assert done == s.slots.Keys;
    DrainedAll(s, mode, timeoutMs, now);
  }

  // ------------------------------------------------------------------ the loop over the profiles

  /** What follows once the slot has its fresh profile: it is started, drained or stopped. */
  function Applied(r: State, sl: Slot, now: int): State {
    if sl.profile.enabled then if Starts(sl, r.shuttingDown, now) then Spawn(r, sl, now) else r
    else WithSignals(WithSlot(r, SettleSlot(sl, r.cfg.stopTimeoutMs, now)), SettleSignals(sl, now))
  }

  /** A reconcile of one profile refreshes its slot and then starts, drains or stops it. */
  lemma ReconcileParts(s: State, p: Profile, now: int)
    ensures var sl := Refreshed(Ensured(s, p).slots[p.name], p, now);
      ReconcileOne(s, p, now) == Applied(WithSlot(Ensured(s, p), sl), sl, now)
  {
    var e := Ensured(s, p);
    var sl := Refreshed(e.slots[p.name], p, now);
    var r := WithSlot(e, sl);
    SettleKeepsProfile(sl, s.cfg.stopTimeoutMs, now);
    assert e.cfg == s.cfg && e.shuttingDown == s.shuttingDown && sl.profile == p;
    hide Ensured, Refreshed, SettleSlot, SettleSignals, SpawnSlot, Starts;
    SpawnKeepsName(sl, e.os.next, now);
    SettledEnabled(sl, s.cfg.stopTimeoutMs, now);
    StartsEnabled(sl, now);
    if Starts(sl, s.shuttingDown, now) {
      assert r.slots[p.name := SpawnSlot(sl, e.os.next, now)] == e.slots[p.name := SpawnSlot(sl, e.os.next, now)];
    } else {
      assert r.os.signals + {} == r.os.signals;
      assert r.slots[p.name := SettleSlot(sl, s.cfg.stopTimeoutMs, now)] == e.slots[p.name := SettleSlot(sl, s.cfg.stopTimeoutMs, now)];
    }
  }

  lemma SettleKeepsProfile(sl: Slot, stopTimeoutMs: int, now: int)
    ensures SettleSlot(sl, stopTimeoutMs, now).profile == sl.profile
  {
  }

  lemma SettledEnabled(sl: Slot, stopTimeoutMs: int, now: int)
    ensures sl.profile.enabled ==> SettleSlot(sl, stopTimeoutMs, now) == sl && SettleSignals(sl, now) == {}
    ensures !sl.profile.enabled ==> !Starts(sl, true, now) && !Starts(sl, false, now)
  {
  }

  lemma StartsEnabled(sl: Slot, now: int)
    ensures Starts(sl, true, now) || Starts(sl, false, now) ==> sl.profile.enabled
  {
  }

  lemma NoProfile(s: State, ps: seq<Profile>, now: int)
    ensures ReconcileList(s, ps[..0], now) == s && NamesOf(ps[..0]) == {}
  {
  }

  lemma OneMoreProfile(s: State, ps: seq<Profile>, i: nat, now: int)
    requires i < |ps|
    ensures ReconcileList(s, ps[..i + 1], now) == ReconcileOne(ReconcileList(s, ps[..i], now), ps[i], now)
  {
    hide ReconcileOne;
    assert ps[..i + 1][..|ps[..i + 1]| - 1] == ps[..i];
  }

  lemma OneMoreName(ps: seq<Profile>, i: nat)
    requires i < |ps|
    ensures NamesOf(ps[..i + 1]) == NamesOf(ps[..i]) + {ps[i].name}
  {
    forall k | 0 <= k < i ensures ps[..i + 1][k] == ps[..i][k] == ps[k] {}
    forall n | n in NamesOf(ps[..i]) + {ps[i].name} ensures n in NamesOf(ps[..i + 1]) {
      if n == ps[i].name {
        assert ps[..i + 1][i].name == n;
      } else {
        var k :| 0 <= k < i && ps[..i][k].name == n;
        assert ps[..i + 1][k].name == n;
      }
    }
  }

  // ------------------------------------------------------------------ the sweep over deleted profiles

  /** The sweep after the slots of `done`. */
  function SweepDone(s: State, seen: set<Name>, done: set<Name>, now: int): State {
    var d := DrainNames(s, Unseen(s, seen) * done, Safe, s.cfg.stopTimeoutMs, now);
    d.(slots := map n | n in d.slots && (n in seen || n !in done || s.slots[n].child.Some?) :: d.slots[n])
  }

  /** One deleted profile. */
  function SweptOne(s: State, n: Name, now: int): State
    requires n in s.slots
  {
    if s.slots[n].child.None? then s.(slots := s.slots - {n})
    else if s.slots[n].draining then s
    else DrainOne(s, n, Safe, s.cfg.stopTimeoutMs, now)
  }

  lemma SweepNothing(s: State, seen: set<Name>, now: int)
    ensures SweepDone(s, seen, {}, now) == s
  {
    DrainNone(s, Safe, s.cfg.stopTimeoutMs, now);
    assert Unseen(s, seen) * {} == {};
    assert SweepDone(s, seen, {}, now).slots == s.slots;
  }

  lemma SweepAll(s: State, seen: set<Name>, now: int)
    ensures SweepDone(s, seen, s.slots.Keys, now) == Sweep(s, seen, now)
  {
    assert Unseen(s, seen) * s.slots.Keys == Unseen(s, seen);
    hide BeginDrain, AllDrainSignals;
    assert SweepDone(s, seen, s.slots.Keys, now).slots == Sweep(s, seen, now).slots;
  }

  lemma SweepSeen(s: State, seen: set<Name>, done: set<Name>, n: Name, now: int)
    requires n in seen
    ensures SweepDone(s, seen, done + {n}, now) == SweepDone(s, seen, done, now)
  {
    assert Unseen(s, seen) * (done + {n}) == Unseen(s, seen) * done;
    hide BeginDrain, AllDrainSignals;
    assert SweepDone(s, seen, done + {n}, now).slots == SweepDone(s, seen, done, now).slots;
  }

  lemma SweepUnseen(s: State, seen: set<Name>, done: set<Name>, n: Name, now: int)
    requires n in s.slots && n !in seen && n !in done && s.slots[n].profile.name == n
    ensures n in SweepDone(s, seen, done, now).slots && SweepDone(s, seen, done, now).slots[n] == s.slots[n]
    ensures SweptOne(SweepDone(s, seen, done, now), n, now) == SweepDone(s, seen, done + {n}, now)
  {
    var u := Unseen(s, seen) * done;
    var a, b := SweepDone(s, seen, done, now), SweepDone(s, seen, done + {n}, now);
    if n in Unseen(s, seen) {
      assert Unseen(s, seen) * (done + {n}) == u + {n};
      DrainOneMore(s, u, n, Safe, s.cfg.stopTimeoutMs, now);
      DrainKeepsName(s.slots[n], Safe, s.cfg.stopTimeoutMs, now);
      SweepDrains(s, seen, done, n, now);
    } else {
      assert Unseen(s, seen) * (done + {n}) == u;
      hide BeginDrain, AllDrainSignals;
      assert SweptOne(a, n, now).slots == b.slots;
    }
  }

  lemma SweepDrains(s: State, seen: set<Name>, done: set<Name>, n: Name, now: int)
    requires n in s.slots && n !in seen && n !in done && s.slots[n].profile.name == n && n in Unseen(s, seen)
    requires Unseen(s, seen) * (done + {n}) == Unseen(s, seen) * done + {n}
    requires BeginDrain(s.slots[n], Safe, s.cfg.stopTimeoutMs, now).profile == s.slots[n].profile
    requires var d := DrainNames(s, Unseen(s, seen) * done, Safe, s.cfg.stopTimeoutMs, now);
      n in d.slots && d.slots[n] == s.slots[n]
      && DrainOne(d, n, Safe, s.cfg.stopTimeoutMs, now) == DrainNames(s, Unseen(s, seen) * done + {n}, Safe, s.cfg.stopTimeoutMs, now)
    ensures n in SweepDone(s, seen, done, now).slots && SweepDone(s, seen, done, now).slots[n] == s.slots[n]
    ensures SweptOne(SweepDone(s, seen, done, now), n, now) == SweepDone(s, seen, done + {n}, now)
  {
    hide BeginDrain, DrainSignals, AllDrainSignals;
    var d := DrainNames(s, Unseen(s, seen) * done, Safe, s.cfg.stopTimeoutMs, now);
    var a, b := SweepDone(s, seen, done, now), SweepDone(s, seen, done + {n}, now);
    var e := DrainOne(d, n, Safe, s.cfg.stopTimeoutMs, now);
    assert SweptOne(a, n, now) == DrainOne(a, n, Safe, s.cfg.stopTimeoutMs, now);
    assert e.slots == d.slots[n := BeginDrain(s.slots[n], Safe, s.cfg.stopTimeoutMs, now)];
    assert SweptOne(a, n, now).slots == a.slots[n := BeginDrain(s.slots[n], Safe, s.cfg.stopTimeoutMs, now)];
    assert SweptOne(a, n, now).slots == b.slots;
    assert SweptOne(a, n, now).os == e.os;
  }

  /** An exit: the process is gone, and the slot it was the child of takes note. */
  lemma ExitParts(s: State, proc: Proc, code: Option<int>, now: int)
    requires proc in s.os.born && s.os.born[proc] in s.slots && s.slots[s.os.born[proc]].child == Some(proc)
    ensures ChildExits(s, proc, code, now)
         == WithSlot(s.(os := Without(s.os, proc)), ExitSlot(s.slots[s.os.born[proc]], code, now, s.cfg))
  {
    hide ExitSlot;
  }

  /** A process is gone. */
  function Without(os: Os, proc: Proc): Os {
    os.(live := os.live - {proc})
  }

  /** The sweep has passed the slots of `done` and is in state t. */
  ghost predicate SweepReached(s: State, seen: set<Name>, done: set<Name>, todo: set<Name>, t: State, now: int) {
    Between(s, done, todo) && t == SweepDone(s, seen, done, now) && todo <= t.slots.Keys
  }

  lemma SweepBegins(s: State, seen: set<Name>, now: int)
    requires forall n :: n in s.slots ==> s.slots[n].profile.name == n
    ensures SweepReached(s, seen, {}, s.slots.Keys, s, now)
  {
    SweepNothing(s, seen, now);
  }

  lemma SweepStep(s: State, seen: set<Name>, done: set<Name>, todo: set<Name>, t: State, n: Name, now: int)
    requires SweepReached(s, seen, done, todo, t, now) && n in todo
    ensures n in t.slots
    ensures SweepReached(s, seen, done + {n}, todo - {n}, if n in seen then t else SweptOne(t, n, now), now)
  {
    NextName(s, done, todo, n);
    if n in seen { SweepSeen(s, seen, done, n, now); } else { SweepUnseen(s, seen, done, n, now); }
    hide SweepDone, DrainOne;
  }

  lemma SweepEnds(s: State, seen: set<Name>, done: set<Name>, t: State, now: int)
    requires SweepReached(s, seen, done, {}, t, now)
    ensures t == Sweep(s, seen, now)
  {
    assert done == s.slots.Keys;
    SweepAll(s, seen, now);
  }

  // ------------------------------------------------------------------ the loop that enforces deadlines

  function SlotsEnforced(slots: map<Name, Slot>, done: set<Name>, now: int): map<Name, Slot> {
    map n | n in slots :: if n in done then EnforceSlot(slots[n], now) else slots[n]
  }

  function SignalsEnforced(slots: map<Name, Slot>, done: set<Name>, now: int): set<Signal> {
    set n, g | n in slots && n in done && g in EnforceSignals(slots[n], now) :: g
  }

  /** Some target of the command among `done` had used up its drain time. */
  predicate ExpiredAmong(a: Active, slots: map<Name, Slot>, done: set<Name>, now: int) {
    exists n :: n in a.targets && n in done && n in slots && DrainExpired(slots[n], now)
  }

  function CommandsEnforced(s: State, done: set<Name>, now: int): map<CmdId, Active> {
    map id | id in s.commands ::
      if id in s.active && ExpiredAmong(s.commands[id], s.slots, done, now) then s.commands[id].(forced := true) else s.commands[id]
  }

  function EnforceSome(s: State, done: set<Name>, now: int): State {
    s.(slots := SlotsEnforced(s.slots, done, now), commands := CommandsEnforced(s, done, now),
       os := s.os.(signals := s.os.signals + SignalsEnforced(s.slots, done, now)))
  }

  /** Every active command that waits for n is marked as forced. */
  function ForcedFor(commands: map<CmdId, Active>, active: set<CmdId>, n: Name): map<CmdId, Active> {
    map id | id in commands :: if id in active && n in commands[id].targets then commands[id].(forced := true) else commands[id]
  }

  /** One slot. */
  function EnforceOne(s: State, n: Name, now: int): State
    requires n in s.slots
  {
    WithSignals(WithSlot(s, EnforceSlot(s.slots[n], now)), EnforceSignals(s.slots[n], now))
      .(commands := if DrainExpired(s.slots[n], now) then ForcedFor(s.commands, s.active, n) else s.commands)
  }

  lemma EnforceNone(s: State, now: int)
    ensures EnforceSome(s, {}, now) == s
  {
    hide EnforceSlot, EnforceSignals;
    var t := EnforceSome(s, {}, now);
    assert t.slots == s.slots;
    assert t.commands == s.commands;
    assert t.os.signals == s.os.signals;
  }

  lemma EnforceAll(s: State, now: int)
    ensures EnforceSome(s, s.slots.Keys, now) == EnforceDeadlines(s, now)
  {
    hide EnforceSlot, EnforceSignals, DrainExpired;
    var t := EnforceSome(s, s.slots.Keys, now);
    assert t.slots == EnforceDeadlines(s, now).slots;
    assert t.commands == EnforceDeadlines(s, now).commands by {
      forall id | id in s.commands ensures t.commands[id] == EnforceCommand(s, id, now) {
        assert ExpiredAmong(s.commands[id], s.slots, s.slots.Keys, now) == TargetExpired(s, s.commands[id], now);
      }
    }
    assert t.os.signals == EnforceDeadlines(s, now).os.signals;
  }

  lemma EnforceKeepsName(sl: Slot, now: int)
    ensures EnforceSlot(sl, now).profile == sl.profile && EnforceSlot(sl, now).child == sl.child
  {
  }

  lemma SlotsOneMore(slots: map<Name, Slot>, done: set<Name>, n: Name, now: int)
    requires n in slots && n !in done
    ensures SlotsEnforced(slots, done, now)[n := EnforceSlot(slots[n], now)] == SlotsEnforced(slots, done + {n}, now)
    ensures n in SlotsEnforced(slots, done, now) && SlotsEnforced(slots, done, now)[n] == slots[n]
  {
    hide EnforceSlot;
  }

  lemma SignalsOneMore(slots: map<Name, Slot>, done: set<Name>, n: Name, now: int)
    requires n in slots
    ensures SignalsEnforced(slots, done + {n}, now) == SignalsEnforced(slots, done, now) + EnforceSignals(slots[n], now)
  {
    hide EnforceSignals;
  }

  lemma ExpiredOneMore(a: Active, slots: map<Name, Slot>, done: set<Name>, n: Name, now: int)
    requires n in slots
    ensures ExpiredAmong(a, slots, done + {n}, now)
            <==> ExpiredAmong(a, slots, done, now) || (n in a.targets && DrainExpired(slots[n], now))
  {
    hide DrainExpired;
  }

  lemma CommandsOneMore(s: State, done: set<Name>, n: Name, now: int)
    requires n in s.slots
    ensures var before := CommandsEnforced(s, done, now);
      CommandsEnforced(s, done + {n}, now) == if DrainExpired(s.slots[n], now) then ForcedFor(before, s.active, n) else before
  {
    hide DrainExpired, ExpiredAmong;
    forall id | id in s.commands
      ensures ExpiredAmong(s.commands[id], s.slots, done + {n}, now)
              <==> ExpiredAmong(s.commands[id], s.slots, done, now) || (n in s.commands[id].targets && DrainExpired(s.slots[n], now))
    {
      ExpiredOneMore(s.commands[id], s.slots, done, n, now);
    }
  }

  lemma EnforceOneMore(s: State, done: set<Name>, n: Name, now: int)
    requires n in s.slots && n !in done && s.slots[n].profile.name == n
    ensures n in EnforceSome(s, done, now).slots && EnforceSome(s, done, now).slots[n] == s.slots[n]
    ensures EnforceOne(EnforceSome(s, done, now), n, now) == EnforceSome(s, done + {n}, now)
  {
    EnforceKeepsName(s.slots[n], now);
    SlotsOneMore(s.slots, done, n, now);
    SignalsOneMore(s.slots, done, n, now);
    CommandsOneMore(s, done, n, now);
    hide EnforceSlot, EnforceSignals, DrainExpired, SlotsEnforced, SignalsEnforced, CommandsEnforced, ForcedFor;
    var a, b := EnforceOne(EnforceSome(s, done, now), n, now), EnforceSome(s, done + {n}, now);
    assert s.os.signals + SignalsEnforced(s.slots, done, now) + EnforceSignals(s.slots[n], now)
        == s.os.signals + (SignalsEnforced(s.slots, done, now) + EnforceSignals(s.slots[n], now));
    assert a.slots == b.slots && a.commands == b.commands && a.os == b.os;
  }

  ghost predicate EnforceReached(s: State, done: set<Name>, todo: set<Name>, t: State, now: int) {
    Between(s, done, todo) && t == EnforceSome(s, done, now)
  }

  lemma EnforceBegins(s: State, now: int)
    requires forall n :: n in s.slots ==> s.slots[n].profile.name == n
    ensures EnforceReached(s, {}, s.slots.Keys, s, now)
  {
    EnforceNone(s, now);
  }

  lemma EnforceStep(s: State, done: set<Name>, todo: set<Name>, t: State, n: Name, now: int)
    requires EnforceReached(s, done, todo, t, now) && n in todo
    ensures n in t.slots && EnforceReached(s, done + {n}, todo - {n}, EnforceOne(t, n, now), now)
  {
    NextName(s, done, todo, n);
    EnforceOneMore(s, done, n, now);
    hide EnforceSome, EnforceOne;
  }

  lemma EnforceEnds(s: State, done: set<Name>, t: State, now: int)
    requires EnforceReached(s, done, {}, t, now)
    ensures t == EnforceDeadlines(s, now)
  {
    assert done == s.slots.Keys;
    EnforceAll(s, now);
  }

  // ------------------------------------------------------------------ the loop of a restart of everything

  /** One enabled slot: drained if it has a process, else taken out of its backoff. */
  function RestartOne(s: State, n: Name, mode: Mode, timeoutMs: int, now: int): State
    requires n in s.slots
  {
    if !s.slots[n].profile.enabled then s
    else if s.slots[n].child.Some? then DrainOne(s, n, mode, timeoutMs, now)
    else WithSlot(s, s.slots[n].(backoffUntil := None))
  }

  function RestartSome(s: State, done: set<Name>, mode: Mode, timeoutMs: int, now: int): State {
    DrainAndClear(s, Hit(s) * done, Idle(s) * done, mode, timeoutMs, now)
  }

  lemma RestartNone(s: State, mode: Mode, timeoutMs: int, now: int)
    ensures RestartSome(s, {}, mode, timeoutMs, now) == s
  {
    DrainNone(s, mode, timeoutMs, now);
    assert Hit(s) * {} == {} && Idle(s) * {} == {};
    assert RestartSome(s, {}, mode, timeoutMs, now).slots == s.slots;
  }

  lemma RestartEvery(s: State, c: Command, now: int)
    ensures var r := RestartSome(s, s.slots.Keys, c.mode, c.timeoutMs, now);
      && r.os.next == s.os.next
      && RestartAll(s, c, now) == if Hit(s) == {} then Mark(r, c.id, Done)
                                  else Activate(r, c.id, Active(Restart, Children(s, Hit(s)), s.os.next, false))
  {
    assert Hit(s) * s.slots.Keys == Hit(s) && Idle(s) * s.slots.Keys == Idle(s);
    DrainKeepsNext(s, Hit(s), Idle(s), c.mode, c.timeoutMs, now);
    hide DrainAndClear, Children, Mark, Activate;
  }

  lemma DrainKeepsNext(s: State, hit: set<Name>, idle: set<Name>, mode: Mode, timeoutMs: int, now: int)
    ensures DrainAndClear(s, hit, idle, mode, timeoutMs, now).os.next == s.os.next
  {
    hide BeginDrain, AllDrainSignals;
  }

  lemma RestartOneMore(s: State, done: set<Name>, n: Name, mode: Mode, timeoutMs: int, now: int)
    requires n in s.slots && n !in done && s.slots[n].profile.name == n
    ensures n in RestartSome(s, done, mode, timeoutMs, now).slots
            && RestartSome(s, done, mode, timeoutMs, now).slots[n] == s.slots[n]
    ensures RestartOne(RestartSome(s, done, mode, timeoutMs, now), n, mode, timeoutMs, now) == RestartSome(s, done + {n}, mode, timeoutMs, now)
  {
    var h, i := Hit(s) * done, Idle(s) * done;
    var d := DrainNames(s, h, mode, timeoutMs, now);
    var a, b := RestartSome(s, done, mode, timeoutMs, now), RestartSome(s, done + {n}, mode, timeoutMs, now);
    if n in Hit(s) {
      assert Hit(s) * (done + {n}) == h + {n} && Idle(s) * (done + {n}) == i;
      DrainOneMore(s, h, n, mode, timeoutMs, now);
      DrainKeepsName(s.slots[n], mode, timeoutMs, now);
      hide BeginDrain, DrainSignals, AllDrainSignals, Hit, Idle;
      assert RestartOne(a, n, mode, timeoutMs, now) == DrainOne(a, n, mode, timeoutMs, now);
      assert DrainOne(a, n, mode, timeoutMs, now).slots == b.slots;
    } else if n in Idle(s) {
      assert Hit(s) * (done + {n}) == h && Idle(s) * (done + {n}) == i + {n};
      hide BeginDrain, DrainSignals, AllDrainSignals, Hit, Idle;
      assert RestartOne(a, n, mode, timeoutMs, now).slots == b.slots;
    } else {
      assert Hit(s) * (done + {n}) == h && Idle(s) * (done + {n}) == i;
    }
  }

  /** The processes that a restart of everything has met. */
  function HitAmong(s: State, done: set<Name>): map<Name, Proc> {
    map n | n in s.slots && n in done && s.slots[n].profile.enabled && s.slots[n].child.Some? :: s.slots[n].child.value
  }

  lemma OneMoreHit(s: State, done: set<Name>, n: Name)
    requires n in s.slots && n !in done
    ensures HitAmong(s, done + {n})
         == if s.slots[n].profile.enabled && s.slots[n].child.Some? then HitAmong(s, done)[n := s.slots[n].child.value] else HitAmong(s, done)
  {
  }

  lemma AllHit(s: State)
    ensures HitAmong(s, {}) == map[] && HitAmong(s, s.slots.Keys) == Children(s, Hit(s))
    ensures Children(s, Hit(s)) == map[] <==> Hit(s) == {}
  {
    if Hit(s) != {} {
      var n :| n in Hit(s);
      assert n in Children(s, Hit(s));
    }
  }

  /** A restart of everything has passed the slots of `done`: the state it is in and the processes it has met. */
  ghost predicate RestartReached(s: State, done: set<Name>, todo: set<Name>, t: State, targets: map<Name, Proc>,
                                 mode: Mode, timeoutMs: int, now: int) {
    Between(s, done, todo) && t == RestartSome(s, done, mode, timeoutMs, now) && targets == HitAmong(s, done)
  }

  lemma RestartBegins(s: State, mode: Mode, timeoutMs: int, now: int)
    requires forall n :: n in s.slots ==> s.slots[n].profile.name == n
    ensures RestartReached(s, {}, s.slots.Keys, s, map[], mode, timeoutMs, now)
  {
    RestartNone(s, mode, timeoutMs, now);
    AllHit(s);
  }

  lemma RestartStep(s: State, done: set<Name>, todo: set<Name>, t: State, targets: map<Name, Proc>, n: Name, mode: Mode,
                    timeoutMs: int, now: int)
    requires RestartReached(s, done, todo, t, targets, mode, timeoutMs, now) && n in todo
    ensures n in t.slots
    ensures var more := if t.slots[n].profile.enabled && t.slots[n].child.Some? then targets[n := t.slots[n].child.value] else targets;
      RestartReached(s, done + {n}, todo - {n}, RestartOne(t, n, mode, timeoutMs, now), more, mode, timeoutMs, now)
  {
    NextName(s, done, todo, n);
    RestartOneMore(s, done, n, mode, timeoutMs, now);
    OneMoreHit(s, done, n);
    hide RestartSome, RestartOne, HitAmong;
  }

  lemma RestartEnds(s: State, done: set<Name>, t: State, targets: map<Name, Proc>, c: Command, now: int)
    requires RestartReached(s, done, {}, t, targets, c.mode, c.timeoutMs, now)
    ensures t.os.next == s.os.next
    ensures RestartAll(s, c, now) == if targets == map[] then Mark(t, c.id, Done) else Activate(t, c.id, Active(Restart, targets, s.os.next, false))
  {
    assert done == s.slots.Keys;
    AllHit(s);
    RestartEvery(s, c, now);
  }

  predicate TargetReached(s: State, a: Active, n: Name)
    requires n in a.targets
  {
    if a.kind.Restart? then n in s.slots && s.slots[n].child.Some? && s.slots[n].child != Some(a.targets[n])
    else n !in s.slots || s.slots[n].child.None?
  }
}
