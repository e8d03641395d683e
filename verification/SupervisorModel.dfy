/**
 * The worker supervisor as a state machine (src/supervisor/core.ts). One step is what runs between two awaits of the
 * program: everything a tick, a command, a child's exit callback or a shutdown does without giving up control.
 */
module SupervisorModel {
  import opened Wrappers

  type Name = string
  type ProfileId = string
  type CmdId = string

  /** Processes are numbered in the order they are spawned. */
  type Proc = nat

  const STABLE_MS := 60_000
  const CRASH_LOOP_AFTER: nat := 5
  const RUNNING_AFTER_MS := 2_000
  const CLEAN_EXIT_MS := 5_000 // RUNNING_AFTER_MS * 2.5
  const SIGKILL_AFTER_MS := 30_000
  const IMMEDIATE_KILL_AFTER_MS := 10_000

  datatype Shape = Shape(jobTypes: seq<string>, concurrency: nat, weights: seq<int>)

  datatype Profile = Profile(id: ProfileId, name: Name, enabled: bool, shape: Shape)

  datatype Config = Config(stopTimeoutMs: int, backoffMaxMs: int)

  datatype Mode = Safe | Immediate

  datatype SlotState = Starting | Running | Draining | Backoff | CrashLoop | Stopped

  /** A slot record; uid tells apart a slot that was deleted and one created later under the same name. */
  datatype Slot = Slot(
    uid: nat, profile: Profile, child: Option<Proc>, state: SlotState, spawned: Option<Shape>, startedAt: Option<int>,
    spawnCount: nat, crashes: nat, backoffUntil: Option<int>, lastExitCode: Option<int>, lastExitAt: Option<int>,
    draining: bool, drainDeadline: Option<int>, termSent: bool, killAt: Option<int>, forced: bool)

  datatype SignalKind = AskDrain | Term | Kill

  datatype Signal = Signal(proc: Proc, kind: SignalKind, at: int)

  /** The operating system: processes spawned and not yet exited, the profile each was spawned for, and signals sent. */
  datatype Os = Os(live: set<Proc>, next: Proc, born: map<Proc, Name>, signals: set<Signal>)

  datatype Kind = Restart | Stop | WholeSupervisor

  /** A command being carried out: the process each target had, and how many processes existed when it started. */
  datatype Active = Active(kind: Kind, targets: map<Name, Proc>, since: Proc, forced: bool)

  datatype Command = Command(id: CmdId, mode: Mode, timeoutMs: int)

  /** A stop or start command waiting for its database write; it holds on to the slot it looked up. */
  datatype Frame = Frame(name: Name, uid: nat, command: Command, now: int)

  datatype Outcome = Done | Forced | Failed

  datatype State = State(
    slots: map<Name, Slot>, commands: map<CmdId, Active>, active: set<CmdId>, shuttingDown: bool, cfg: Config, nextUid: nat,
    os: Os, stops: map<CmdId, Frame>, starts: map<CmdId, Frame>, outcomes: map<CmdId, Outcome>, exiting: bool, exited: bool)

  const INITIAL := State(map[], map[], {}, false, Config(600_000, 60_000), 0, Os({}, 0, map[], {}), map[], map[], map[], false, false)

  // ------------------------------------------------------------------ one slot

  function NewSlot(uid: nat, p: Profile): Slot {
    Slot(uid, p, None, Stopped, None, None, 0, 0, None, None, None, false, None, false, None, false)
  }

  function SpawnSlot(sl: Slot, proc: Proc, now: int): Slot {
    sl.(child := Some(proc), state := Starting, startedAt := Some(now), backoffUntil := None, draining := false,
        drainDeadline := None, termSent := false, killAt := None, spawnCount := sl.spawnCount + 1, spawned := Some(sl.profile.shape))
  }

  function Pow2(n: nat): nat {
    if n == 0 then 1 else 2 * Pow2(n - 1)
  }

  /** Wait after the k-th crash in a row: 1 s, 2 s, 4 s, ... up to the configured maximum. */
  function BackoffDelay(k: nat, maxMs: int): int
    requires k >= 1
  {
    var d := 1000 * Pow2(k - 1);
    if d < maxMs then d else maxMs
  }

  function Uptime(sl: Slot, now: int): int {
    if sl.startedAt.None? then 0 else now - sl.startedAt.value
  }

  /** An exit that counts as a crash: not asked for, and not a clean exit after the start-up time. */
  predicate IsCrash(sl: Slot, code: Option<int>, now: int) {
    !sl.draining && !(code == Some(0) && Uptime(sl, now) >= CLEAN_EXIT_MS)
  }

  function ExitSlot(sl: Slot, code: Option<int>, now: int, cfg: Config): Slot {
    var gone := sl.(child := None, lastExitCode := code, lastExitAt := Some(now), draining := false, drainDeadline := None,
                    termSent := false, killAt := None);
    if sl.draining then gone.(crashes := 0, backoffUntil := None, state := Stopped)
    else if !IsCrash(sl, code, now) then gone.(crashes := 0, state := Stopped)
    else
      var k := if Uptime(sl, now) >= STABLE_MS then 1 else sl.crashes + 1;
      gone.(crashes := k, backoffUntil := Some(now + BackoffDelay(k, cfg.backoffMaxMs)),
            state := if k >= CRASH_LOOP_AFTER then CrashLoop else Backoff)
  }

  function BeginDrain(sl: Slot, mode: Mode, timeoutMs: int, now: int): Slot {
    if sl.child.None? then sl
    else
      var d := sl.(state := Draining, draining := true);
      if mode.Immediate? then
        if sl.termSent then d else d.(termSent := true, killAt := Some(now + IMMEDIATE_KILL_AFTER_MS))
      else
        if sl.drainDeadline.Some? then d else d.(drainDeadline := Some(now + timeoutMs))
  }

  function DrainSignals(sl: Slot, mode: Mode, now: int): set<Signal> {
    if sl.child.None? then {}
    else if mode.Immediate? then (if sl.termSent then {} else {Signal(sl.child.value, Term, now)})
    else (if sl.drainDeadline.Some? then {} else {Signal(sl.child.value, AskDrain, now)})
  }

  /** The drain deadline passed and SIGTERM has not been sent. */
  predicate DrainExpired(sl: Slot, now: int) {
    sl.child.Some? && sl.draining && !sl.termSent && sl.drainDeadline.Some? && now >= sl.drainDeadline.value
  }

  function TermSlot(sl: Slot, now: int): Slot {
    if DrainExpired(sl, now) then sl.(termSent := true, forced := true, killAt := Some(now + SIGKILL_AFTER_MS)) else sl
  }

  predicate KillDue(sl: Slot, now: int) {
    sl.child.Some? && sl.draining && sl.termSent && sl.killAt.Some? && now >= sl.killAt.value
  }

  function EnforceSlot(sl: Slot, now: int): Slot {
    var t := TermSlot(sl, now);
    if KillDue(t, now) then t.(killAt := Some(now + SIGKILL_AFTER_MS)) else t
  }

  function EnforceSignals(sl: Slot, now: int): set<Signal> {
    (if DrainExpired(sl, now) then {Signal(sl.child.value, Term, now)} else {})
    + (if KillDue(TermSlot(sl, now), now) then {Signal(sl.child.value, Kill, now)} else {})
  }

  // ------------------------------------------------------------------ helpers on the whole state

  function WithSlot(s: State, sl: Slot): State {
    s.(slots := s.slots[sl.profile.name := sl])
  }

  function WithSignals(s: State, more: set<Signal>): State {
    s.(os := s.os.(signals := s.os.signals + more))
  }

  function Spawned(os: Os, name: Name): Os {
    os.(live := os.live + {os.next}, next := os.next + 1, born := os.born[os.next := name])
  }

  /** Starts a process for the slot sl, which replaces the slot of its name. */
  function Spawn(s: State, sl: Slot, now: int): State {
    WithSlot(s, SpawnSlot(sl, s.os.next, now)).(os := Spawned(s.os, sl.profile.name))
  }

  /** Signals that draining these slots sends. */
  function AllDrainSignals(slots: map<Name, Slot>, names: set<Name>, mode: Mode, now: int): set<Signal> {
    set n, g | n in slots && n in names && g in DrainSignals(slots[n], mode, now) :: g
  }

  /** Drains the slots of the given names. */
  function DrainNames(s: State, names: set<Name>, mode: Mode, timeoutMs: int, now: int): State {
    WithSignals(s.(slots := map n | n in s.slots :: if n in names then BeginDrain(s.slots[n], mode, timeoutMs, now) else s.slots[n]),
                AllDrainSignals(s.slots, names, mode, now))
  }

  function WithChild(s: State): set<Name> {
    set n | n in s.slots && s.slots[n].child.Some?
  }

  /** Marks a command's outcome; a terminal outcome is never overwritten (src/supervisor/db.ts:58). */
  function Mark(s: State, id: CmdId, o: Outcome): State {
    if id in s.outcomes then s else s.(outcomes := s.outcomes[id := o])
  }

  function Activate(s: State, id: CmdId, a: Active): State {
    s.(commands := s.commands[id := a], active := s.active + {id})
  }

  // ------------------------------------------------------------------ reconcile

  predicate BackingOff(sl: Slot, now: int) {
    sl.backoffUntil.Some? && now < sl.backoffUntil.value
  }

  /** The slot under its fresh profile; a process that has run long enough counts as running. */
  function Refreshed(sl: Slot, p: Profile, now: int): Slot {
    var r := sl.(profile := p);
    if sl.state.Starting? && sl.child.Some? && sl.startedAt.Some? && now - sl.startedAt.value >= RUNNING_AFTER_MS
    then r.(state := Running) else r
  }

  /** The slot of a profile, created when it is missing. */
  function Ensured(s: State, p: Profile): State {
    if p.name in s.slots then s
    else s.(slots := s.slots[p.name := NewSlot(s.nextUid, p)], nextUid := s.nextUid + 1)
  }

  /** A process is started for an enabled profile without one, unless it backs off or the supervisor shuts down. */
  predicate Starts(sl: Slot, shuttingDown: bool, now: int) {
    sl.profile.enabled && sl.child.None? && !shuttingDown && !BackingOff(sl, now)
  }

  /** What becomes of a slot for which no process is started: a disabled one is drained, or stopped once it is empty. */
  function SettleSlot(sl: Slot, stopTimeoutMs: int, now: int): Slot {
    if sl.profile.enabled then sl
    else if sl.child.None? then sl.(state := Stopped)
    else if sl.draining then sl
    else BeginDrain(sl, Safe, stopTimeoutMs, now)
  }

  function SettleSignals(sl: Slot, now: int): set<Signal> {
    if !sl.profile.enabled && !sl.draining then DrainSignals(sl, Safe, now) else {}
  }

  function ReconcileOne(s: State, p: Profile, now: int): State {
    var e := Ensured(s, p);
    var sl := Refreshed(e.slots[p.name], p, now);
    if Starts(sl, s.shuttingDown, now) then Spawn(e, sl, now)
    else WithSignals(WithSlot(e, SettleSlot(sl, s.cfg.stopTimeoutMs, now)), SettleSignals(sl, now))
  }

  function ReconcileList(s: State, ps: seq<Profile>, now: int): State {
    if ps == [] then s else ReconcileOne(ReconcileList(s, ps[..|ps| - 1], now), ps[|ps| - 1], now)
  }

  function NamesOf(ps: seq<Profile>): set<Name> {
    set i | 0 <= i < |ps| :: ps[i].name
  }

  /** Slots of deleted profiles: drained while they have a process, dropped once they have none. */
  function Sweep(s: State, seen: set<Name>, now: int): State {
    var unseen := set n | n in s.slots && n !in seen && s.slots[n].child.Some? && !s.slots[n].draining;
    var d := DrainNames(s, unseen, Safe, s.cfg.stopTimeoutMs, now);
    d.(slots := map n | n in d.slots && (n in seen || s.slots[n].child.Some?) :: d.slots[n])
  }

  function Reconcile(s: State, ps: seq<Profile>, now: int): State {
    Sweep(ReconcileList(s, ps, now), NamesOf(ps), now)
  }

  // ------------------------------------------------------------------ the other steps

  function ChildExits(s: State, proc: Proc, code: Option<int>, now: int): State {
    var gone := s.(os := s.os.(live := s.os.live - {proc}));
    if proc in s.os.born && s.os.born[proc] in s.slots && s.slots[s.os.born[proc]].child == Some(proc)
    then WithSlot(gone, ExitSlot(s.slots[s.os.born[proc]], code, now, s.cfg))
    else gone
  }

  predicate TargetExpired(s: State, a: Active, now: int) {
    exists n :: n in a.targets && n in s.slots && DrainExpired(s.slots[n], now)
  }

  function EnforceCommand(s: State, id: CmdId, now: int): Active
    requires id in s.commands
  {
    var a := s.commands[id];
    if id in s.active && TargetExpired(s, a, now) then a.(forced := true) else a
  }

  function EnforceDeadlines(s: State, now: int): State {
    WithSignals(s.(slots := map n | n in s.slots :: EnforceSlot(s.slots[n], now),
                   commands := map id | id in s.commands :: EnforceCommand(s, id, now)),
                set n, g | n in s.slots && g in EnforceSignals(s.slots[n], now) :: g)
  }

  function BeginShutdown(s: State, timeoutMs: int, now: int): State {
    DrainNames(s.(shuttingDown := true), WithChild(s), Safe, timeoutMs, now)
  }

  /** found: the slot whose profile has the command's profile id, if there is one. */
  function RestartProfile(s: State, c: Command, found: Option<Name>, now: int): State {
    if found.None? || found.value !in s.slots || !s.slots[found.value].profile.enabled then Mark(s, c.id, Failed)
    else
      var sl := s.slots[found.value];
      if sl.child.None? then
        var ready := sl.(backoffUntil := None);
        Mark(if s.shuttingDown then WithSlot(s, ready) else Spawn(s, ready, now), c.id, Done)
      else
        var d := WithSignals(WithSlot(s, BeginDrain(sl, c.mode, c.timeoutMs, now)), DrainSignals(sl, c.mode, now));
        Activate(d, c.id, Active(Restart, map[found.value := sl.child.value], s.os.next, false))
  }

  /** The lookup of a stop or start command; it then waits for its database write. */
  function BeginStop(s: State, c: Command, found: Option<Name>, now: int): State {
    if found.None? || found.value !in s.slots then Mark(s, c.id, Failed)
    else s.(stops := s.stops[c.id := Frame(found.value, s.slots[found.value].uid, c, now)])
  }

  function BeginStart(s: State, c: Command, found: Option<Name>, now: int): State {
    if found.None? || found.value !in s.slots then Mark(s, c.id, Failed)
    else s.(starts := s.starts[c.id := Frame(found.value, s.slots[found.value].uid, c, now)])
  }

  /** The slot a waiting command holds is still the slot under its name. */
  predicate Attached(s: State, f: Frame) {
    f.name in s.slots && s.slots[f.name].uid == f.uid
  }

  function ResumeStop(s: State, id: CmdId): State
    requires id in s.stops
  {
    var f := s.stops[id];
    var r := s.(stops := s.stops - {id});
    if !Attached(s, f) then Mark(r, id, Done) // the record was dropped, so it has no process
    else
      var sl := s.slots[f.name].(profile := s.slots[f.name].profile.(enabled := false));
      if sl.child.None? then Mark(WithSlot(r, sl), id, Done)
      else
        var d := WithSignals(WithSlot(r, BeginDrain(sl, f.command.mode, f.command.timeoutMs, f.now)), DrainSignals(sl, f.command.mode, f.now));
        Activate(d, id, Active(Stop, map[f.name := sl.child.value], s.os.next, false))
  }

  /** A start on a dropped record would spawn a process that no slot knows of, unless the supervisor is shutting down. */
  function ResumeStart(s: State, id: CmdId): State
    requires id in s.starts
  {
    var f := s.starts[id];
    var r := s.(starts := s.starts - {id});
    if !Attached(s, f) then Mark(if s.shuttingDown then r else r.(os := Spawned(s.os, f.name)), id, Done)
    else
      var sl := s.slots[f.name].(profile := s.slots[f.name].profile.(enabled := true), backoffUntil := None);
      Mark(if sl.child.None? && !s.shuttingDown then Spawn(r, sl, f.now) else WithSlot(r, sl), id, Done)
  }

  /** Drains the slots of hit; those of idle lose their backoff, so the next reconcile starts them. */
  function DrainAndClear(s: State, hit: set<Name>, idle: set<Name>, mode: Mode, timeoutMs: int, now: int): State {
    var d := DrainNames(s, hit, mode, timeoutMs, now);
    d.(slots := map n | n in d.slots :: if n in idle then d.slots[n].(backoffUntil := None) else d.slots[n])
  }

  function Children(s: State, names: set<Name>): map<Name, Proc> {
    map n | n in names && n in s.slots && s.slots[n].child.Some? :: s.slots[n].child.value
  }

  /** The slots that a restart of everything drains, and those that it only takes out of their backoff. */
  function Hit(s: State): set<Name> {
    set n | n in s.slots && s.slots[n].profile.enabled && s.slots[n].child.Some?
  }

  function Idle(s: State): set<Name> {
    set n | n in s.slots && s.slots[n].profile.enabled && s.slots[n].child.None?
  }

  function RestartAll(s: State, c: Command, now: int): State {
    var r := DrainAndClear(s, Hit(s), Idle(s), c.mode, c.timeoutMs, now);
    if Hit(s) == {} then Mark(r, c.id, Done) else Activate(r, c.id, Active(Restart, Children(s, Hit(s)), s.os.next, false))
  }

  function RestartSupervisor(s: State, c: Command, now: int): State {
    var hit := WithChild(s);
    var d := DrainNames(s.(shuttingDown := true), hit, c.mode, c.timeoutMs, now);
    Activate(d, c.id, Active(WholeSupervisor, Children(s, hit), s.os.next, false))
  }

  predicate TargetsReached(s: State, a: Active) {
    forall n :: n in a.targets ==>
      if a.kind.Restart? then n in s.slots && s.slots[n].child.Some? && s.slots[n].child != Some(a.targets[n])
      else n !in s.slots || s.slots[n].child.None?
  }

  /** One entry of the loop over the active commands. The loop walks a copy, so the entry may have been finished meanwhile. */
  function FinishOne(s: State, id: CmdId): State
    requires id in s.commands
  {
    var a := s.commands[id];
    if !TargetsReached(s, a) then s
    else Mark(s.(active := s.active - {id}, exiting := s.exiting || a.kind.WholeSupervisor?), id, if a.forced then Forced else Done)
  }

  // ------------------------------------------------------------------ events

  datatype Event =
    | LoadConfig(cfg: Config)
    | DoReconcile(profiles: seq<Profile>, now: int)
    | Exit(proc: Proc, code: Option<int>, now: int)
    | Enforce(now: int)
    | Shutdown(timeoutMs: int, now: int)
    | CmdRestart(c: Command, found: Option<Name>, now: int)
    | CmdStop(c: Command, found: Option<Name>, now: int)
    | CmdStart(c: Command, found: Option<Name>, now: int)
    | StopWritten(id: CmdId)
    | StartWritten(id: CmdId)
    | CmdRestartAll(c: Command, now: int)
    | CmdRestartSupervisor(c: Command, now: int)
    | CmdError(id: CmdId)
    | Finish(id: CmdId)
    | ExitProcess

  predicate FreshCommand(s: State, id: CmdId) {
    id !in s.commands && id !in s.outcomes && id !in s.stops && id !in s.starts
  }

  /**
   * What can happen in a state. Ticks follow one another until the supervisor shuts down, so a reconcile cannot fall
   * between a command's lookup and its write; while it shuts down, ticks overlap freely. A command is accepted once.
   */
  predicate Enabled(s: State, e: Event) {
    match e
    case LoadConfig(_) => true
    case DoReconcile(_, _) => s.shuttingDown || (s.stops == map[] && s.starts == map[])
    case Exit(proc, _, _) => proc in s.os.live
    case Enforce(_) => true
    case Shutdown(_, _) => true
    case CmdRestart(c, _, _) => FreshCommand(s, c.id)
    case CmdStop(c, _, _) => FreshCommand(s, c.id)
    case CmdStart(c, _, _) => FreshCommand(s, c.id)
    case StopWritten(id) => id in s.stops
    case StartWritten(id) => id in s.starts
    case CmdRestartAll(c, _) => FreshCommand(s, c.id)
    case CmdRestartSupervisor(c, _) => FreshCommand(s, c.id)
    case CmdError(_) => true
    case Finish(id) => id in s.commands
    case ExitProcess => s.exiting
  }

  function Next(s: State, e: Event): State
    requires Enabled(s, e)
  {
    match e
    case LoadConfig(cfg) => s.(cfg := cfg)
    case DoReconcile(ps, now) => Reconcile(s, ps, now)
    case Exit(proc, code, now) => ChildExits(s, proc, code, now)
    case Enforce(now) => EnforceDeadlines(s, now)
    case Shutdown(timeoutMs, now) => BeginShutdown(s, timeoutMs, now)
    case CmdRestart(c, found, now) => RestartProfile(s, c, found, now)
    case CmdStop(c, found, now) => BeginStop(s, c, found, now)
    case CmdStart(c, found, now) => BeginStart(s, c, found, now)
    case StopWritten(id) => ResumeStop(s, id)
    case StartWritten(id) => ResumeStart(s, id)
    case CmdRestartAll(c, now) => RestartAll(s, c, now)
    case CmdRestartSupervisor(c, now) => RestartSupervisor(s, c, now)
    case CmdError(id) => Mark(s.(stops := s.stops - {id}, starts := s.starts - {id}), id, Failed)
    case Finish(id) => FinishOne(s, id)
    case ExitProcess => s.(exited := true)
  }

  predicate Feasible(s: State, es: seq<Event>)
    decreases |es|
  {
    es == [] || (Enabled(s, es[0]) && Feasible(Next(s, es[0]), es[1..]))
  }

  function Run(s: State, es: seq<Event>): State
    requires Feasible(s, es)
    decreases |es|
  {
    if es == [] then s else Run(Next(s, es[0]), es[1..])
  }
}
