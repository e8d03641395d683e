/**
 * The signals that a supervisor sends (src/supervisor/core.ts:242-276), over every run and in numbers: a safe drain asks
 * first, SIGTERM needs an immediate request or a deadline that has passed, and SIGKILL waits for the process to end its jobs.
 */
module SupervisorSignals {
  import opened Wrappers
  import opened SupervisorModel
  import opened SupervisorSafety
  import opened SupervisorTiming
  import opened SupervisorLoops

  // ------------------------------------------------------------------ what a step may ask of processes

  /** The clock reading that a step works with: stop and start commands work with the one of their lookup. */
  function ClockOf(s: State, e: Event): int {
    match e
    case StopWritten(id) => if id in s.stops then s.stops[id].now else 0
    case StartWritten(id) => if id in s.starts then s.starts[id].now else 0
    case _ => if Reading(e).Some? then Reading(e).value else 0
  }

  /** How long a process has that is asked to leave after its jobs. */
  function TimeoutOf(s: State, e: Event): int {
    match e
    case DoReconcile(_, _) => s.cfg.stopTimeoutMs
    case Shutdown(timeoutMs, _) => timeoutMs
    case CmdRestart(c, _, _) => c.timeoutMs
    case StopWritten(id) => if id in s.stops then s.stops[id].command.timeoutMs else 0
    case CmdRestartAll(c, _) => c.timeoutMs
    case CmdRestartSupervisor(c, _) => c.timeoutMs
    case _ => 0
  }

  /** The step is a command's request to leave at once. */
  predicate IsImmediate(s: State, e: Event) {
    match e
    case CmdRestart(c, _, _) => c.mode.Immediate?
    case StopWritten(id) => id in s.stops && s.stops[id].command.mode.Immediate?
    case CmdRestartAll(c, _) => c.mode.Immediate?
    case CmdRestartSupervisor(c, _) => c.mode.Immediate?
    case _ => false
  }

  /** The profiles whose processes a command or a shutdown asks to leave. */
  function Targets(s: State, e: Event): set<Name> {
    match e
    case CmdRestart(_, found, _) =>
      set n | n in s.slots && found == Some(n) && s.slots[n].profile.enabled && s.slots[n].child.Some?
    case StopWritten(id) =>
      set n | n in s.slots && id in s.stops && s.stops[id].name == n && s.slots[n].uid == s.stops[id].uid && s.slots[n].child.Some?
    case CmdRestartAll(_, _) => set n | n in s.slots && s.slots[n].profile.enabled && s.slots[n].child.Some?
    case CmdRestartSupervisor(_, _) => set n | n in s.slots && s.slots[n].child.Some?
    case Shutdown(_, _) => set n | n in s.slots && s.slots[n].child.Some?
    case _ => {}
  }

  function ChildrenOf(s: State, names: set<Name>): set<Proc> {
    set n | n in names && n in s.slots && s.slots[n].child.Some? :: s.slots[n].child.value
  }

  /** The processes that an immediate request reaches. */
  function ReachedBy(s: State, e: Event): set<Proc> {
    if IsImmediate(s, e) then ChildrenOf(s, Targets(s, e)) else {}
  }

  /** A request of a step: at once, to the processes it reaches, or after the current jobs, with a timeout. */
  datatype Request = Request(immediate: bool, reached: set<Proc>, timeoutMs: int, now: int)

  function RequestOf(s: State, e: Event): Request {
    Request(IsImmediate(s, e), ReachedBy(s, e), TimeoutOf(s, e), ClockOf(s, e))
  }

  function DeadlineOf(s: State, n: Name, p: Proc): Option<int> {
    if n in s.slots && s.slots[n].child == Some(p) then s.slots[n].drainDeadline else None
  }

  function KillAtOf(s: State, n: Name, p: Proc): Option<int> {
    if n in s.slots && s.slots[n].child == Some(p) then s.slots[n].killAt else None
  }

  // ------------------------------------------------------------------ one request

  /** In numbers, what one request does to a slot with process p, and what it sends. */
  ghost predicate Requested(a: Slot, b: Slot, p: Proc, sent: set<Signal>, r: Request) {
    && b.child == a.child == Some(p) && b.draining
    && if r.immediate then
         && b.drainDeadline == a.drainDeadline && b.killAt.Some?
         && if a.killAt.Some? then b.killAt == a.killAt && sent == {}
            else b.killAt == Some(r.now + 10_000) && sent == {Signal(p, Term, r.now)}
       else
         && b.killAt == a.killAt && b.drainDeadline.Some?
         && if a.drainDeadline.Some? then b.drainDeadline == a.drainDeadline && sent == {}
            else b.drainDeadline == Some(r.now + r.timeoutMs) && sent == {Signal(p, AskDrain, r.now)}
  }

  lemma DrainIsRequest(sl: Slot, p: Proc, mode: Mode, r: Request)
    requires sl.child == Some(p) && (sl.termSent <==> sl.killAt.Some?) && r.immediate == mode.Immediate?
    ensures Requested(sl, BeginDrain(sl, mode, r.timeoutMs, r.now), p, DrainSignals(sl, mode, r.now), r)
  {
  }

  lemma NoChildNoRequest(sl: Slot, mode: Mode, timeoutMs: int, now: int)
    requires sl.child.None?
    ensures BeginDrain(sl, mode, timeoutMs, now) == sl && DrainSignals(sl, mode, now) == {}
  {
  }

  // ------------------------------------------------------------------ steps other than exits and enforcements

  predicate NewSignal(g: Signal, r: Request) {
    && g.at == r.now
    && if r.immediate then g.kind == Term && g.proc in r.reached else g.kind == AskDrain
  }

  /** A deadline or a kill time stays as it was, or was just set together with its signal. */
  predicate TimesKept(s: State, t: State, n: Name, p: Proc, r: Request) {
    && (DeadlineOf(t, n, p) == DeadlineOf(s, n, p)
        || (&& !r.immediate && DeadlineOf(s, n, p).None? && DeadlineOf(t, n, p) == Some(r.now + r.timeoutMs)
            && Signal(p, AskDrain, r.now) in t.os.signals))
    && (KillAtOf(t, n, p) == KillAtOf(s, n, p)
        || (&& r.immediate && p in r.reached && KillAtOf(s, n, p).None? && KillAtOf(t, n, p) == Some(r.now + 10_000)
            && Signal(p, Term, r.now) in t.os.signals))
  }

  predicate ChildrenStay(s: State, t: State) {
    forall n :: n in s.slots && s.slots[n].child.Some? ==> n in t.slots && t.slots[n].child == s.slots[n].child
  }

  ghost predicate AllTimesKept(s: State, t: State, r: Request) {
    forall n, p: Proc :: n in t.slots && t.slots[n].child == Some(p) ==> TimesKept(s, t, n, p, r)
  }

  ghost predicate Asks(s: State, t: State, r: Request) {
    && ChildrenStay(s, t) && AllTimesKept(s, t, r)
    && s.os.signals <= t.os.signals
    && forall g :: g in t.os.signals && g !in s.os.signals ==> NewSignal(g, r)
  }

  /** The process of n was told to leave: it has a time for SIGKILL, or a deadline. */
  predicate Told(s: State, t: State, n: Name, r: Request) {
    && n in s.slots && n in t.slots && s.slots[n].child.Some? && t.slots[n].child == s.slots[n].child && t.slots[n].draining
    && if r.immediate then t.slots[n].killAt.Some? else t.slots[n].drainDeadline.Some?
  }

  lemma AsksNothing(s: State, t: State, r: Request)
    requires t.slots == s.slots && t.os.signals == s.os.signals
    ensures Asks(s, t, r)
  {
  }

  lemma AsksSame(s: State, t: State, u: State, r: Request)
    requires Asks(s, t, r) && u.slots == t.slots && u.os == t.os
    ensures Asks(s, u, r)
  {
    forall n, p: Proc | n in u.slots && u.slots[n].child == Some(p) ensures TimesKept(s, u, n, p, r) {
      assert TimesKept(s, t, n, p, r);
    }
  }

  lemma AsksTwice(s: State, m: State, t: State, r: Request)
    requires Asks(s, m, r) && Asks(m, t, r)
    ensures Asks(s, t, r)
  {
    hide NewSignal;
    forall n, p: Proc | n in t.slots && t.slots[n].child == Some(p) ensures TimesKept(s, t, n, p, r) {
      assert TimesKept(m, t, n, p, r);
      if n in m.slots && m.slots[n].child == Some(p) { assert TimesKept(s, m, n, p, r); }
    }
  }

  /** One slot of the table is asked, or changes in other ways. */
  lemma OneAsked(s: State, t: State, name: Name, b: Slot, p: Proc, sent: set<Signal>, r: Request)
    requires name in s.slots && t.slots == s.slots[name := b] && t.os == s.os.(signals := s.os.signals + sent)
    requires Requested(s.slots[name].(profile := b.profile, state := b.state), b, p, sent, r)
    requires r.immediate ==> p in r.reached
    ensures Asks(s, t, r) && Told(s, t, name, r)
  {
  }

  /** A slot changes, but neither its process nor its times. */
  predicate SameTimes(a: Slot, b: Slot) {
    b.child == a.child && b.drainDeadline == a.drainDeadline && b.killAt == a.killAt
  }

  lemma OneUnasked(s: State, t: State, name: Name, b: Slot, r: Request)
    requires t.slots == s.slots[name := b] && t.os == s.os
    requires if name in s.slots then SameTimes(s.slots[name], b) else b.child.None?
    ensures Asks(s, t, r)
  {
  }

  lemma OneSpawned(s: State, t: State, name: Name, b: Slot, r: Request)
    requires (name in s.slots ==> s.slots[name].child.None?) && t.slots == s.slots[name := b]
            && t.os == Spawned(s.os, name)
    requires b.drainDeadline.None? && b.killAt.None?
    ensures Asks(s, t, r)
  {
  }

  lemma SpawnHasNoTimes(sl: Slot, proc: Proc, now: int)
    ensures var b := SpawnSlot(sl, proc, now); b.drainDeadline.None? && b.killAt.None? && b.profile == sl.profile
  {
  }

  lemma SpawnAsksNothing(s: State, sl: Slot, now: int, r: Request)
    requires sl.profile.name in s.slots ==> s.slots[sl.profile.name].child.None?
    ensures Asks(s, Spawn(s, sl, now), r)
  {
    SpawnHasNoTimes(sl, s.os.next, now);
    hide SpawnSlot, Asks;
    OneSpawned(s, Spawn(s, sl, now), sl.profile.name, SpawnSlot(sl, s.os.next, now), r);
  }

  // ------------------------------------------------------------------ draining several slots

  lemma SignalsAmong(slots: map<Name, Slot>, names: set<Name>, mode: Mode, now: int, n: Name)
    requires n in slots && n in names
    ensures DrainSignals(slots[n], mode, now) <= AllDrainSignals(slots, names, mode, now)
  {
    hide DrainSignals;
  }

  lemma NameTold(s: State, names: set<Name>, mode: Mode, n: Name, p: Proc, r: Request)
    requires SlotsOk(s) && r.immediate == mode.Immediate? && n in s.slots && s.slots[n].child == Some(p) && n in names
    requires r.immediate ==> p in r.reached
    ensures var t := DrainNames(s, names, mode, r.timeoutMs, r.now);
      Told(s, t, n, r) && TimesKept(s, t, n, p, r)
  {
    assert s.slots[n].termSent <==> s.slots[n].killAt.Some? by { assert SlotOk(n, s.slots[n]); }
    DrainIsRequest(s.slots[n], p, mode, r);
    SignalsAmong(s.slots, names, mode, r.now, n);
    hide BeginDrain, DrainSignals, AllDrainSignals, SlotsOk;
  }

  lemma NameUntold(s: State, names: set<Name>, mode: Mode, timeoutMs: int, now: int, n: Name, p: Proc, r: Request)
    requires n in s.slots && n !in names && s.slots[n].child == Some(p)
    ensures TimesKept(s, DrainNames(s, names, mode, timeoutMs, now), n, p, r)
  {
    hide BeginDrain, AllDrainSignals;
  }

  lemma NewDrainSignal(s: State, names: set<Name>, mode: Mode, g: Signal, r: Request)
    requires SlotsOk(s) && r.immediate == mode.Immediate? && (r.immediate ==> ChildrenOf(s, names) <= r.reached)
    requires g in AllDrainSignals(s.slots, names, mode, r.now)
    ensures NewSignal(g, r)
  {
    hide DrainSignals, BeginDrain, SlotOk;
    var n :| n in s.slots && n in names && g in DrainSignals(s.slots[n], mode, r.now);
    if s.slots[n].child.None? {
      NoChildNoRequest(s.slots[n], mode, r.timeoutMs, r.now);
    } else {
      var p := s.slots[n].child.value;
      assert s.slots[n].termSent <==> s.slots[n].killAt.Some? by { TermMeansKillTime(s, n); }
      DrainIsRequest(s.slots[n], p, mode, r);
      assert r.immediate ==> p in ChildrenOf(s, names);
    }
  }

  lemma TermMeansKillTime(s: State, n: Name)
    requires SlotsOk(s) && n in s.slots
    ensures s.slots[n].termSent <==> s.slots[n].killAt.Some?
  {
    assert SlotOk(n, s.slots[n]);
  }

  lemma DrainKeepsChildren(s: State, names: set<Name>, mode: Mode, timeoutMs: int, now: int)
    ensures var t := DrainNames(s, names, mode, timeoutMs, now);
      ChildrenStay(s, t) && t.slots.Keys == s.slots.Keys && forall n :: n in s.slots ==> t.slots[n].child == s.slots[n].child
  {
    forall n | n in s.slots ensures BeginDrain(s.slots[n], mode, timeoutMs, now).child == s.slots[n].child {
      DrainKeepsName(s.slots[n], mode, timeoutMs, now);
    }
    hide BeginDrain, AllDrainSignals;
  }

  lemma NamesAsk(s: State, names: set<Name>, mode: Mode, r: Request)
    requires SlotsOk(s) && r.immediate == mode.Immediate? && (r.immediate ==> ChildrenOf(s, names) <= r.reached)
    ensures Asks(s, DrainNames(s, names, mode, r.timeoutMs, r.now), r)
    ensures forall n :: n in names && n in s.slots && s.slots[n].child.Some? ==> Told(s, DrainNames(s, names, mode, r.timeoutMs, r.now), n, r)
  {
    hide *;
    var t := DrainNames(s, names, mode, r.timeoutMs, r.now);
    DrainKeepsChildren(s, names, mode, r.timeoutMs, r.now);
    forall n, p: Proc | n in s.slots && s.slots[n].child == Some(p)
      ensures TimesKept(s, t, n, p, r) && (n in names ==> Told(s, t, n, r))
    {
      if n in names {
        InChildren(s, names, n, p);
        NameTold(s, names, mode, n, p, r);
      } else {
        NameUntold(s, names, mode, r.timeoutMs, r.now, n, p, r);
      }
    }
    forall g | g in AllDrainSignals(s.slots, names, mode, r.now) ensures NewSignal(g, r) {
      NewDrainSignal(s, names, mode, g, r);
    }
    forall n | n in names && n in s.slots && s.slots[n].child.Some? ensures Told(s, t, n, r) {
      var p := s.slots[n].child.value;
      assert s.slots[n].child == Some(p);
    }
    DrainedSignals(s, names, mode, r.timeoutMs, r.now);
    AsksFrom(s, t, AllDrainSignals(s.slots, names, mode, r.now), r);
  }

  lemma InChildren(s: State, names: set<Name>, n: Name, p: Proc)
    requires n in names && n in s.slots && s.slots[n].child == Some(p)
    ensures p in ChildrenOf(s, names)
  {
  }

  lemma DrainedSignals(s: State, names: set<Name>, mode: Mode, timeoutMs: int, now: int)
    ensures DrainNames(s, names, mode, timeoutMs, now).os.signals == s.os.signals + AllDrainSignals(s.slots, names, mode, now)
  {
    hide BeginDrain, AllDrainSignals;
  }

  lemma AsksFrom(s: State, t: State, more: set<Signal>, r: Request)
    requires ChildrenStay(s, t) && t.slots.Keys == s.slots.Keys && forall n :: n in s.slots ==> t.slots[n].child == s.slots[n].child
    requires forall n, p: Proc :: n in s.slots && s.slots[n].child == Some(p) ==> TimesKept(s, t, n, p, r)
    requires t.os.signals == s.os.signals + more && forall g :: g in more ==> NewSignal(g, r)
    ensures Asks(s, t, r)
  {
    hide TimesKept, NewSignal;
  }

  // ------------------------------------------------------------------ reconcile

  lemma EnsuredAsksNothing(s: State, p: Profile, r: Request)
    ensures Asks(s, Ensured(s, p), r) && p.name in Ensured(s, p).slots
  {
    if p.name in s.slots {
      AsksNothing(s, Ensured(s, p), r);
    } else {
      hide Asks;
      OneUnasked(s, Ensured(s, p), p.name, NewSlot(s.nextUid, p), r);
    }
  }

  lemma RefreshedAsksNothing(s: State, p: Profile, now: int, r: Request)
    requires p.name in s.slots
    ensures Asks(s, WithSlot(s, Refreshed(s.slots[p.name], p, now)), r)
  {
    var b := Refreshed(s.slots[p.name], p, now);
    assert SameTimes(s.slots[p.name], b) && b.profile == p;
    hide Asks, Refreshed;
    OneUnasked(s, WithSlot(s, b), p.name, b, r);
  }

  /** What settles a slot is no request, or a safe one. */
  lemma SettleIsRequest(s: State, sl: Slot, r: Request)
    requires sl.profile.name in s.slots && s.slots[sl.profile.name] == sl && SlotOk(sl.profile.name, sl) && !r.immediate
    ensures var t := WithSignals(WithSlot(s, SettleSlot(sl, r.timeoutMs, r.now)), SettleSignals(sl, r.now));
      Asks(s, t, r)
  {
    var b, name := SettleSlot(sl, r.timeoutMs, r.now), sl.profile.name;
    var t := WithSignals(WithSlot(s, b), SettleSignals(sl, r.now));
    SettleKeepsProfile(sl, r.timeoutMs, r.now);
    if !sl.profile.enabled && sl.child.Some? && !sl.draining {
      DrainIsRequest(sl, sl.child.value, Safe, r);
      hide Asks, BeginDrain, DrainSignals, SlotOk;
      OneAsked(s, t, name, b, sl.child.value, DrainSignals(sl, Safe, r.now), r);
    } else {
      assert SettleSignals(sl, r.now) == {} && SameTimes(sl, b);
      hide Asks, SettleSlot, SettleSignals, SlotOk;
      assert t.os == s.os;
      OneUnasked(s, t, name, b, r);
    }
  }

  lemma AppliedAsks(s: State, sl: Slot, r: Request)
    requires sl.profile.name in s.slots && s.slots[sl.profile.name] == sl && SlotOk(sl.profile.name, sl)
    requires !r.immediate && r.timeoutMs == s.cfg.stopTimeoutMs
    ensures Asks(s, Applied(s, sl, r.now), r)
  {
    hide Asks, SlotOk, SettleSlot, SettleSignals, Spawn;
    if !sl.profile.enabled {
      SettleIsRequest(s, sl, r);
    } else if Starts(sl, s.shuttingDown, r.now) {
      SpawnAsksNothing(s, sl, r.now, r);
    } else {
      AsksNothing(s, s, r);
    }
  }

  lemma OneAsks(s: State, p: Profile, r: Request)
    requires SlotsOk(s) && !r.immediate && r.timeoutMs == s.cfg.stopTimeoutMs
    ensures Asks(s, ReconcileOne(s, p, r.now), r)
  {
    var e := Ensured(s, p);
    assert SlotOk(p.name, e.slots[p.name]) && e.cfg == s.cfg by {
      if p.name in s.slots { assert SlotOk(p.name, s.slots[p.name]); }
    }
    var sl := Refreshed(e.slots[p.name], p, r.now);
    RefreshedOk(e.slots[p.name], p, r.now);
    var m := WithSlot(e, sl);
    assert sl.profile == p && m.cfg == e.cfg;
    hide *;
    EnsuredAsksNothing(s, p, r);
    RefreshedAsksNothing(e, p, r.now, r);
    AsksTwice(s, e, m, r);
    UnderItsName(e, sl);
    AppliedAsks(m, sl, r);
    AsksTwice(s, m, Applied(m, sl, r.now), r);
    ReconcileParts(s, p, r.now);
  }

  lemma UnderItsName(s: State, sl: Slot)
    ensures sl.profile.name in WithSlot(s, sl).slots && WithSlot(s, sl).slots[sl.profile.name] == sl
  {
  }

  lemma {:induction false} ListAsks(s: State, ps: seq<Profile>, r: Request)
    requires Inv(s) && !r.immediate && r.timeoutMs == s.cfg.stopTimeoutMs
    ensures Asks(s, ReconcileList(s, ps, r.now), r)
  {
    hide Inv, Asks, ReconcileOne, SlotsOk;
    if ps == [] {
      AsksNothing(s, s, r);
    } else {
      var m := ReconcileList(s, ps[..|ps| - 1], r.now);
      ListAsks(s, ps[..|ps| - 1], r);
      ReconcileListKeepsInv(s, ps[..|ps| - 1], r.now);
      assert SlotsOk(m) by { InvSlots(m); }
      OneAsks(m, ps[|ps| - 1], r);
      AsksTwice(s, m, ReconcileOne(m, ps[|ps| - 1], r.now), r);
    }
  }

  lemma InvSlots(s: State)
    requires Inv(s)
    ensures SlotsOk(s)
  {
  }

  lemma DropAsksNothing(s: State, t: State, r: Request)
    requires t == s.(slots := t.slots)
    requires forall n :: n in t.slots ==> n in s.slots && t.slots[n] == s.slots[n]
    requires forall n :: n in s.slots && s.slots[n].child.Some? ==> n in t.slots
    ensures Asks(s, t, r)
  {
  }

  lemma SweepAsks(s: State, seen: set<Name>, r: Request)
    requires SlotsOk(s) && !r.immediate && r.timeoutMs == s.cfg.stopTimeoutMs
    ensures Asks(s, Sweep(s, seen, r.now), r)
  {
    var u := Unseen(s, seen);
    var d := DrainNames(s, u, Safe, r.timeoutMs, r.now);
    NamesAsk(s, u, Safe, r);
    DrainKeepsChildren(s, u, Safe, r.timeoutMs, r.now);
    hide Asks, DrainNames, SlotsOk;
    DropAsksNothing(d, Sweep(s, seen, r.now), r);
    AsksTwice(s, d, Sweep(s, seen, r.now), r);
  }

  lemma ReconcileAsks(s: State, ps: seq<Profile>, r: Request)
    requires Inv(s) && !r.immediate && r.timeoutMs == s.cfg.stopTimeoutMs
    ensures Asks(s, Reconcile(s, ps, r.now), r)
  {
    hide Inv, Asks, ReconcileList, SlotsOk, Sweep, NamesOf;
    var m := ReconcileList(s, ps, r.now);
    ListAsks(s, ps, r);
    ReconcileListKeepsInv(s, ps, r.now);
    InvSlots(m);
    SweepAsks(m, NamesOf(ps), r);
    AsksTwice(s, m, Reconcile(s, ps, r.now), r);
  }

  // ------------------------------------------------------------------ commands and shutdown

  /** The slot under a name is drained, perhaps with another profile. */
  lemma DrainedSlotAsks(s: State, t: State, name: Name, sl: Slot, mode: Mode, r: Request)
    requires SlotsOk(s) && name in s.slots && sl == s.slots[name].(profile := sl.profile) && sl.child.Some?
    requires r.immediate == mode.Immediate? && (r.immediate ==> sl.child.value in r.reached)
    requires t.slots == s.slots[name := BeginDrain(sl, mode, r.timeoutMs, r.now)]
    requires t.os == s.os.(signals := s.os.signals + DrainSignals(sl, mode, r.now))
    ensures Asks(s, t, r) && Told(s, t, name, r)
  {
    TermMeansKillTime(s, name);
    DrainIsRequest(sl, sl.child.value, mode, r);
    DrainKeepsName(sl, mode, r.timeoutMs, r.now);
    var b := BeginDrain(sl, mode, r.timeoutMs, r.now);
    assert Requested(s.slots[name].(profile := b.profile, state := b.state), b, sl.child.value, DrainSignals(sl, mode, r.now), r);
    hide Asks, Told, BeginDrain, DrainSignals, SlotsOk, Requested;
    OneAsked(s, t, name, b, sl.child.value, DrainSignals(sl, mode, r.now), r);
  }

  /** What a step asks, and that it asks everyone it should. */
  ghost predicate StepAsks(s: State, e: Event, t: State) {
    && Asks(s, t, RequestOf(s, e))
    && forall n :: n in Targets(s, e) ==> Told(s, t, n, RequestOf(s, e))
  }

  lemma RestartAsks(s: State, c: Command, found: Option<Name>, now: int)
    requires Inv(s)
    ensures StepAsks(s, CmdRestart(c, found, now), RestartProfile(s, c, found, now))
  {
    var e, t := CmdRestart(c, found, now), RestartProfile(s, c, found, now);
    var r := RequestOf(s, e);
    if found.None? || found.value !in s.slots || !s.slots[found.value].profile.enabled {
      MarkKeepsSlots(s, c.id, Failed);
      hide Inv, Asks, Told, Mark;
      AsksNothing(s, t, r);
    } else if s.slots[found.value].child.None? {
      RestartIdleAsks(s, c, found.value, now, r);
      hide Asks, Told, RestartProfile;
    } else {
      RestartBusyAsks(s, c, found.value, now);
    }
  }

  lemma RestartIdleAsks(s: State, c: Command, n: Name, now: int, r: Request)
    requires Inv(s) && n in s.slots && s.slots[n].profile.enabled && s.slots[n].child.None?
    ensures Asks(s, RestartProfile(s, c, Some(n), now), r)
  {
    SlotOfName(s, n);
    hide Inv, SlotOk, Asks, Spawn, Mark;
    var ready := s.slots[n].(backoffUntil := None);
    var m := if s.shuttingDown then WithSlot(s, ready) else Spawn(s, ready, now);
    MarkKeepsSlots(m, c.id, Done);
    if s.shuttingDown { OneUnasked(s, m, n, ready, r); } else { SpawnAsksNothing(s, ready, now, r); }
    AsksSame(s, m, RestartProfile(s, c, Some(n), now), r);
  }

  lemma RestartBusyAsks(s: State, c: Command, n: Name, now: int)
    requires Inv(s) && n in s.slots && s.slots[n].profile.enabled && s.slots[n].child.Some?
    ensures StepAsks(s, CmdRestart(c, Some(n), now), RestartProfile(s, c, Some(n), now))
  {
    var e, t := CmdRestart(c, Some(n), now), RestartProfile(s, c, Some(n), now);
    var r := RequestOf(s, e);
    InvSlots(s);
    SlotOfName(s, n);
    assert Targets(s, e) == {n};
    assert r.immediate ==> s.slots[n].child.value in r.reached;
    DrainKeepsName(s.slots[n], c.mode, c.timeoutMs, now);
    assert r.timeoutMs == c.timeoutMs && r.now == now && r.immediate == c.mode.Immediate?;
    hide Inv, SlotOk, SlotsOk, Asks, Told, BeginDrain, DrainSignals, Targets, RequestOf;
    DrainedSlotAsks(s, t, n, s.slots[n], c.mode, r);
  }

  lemma StopAsks(s: State, id: CmdId)
    requires Inv(s) && id in s.stops
    ensures StepAsks(s, StopWritten(id), ResumeStop(s, id))
  {
    var f := s.stops[id];
    var e, t, r := StopWritten(id), ResumeStop(s, id), RequestOf(s, StopWritten(id));
    var u := s.(stops := s.stops - {id});
    if !Attached(s, f) {
      MarkKeepsSlots(u, id, Done);
      hide Inv, Asks, Told, Mark;
      AsksNothing(s, t, r);
    } else {
      SlotOfName(s, f.name);
      InvSlots(s);
      var sl := s.slots[f.name].(profile := s.slots[f.name].profile.(enabled := false));
      if sl.child.None? {
        MarkKeepsSlots(WithSlot(u, sl), id, Done);
        hide Inv, SlotOk, SlotsOk, Asks, Told, Mark;
        OneUnasked(s, t, f.name, sl, r);
      } else {
        StopBusyAsks(s, id, sl);
      }
    }
  }

  lemma StopBusyAsks(s: State, id: CmdId, sl: Slot)
    requires Inv(s) && id in s.stops && Attached(s, s.stops[id])
            && s.slots[s.stops[id].name].profile.name == s.stops[id].name
    requires sl == s.slots[s.stops[id].name].(profile := s.slots[s.stops[id].name].profile.(enabled := false))
            && sl.child.Some?
    ensures StepAsks(s, StopWritten(id), ResumeStop(s, id))
  {
    var f := s.stops[id];
    var e, t, r := StopWritten(id), ResumeStop(s, id), RequestOf(s, StopWritten(id));
    InvSlots(s);
    assert Targets(s, e) == {f.name};
    assert r.immediate ==> sl.child.value in r.reached;
    DrainKeepsName(sl, f.command.mode, f.command.timeoutMs, f.now);
    assert r.timeoutMs == f.command.timeoutMs && r.now == f.now && r.immediate == f.command.mode.Immediate?;
    hide Inv, SlotsOk, Asks, Told, BeginDrain, DrainSignals, Targets, RequestOf;
    DrainedSlotAsks(s, t, f.name, sl, f.command.mode, r);
  }

  lemma StartAsks(s: State, id: CmdId)
    requires Inv(s) && id in s.starts
    ensures Asks(s, ResumeStart(s, id), RequestOf(s, StartWritten(id)))
  {
    var f := s.starts[id];
    var t, r := ResumeStart(s, id), RequestOf(s, StartWritten(id));
    var u := s.(starts := s.starts - {id});
    if !Attached(s, f) {
      var m := if s.shuttingDown then u else u.(os := Spawned(s.os, f.name));
      MarkKeepsSlots(m, id, Done);
      hide Inv, Asks, Mark;
      AsksNothing(s, t, r);
    } else {
      SlotOfName(s, f.name);
      var sl := s.slots[f.name].(profile := s.slots[f.name].profile.(enabled := true), backoffUntil := None);
      var m := if sl.child.None? && !s.shuttingDown then Spawn(u, sl, f.now) else WithSlot(u, sl);
      MarkKeepsSlots(m, id, Done);
      hide Inv, SlotOk, Asks, Mark, Spawn;
      if sl.child.None? && !s.shuttingDown {
        SpawnAsksNothing(u, sl, f.now, r);
        AsksNothing(s, u, r);
        AsksTwice(s, u, m, r);
      } else {
        OneUnasked(s, m, f.name, sl, r);
      }
      AsksSame(s, m, t, r);
    }
  }

  lemma ClearAsksNothing(s: State, t: State, idle: set<Name>, r: Request)
    requires t == s.(slots := map n | n in s.slots :: if n in idle then s.slots[n].(backoffUntil := None) else s.slots[n])
    ensures Asks(s, t, r)
  {
  }

  lemma RestartAllTargets(s: State, c: Command, now: int)
    ensures var e := CmdRestartAll(c, now);
      && Targets(s, e) == Hit(s) && RequestOf(s, e).timeoutMs == c.timeoutMs && RequestOf(s, e).now == now
      && RequestOf(s, e).immediate == c.mode.Immediate?
      && (c.mode.Immediate? ==> ChildrenOf(s, Hit(s)) <= RequestOf(s, e).reached)
      && forall n :: n in Hit(s) ==> n in s.slots && s.slots[n].child.Some? && n !in Idle(s)
  {
  }

  lemma ClearKeepsTold(s: State, d: State, m: State, idle: set<Name>, n: Name, r: Request)
    requires m == d.(slots := map k | k in d.slots :: if k in idle then d.slots[k].(backoffUntil := None) else d.slots[k])
    requires Told(s, d, n, r)
    ensures Told(s, m, n, r)
  {
  }

  lemma RestartAllAsks(s: State, c: Command, now: int)
    requires Inv(s)
    ensures StepAsks(s, CmdRestartAll(c, now), RestartAll(s, c, now))
  {
    var e, t, r := CmdRestartAll(c, now), RestartAll(s, c, now), RequestOf(s, CmdRestartAll(c, now));
    var d := DrainNames(s, Hit(s), c.mode, c.timeoutMs, now);
    var m := DrainAndClear(s, Hit(s), Idle(s), c.mode, c.timeoutMs, now);
    assert m == d.(slots := map k | k in d.slots :: if k in Idle(s) then d.slots[k].(backoffUntil := None) else d.slots[k]);
    hide *;
    InvSlots(s);
    RestartAllStep(s, c, now);
    RestartAllTargets(s, c, now);
    NamesAsk(s, Hit(s), c.mode, r);
    ClearAsksNothing(d, m, Idle(s), r);
    AsksTwice(s, d, m, r);
    AsksSame(s, m, t, r);
    forall n | n in Hit(s) ensures Told(s, t, n, r) {
      ClearKeepsTold(s, d, m, Idle(s), n, r);
      SameTold(s, m, t, n, r);
    }
    TogetherAsk(s, e, t);
  }

  lemma SameTold(s: State, m: State, t: State, n: Name, r: Request)
    requires Told(s, m, n, r) && t.slots == m.slots
    ensures Told(s, t, n, r)
  {
  }

  lemma TogetherAsk(s: State, e: Event, t: State)
    requires Asks(s, t, RequestOf(s, e)) && forall n :: n in Targets(s, e) ==> Told(s, t, n, RequestOf(s, e))
    ensures StepAsks(s, e, t)
  {
    hide Asks, Told, Targets, RequestOf;
  }

  lemma AllAsk(s: State, u: State, e: Event, mode: Mode)
    requires Inv(s) && (e.Shutdown? || e.CmdRestartSupervisor?) && mode == (if e.Shutdown? then Safe else e.c.mode)
    requires u == s.(shuttingDown := true)
    ensures StepAsks(s, e, DrainNames(u, WithChild(s), mode, TimeoutOf(s, e), e.now))
  {
    var r := RequestOf(s, e);
    var t := DrainNames(u, WithChild(s), mode, TimeoutOf(s, e), e.now);
    InvSlots(s);
    assert Targets(s, e) == WithChild(s) && r.timeoutMs == TimeoutOf(s, e) && r.now == e.now
            && r.immediate == mode.Immediate?;
    assert r.immediate ==> ChildrenOf(u, WithChild(s)) <= r.reached;
    assert forall n :: n in WithChild(s) ==> n in s.slots && s.slots[n].child.Some?;
    hide Inv, Asks, DrainNames, WithChild, Targets, RequestOf, ChildrenOf, SlotsAgree;
    NamesAsk(u, WithChild(s), mode, r);
    AsksNothing(s, u, r);
    AsksTwice(s, u, t, r);
  }

  /** Any step but an exit or an enforcement asks what its request says, and nothing else. */
  lemma NextAsks(s: State, e: Event)
    requires Inv(s) && Enabled(s, e) && !e.Exit? && !e.Enforce?
    ensures StepAsks(s, e, Next(s, e))
  {
    hide Inv, Asks, Told, Reconcile, RestartProfile, ResumeStop, ResumeStart, RestartAll, DrainNames, RestartSupervisor, WithChild;
    var t := Next(s, e);
    var r := RequestOf(s, e);
    match e
    case DoReconcile(ps, now) => ReconcileAsks(s, ps, r);
    case CmdRestart(c, found, now) => RestartAsks(s, c, found, now);
    case StopWritten(id) => StopAsks(s, id);
    case StartWritten(id) => StartAsks(s, id);
    case CmdRestartAll(c, now) => RestartAllAsks(s, c, now);
    case CmdRestartSupervisor(c, now) => RestartSupervisorAsks(s, c, now);
    case Shutdown(timeoutMs, now) => AllAsk(s, s.(shuttingDown := true), e, Safe);
    case _ => OtherAsks(s, e);
  }

  lemma RestartSupervisorAsks(s: State, c: Command, now: int)
    requires Inv(s)
    ensures StepAsks(s, CmdRestartSupervisor(c, now), RestartSupervisor(s, c, now))
  {
    var e, t := CmdRestartSupervisor(c, now), RestartSupervisor(s, c, now);
    var d := DrainNames(s.(shuttingDown := true), WithChild(s), c.mode, c.timeoutMs, now);
    AllAsk(s, s.(shuttingDown := true), e, c.mode);
    assert TimeoutOf(s, e) == c.timeoutMs;
    hide *;
    RestartSupervisorStep(s, c, now);
    SameStepAsks(s, e, d, t);
  }

  lemma SameStepAsks(s: State, e: Event, d: State, t: State)
    requires StepAsks(s, e, d) && t.slots == d.slots && t.os == d.os
    ensures StepAsks(s, e, t)
  {
    hide Asks, Told, Targets, RequestOf;
    AsksSame(s, d, t, RequestOf(s, e));
    forall n | n in Targets(s, e) ensures Told(s, t, n, RequestOf(s, e)) {
      SameTold(s, d, t, n, RequestOf(s, e));
    }
  }

  lemma OtherAsks(s: State, e: Event)
    requires Enabled(s, e)
    requires e.LoadConfig? || e.CmdStop? || e.CmdStart? || e.CmdError? || e.Finish? || e.ExitProcess?
    ensures StepAsks(s, e, Next(s, e))
  {
    OtherStepsKeepSlots(s, e);
    hide Next, Enabled, Asks;
    AsksNothing(s, Next(s, e), RequestOf(s, e));
  }

  lemma NextKeepsTimes(s: State, e: Event, n: Name, p: Proc)
    requires Inv(s) && Enabled(s, e) && !e.Exit? && !e.Enforce?
    requires n in Next(s, e).slots && Next(s, e).slots[n].child == Some(p)
    ensures TimesKept(s, Next(s, e), n, p, RequestOf(s, e))
  {
    hide Inv, Next, Enabled, TimesKept, RequestOf, Told, Targets;
    NextAsks(s, e);
  }

  lemma NextTells(s: State, e: Event, n: Name)
    requires Inv(s) && Enabled(s, e) && n in Targets(s, e)
    ensures Told(s, Next(s, e), n, RequestOf(s, e)) && !e.Exit? && !e.Enforce?
  {
    hide Inv, Next, Enabled, Asks, RequestOf, Told;
    NextAsks(s, e);
  }

  /**
   * Every process that a command or a shutdown asks to leave is asked: at once, or after its jobs, with a deadline unless it has
   * one already.
   */
  lemma TargetsAreTold(s: State, e: Event, n: Name, p: Proc)
    requires Inv(s) && Enabled(s, e) && n in Targets(s, e) && n in s.slots && s.slots[n].child == Some(p)
    ensures n in Next(s, e).slots
    ensures var a, b, now := s.slots[n], Next(s, e).slots[n], ClockOf(s, e);
      && b.child == Some(p) && b.draining
      && if IsImmediate(s, e) then
           if a.killAt.Some? then b.killAt == a.killAt
           else b.killAt == Some(now + 10_000) && Signal(p, Term, now) in Next(s, e).os.signals
         else
           if a.drainDeadline.Some? then b.drainDeadline == a.drainDeadline
           else b.drainDeadline == Some(now + TimeoutOf(s, e)) && Signal(p, AskDrain, now) in Next(s, e).os.signals
  {
    hide Inv, Next, Enabled, Targets, IsImmediate, ClockOf, TimeoutOf;
    NextTells(s, e, n);
    NextKeepsTimes(s, e, n, p);
  }

  // ------------------------------------------------------------------ exits and enforcements

  /** An exit sends nothing, and leaves the other slots alone. */
  lemma ExitAsksNothing(s: State, e: Event, n: Name, p: Proc)
    requires Inv(s) && e.Exit? && e.proc in s.os.live
    ensures Next(s, e).os.signals == s.os.signals
    ensures n in Next(s, e).slots && Next(s, e).slots[n].child == Some(p)
            ==> n in s.slots && s.slots[n] == Next(s, e).slots[n]
  {
    var name := s.os.born[e.proc];
    SlotOfName(s, name);
    ExitKeepsName(s.slots[name], e.code, e.now, s.cfg);
    hide Inv, SlotOk, ExitSlot;
  }

  /** In numbers, what an enforcement does to a slot with process p, and what it sends to p. */
  predicate Escalated(a: Slot, b: Slot, p: Proc, sent: set<Signal>, now: int) {
    && b.drainDeadline == a.drainDeadline
    && match a.killAt
       case None =>
         if a.drainDeadline.Some? && a.drainDeadline.value <= now then b.killAt == Some(now + 30_000) && sent == {Signal(p, Term, now)}
         else b.killAt.None? && sent == {}
       case Some(k) =>
         if k <= now then b.killAt == Some(now + 30_000) && sent == {Signal(p, Kill, now)} else b.killAt == Some(k) && sent == {}
  }

  lemma EnforceEscalates(n: Name, sl: Slot, p: Proc, now: int)
    requires SlotOk(n, sl) && sl.child == Some(p)
    ensures Escalated(sl, EnforceSlot(sl, now), p, EnforceSignals(sl, now), now)
  {
  }

  lemma NoChildNoSignal(sl: Slot, now: int)
    requires sl.child.None?
    ensures EnforceSignals(sl, now) == {}
  {
  }

  ghost predicate EnforcedOne(s: State, t: State, n: Name, p: Proc, now: int) {
    n in s.slots && n in t.slots && s.slots[n].child == t.slots[n].child == Some(p)
    && exists sent :: sent <= t.os.signals && Escalated(s.slots[n], t.slots[n], p, sent, now)
  }

  lemma NextEnforces(s: State, now: int, n: Name, p: Proc)
    requires Inv(s) && n in s.slots
    ensures var t := EnforceDeadlines(s, now);
      n in t.slots && t.slots[n].child == s.slots[n].child && (s.slots[n].child == Some(p) ==> EnforcedOne(s, t, n, p, now))
  {
    var t := EnforceDeadlines(s, now);
    SlotOfName(s, n);
    EnforceSlotOk(n, s.slots[n], now);
    assert t.slots[n] == EnforceSlot(s.slots[n], now);
    if s.slots[n].child == Some(p) {
      EnforceEscalates(n, s.slots[n], p, now);
      hide Inv, SlotOk, EnforceSlot, EnforceSignals, EnforceCommand, Escalated;
      assert EnforceSignals(s.slots[n], now) <= t.os.signals;
    }
  }

  lemma NextEnforced(s: State, e: Event, n: Name, p: Proc)
    requires Inv(s) && e.Enforce? && Enabled(s, e) && n in Next(s, e).slots && Next(s, e).slots[n].child == Some(p)
    ensures EnforcedOne(s, Next(s, e), n, p, e.now)
  {
    assert n in s.slots;
    hide Inv, EnforceDeadlines, EnforcedOne;
    NextEnforces(s, e.now, n, p);
  }

  lemma ExitIsEnabled(s: State, e: Event)
    requires Enabled(s, e) && e.Exit?
    ensures e.proc in s.os.live
  {
  }

  /** A signal that an enforcement sends goes to a process whose time has come. */
  lemma EnforceSends(s: State, now: int, g: Signal) returns (n: Name)
    requires Inv(s) && g in EnforceDeadlines(s, now).os.signals && g !in s.os.signals
    ensures n in s.slots && s.slots[n].child == Some(g.proc) && g.at == now
    ensures match g.kind
            case AskDrain => false
            case Term => s.slots[n].killAt.None? && s.slots[n].drainDeadline.Some? && s.slots[n].drainDeadline.value <= now
            case Kill => s.slots[n].killAt.Some? && s.slots[n].killAt.value <= now
  {
    n :| n in s.slots && g in EnforceSignals(s.slots[n], now);
    SlotOfName(s, n);
    hide Inv, EnforceDeadlines;
    if s.slots[n].child.Some? {
      EnforceEscalates(n, s.slots[n], s.slots[n].child.value, now);
    } else {
      NoChildNoSignal(s.slots[n], now);
    }
  }

  lemma SignalsStay(s: State, e: Event)
    requires Inv(s) && Enabled(s, e)
    ensures s.os.signals <= Next(s, e).os.signals
  {
    if e.Exit? {
      ExitAsksNothing(s, e, "", 0);
    } else if !e.Enforce? {
      NextAsks(s, e);
      hide Next, Enabled, Inv, AllTimesKept;
    }
  }

  // ------------------------------------------------------------------ every run: why SIGTERM

  /** Step k of the run sent g: a command reached its process at once, or an enforcement found its drain deadline passed. */
  ghost predicate TermDueAt(s: State, es: seq<Event>, k: nat, g: Signal)
    requires Feasible(s, es)
  {
    && k < |es| && Feasible(s, es[..k]) && Enabled(Run(s, es[..k]), es[k])
    && var a, e := Run(s, es[..k]), es[k];
       && g !in a.os.signals && g in Next(a, e).os.signals && g.at == ClockOf(a, e)
       && (|| (IsImmediate(a, e) && exists n :: n in Targets(a, e) && n in a.slots && a.slots[n].child == Some(g.proc))
           || (e.Enforce? && exists n :: n in a.slots && a.slots[n].child == Some(g.proc) && a.slots[n].drainDeadline.Some?
                                         && a.slots[n].drainDeadline.value <= e.now))
  }

  lemma TermDue(a: State, e: Event, g: Signal)
    requires Inv(a) && Enabled(a, e) && g in Next(a, e).os.signals && g !in a.os.signals && g.kind == Term
    ensures g.at == ClockOf(a, e)
    ensures || (IsImmediate(a, e) && exists n :: n in Targets(a, e) && n in a.slots && a.slots[n].child == Some(g.proc))
            || (e.Enforce? && exists n :: n in a.slots && a.slots[n].child == Some(g.proc) && a.slots[n].drainDeadline.Some?
                                          && a.slots[n].drainDeadline.value <= e.now)
  {
    if e.Exit? {
      ExitAsksNothing(a, e, "", 0);
    } else if e.Enforce? {
      var n := EnforceSends(a, e.now, g);
    } else {
      NextAsks(a, e);
      hide Inv, Next, Enabled, AllTimesKept, Targets, IsImmediate, ClockOf;
      assert NewSignal(g, RequestOf(a, e));
    }
  }

  /** In every run: a SIGTERM was due when it was sent. */
  lemma {:induction false} TermIsDue(es: seq<Event>, g: Signal) returns (k: nat)
    requires Feasible(INITIAL, es) && g in Run(INITIAL, es).os.signals && g.kind == Term
    ensures TermDueAt(INITIAL, es, k, g)
    decreases |es|
  {
    hide Inv, Next, Enabled, Feasible, Run, IsImmediate, Targets, ClockOf;
    NoSignalYet(es, g);
    LastStep(INITIAL, es);
    var m := |es| - 1;
    var a := Run(INITIAL, es[..m]);
    InitialInv();
    RunKeepsInv(INITIAL, es[..m]);
    if g in a.os.signals {
      k := TermIsDue(es[..m], g);
      assert es[..m][..k] == es[..k] && es[..m][k] == es[k];
    } else {
      TermDue(a, es[m], g);
      k := m;
    }
  }

  lemma NoSignalYet(es: seq<Event>, g: Signal)
    requires Feasible(INITIAL, es) && g in Run(INITIAL, es).os.signals
    ensures es != []
  {
  }

  // ------------------------------------------------------------------ every run: a deadline was told

  /** Step k of the run set the drain deadline d of process p and asked it to leave after its jobs. */
  ghost predicate AskedAt(s: State, es: seq<Event>, k: nat, n: Name, p: Proc, d: int)
    requires Feasible(s, es)
  {
    && k < |es| && Feasible(s, es[..k]) && Enabled(Run(s, es[..k]), es[k])
    && var a, e := Run(s, es[..k]), es[k];
       && DeadlineOf(a, n, p).None? && DeadlineOf(Next(a, e), n, p) == Some(d) && d == ClockOf(a, e) + TimeoutOf(a, e)
       && !IsImmediate(a, e) && Signal(p, AskDrain, ClockOf(a, e)) in Run(s, es).os.signals
  }

  /** A step keeps a deadline, or sets it and asks. */
  lemma DeadlineStep(a: State, e: Event, n: Name, p: Proc)
    requires Inv(a) && Enabled(a, e) && n in Next(a, e).slots && Next(a, e).slots[n].child == Some(p)
    ensures var t := Next(a, e);
      || DeadlineOf(t, n, p) == DeadlineOf(a, n, p)
      || (&& DeadlineOf(a, n, p).None? && DeadlineOf(t, n, p) == Some(ClockOf(a, e) + TimeoutOf(a, e)) && !IsImmediate(a, e)
          && Signal(p, AskDrain, ClockOf(a, e)) in t.os.signals)
  {
    hide Inv, Next, Enabled, ClockOf, TimeoutOf, IsImmediate;
    if e.Exit? {
      ExitIsEnabled(a, e);
      ExitAsksNothing(a, e, n, p);
    } else if e.Enforce? {
      NextEnforced(a, e, n, p);
    } else {
      NextKeepsTimes(a, e, n, p);
    }
  }

  /** In every run: a process with a drain deadline was asked to leave after its jobs when the deadline was set. */
  lemma {:induction false} DeadlineWasTold(es: seq<Event>, n: Name, p: Proc, d: int) returns (k: nat)
    requires Feasible(INITIAL, es) && DeadlineOf(Run(INITIAL, es), n, p) == Some(d)
    ensures AskedAt(INITIAL, es, k, n, p, d)
    decreases |es|
  {
    hide Inv, Next, Enabled, Feasible, Run, IsImmediate, ClockOf, TimeoutOf;
    NoSlotYet(es, n, p);
    LastStep(INITIAL, es);
    var m := |es| - 1;
    var a := Run(INITIAL, es[..m]);
    InitialInv();
    RunKeepsInv(INITIAL, es[..m]);
    DeadlineStep(a, es[m], n, p);
    SignalsStay(a, es[m]);
    if DeadlineOf(a, n, p) == Some(d) {
      k := DeadlineWasTold(es[..m], n, p, d);
      assert es[..m][..k] == es[..k] && es[..m][k] == es[k];
    } else {
      k := m;
    }
  }

  lemma NoSlotYet(es: seq<Event>, n: Name, p: Proc)
    requires Feasible(INITIAL, es) && DeadlineOf(Run(INITIAL, es), n, p).Some?
    ensures es != []
  {
  }

  // ------------------------------------------------------------------ every run: SIGKILL comes late

  /** The processes that immediate requests of the run reached. */
  function Touched(s: State, es: seq<Event>): set<Proc>
    requires Feasible(s, es)
    decreases |es|
  {
    if es == [] then {} else ReachedBy(s, es[0]) + Touched(Next(s, es[0]), es[1..])
  }

  /** What a process gets between SIGTERM and SIGKILL: 10 s if an immediate request reached it, else 30 s. */
  function Grace(p: Proc, touched: set<Proc>): int {
    if p in touched then 10_000 else 30_000
  }

  ghost predicate TermBy(s: State, p: Proc, at: int) {
    exists h :: h in s.os.signals && h.proc == p && h.kind == Term && h.at <= at
  }

  /** SIGKILL, sent or due, comes at least the grace time after a SIGTERM. */
  ghost predicate KillsLate(s: State, touched: set<Proc>) {
    && (forall g :: g in s.os.signals && g.kind == Kill ==> TermBy(s, g.proc, g.at - Grace(g.proc, touched)))
    && (forall n, p: Proc :: n in s.slots && s.slots[n].child == Some(p) && s.slots[n].killAt.Some? ==>
          TermBy(s, p, s.slots[n].killAt.value - Grace(p, touched)))
  }

  lemma TermByStays(s: State, t: State, p: Proc, at: int, later: int)
    requires TermBy(s, p, at) && s.os.signals <= t.os.signals && at <= later
    ensures TermBy(t, p, later)
  {
    var h :| h in s.os.signals && h.proc == p && h.kind == Term && h.at <= at;
    assert h in t.os.signals;
  }

  /** The time of SIGKILL after a step: as before, or with its SIGTERM, or put off by an enforcement that sent SIGKILL. */
  lemma KillTimeStep(a: State, e: Event, n: Name, p: Proc)
    requires Inv(a) && Enabled(a, e) && n in Next(a, e).slots && Next(a, e).slots[n].child == Some(p)
    ensures var t, before, after := Next(a, e), KillAtOf(a, n, p), KillAtOf(Next(a, e), n, p);
      || after == before
      || (&& !e.Enforce? && p in ReachedBy(a, e) && before.None?
          && after == Some(ClockOf(a, e) + 10_000) && Signal(p, Term, ClockOf(a, e)) in t.os.signals)
      || (e.Enforce? && after == Some(e.now + 30_000)
          && if before.Some? then before.value <= e.now else Signal(p, Term, e.now) in t.os.signals)
  {
    hide Inv, Next, Enabled, ClockOf, TimeoutOf, IsImmediate, ReachedBy;
    if e.Exit? {
      ExitIsEnabled(a, e);
      ExitAsksNothing(a, e, n, p);
    } else if e.Enforce? {
      NextEnforced(a, e, n, p);
    } else {
      NextKeepsTimes(a, e, n, p);
    }
  }

  lemma NextKillsLate(s: State, e: Event, touched: set<Proc>)
    requires Inv(s) && Enabled(s, e) && KillsLate(s, touched)
    ensures KillsLate(Next(s, e), touched + ReachedBy(s, e))
  {
    hide Inv, Next, Enabled, ReachedBy, TermBy, ClockOf;
    var t, more := Next(s, e), touched + ReachedBy(s, e);
    SignalsStay(s, e);
    forall g | g in t.os.signals && g.kind == Kill ensures TermBy(t, g.proc, g.at - Grace(g.proc, more)) {
      if g in s.os.signals {
        TermByStays(s, t, g.proc, g.at - Grace(g.proc, touched), g.at - Grace(g.proc, more));
      } else {
        KillWasDue(s, e, g, touched);
        TermByStays(s, t, g.proc, g.at - Grace(g.proc, touched), g.at - Grace(g.proc, more));
      }
    }
    forall n, p: Proc | n in t.slots && t.slots[n].child == Some(p) && t.slots[n].killAt.Some?
      ensures TermBy(t, p, t.slots[n].killAt.value - Grace(p, more))
    {
      KillTimeStep(s, e, n, p);
      var k := t.slots[n].killAt.value;
      if KillAtOf(s, n, p).Some? {
        TermByStays(s, t, p, KillAtOf(s, n, p).value - Grace(p, touched), k - Grace(p, more));
      } else {
        SentBy(t, Signal(p, Term, if e.Enforce? then e.now else ClockOf(s, e)), k - Grace(p, more));
      }
    }
  }

  lemma SentBy(s: State, h: Signal, at: int)
    requires h in s.os.signals && h.kind == Term && h.at <= at
    ensures TermBy(s, h.proc, at)
  {
  }

  /** Only enforcements send SIGKILL. */
  lemma KillNeedsEnforce(s: State, e: Event, g: Signal)
    requires Inv(s) && Enabled(s, e) && !e.Enforce? && g in Next(s, e).os.signals && g.kind == Kill
    ensures g in s.os.signals
  {
    if e.Exit? {
      ExitAsksNothing(s, e, "", 0);
    } else {
      NextAsks(s, e);
      hide Inv, Next, Enabled, AllTimesKept, RequestOf;
    }
  }

  /** A SIGKILL is sent only when its time has come. */
  lemma KillWasDue(s: State, e: Event, g: Signal, touched: set<Proc>)
    requires Inv(s) && Enabled(s, e) && KillsLate(s, touched) && g in Next(s, e).os.signals && g !in s.os.signals
            && g.kind == Kill
    ensures e.Enforce? && TermBy(s, g.proc, g.at - Grace(g.proc, touched))
  {
    if e.Enforce? {
      var n := EnforceSends(s, e.now, g);
      var k := s.slots[n].killAt.value;
      hide Inv, Next, Enabled;
      TermByStays(s, s, g.proc, k - Grace(g.proc, touched), g.at - Grace(g.proc, touched));
    } else {
      KillNeedsEnforce(s, e, g);
    }
  }

  lemma {:induction false} RunKillsLate(s: State, es: seq<Event>, touched: set<Proc>)
    requires Inv(s) && Feasible(s, es) && KillsLate(s, touched)
    ensures KillsLate(Run(s, es), touched + Touched(s, es))
    decreases |es|
  {
    hide Inv, Next, Enabled, KillsLate, ReachedBy;
    if es == [] {
      assert touched + Touched(s, es) == touched;
    } else {
      NextKillsLate(s, es[0], touched);
      NextKeepsInv(s, es[0]);
      RunKillsLate(Next(s, es[0]), es[1..], touched + ReachedBy(s, es[0]));
      assert touched + ReachedBy(s, es[0]) + Touched(Next(s, es[0]), es[1..]) == touched + Touched(s, es);
    }
  }

  /**
   * In every run, whatever its clock readings: a SIGKILL follows a SIGTERM of the same process by at least 10 s, and by at least
   * 30 s when no immediate request of the run reached the process.
   */
  lemma KillsComeLate(es: seq<Event>, g: Signal) returns (h: Signal)
    requires Feasible(INITIAL, es) && g in Run(INITIAL, es).os.signals && g.kind == Kill
    ensures h in Run(INITIAL, es).os.signals && h.proc == g.proc && h.kind == Term && h.at + 10_000 <= g.at
    ensures g.proc !in Touched(INITIAL, es) ==> h.at + 30_000 <= g.at
  {
    assert KillsLate(INITIAL, {});
    InitialInv();
    hide Inv, Feasible, Run, Touched;
    RunKillsLate(INITIAL, es, {});
    var s := Run(INITIAL, es);
    assert {} + Touched(INITIAL, es) == Touched(INITIAL, es);
    var at := g.at - Grace(g.proc, Touched(INITIAL, es));
    assert TermBy(s, g.proc, at);
    h :| h in s.os.signals && h.proc == g.proc && h.kind == Term && h.at <= at;
  }
}
