/** Crash loops: a worker that keeps crashing is restarted ever more slowly, and the slowdown adds up over a whole run. */
module SupervisorBackoff {
  import opened Wrappers
  import opened SupervisorModel
  import opened SupervisorSafety
  import opened SupervisorTiming

  /** The waits after the crashes number from + 1, ..., to, when the configured maximum never falls below maxMs. */
  function Delays(from: nat, to: nat, maxMs: int): int
    decreases to
  {
    if to <= from then 0 else Delays(from, to - 1, maxMs) + BackoffDelay(to, maxMs)
  }

  /**
   * The state of a slot that had `crashed` crashes and `spawned` spawns when its process of time t0 was started, and has
   * seen nothing but unstable crashes since.
   */
  predicate Crashing(sl: Slot, t0: int, crashed: nat, spawned: nat, maxMs: int) {
    && sl.crashes >= crashed && !sl.draining
    && match sl.child
       case Some(_) =>
         && sl.startedAt.Some? && sl.startedAt.value >= t0 + Delays(crashed, sl.crashes, maxMs)
         && sl.spawnCount == spawned + (sl.crashes - crashed)
         && (sl.state.Starting? || sl.state.Running?)
       case None =>
         && sl.crashes > crashed
         && sl.backoffUntil.Some? && sl.backoffUntil.value >= t0 + Delays(crashed, sl.crashes, maxMs)
         && sl.spawnCount + 1 == spawned + (sl.crashes - crashed)
         && sl.state == (if sl.crashes >= CRASH_LOOP_AFTER then CrashLoop else Backoff)
  }

  ghost predicate CrashingAt(s: State, n: Name, t0: int, crashed: nat, spawned: nat, maxMs: int) {
    n in s.slots && Crashing(s.slots[n], t0, crashed, spawned, maxMs)
  }

  /**
   * Steps without operator commands or shutdown, in which n stays listed and enabled, the configured maximum is at
   * least maxMs, and every exit of n's process is a crash before it ran stably.
   */
  predicate UnstableStep(s: State, e: Event, n: Name, maxMs: int) {
    match e
    case LoadConfig(cfg) => cfg.backoffMaxMs >= maxMs
    case DoReconcile(ps, _) => n in NamesOf(ps) && forall i :: 0 <= i < |ps| && ps[i].name == n ==> ps[i].enabled
    case Exit(proc, code, now) =>
      n in s.slots && s.slots[n].child == Some(proc) ==>
        IsCrash(s.slots[n], code, now) && 0 <= Uptime(s.slots[n], now) < STABLE_MS
    case Enforce(_) => true
    case CmdError(_) => true
    case Finish(_) => true
    case _ => false
  }

  predicate UnstableRun(s: State, es: seq<Event>, n: Name, maxMs: int)
    requires Feasible(s, es)
    decreases |es|
  {
    es == [] || (UnstableStep(s, es[0], n, maxMs) && UnstableRun(Next(s, es[0]), es[1..], n, maxMs))
  }

  /** Until the maximum is reached the waits double, so they add up to 1000 * (2^k - 1) ms after k crashes. */
  lemma {:induction false} WaitsDouble(k: nat, maxMs: int)
    requires k >= 1 ==> 1000 * Pow2(k - 1) <= maxMs
    ensures Delays(0, k, maxMs) == 1000 * (Pow2(k) - 1)
  {
    if k >= 2 { assert Pow2(k - 1) == 2 * Pow2(k - 2); }
    if k >= 1 { WaitsDouble(k - 1, maxMs); }
  }

  // ------------------------------------------------------------------ one slot

  lemma DelayGrowsWithMaximum(k: nat, a: int, b: int)
    requires k >= 1 && a <= b
    ensures BackoffDelay(k, a) <= BackoffDelay(k, b)
  {
  }

  lemma CrashKeepsCrashing(sl: Slot, code: Option<int>, now: int, cfg: Config, t0: int, crashed: nat, spawned: nat,
                           maxMs: int)
    requires Crashing(sl, t0, crashed, spawned, maxMs) && sl.child.Some? && cfg.backoffMaxMs >= maxMs
    requires IsCrash(sl, code, now) && 0 <= Uptime(sl, now) < STABLE_MS
    ensures Crashing(ExitSlot(sl, code, now, cfg), t0, crashed, spawned, maxMs)
  {
    DelayGrowsWithMaximum(sl.crashes + 1, maxMs, cfg.backoffMaxMs);
    hide BackoffDelay;
  }

  /** The slot a reconcile of an enabled profile leaves. */
  function ReconciledSlot(sl: Slot, p: Profile, proc: Proc, shuttingDown: bool, stopTimeoutMs: int, now: int): Slot {
    var r := Refreshed(sl, p, now);
    if Starts(r, shuttingDown, now) then SpawnSlot(r, proc, now) else SettleSlot(r, stopTimeoutMs, now)
  }

  lemma ReconcileKeepsCrashing(sl: Slot, p: Profile, proc: Proc, shuttingDown: bool, stopTimeoutMs: int, now: int,
                               t0: int, crashed: nat, spawned: nat, maxMs: int)
    requires Crashing(sl, t0, crashed, spawned, maxMs) && p.enabled
    ensures Crashing(ReconciledSlot(sl, p, proc, shuttingDown, stopTimeoutMs, now), t0, crashed, spawned, maxMs)
  {
    hide Delays;
  }

  lemma EnforceKeepsCrashing(sl: Slot, now: int, t0: int, crashed: nat, spawned: nat, maxMs: int)
    requires Crashing(sl, t0, crashed, spawned, maxMs)
    ensures Crashing(EnforceSlot(sl, now), t0, crashed, spawned, maxMs)
  {
    hide Delays;
  }

  // ------------------------------------------------------------------ one step

  lemma OneCrashing(s: State, p: Profile, now: int, n: Name, t0: int, crashed: nat, spawned: nat, maxMs: int)
    requires CrashingAt(s, n, t0, crashed, spawned, maxMs) && (p.name == n ==> p.enabled)
    ensures CrashingAt(ReconcileOne(s, p, now), n, t0, crashed, spawned, maxMs)
  {
    var e := Ensured(s, p);
    var sl := Refreshed(e.slots[p.name], p, now);
    EnsuredKeepsSlot(s, p, n);
    assert sl.profile.name == p.name && SettleSlot(sl, s.cfg.stopTimeoutMs, now).profile == sl.profile;
    if p.name == n {
      ReconcileKeepsCrashing(s.slots[n], p, e.os.next, s.shuttingDown, s.cfg.stopTimeoutMs, now, t0, crashed, spawned, maxMs);
    }
    hide Crashing, Ensured, Refreshed, SettleSlot, SpawnSlot, Starts, ReconcileOne;
    ReconcileOneSlots(s, e, sl, p, now);
  }

  lemma {:induction false} ListCrashing(s: State, ps: seq<Profile>, now: int, n: Name, t0: int, crashed: nat,
                                        spawned: nat, maxMs: int)
    requires CrashingAt(s, n, t0, crashed, spawned, maxMs)
    requires forall i :: 0 <= i < |ps| && ps[i].name == n ==> ps[i].enabled
    ensures CrashingAt(ReconcileList(s, ps, now), n, t0, crashed, spawned, maxMs)
  {
    hide CrashingAt, ReconcileOne;
    if ps != [] {
      ListCrashing(s, ps[..|ps| - 1], now, n, t0, crashed, spawned, maxMs);
      OneCrashing(ReconcileList(s, ps[..|ps| - 1], now), ps[|ps| - 1], now, n, t0, crashed, spawned, maxMs);
    }
  }

  lemma SweepCrashing(s: State, seen: set<Name>, now: int, n: Name)
    requires n in s.slots && n in seen
    ensures n in Sweep(s, seen, now).slots && Sweep(s, seen, now).slots[n] == s.slots[n]
  {
    hide BeginDrain, AllDrainSignals;
  }

  lemma ReconcileCrashing(s: State, ps: seq<Profile>, now: int, n: Name, t0: int, crashed: nat, spawned: nat,
                          maxMs: int)
    requires CrashingAt(s, n, t0, crashed, spawned, maxMs) && n in NamesOf(ps)
    requires forall i :: 0 <= i < |ps| && ps[i].name == n ==> ps[i].enabled
    ensures CrashingAt(Reconcile(s, ps, now), n, t0, crashed, spawned, maxMs)
  {
    ListCrashing(s, ps, now, n, t0, crashed, spawned, maxMs);
    hide Crashing, ReconcileList, Sweep, NamesOf;
    SweepCrashing(ReconcileList(s, ps, now), NamesOf(ps), now, n);
  }

  lemma ExitCrashing(s: State, proc: Proc, code: Option<int>, now: int, n: Name, t0: int, crashed: nat, spawned: nat,
                     maxMs: int)
    requires CrashingAt(s, n, t0, crashed, spawned, maxMs) && s.cfg.backoffMaxMs >= maxMs && Inv(s) && proc in s.os.live
    requires UnstableStep(s, Exit(proc, code, now), n, maxMs)
    ensures CrashingAt(ChildExits(s, proc, code, now), n, t0, crashed, spawned, maxMs)
  {
    if s.slots[n].child == Some(proc) {
      CrashKeepsCrashing(s.slots[n], code, now, s.cfg, t0, crashed, spawned, maxMs);
    }
    SlotOfName(s, s.os.born[proc]);
    ExitKeepsName(s.slots[s.os.born[proc]], code, now, s.cfg);
    hide Inv, Crashing, ExitSlot, IsCrash, Uptime;
    ExitSlots(s, proc, code, now, n);
  }

  lemma ExitSlots(s: State, proc: Proc, code: Option<int>, now: int, n: Name)
    requires n in s.slots && proc in s.os.born && s.os.born[proc] in s.slots
    requires ExitSlot(s.slots[s.os.born[proc]], code, now, s.cfg).profile.name == s.os.born[proc]
    ensures var t := ChildExits(s, proc, code, now);
      n in t.slots && (t.slots[n] == s.slots[n] || (s.slots[n].child == Some(proc) && t.slots[n] == ExitSlot(s.slots[n], code, now, s.cfg)))
  {
    hide ExitSlot;
  }

  lemma EnforceCrashing(s: State, now: int, n: Name, t0: int, crashed: nat, spawned: nat, maxMs: int)
    requires CrashingAt(s, n, t0, crashed, spawned, maxMs)
    ensures CrashingAt(EnforceDeadlines(s, now), n, t0, crashed, spawned, maxMs)
  {
    EnforceKeepsCrashing(s.slots[n], now, t0, crashed, spawned, maxMs);
    hide Crashing, EnforceSlot, EnforceSignals, EnforceCommand;
  }

  lemma NextCrashing(s: State, e: Event, n: Name, t0: int, crashed: nat, spawned: nat, maxMs: int)
    requires Inv(s) && Enabled(s, e) && UnstableStep(s, e, n, maxMs)
    requires CrashingAt(s, n, t0, crashed, spawned, maxMs) && s.cfg.backoffMaxMs >= maxMs
    ensures CrashingAt(Next(s, e), n, t0, crashed, spawned, maxMs) && Next(s, e).cfg.backoffMaxMs >= maxMs
  {
    if !e.LoadConfig? { NextConfig(s, e, n, maxMs); }
    hide Inv, Crashing, Reconcile, ChildExits, EnforceDeadlines, FinishOne, IsCrash, Uptime, NamesOf;
    match e
    case DoReconcile(ps, now) => ReconcileCrashing(s, ps, now, n, t0, crashed, spawned, maxMs);
    case Exit(proc, code, now) => ExitCrashing(s, proc, code, now, n, t0, crashed, spawned, maxMs);
    case Enforce(now) => EnforceCrashing(s, now, n, t0, crashed, spawned, maxMs);
    case _ => OtherStepsKeepSlots(s, e);
  }

  lemma NextConfig(s: State, e: Event, n: Name, maxMs: int)
    requires Inv(s) && Enabled(s, e) && UnstableStep(s, e, n, maxMs) && !e.LoadConfig?
    ensures Next(s, e).cfg == s.cfg
  {
    hide ReconcileList, ExitSlot, EnforceSlot, EnforceCommand, EnforceSignals, BeginDrain, AllDrainSignals, TargetsReached, NamesOf;
    if e.DoReconcile? { ReconcileListKeepsInv(s, e.profiles, e.now); }
    hide Inv;
  }

  lemma {:induction false} RunCrashing(s: State, es: seq<Event>, n: Name, t0: int, crashed: nat, spawned: nat,
                                       maxMs: int)
    requires Inv(s) && Feasible(s, es) && UnstableRun(s, es, n, maxMs)
    requires CrashingAt(s, n, t0, crashed, spawned, maxMs) && s.cfg.backoffMaxMs >= maxMs
    ensures CrashingAt(Run(s, es), n, t0, crashed, spawned, maxMs)
    decreases |es|
  {
    hide Inv, Next, Enabled, CrashingAt, UnstableStep;
    if es != [] {
      NextKeepsInv(s, es[0]);
      NextCrashing(s, es[0], n, t0, crashed, spawned, maxMs);
      RunCrashing(Next(s, es[0]), es[1..], n, t0, crashed, spawned, maxMs);
    }
  }

  /**
   * Start from a worker running since t0 with no crash behind it. However the run goes on, as long as it only crashes
   * unstably: its k-th respawn (k = spawns since) started no earlier than t0 plus the sum of the first k waits, and a
   * slot without a process shows CRASH_LOOP exactly when it has crashed at least five times.
   */
  lemma RespawnsSlowDown(s: State, es: seq<Event>, n: Name, maxMs: int)
    requires Inv(s) && Feasible(s, es) && UnstableRun(s, es, n, maxMs) && s.cfg.backoffMaxMs >= maxMs
    requires n in s.slots && s.slots[n].child.Some? && !s.slots[n].draining && s.slots[n].crashes == 0
    ensures n in Run(s, es).slots
    ensures var a, b := s.slots[n], Run(s, es).slots[n];
      && b.spawnCount >= a.spawnCount
      && var respawns := b.spawnCount - a.spawnCount;
      && b.crashes == (if b.child.Some? then respawns else respawns + 1)
      && (b.child.Some? ==> b.startedAt.Some? && b.startedAt.value >= a.startedAt.value + Delays(0, respawns, maxMs))
      && (b.child.None? ==> b.backoffUntil.Some? && b.backoffUntil.value >= a.startedAt.value + Delays(0, respawns + 1, maxMs))
      && (b.state.CrashLoop? <==> b.child.None? && b.crashes >= CRASH_LOOP_AFTER)
  {
    var a := s.slots[n];
    SlotOfName(s, n);
    assert Crashing(a, a.startedAt.value, 0, a.spawnCount, maxMs);
    hide Inv, Feasible, Run, UnstableRun, Delays;
    RunCrashing(s, es, n, a.startedAt.value, 0, a.spawnCount, maxMs);
  }
}
