/**
 * The status of a command in the table while a supervisor carries it out (src/supervisor/core.ts:278-395 on
 * src/supervisor/db.ts:53-85): when it leaves the state machine of src/server/worker/commands.ts, and how it ends.
 */
module SupervisorStatus {
  import opened Wrappers
  import opened SupervisorModel
  import opened SupervisorSafety
  import opened SupervisorOutcomes
  import C = CommandTable

  /**
   * The supervisor, and what has reached the table: the commands whose progress was written, and the final statuses. The
   * write of DRAINING or APPLYING is a step of its own: it comes after the command became active, and never comes when the
   * database is out of reach. A final status may be lost on the way. In the end the next supervisor takes over.
   */
  datatype Joint = Joint(sup: State, progressed: set<CmdId>, finals: map<CmdId, Outcome>, over: bool)

  /** reached says whether the final status that the step writes, if any, reaches the table. */
  datatype JointEvent = Sup(e: Event, reached: bool) | ProgressWritten(id: CmdId) | Succession

  predicate CanHappen(j: Joint, e: JointEvent) {
    && !j.over
    && match e
       case Sup(step, _) => Enabled(j.sup, step)
       case ProgressWritten(id) => id in j.sup.commands
       case Succession => true
  }

  /** The state with no outcome written, so that the next step writes whatever it wants to. */
  function Unwritten(s: State): State {
    s.(outcomes := map[])
  }

  /** The final statuses that a step writes, whether the table takes them or not. */
  function Attempted(s: State, e: Event): map<CmdId, Outcome>
    requires Enabled(s, e)
  {
    Next(Unwritten(s), e).outcomes
  }

  /** Commands that this supervisor has accepted. */
  function Known(s: State): set<CmdId> {
    s.commands.Keys + s.outcomes.Keys + s.stops.Keys + s.starts.Keys
  }

  /** A final status in the table is never overwritten; at its start the next supervisor fails what is still open. */
  function After(j: Joint, e: JointEvent): Joint
    requires CanHappen(j, e)
  {
    match e
    case Sup(step, reached) =>
      j.(sup := Next(j.sup, step), finals := if reached then Attempted(j.sup, step) + j.finals else j.finals)
    case ProgressWritten(id) => if id in j.finals then j else j.(progressed := j.progressed + {id})
    case Succession => j.(over := true, finals := (map id | id in Known(j.sup) :: Failed) + j.finals)
  }

  function StatusFor(o: Outcome): C.Status {
    match o
    case Done => C.Done
    case Forced => C.Forced
    case Failed => C.Failed
  }

  /** The status of an accepted command. */
  function StatusOf(j: Joint, id: CmdId): C.Status {
    if id in j.finals then StatusFor(j.finals[id])
    else if id in j.progressed && id in j.sup.commands then Progress(j.sup.commands[id])
    else C.Accepted
  }

  /** A restart of the supervisor without any process has nothing to drain. */
  function Progress(a: Active): C.Status {
    if a.kind.WholeSupervisor? && a.targets == map[] then C.Applying else C.Draining
  }

  predicate Happens(j: Joint, es: seq<JointEvent>)
    decreases |es|
  {
    es == [] || (CanHappen(j, es[0]) && Happens(After(j, es[0]), es[1..]))
  }

  function Ends(j: Joint, es: seq<JointEvent>): Joint
    requires Happens(j, es)
    decreases |es|
  {
    if es == [] then j else Ends(After(j, es[0]), es[1..])
  }

  const START := Joint(INITIAL, {}, map[], false)

  ghost predicate Reachable(j: Joint) {
    exists es :: Happens(START, es) && Ends(START, es) == j
  }

  lemma {:induction false} OneMore(j: Joint, es: seq<JointEvent>, e: JointEvent)
    requires Happens(j, es) && CanHappen(Ends(j, es), e)
    ensures Happens(j, es + [e]) && Ends(j, es + [e]) == After(Ends(j, es), e)
    decreases |es|
  {
    hide CanHappen, After;
    if es == [] {
      var t := After(j, e);
      assert es + [e] == [e] && [e][1..] == [];
      assert Happens(t, []) && Ends(t, []) == t;
    } else {
      assert (es + [e])[1..] == es[1..] + [e] && (es + [e])[0] == es[0];
      OneMore(After(j, es[0]), es[1..], e);
    }
  }

  lemma ReachableAfter(j: Joint, e: JointEvent)
    requires Reachable(j) && CanHappen(j, e)
    ensures Reachable(After(j, e))
  {
    hide CanHappen, After, Happens, Ends;
    var es :| Happens(START, es) && Ends(START, es) == j;
    OneMore(START, es, e);
    assert Happens(START, es + [e]);
  }

  lemma {:induction false} EndsKeepInv(j: Joint, es: seq<JointEvent>)
    requires Inv(j.sup) && DroppedIdle(j.sup) && Happens(j, es)
    ensures Inv(Ends(j, es).sup) && DroppedIdle(Ends(j, es).sup)
    decreases |es|
  {
    hide Inv, DroppedIdle, Enabled, Next;
    if es != [] {
      if es[0].Sup? {
        NextKeepsInv(j.sup, es[0].e);
        NextKeepsDroppedIdle(j.sup, es[0].e);
      }
      EndsKeepInv(After(j, es[0]), es[1..]);
    }
  }

  lemma ReachableInv(j: Joint)
    requires Reachable(j)
    ensures Inv(j.sup) && DroppedIdle(j.sup)
  {
    InitialDroppedIdle();
    hide Inv, DroppedIdle, Happens, Ends;
    var es :| Happens(START, es) && Ends(START, es) == j;
    EndsKeepInv(START, es);
  }

  // ------------------------------------------------------------------ when a status leaves the documented machine

  /** The check of finishCommands passes for a command marked as forced, whose progress never reached the table. */
  predicate FinishesForcedUnwritten(j: Joint, e: JointEvent, id: CmdId) {
    && e == Sup(Finish(id), true) && id in j.sup.commands && id !in j.finals && id !in j.progressed
    && j.sup.commands[id].forced && TargetsReached(j.sup, j.sup.commands[id])
  }

  lemma UnwrittenInv(s: State)
    requires Inv(s) && DroppedIdle(s)
    ensures Inv(Unwritten(s)) && DroppedIdle(Unwritten(s))
  {
    hide ProcessesAgree, SlotsAgree, CommandHolds, CarriedOutIn;
  }

  /** A step writes FORCED exactly when it finishes a command that is marked as forced. */
  lemma AttemptedForced(s: State, e: Event, id: CmdId)
    requires Inv(s) && DroppedIdle(s) && Enabled(s, e)
    ensures id in Attempted(s, e) && Attempted(s, e)[id].Forced?
       <==> e == Finish(id) && id in s.commands && s.commands[id].forced && TargetsReached(s, s.commands[id])
  {
    var u := Unwritten(s);
    UnwrittenInv(s);
    StillEnabled(s, e);
    SameTargets(s, id);
    hide Inv, DroppedIdle, TargetsReached, HasProcess, CarriedOutIn, StartEarned, Next, Enabled;
    if id in Attempted(s, e) && Attempted(s, e)[id].Forced? { NextEarns(u, e, id); }
    if e == Finish(id) && id in s.commands { FinishAttempts(s, id); }
  }

  lemma StillEnabled(s: State, e: Event)
    requires Enabled(s, e)
    ensures Enabled(Unwritten(s), e)
  {
  }

  lemma SameTargets(s: State, id: CmdId)
    ensures id in s.commands ==> TargetsReached(Unwritten(s), s.commands[id]) == TargetsReached(s, s.commands[id])
  {
  }

  /** The entry of finishCommands writes a status exactly when the targets are where they should be. */
  lemma FinishAttempts(s: State, id: CmdId)
    requires id in s.commands
    ensures Attempted(s, Finish(id))
         == if TargetsReached(s, s.commands[id]) then map[id := if s.commands[id].forced then Forced else Done] else map[]
  {
    SameTargets(s, id);
    hide TargetsReached;
  }

  /**
   * In every reachable state: the status of a command stays, or moves along the documented state machine, and leaves it in
   * exactly one case. That is when the supervisor finishes a command whose deadline it had to enforce and whose DRAINING or
   * APPLYING has not reached the table, so that FORCED is written over ACCEPTED.
   */
  lemma LeavesMachineIff(j: Joint, e: JointEvent, id: CmdId)
    requires Reachable(j) && CanHappen(j, e)
    ensures C.Leaves(StatusOf(j, id), StatusOf(After(j, e), id)) <==> FinishesForcedUnwritten(j, e, id)
  {
    ReachableInv(j);
    hide *;
    if e.Sup? { StepLeavesIff(j, e.e, e.reached, id); } else { OtherWritesFollow(j, e, id); }
  }

  lemma OtherWritesFollow(j: Joint, e: JointEvent, id: CmdId)
    requires CanHappen(j, e) && !e.Sup?
    ensures !C.Leaves(StatusOf(j, id), StatusOf(After(j, e), id)) && !FinishesForcedUnwritten(j, e, id)
  {
    hide TargetsReached, Known;
  }

  lemma StepLeavesIff(j: Joint, step: Event, reached: bool, id: CmdId)
    requires Inv(j.sup) && DroppedIdle(j.sup) && CanHappen(j, Sup(step, reached))
    ensures C.Leaves(StatusOf(j, id), StatusOf(After(j, Sup(step, reached)), id))
            <==> FinishesForcedUnwritten(j, Sup(step, reached), id)
  {
    hide Inv, DroppedIdle, Later, TargetsReached, Next, Enabled, Attempted;
    NextLater(j.sup, step);
    AttemptedForced(j.sup, step, id);
    if id in j.finals {
      assert StatusOf(After(j, Sup(step, reached)), id) == StatusOf(j, id);
    } else if !(reached && id in Attempted(j.sup, step)) {
      StatusStays(j, After(j, Sup(step, reached)), id);
    }
  }

  /** Without a final status, before and after. */
  lemma StatusStays(j: Joint, k: Joint, id: CmdId)
    requires Later(j.sup, k.sup) && j.progressed == k.progressed && id !in j.finals && id !in k.finals
    ensures !C.Leaves(StatusOf(j, id), StatusOf(k, id))
  {
    hide OsAhead;
  }

  // ------------------------------------------------------------------ how a command's row ends

  /** The first final status of the command that reaches the table in a run, if one does before the next supervisor. */
  function FirstDelivered(j: Joint, es: seq<JointEvent>, id: CmdId): Option<Outcome>
    requires Happens(j, es)
    decreases |es|
  {
    if es == [] then None
    else if es[0].Sup? && es[0].reached && id in Attempted(j.sup, es[0].e) then Some(Attempted(j.sup, es[0].e)[id])
    else FirstDelivered(After(j, es[0]), es[1..], id)
  }

  /** The table keeps what reaches it first. */
  lemma {:induction false} FirstOneStays(j: Joint, es: seq<JointEvent>, id: CmdId)
    requires Happens(j, es) && !Ends(j, es).over
    ensures var k := Ends(j, es);
      if id in j.finals then id in k.finals && k.finals[id] == j.finals[id]
      else match FirstDelivered(j, es, id)
           case Some(o) => id in k.finals && k.finals[id] == o
           case None => id !in k.finals
    decreases |es|
  {
    hide Attempted, Enabled, Next, Known;
    if es != [] {
      NotOver(After(j, es[0]), es[1..]);
      FirstOneStays(After(j, es[0]), es[1..], id);
    }
  }

  lemma {:induction false} NotOver(j: Joint, es: seq<JointEvent>)
    requires Happens(j, es) && !Ends(j, es).over
    ensures !j.over
    decreases |es|
  {
    hide Attempted, Enabled, Next, Known;
  }

  /** Over every run: a command's row ends as the first final status that reached it, or as FAILED when none did. */
  lemma RowEndsAs(es: seq<JointEvent>, id: CmdId)
    requires Happens(START, es) && !Ends(START, es).over && id in Known(Ends(START, es).sup)
    ensures StatusOf(After(Ends(START, es), Succession), id)
         == match FirstDelivered(START, es, id) case Some(o) => StatusFor(o) case None => C.Failed
  {
    FirstOneStays(START, es, id);
    hide Happens, Ends, FirstDelivered, Known;
  }

  /**
   * A command that the supervisor carried out (SupervisorOutcomes.SuccessIsEarned) still ends as FAILED exactly when no DONE or
   * FORCED of it was the first final status to reach the table.
   */
  lemma CarriedOutEndsFailedIff(es: seq<JointEvent>, id: CmdId)
    requires Happens(START, es) && !Ends(START, es).over && Succeeded(Ends(START, es).sup, id)
    ensures StatusOf(After(Ends(START, es), Succession), id) == C.Failed
       <==> !(FirstDelivered(START, es, id).Some? && !FirstDelivered(START, es, id).value.Failed?)
  {
    hide Happens, Ends, FirstDelivered;
    RowEndsAs(es, id);
  }

  /** A DONE or FORCED that a step writes, whether it reaches the table or not, was earned by that step. */
  lemma AttemptIsEarned(j: Joint, e: Event, id: CmdId)
    requires Reachable(j) && Enabled(j.sup, e) && id in Attempted(j.sup, e) && !Attempted(j.sup, e)[id].Failed?
    ensures Earned(Unwritten(j.sup), e, Next(Unwritten(j.sup), e), id)
  {
    ReachableInv(j);
    UnwrittenInv(j.sup);
    StillEnabled(j.sup, e);
    hide Reachable, Inv, DroppedIdle, Next, Enabled, Earned;
    NextEarns(Unwritten(j.sup), e, id);
  }

  // ------------------------------------------------------------------ a run in which it happens

  const WORKER := Profile("id", "w", true, Shape([], 1, []))
  const RESTART := Command("c", Safe, 60_000)

  /** The only slot of the run. */
  predicate OneSlot(s: State, sl: Slot) {
    s.slots == map["w" := sl] && sl.profile == WORKER && !s.shuttingDown && s.stops == map[] && s.starts == map[]
  }

  /** A tick that starts the worker: its slot, new or not, has no process and does not back off. */
  lemma TickStarts(s: State, e: State, sl: Slot, now: int)
    requires s.slots.Keys <= {"w"} && e == Ensured(s, WORKER) && OneSlot(e, sl) && sl.child.None?
            && sl.backoffUntil.None?
    ensures var t := Reconcile(s, [WORKER], now);
      && t.slots == map["w" := SpawnSlot(sl, e.os.next, now)] && t == e.(slots := t.slots, os := t.os)
      && t.os.live == e.os.live + {e.os.next} && t.os.next == e.os.next + 1 && t.os.born == e.os.born[e.os.next := "w"]
  {
    var u := ReconcileOne(s, WORKER, now);
    RoundStarts(s, e, sl, now);
    SpawnKeepsName(sl, e.os.next, now);
    hide ReconcileOne, BeginDrain, SpawnSlot, Ensured;
    assert [WORKER][..0] == [] && ReconcileList(s, [], now) == s && ReconcileList(s, [WORKER], now) == u;
    assert NamesOf([WORKER]) == {"w"} by { assert [WORKER][0] == WORKER; }
    hide ReconcileList, NamesOf;
    assert u.slots == map["w" := SpawnSlot(sl, e.os.next, now)];
    SweepKeepsAll(u, {"w"}, now);
  }

  lemma RoundStarts(s: State, e: State, sl: Slot, now: int)
    requires e == Ensured(s, WORKER) && OneSlot(e, sl) && sl.child.None? && sl.backoffUntil.None?
    ensures ReconcileOne(s, WORKER, now) == Spawn(e, sl, now)
  {
    assert Refreshed(sl, WORKER, now) == sl && Starts(sl, false, now);
    assert e.shuttingDown == s.shuttingDown;
    hide Ensured, Spawn, Refreshed, Starts, SettleSlot, SettleSignals;
  }

  /** A sweep when every slot's profile was read. */
  lemma SweepKeepsAll(s: State, seen: set<Name>, now: int)
    requires s.slots.Keys <= seen
    ensures var t := Sweep(s, seen, now);
      t == s.(os := t.os) && t.os == s.os.(signals := t.os.signals)
  {
    hide BeginDrain, DrainSignals;
    assert Sweep(s, seen, now).slots == s.slots;
  }

  /** The first tick starts the worker. */
  lemma Started() returns (j: Joint)
    ensures Reachable(j) && j.progressed == {} && j.finals == map[] && !j.over && j.sup.commands == map[]
            && j.sup.outcomes == map[]
    ensures OneSlot(j.sup, SpawnSlot(NewSlot(0, WORKER), 0, 0)) && j.sup.os.next == 1 && j.sup.os.live == {0}
            && j.sup.os.born == map[0 := "w"]
    ensures j.sup.active == {}
  {
    var e := Sup(DoReconcile([WORKER], 0), false);
    var t := Ensured(INITIAL, WORKER);
    assert t == INITIAL.(slots := map["w" := NewSlot(0, WORKER)], nextUid := 1);
    hide Reachable, Ensured, Reconcile, Happens, Ends, SpawnSlot;
    TickStarts(INITIAL, t, NewSlot(0, WORKER), 0);
    StartReachable();
    ReachableAfter(START, e);
    j := After(START, e);
  }

  lemma StartReachable()
    ensures Reachable(START)
  {
    assert Happens(START, []) && Ends(START, []) == START;
  }

  /** The restart drains it; DRAINING does not reach the table. */
  lemma Asked() returns (j: Joint)
    ensures Reachable(j) && j.progressed == {} && j.finals == map[] && !j.over && j.sup.outcomes == map[]
            && j.sup.active == {"c"}
    ensures j.sup.commands == map["c" := Active(Restart, map["w" := 0], 1, false)]
    ensures OneSlot(j.sup, BeginDrain(SpawnSlot(NewSlot(0, WORKER), 0, 0), Safe, 60_000, 10))
    ensures j.sup.os.next == 1 && j.sup.os.live == {0} && j.sup.os.born == map[0 := "w"]
  {
    var i := Started();
    var e := Sup(CmdRestart(RESTART, Some("w"), 10), false);
    hide Reachable, Happens, Ends;
    ReachableAfter(i, e);
    j := After(i, e);
    assert j.sup.commands == map["c" := Active(Restart, map["w" := 0], 1, false)];
  }

  /** Its time runs out: SIGTERM, and the command is marked as forced. */
  lemma Expired() returns (j: Joint)
    ensures Reachable(j) && j.progressed == {} && j.finals == map[] && !j.over && j.sup.outcomes == map[]
    ensures j.sup.commands == map["c" := Active(Restart, map["w" := 0], 1, true)]
    ensures OneSlot(j.sup, EnforceSlot(BeginDrain(SpawnSlot(NewSlot(0, WORKER), 0, 0), Safe, 60_000, 10), 60_010))
    ensures j.sup.os.next == 1 && j.sup.os.live == {0} && j.sup.os.born == map[0 := "w"]
  {
    var i := Asked();
    var e := Sup(Enforce(60_010), false);
    var sl := BeginDrain(SpawnSlot(NewSlot(0, WORKER), 0, 0), Safe, 60_000, 10);
    assert DrainExpired(sl, 60_010);
    hide Reachable, Happens, Ends, BeginDrain, SpawnSlot, DrainExpired, EnforceSlot, EnforceSignals;
    ReachableAfter(i, e);
    j := After(i, e);
    assert TargetExpired(i.sup, i.sup.commands["c"], 60_010) by { assert "w" in i.sup.slots; }
    assert j.sup.slots == map["w" := EnforceSlot(sl, 60_010)];
    assert j.sup.commands == map["c" := Active(Restart, map["w" := 0], 1, true)];
  }

  /** The process leaves and the next tick starts another. */
  lemma Replaced() returns (j: Joint)
    ensures Reachable(j) && j.progressed == {} && j.finals == map[] && !j.over && j.sup.outcomes == map[]
    ensures j.sup.commands == map["c" := Active(Restart, map["w" := 0], 1, true)]
    ensures j.sup.slots.Keys == {"w"} && j.sup.slots["w"].child == Some(1)
  {
    var i := Expired();
    var sl := i.sup.slots["w"];
    assert sl.draining && sl.child == Some(0) && sl.profile == WORKER && sl.profile.enabled;
    var gone := ExitSlot(sl, Some(0), 60_020, i.sup.cfg);
    assert gone.child.None? && gone.backoffUntil.None? && gone.profile == WORKER;
    var k := Exited(i, sl, gone);
    j := Respawned(k, gone);
  }

  lemma Exited(i: Joint, sl: Slot, gone: Slot) returns (k: Joint)
    requires Reachable(i) && !i.over && OneSlot(i.sup, sl) && sl.child == Some(0) && i.sup.os.live == {0}
            && i.sup.os.born == map[0 := "w"]
    requires gone == ExitSlot(sl, Some(0), 60_020, i.sup.cfg) && gone.profile == WORKER
    ensures Reachable(k) && k.progressed == i.progressed && k.finals == i.finals && !k.over && OneSlot(k.sup, gone)
    ensures k.sup.outcomes == i.sup.outcomes && k.sup.commands == i.sup.commands && k.sup.os.next == i.sup.os.next
  {
    var e := Sup(Exit(0, Some(0), 60_020), false);
    hide Reachable, Happens, Ends, ExitSlot;
    ReachableAfter(i, e);
    k := After(i, e);
  }

  lemma Respawned(k: Joint, gone: Slot) returns (j: Joint)
    requires Reachable(k) && !k.over && OneSlot(k.sup, gone) && gone.child.None? && gone.backoffUntil.None?
            && k.sup.os.next == 1
    ensures Reachable(j) && j.progressed == k.progressed && j.finals == k.finals && !j.over
    ensures j.sup.outcomes == k.sup.outcomes && j.sup.commands == k.sup.commands
    ensures j.sup.slots.Keys == {"w"} && j.sup.slots["w"].child == Some(1)
  {
    var e := Sup(DoReconcile([WORKER], 60_030), false);
    assert Ensured(k.sup, WORKER) == k.sup;
    hide Reachable, Happens, Ends, Reconcile, Ensured, SpawnSlot;
    TickStarts(k.sup, k.sup, gone, 60_030);
    SpawnKeepsName(gone, 1, 60_030);
    ReachableAfter(k, e);
    j := After(k, e);
  }

  /** A reachable state and a step that writes FORCED over ACCEPTED. */
  lemma ForcedOverAccepted() returns (j: Joint, e: JointEvent)
    ensures Reachable(j) && CanHappen(j, e)
    ensures StatusOf(j, "c") == C.Accepted && StatusOf(After(j, e), "c") == C.Forced
  {
    j := Replaced();
    e := Sup(Finish("c"), true);
    assert TargetsReached(j.sup, j.sup.commands["c"]);
    hide Reachable, TargetsReached, Next, Attempted;
    FinishAttempts(j.sup, "c");
  }

  /** A reachable state in which the command was carried out, its FORCED was lost, and its row will end as FAILED. */
  lemma CarriedOutEndsFailed() returns (j: Joint)
    ensures Reachable(j) && !j.over && Succeeded(j.sup, "c") && "c" in j.sup.commands
            && CarriedOut(j.sup, j.sup.commands["c"])
    ensures StatusOf(After(j, Succession), "c") == C.Failed
  {
    var i := Replaced();
    var e := Sup(Finish("c"), false);
    assert TargetsReached(i.sup, i.sup.commands["c"]);
    assert After(i, e) == i.(sup := FinishOne(i.sup, "c"));
    hide *;
    FinishCanHappen(i, "c");
    ReachableAfter(i, e);
    j := After(i, e);
    ReachableInv(i);
    FinishMarks(i.sup, "c");
    FinishedIsCarriedOut(i.sup, "c");
    NobodyTold(j, "c");
  }

  lemma FinishCanHappen(j: Joint, id: CmdId)
    requires !j.over && id in j.sup.commands
    ensures CanHappen(j, Sup(Finish(id), false))
  {
  }

  lemma FinishedIsCarriedOut(s: State, id: CmdId)
    requires Inv(s) && id in s.commands && Succeeded(FinishOne(s, id), id)
    ensures id in FinishOne(s, id).commands && CarriedOut(FinishOne(s, id), FinishOne(s, id).commands[id])
  {
    FinishKeepsCommand(s, id);
    FinishKeepsInv(s, id);
    hide FinishOne, CarriedOutIn, ProcessesAgree, SlotsAgree, FramesHold, CommandHolds;
    assert CommandsOk(FinishOne(s, id));
  }

  /** No final status of the command has reached the table. */
  lemma NobodyTold(j: Joint, id: CmdId)
    requires !j.over && id !in j.finals && id in j.sup.outcomes
    ensures StatusOf(After(j, Succession), id) == C.Failed
  {
  }

  lemma FinishMarks(s: State, id: CmdId)
    requires id in s.commands && id !in s.outcomes && TargetsReached(s, s.commands[id])
    ensures Succeeded(FinishOne(s, id), id)
  {
    hide TargetsReached;
  }

  lemma FinishKeepsCommand(s: State, id: CmdId)
    requires id in s.commands
    ensures FinishOne(s, id).commands == s.commands
  {
    hide TargetsReached;
  }

  // ------------------------------------------------------------------ nothing is started during a shutdown

  const START_IT := Command("s", Safe, 60_000)

  /** Shutting down, with the only profile enabled and without a process. */
  predicate IdleInShutdown(s: State) {
    && s.shuttingDown && s.slots.Keys == {"w"} && s.slots["w"].profile == WORKER && s.slots["w"].child.None?
    && s.os.next == 1 && s.commands == map[] && s.outcomes == map[] && s.stops == map[]
  }

  /** The worker crashes, and the shutdown comes before it would have been started again. */
  lemma ShutdownAfterCrash() returns (j: Joint)
    ensures Reachable(j) && !j.over && j.finals == map[] && IdleInShutdown(j.sup) && j.sup.starts == map[]
  {
    var i := Started();
    var sl := i.sup.slots["w"];
    var gone := ExitSlot(sl, Some(1), 10, i.sup.cfg);
    assert sl.child == Some(0) && gone.child.None? && gone.profile == WORKER;
    var e := Sup(Exit(0, Some(1), 10), false);
    hide Reachable, Happens, Ends, ExitSlot, SpawnSlot;
    ReachableAfter(i, e);
    var k := After(i, e);
    assert OneSlot(k.sup, gone);
    j := ShutDown(k, gone);
  }

  lemma ShutDown(k: Joint, gone: Slot) returns (j: Joint)
    requires Reachable(k) && !k.over && k.finals == map[] && OneSlot(k.sup, gone) && gone.child.None?
    requires k.sup.os.next == 1 && k.sup.commands == map[] && k.sup.outcomes == map[]
    ensures Reachable(j) && !j.over && j.finals == map[] && IdleInShutdown(j.sup) && j.sup.starts == map[]
  {
    var e := Sup(Shutdown(1_000, 20), false);
    hide Reachable, Happens, Ends, BeginDrain, AllDrainSignals;
    assert WithChild(k.sup) == {};
    ReachableAfter(k, e);
    j := After(k, e);
  }

  /** A restart is DONE in a reachable state although nothing was started. */
  lemma RestartStartsNothing() returns (j: Joint)
    ensures Reachable(j) && StatusOf(j, "c") == C.Done && j.sup.outcomes == map["c" := Done]
    ensures j.sup.shuttingDown && j.sup.os.next == 1 && "w" in j.sup.slots && j.sup.slots["w"].profile.enabled
            && j.sup.slots["w"].child.None?
  {
    var i := ShutdownAfterCrash();
    var e := Sup(CmdRestart(RESTART, Some("w"), 30), true);
    hide Reachable, Happens, Ends, SpawnSlot;
    ReachableAfter(i, e);
    j := After(i, e);
  }

  /** So is a start. */
  lemma StartStartsNothing() returns (j: Joint)
    ensures Reachable(j) && StatusOf(j, "s") == C.Done && j.sup.outcomes == map["s" := Done]
    ensures j.sup.shuttingDown && j.sup.os.next == 1 && "w" in j.sup.slots && j.sup.slots["w"].profile.enabled
            && j.sup.slots["w"].child.None?
  {
    var i := ShutdownAfterCrash();
    var e := Sup(CmdStart(START_IT, Some("w"), 30), false);
    hide Reachable, Happens, Ends, SpawnSlot;
    ReachableAfter(i, e);
    var k := After(i, e);
    assert k.sup == i.sup.(starts := map["s" := Frame("w", i.sup.slots["w"].uid, START_IT, 30)]);
    var f := Sup(StartWritten("s"), true);
    ReachableAfter(k, f);
    j := After(k, f);
  }
}
