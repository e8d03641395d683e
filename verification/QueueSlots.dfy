/** Slots: without lost answers, every running job has a slot of its own, so capacities bound what runs at once. */
module QueueSlots {
  import opened Wrappers
  import opened JobQueue
  import opened WorkerFleet
  import opened QueueSafety
  import LikePattern

  /** No claim whose answer was lost, and no failure that could not be written. Workers may crash. */
  predicate FaultFree(e: Event) {
    !(e.OnLoop? && (e.act.FailThrows? || e.act.ClaimLost?))
  }

  ghost predicate FaultFreeRun(es: seq<Event>) {
    forall i :: 0 <= i < |es| ==> FaultFree(es[i])
  }

  /** The job runs under the label of this slot. */
  predicate RunsIn(t: Table, id: JobId, p: string, slot: nat) {
    id in t && t[id].status.Running? && t[id].lockedBy.Some? && t[id].lockedBy.value.name == p && t[id].lockedBy.value.slot == slot
  }

  /** What a job running under a loop's label says about the loop: it works on that job, or was stopped in the middle of it. */
  predicate Occupied(stopping: bool, l: Loop, id: JobId) {
    match l
    case Working(held, _, _) => held == id
    case Waiting => stopping
    case Returned => stopping
    case _ => false
  }

  ghost predicate OnePerSlot(t: Table) {
    forall p, slot, a, b :: RunsIn(t, a, p, slot) && RunsIn(t, b, p, slot) ==> a == b
  }

  ghost predicate SlotMatches(t: Table, p: string, slot: nat, stopping: bool, l: Loop) {
    forall id :: RunsIn(t, id, p, slot) ==> Occupied(stopping, l, id)
  }

  ghost predicate SlotsMatch(s: State) {
    forall p, i: nat :: HasLoop(s, p, i) ==> SlotMatches(s.jobs, p, i + 1, s.procs[p].stopping, LoopOf(s, p, i))
  }

  ghost predicate SlotInv(cfg: Config, s: State) {
    Ok(cfg, s) && OnePerSlot(s.jobs) && SlotsMatch(s)
  }

  // ------------------------------------------------------------------ what steps do to the jobs of a slot

  /** No job starts running in this slot. */
  ghost predicate NoneAdded(t: Table, u: Table, p: string, slot: nat) {
    forall id :: RunsIn(u, id, p, slot) ==> RunsIn(t, id, p, slot)
  }

  lemma RowStepsAddNone(t: Table, u: Table, p: string, slot: nat)
    requires TableStep(t, u)
    ensures NoneAdded(t, u, p, slot)
  {
    forall id | RunsIn(u, id, p, slot) ensures RunsIn(t, id, p, slot) { assert RowStep(t[id], u[id]); }
  }

  lemma NonStartsAddNone(cfg: Config, s: State, e: Event, p: string, slot: nat)
    requires Enabled(cfg, s, e) && !Starts(e)
    ensures NoneAdded(s.jobs, JobsAfter(cfg, s, e), p, slot)
  {
    if Inserts(e) {
      InsertIsNewRow(cfg, s, e);
      hide JobsAfter, Enabled;
    } else {
      OthersAreRowSteps(cfg, s, e);
      RowStepsAddNone(s.jobs, JobsAfter(cfg, s, e), p, slot);
    }
  }

  lemma NextKeepsOnePerSlot(cfg: Config, s: State, e: Event)
    requires SlotInv(cfg, s) && Enabled(cfg, s, e)
    ensures OnePerSlot(JobsAfter(cfg, s, e))
  {
    var t, u := s.jobs, JobsAfter(cfg, s, e);
    if Starts(e) {
      StartIsClaim(cfg, s, e);
      assert SlotMatches(t, e.p, e.i + 1, s.procs[e.p].stopping, LoopOf(s, e.p, e.i));
      hide Ok, JobsAfter, Enabled, Eligible, SlotsMatch, Admits;
      forall p, slot, a, b | RunsIn(u, a, p, slot) && RunsIn(u, b, p, slot) ensures a == b {
        assert a != ClaimedIn(e.act).value ==> RunsIn(t, a, p, slot);
        assert b != ClaimedIn(e.act).value ==> RunsIn(t, b, p, slot);
      }
    } else {
      hide Ok, JobsAfter, Enabled, SlotsMatch, Starts;
      forall p, slot, a, b | RunsIn(u, a, p, slot) && RunsIn(u, b, p, slot) ensures a == b {
        NonStartsAddNone(cfg, s, e, p, slot);
        assert RunsIn(t, a, p, slot) && RunsIn(t, b, p, slot);
      }
    }
  }

  // ------------------------------------------------------------------ a process comes up

  /** The second release statement leaves nothing running under the labels of the profile. */
  lemma ReleasedHoldsNothing(cfg: Config, t: Table, p: string, slot: nat, refund: bool, now: int, id: JobId)
    requires ConfigOk(cfg) && RowsOk(cfg, t) && p in cfg.profiles
    ensures !RunsIn(Releasing(t, p, cfg.profiles[p].slots, refund, now), id, p, slot)
  {
    var u := Releasing(t, p, cfg.profiles[p].slots, refund, now);
    if RunsIn(u, id, p, slot) {
      var owner := u[id].lockedBy.value;
      hide LikePattern.ReleaseMatches;
      assert RowOk(cfg, t[id]) && t[id].lockedBy == Some(owner) && t[id].status.Running?;
      LikePattern.ReleaseSelfExact(p, cfg.profiles[p].slots, p, owner.slot, owner.host);
      assert false;
    }
  }

  lemma ProcessKeepsSlots(cfg: Config, s: State, q: string, step: ProcessEvent, p: string, i: nat)
    requires ConfigOk(cfg) && SlotInv(cfg, s) && Enabled(cfg, s, OnProcess(q, step))
    requires HasLoop(Next(cfg, s, OnProcess(q, step)), p, i)
    ensures var t := Next(cfg, s, OnProcess(q, step));
      SlotMatches(t.jobs, p, i + 1, t.procs[p].stopping, LoopOf(t, p, i))
  {
    var e := OnProcess(q, step);
    var t := Next(cfg, s, e);
    if p == q && step.ReleaseRest? {
      assert t.jobs == Releasing(s.jobs, p, cfg.profiles[p].slots, false, step.now);
      var slot := i + 1;
      forall id ensures !RunsIn(t.jobs, id, p, slot) {
        ReleasedHoldsNothing(cfg, s.jobs, p, slot, false, step.now, id);
      }
    } else {
      hide Ok, RefundsAfter, StartsAfter;
      assert HasLoop(s, p, i) && LoopOf(t, p, i) == LoopOf(s, p, i) && (s.procs[p].stopping ==> t.procs[p].stopping);
      assert SlotMatches(s.jobs, p, i + 1, s.procs[p].stopping, LoopOf(s, p, i));
      NonStartsAddNone(cfg, s, e, p, i + 1);
      hide JobsAfter, ProcsAfter, RunsIn;
      assert t.jobs == JobsAfter(cfg, s, e);
    }
  }

  // ------------------------------------------------------------------ loops

  /** A loop's own step; a completion or a written failure ends what ran under its label. */
  lemma OwnStepKeepsSlot(cfg: Config, s: State, p: string, i: nat, act: LoopEvent)
    requires SlotInv(cfg, s) && Enabled(cfg, s, OnLoop(p, i, act)) && FaultFree(OnLoop(p, i, act))
            && !Starts(OnLoop(p, i, act))
    ensures SlotMatches(JobsAfterLoop(s.jobs, LoopOf(s, p, i), OwnerOf(s, p, i), act), p, i + 1, s.procs[p].stopping,
                        LoopAfter(s.jobs, CanClaim(s.procs[p]), LoopOf(s, p, i), act))
  {
    var l, owner := LoopOf(s, p, i), OwnerOf(s, p, i);
    assert SlotMatches(s.jobs, p, i + 1, s.procs[p].stopping, l);
    hide Ok, OnePerSlot, SlotsMatch, Eligible, IsFirst, ClaimAnswers;
    var u := JobsAfterLoop(s.jobs, l, owner, act);
    LoopEventsAreRowSteps(s.jobs, l, owner, act);
    RowStepsAddNone(s.jobs, u, p, i + 1);
    assert (act.Complete? || act.Fail?) && l.id in u ==> !u[l.id].status.Running?;
    hide JobsAfterLoop;
    forall id | RunsIn(u, id, p, i + 1) ensures Occupied(s.procs[p].stopping, LoopAfter(s.jobs, CanClaim(s.procs[p]), l, act), id) {
      assert RunsIn(s.jobs, id, p, i + 1);
      assert Occupied(s.procs[p].stopping, l, id);
    }
  }

  lemma StartKeepsSlot(cfg: Config, s: State, e: Event)
    requires SlotInv(cfg, s) && Enabled(cfg, s, e) && FaultFree(e) && Starts(e)
    ensures SlotMatches(JobsAfter(cfg, s, e), e.p, e.i + 1, s.procs[e.p].stopping,
                        LoopAfter(s.jobs, CanClaim(s.procs[e.p]), LoopOf(s, e.p, e.i), e.act))
  {
    StartIsClaim(cfg, s, e);
    assert SlotMatches(s.jobs, e.p, e.i + 1, s.procs[e.p].stopping, LoopOf(s, e.p, e.i));
    hide Ok, OnePerSlot, SlotsMatch, Eligible, JobsAfter, Admits;
    forall id | RunsIn(JobsAfter(cfg, s, e), id, e.p, e.i + 1)
      ensures Occupied(s.procs[e.p].stopping, LoopAfter(s.jobs, CanClaim(s.procs[e.p]), LoopOf(s, e.p, e.i), e.act), id)
    {
      assert RunsIn(s.jobs, id, e.p, e.i + 1) || id == ClaimedIn(e.act).value;
    }
  }

  /** Another loop's step starts nothing in this slot. */
  lemma OtherStepKeepsSlot(cfg: Config, s: State, e: Event, p: string, i: nat)
    requires SlotInv(cfg, s) && Enabled(cfg, s, e) && HasLoop(s, p, i)
    requires e.OnTable? || (e.OnLoop? && !(e.p == p && e.i == i))
    ensures SlotMatches(JobsAfter(cfg, s, e), p, i + 1, s.procs[p].stopping, LoopOf(s, p, i))
  {
    assert SlotMatches(s.jobs, p, i + 1, s.procs[p].stopping, LoopOf(s, p, i));
    hide Ok, OnePerSlot, SlotsMatch, Occupied;
    if Starts(e) {
      StartIsClaim(cfg, s, e);
      hide Eligible, JobsAfter, Admits, Enabled;
      forall id | RunsIn(JobsAfter(cfg, s, e), id, p, i + 1) ensures Occupied(s.procs[p].stopping, LoopOf(s, p, i), id) {
        assert id != ClaimedIn(e.act).value;
        assert RunsIn(s.jobs, id, p, i + 1);
      }
    } else {
      NonStartsAddNone(cfg, s, e, p, i + 1);
      hide JobsAfter, RunsIn;
    }
  }

  /** What a step leaves of the processes. */
  lemma LoopsAfter(cfg: Config, s: State, e: Event, p: string, i: nat)
    requires Enabled(cfg, s, e) && HasLoop(Next(cfg, s, e), p, i) && !e.OnProcess?
    ensures HasLoop(s, p, i) && Next(cfg, s, e).procs[p].stopping == s.procs[p].stopping
    ensures LoopOf(Next(cfg, s, e), p, i)
         == if e.OnLoop? && e.p == p && e.i == i then LoopAfter(s.jobs, CanClaim(s.procs[p]), LoopOf(s, p, i), e.act) else LoopOf(s, p, i)
  {
    hide JobsAfter, RefundsAfter, StartsAfter, LoopAfter, Eligible, IsFirst, ClaimAnswers;
  }

  lemma NextKeepsSlot(cfg: Config, s: State, e: Event, p: string, i: nat)
    requires ConfigOk(cfg) && SlotInv(cfg, s) && Enabled(cfg, s, e) && FaultFree(e) && HasLoop(Next(cfg, s, e), p, i)
    ensures var t := Next(cfg, s, e);
      SlotMatches(t.jobs, p, i + 1, t.procs[p].stopping, LoopOf(t, p, i))
  {
    if e.OnProcess? {
      ProcessKeepsSlots(cfg, s, e.p, e.step, p, i);
    } else {
      LoopsAfter(cfg, s, e, p, i);
      if e.OnLoop? && e.p == p && e.i == i {
        if Starts(e) { StartKeepsSlot(cfg, s, e); } else { OwnStepKeepsSlot(cfg, s, p, i, e.act); }
      } else {
        OtherStepKeepsSlot(cfg, s, e, p, i);
      }
      hide SlotInv, SlotMatches, LoopAfter, ProcsAfter;
    }
  }

  lemma NextKeepsSlotInv(cfg: Config, s: State, e: Event)
    requires ConfigOk(cfg) && SlotInv(cfg, s) && Enabled(cfg, s, e) && FaultFree(e)
    ensures SlotInv(cfg, Next(cfg, s, e))
  {
    NextKeepsOk(cfg, s, e);
    NextKeepsOnePerSlot(cfg, s, e);
    var t := Next(cfg, s, e);
    forall p, i: nat | HasLoop(t, p, i) ensures SlotMatches(t.jobs, p, i + 1, t.procs[p].stopping, LoopOf(t, p, i)) {
      NextKeepsSlot(cfg, s, e, p, i);
    }
    hide Ok, OnePerSlot, SlotMatches, JobsAfter, ProcsAfter, Enabled;
  }

  lemma {:induction false} RunKeepsSlotInv(cfg: Config, s: State, es: seq<Event>)
    requires ConfigOk(cfg) && SlotInv(cfg, s) && Feasible(cfg, s, es) && FaultFreeRun(es)
    ensures SlotInv(cfg, Run(cfg, s, es))
    decreases |es|
  {
    hide SlotInv, Next, Enabled, FaultFree, ConfigOk;
    if es != [] {
      assert FaultFree(es[0]);
      NextKeepsSlotInv(cfg, s, es[0]);
      assert forall i :: 0 <= i < |es[1..]| ==> es[1..][i] == es[i + 1];
      RunKeepsSlotInv(cfg, Next(cfg, s, es[0]), es[1..]);
    }
  }

  lemma InitialSlotInv(cfg: Config)
    ensures SlotInv(cfg, Initial(cfg))
  {
    InitialOk(cfg);
  }

  lemma FaultFreeRunsKeepSlots(cfg: Config, es: seq<Event>)
    requires ConfigOk(cfg) && Feasible(cfg, Initial(cfg), es) && FaultFreeRun(es)
    ensures SlotInv(cfg, Run(cfg, Initial(cfg), es))
  {
    hide *;
    InitialSlotInv(cfg);
    RunKeepsSlotInv(cfg, Initial(cfg), es);
  }
}
