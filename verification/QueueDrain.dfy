/** Stopping a worker (src/worker/index.ts:655-719, 836-866): what still starts, and what is left when it exits. */
module QueueDrain {
  import opened Wrappers
  import opened JobQueue
  import opened WorkerFleet
  import opened QueueSafety
  import opened QueueSlots
  import opened QueueAttempts

  // ------------------------------------------------------------------ at most one more job per loop

  /** How many jobs loop i of profile p starts in a run. */
  function StartsBy(es: seq<Event>, p: string, i: nat): nat
    decreases |es|
  {
    if es == [] then 0
    else (if es[0].OnLoop? && es[0].p == p && es[0].i == i && ClaimedIn(es[0].act).Some? then 1 else 0) + StartsBy(es[1..], p, i)
  }

  /** The worker of p stays up throughout. */
  predicate KeepsUp(e: Event, p: string) {
    e.OnProcess? && e.p == p ==> !e.step.Crash? && !e.step.DrainExit?
  }

  /** A worker that may not claim keeps so, and its loops only finish what they have. */
  lemma StoppedStaysStopped(cfg: Config, s: State, e: Event, p: string, i: nat)
    requires Enabled(cfg, s, e) && HasLoop(s, p, i) && !CanClaim(s.procs[p]) && KeepsUp(e, p)
    ensures HasLoop(Next(cfg, s, e), p, i) && !CanClaim(Next(cfg, s, e).procs[p])
    ensures var started := e.OnLoop? && e.p == p && e.i == i && ClaimedIn(e.act).Some?;
      && (started ==> LoopOf(s, p, i).Claiming?)
      && (LoopOf(Next(cfg, s, e), p, i).Claiming? ==> LoopOf(s, p, i).Claiming? && !started)
  {
    hide JobsAfter, RefundsAfter, StartsAfter, IsFirst, ClaimAnswers;
    match e
    case OnTable(_) =>
    case OnProcess(q, step) =>
    case OnLoop(q, k, act) =>
  }

  /**
   * Once draining or stopping is set, every loop of the worker starts at most one more job, and only if its claim was
   * already in flight.
   */
  lemma {:induction false} AtMostOneMore(cfg: Config, s: State, es: seq<Event>, p: string, i: nat)
    requires Feasible(cfg, s, es) && HasLoop(s, p, i) && !CanClaim(s.procs[p])
    requires forall k :: 0 <= k < |es| ==> KeepsUp(es[k], p)
    ensures StartsBy(es, p, i) <= if LoopOf(s, p, i).Claiming? then 1 else 0
    decreases |es|
  {
    hide Enabled, Next, KeepsUp;
    if es != [] {
      assert KeepsUp(es[0], p);
      StoppedStaysStopped(cfg, s, es[0], p, i);
      assert forall k :: 0 <= k < |es[1..]| ==> es[1..][k] == es[k + 1];
      AtMostOneMore(cfg, Next(cfg, s, es[0]), es[1..], p, i);
    }
  }

  // ------------------------------------------------------------------ the exit of a drained worker

  lemma {:induction false} NothingInflight(loops: seq<Loop>)
    ensures Inflight(loops) == 0 <==> forall i :: 0 <= i < |loops| ==> !Busy(loops[i])
  {
    if loops != [] {
      var k := |loops| - 1;
      NothingInflight(loops[..k]);
      assert forall i :: 0 <= i < k ==> loops[..k][i] == loops[i];
    }
  }

  lemma ReturnedSlotIsEmpty(s: State, p: string, i: nat, id: JobId)
    requires SlotsMatch(s) && HasLoop(s, p, i) && LoopOf(s, p, i).Returned? && !s.procs[p].stopping
    ensures !RunsIn(s.jobs, id, p, i + 1)
  {
    assert SlotMatches(s.jobs, p, i + 1, false, LoopOf(s, p, i));
  }

  /**
   * A worker that drained (and was not told to stop) exits only when all its loops have returned. Then no job is in
   * flight, and without faults none is running under its labels.
   */
  lemma DrainExitIsClean(cfg: Config, es: seq<Event>, p: string)
    requires ConfigOk(cfg) && Feasible(cfg, Initial(cfg), es) && FaultFreeRun(es)
    requires var s := Run(cfg, Initial(cfg), es); Enabled(cfg, s, OnProcess(p, DrainExit)) && !s.procs[p].stopping
    ensures var s := Run(cfg, Initial(cfg), es);
      && Inflight(s.procs[p].loops) == 0
      && forall id :: id in s.jobs && s.jobs[id].status.Running? ==> s.jobs[id].lockedBy.Some? && s.jobs[id].lockedBy.value.name != p
  {
    FaultFreeRunsKeepSlots(cfg, es);
    var s := Run(cfg, Initial(cfg), es);
    NothingInflight(s.procs[p].loops);
    hide Run, Feasible, OnePerSlot;
    forall id | id in s.jobs && s.jobs[id].status.Running? ensures s.jobs[id].lockedBy.Some? && s.jobs[id].lockedBy.value.name != p {
      assert RowOk(cfg, s.jobs[id]);
      var owner := s.jobs[id].lockedBy.value;
      assert RunsIn(s.jobs, id, owner.name, owner.slot);
      if owner.name == p {
        ReturnedSlotIsEmpty(s, p, owner.slot - 1, id);
      }
    }
  }

  /**
   * `finished` alone would not do: it can hold while a claim is in flight, and be false again once the claim is answered.
   * The loops' return is what the exit waits for.
   */
  lemma FinishedIsNotStable() returns (s: State, e: Event)
    ensures Reachable(PAIR, s) && "w" in s.procs && s.procs["w"].Up? && Finished(s.procs["w"])
    ensures Enabled(PAIR, s, e) && Next(PAIR, s, e).procs["w"].Up? && !Finished(Next(PAIR, s, e).procs["w"])
  {
    var t := TwoLoopsClaiming();
    var q := Row(Queued, 0, 0, None, None);
    NextReachable(PAIR, t, OnProcess("w", Drain));
    s := Next(PAIR, t, OnProcess("w", Drain));
    e := OnLoop("w", 0, Claim(Some("j"), 0));
    OnlyRow(q, 0);
    var l := s.procs["w"].loops;
    assert l == [Claiming, Claiming];
    NothingInflight(l);
    var m := Next(PAIR, s, e).procs["w"].loops;
    assert m == l[0 := Working("j", 1, 2)];
    NothingInflight(m);
    assert Busy(m[0]);
  }

  // ------------------------------------------------------------------ why faults are excluded

  /**
   * A failure that could not be written leaves the job running while its loop goes on: the loop can start a second job,
   * and two jobs run under one label.
   */
  lemma LostFailureDoublesASlot(cfg: Config, s: State, p: string, i: nat, a: JobId, b: JobId, now: int)
    requires HasLoop(s, p, i) && p in cfg.profiles && CanClaim(s.procs[p]) && LoopOf(s, p, i).Working?
            && LoopOf(s, p, i).id == a
    requires RunsIn(s.jobs, a, p, i + 1) && a != b && IsFirst(s.jobs, b, cfg.profiles[p].lane, cfg.caps, now)
    ensures var es := [OnLoop(p, i, FailThrows), OnLoop(p, i, Guard), OnLoop(p, i, Claim(Some(b), now))];
      && Feasible(cfg, s, es)
      && RunsIn(Run(cfg, s, es).jobs, a, p, i + 1) && RunsIn(Run(cfg, s, es).jobs, b, p, i + 1)
  {
    hide IsFirst, Eligible;
    var e1, e2, e3 := OnLoop(p, i, FailThrows), OnLoop(p, i, Guard), OnLoop(p, i, Claim(Some(b), now));
    var s1 := Next(cfg, s, e1);
    assert HasLoop(s1, p, i) && LoopOf(s1, p, i).Waiting? && s1.jobs == s.jobs;
    var s2 := Next(cfg, s1, e2);
    assert HasLoop(s2, p, i) && LoopOf(s2, p, i).Claiming? && s2.jobs == s.jobs;
    FirstIsRow(s.jobs, b, cfg.profiles[p].lane, cfg.caps, now);
    var s3 := Next(cfg, s2, e3);
    assert RunsIn(s3.jobs, a, p, i + 1) && RunsIn(s3.jobs, b, p, i + 1);
    RunThree(cfg, s, e1, e2, e3);
  }

  /** A reachable state in which two jobs run under one label, after a failure that could not be written. */
  lemma TwoJobsUnderOneLabel() returns (s: State)
    ensures Reachable(PAIR, s) && RunsIn(s.jobs, "j", "w", 1) && RunsIn(s.jobs, "k", "w", 1)
  {
    var r := FirstAtWork();
    var k := Row(Queued, 0, 1, None, None);
    var e := OnTable(Enqueue("k", PreviewUpload, 0, None, 2, 1));
    NextReachable(PAIR, r, e);
    var t := Next(PAIR, r, e);
    assert t.jobs == r.jobs["k" := k] && t.procs == r.procs;
    assert IsFirst(t.jobs, "k", ANY, Caps(1, 1), 1);
    hide Reachable, IsFirst;
    LostFailureDoublesASlot(PAIR, t, "w", 0, "j", "k", 1);
    var es := [OnLoop("w", 0, FailThrows), OnLoop("w", 0, Guard), OnLoop("w", 0, Claim(Some("k"), 1))];
    RunReachable(PAIR, t, es);
    s := Run(PAIR, t, es);
  }

  /** The first loop of the pair works on the only job. */
  lemma FirstAtWork() returns (r: State)
    ensures Reachable(PAIR, r) && r.procs == Pair(Working("j", 1, 2), Claiming)
    ensures r.jobs == JobMap(Row(Running, 1, 0, Some(Owner("w", 1, "h")), Some(0)))
  {
    var t := TwoLoopsClaiming();
    var q := Row(Queued, 0, 0, None, None);
    ClaimOne(t, 0, Claiming, Claiming, q, 0, 0);
    var e := OnLoop("w", 0, Claim(Some("j"), 0));
    NextReachable(PAIR, t, e);
    r := Next(PAIR, t, e);
  }

  lemma FirstIsRow(t: Table, id: JobId, lane: Lane, caps: Caps, now: int)
    requires IsFirst(t, id, lane, caps, now)
    ensures id in t && t[id].status.Queued?
  {
  }
}
