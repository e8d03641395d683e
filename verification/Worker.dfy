/**
 * One worker process as the program has it (src/worker/index.ts): its stopping state, its loops, and the shared table they
 * work on. Every step is proved to be the step of the fleet's state machine on this process and on the table.
 */
module Worker {
  import opened Wrappers
  import opened JobQueue
  import opened WorkerFleet
  import JobTable
  import WorkerRuntime

  class Worker {
    const name: string
    const host: string
    const profile: Profile
    const table: JobTable.Jobs
    const state: WorkerRuntime.WorkerState
    var loops: seq<Loop>

    /** The process as the fleet sees it. */
    function View(): Process
      reads this, state
    {
      Up(host, state.stopping, state.draining, loops)
    }

    /** The counter of jobs in hand is right. */
    ghost predicate Valid()
      reads this, state
    {
      |loops| == profile.slots && state.inflight == Inflight(loops)
    }

    function OwnerAt(i: nat): Owner {
      Owner(name, i + 1, host)
    }

    /** Start-up: the jobs that the previous process of this profile left running are released, then the loops start. */
    constructor (name: string, host: string, profile: Profile, table: JobTable.Jobs, state: WorkerRuntime.WorkerState,
                 now: int)
      requires state.inflight == 0
      modifies table`jobs
      ensures Valid() && this.name == name && this.profile == profile && this.table == table && this.state == state
      ensures table.jobs == JobsAfterProcess(JobsAfterProcess(old(table.jobs), name, profile.slots, ReleaseExhausted),
                                             name, profile.slots, ReleaseRest(host, state.draining, now))
      ensures !state.stopping
              ==> View() == ProcessAfter(Clearing, profile.slots, ReleaseRest(host, state.draining, now))
    {
      this.name, this.host, this.profile, this.table, this.state := name, host, profile, table, state;
      loops := seq(profile.slots, _ => Waiting);
      new;
      NoneInflight(loops);
      table.ReleaseSelf(name, profile.slots, false, now);
    }

    /** What `finished` reads is what the fleet's definition says. */
    lemma FinishedAgrees()
      requires Valid()
      ensures state.Finished() <==> Finished(View())
      ensures state.CanClaim() <==> CanClaim(View())
    {
    }

    // ---------------------------------------------------------------- one loop

    /** The head of the loop: go on to a claim, or return when the worker may not claim any more. */
    method Guard(i: nat)
      requires Valid() && i < |loops| && loops[i].Waiting?
      modifies `loops
      ensures Valid()
              && loops == old(loops)[i := LoopAfter(table.jobs, CanClaim(old(View())), old(loops)[i], LoopEvent.Guard)]
    {
      LoopChanged(loops, i, if state.CanClaim() then Claiming else Returned);
      loops := loops[i := if state.CanClaim() then Claiming else Returned];
    }

    /** The claim: with a job in hand the loop counts it and goes to work, otherwise it waits. */
    method Claim(i: nat, caps: Caps, now: int) returns (claimed: Option<JobId>)
      requires Valid() && i < |loops| && loops[i].Claiming?
      modifies `loops, state`inflight, table`jobs
      ensures Valid() && ClaimAnswers(old(table.jobs), claimed, profile.lane, caps, now)
      ensures var e := LoopEvent.Claim(claimed, now);
        && table.jobs == JobsAfterLoop(old(table.jobs), old(loops)[i], OwnerAt(i), e)
        && loops == old(loops)[i := LoopAfter(old(table.jobs), CanClaim(old(View())), old(loops)[i], e)]
    {
      claimed := table.Claim(OwnerAt(i), profile.lane, caps, now);
      var next := Waiting;
      if claimed.Some? {
        var j := table.jobs[claimed.value];
        next := Working(claimed.value, j.attempts, j.maxAttempts);
        state.JobStarted();
      }
      LoopChanged(loops, i, next);
      loops := loops[i := next];
    }

    /** The claim threw before the database ran it: nothing is in hand, and the loop waits for its next round. */
    method ClaimFails(i: nat)
      requires Valid() && i < |loops| && loops[i].Claiming?
      modifies `loops
      ensures Valid()
              && loops == old(loops)[i := LoopAfter(table.jobs, CanClaim(old(View())), old(loops)[i], LoopEvent.ClaimFails)]
    {
      LoopChanged(loops, i, Waiting);
      loops := loops[i := Waiting];
    }

    /** The database ran the claim, but the answer never arrived: a row may run that no loop knows of. */
    method ClaimLost(i: nat, caps: Caps, now: int) returns (ghost lost: Option<JobId>)
      requires Valid() && i < |loops| && loops[i].Claiming?
      modifies `loops, table`jobs
      ensures Valid() && ClaimAnswers(old(table.jobs), lost, profile.lane, caps, now)
      ensures var e := if lost.Some? then LoopEvent.ClaimLost(lost.value, now) else LoopEvent.ClaimFails;
        && table.jobs == JobsAfterLoop(old(table.jobs), old(loops)[i], OwnerAt(i), e)
        && loops == old(loops)[i := LoopAfter(old(table.jobs), CanClaim(old(View())), old(loops)[i], e)]
    {
      var claimed := table.Claim(OwnerAt(i), profile.lane, caps, now);
      lost := claimed;
      LoopChanged(loops, i, Waiting);
      loops := loops[i := Waiting];
    }

    /** The work is done: completeJob. */
    method Complete(i: nat)
      requires Valid() && i < |loops| && loops[i].Working?
      modifies `loops, table`jobs
      ensures Valid() && table.jobs == JobsAfterLoop(old(table.jobs), old(loops)[i], OwnerAt(i), LoopEvent.Complete)
      ensures loops == old(loops)[i := LoopAfter(old(table.jobs), CanClaim(old(View())), old(loops)[i], LoopEvent.Complete)]
    {
      var l := loops[i];
      var _ := table.Complete(l.id);
      var next := Wrapping(l.id, l.attempts, l.maxAttempts);
      LoopChanged(loops, i, next);
      loops := loops[i := next];
    }

    /** What follows a completed job is done as well: the loop starts over. */
    method WrapUp(i: nat)
      requires Valid() && i < |loops| && loops[i].Wrapping?
      modifies `loops, state`inflight
      ensures Valid()
              && loops == old(loops)[i := LoopAfter(table.jobs, CanClaim(old(View())), old(loops)[i], LoopEvent.WrapUp)]
    {
      Finish(i);
    }

    /** The failure itself could not be written: the row runs on, and the loop starts over. */
    method FailThrows(i: nat)
      requires Valid() && i < |loops| && Busy(loops[i])
      modifies `loops, state`inflight
      ensures Valid()
              && loops == old(loops)[i := LoopAfter(table.jobs, CanClaim(old(View())), old(loops)[i], LoopEvent.FailThrows)]
    {
      Finish(i);
    }

    /** The work, or what follows it, threw: fail, unless the worker's own stop cancelled the import. */
    method Failed(i: nat, cancelled: bool, nonRetryable: bool, now: int)
      requires Valid() && i < |loops| && Busy(loops[i])
      modifies `loops, state`inflight, table`jobs
      ensures var e := if state.stopping && cancelled then LoopEvent.Aborted else LoopEvent.Fail(nonRetryable, now);
        && Valid() && table.jobs == JobsAfterLoop(old(table.jobs), old(loops)[i], OwnerAt(i), e)
        && loops == old(loops)[i := LoopAfter(old(table.jobs), CanClaim(old(View())), old(loops)[i], e)]
    {
      var l := loops[i];
      if !(state.stopping && cancelled) {
        var _ := table.Fail(l.id, l.attempts, l.maxAttempts, nonRetryable, now);
      }
      Finish(i);
    }

    /** The job is out of hand and the loop starts over. */
    method Finish(i: nat)
      requires Valid() && i < |loops| && Busy(loops[i])
      modifies `loops, state`inflight
      ensures Valid() && loops == old(loops)[i := Waiting]
    {
      LoopChanged(loops, i, Waiting);
      state.JobFinished();
      loops := loops[i := Waiting];
    }

    // ---------------------------------------------------------------- requests to the process

    /** A drain request, a lost parent, or the profile being disabled. */
    method Drain()
      requires Valid()
      modifies state`draining
      ensures Valid() && View() == ProcessAfter(old(View()), profile.slots, ProcessEvent.Drain)
    {
      state.draining := true;
    }

    /** SIGTERM: no new jobs, and once the imports had their time the running jobs are given back with their attempt. */
    method Terminate()
      requires Valid()
      modifies state`stopping
      ensures Valid() && View() == ProcessAfter(old(View()), profile.slots, ProcessEvent.Terminate)
    {
      state.stopping := true;
    }

    method ReleaseWithRefund(now: int)
      requires Valid() && state.stopping
      modifies table`jobs
      ensures table.jobs == JobsAfterProcess(old(table.jobs), name, profile.slots, Refund(now))
    {
      table.ReleaseSelf(name, profile.slots, true, now);
    }
  }

  lemma {:induction false} NoneInflight(loops: seq<Loop>)
    requires forall i :: 0 <= i < |loops| ==> !Busy(loops[i])
    ensures Inflight(loops) == 0
  {
    if loops != [] { NoneInflight(loops[..|loops| - 1]); }
  }

  function One(l: Loop): nat {
    if Busy(l) then 1 else 0
  }

  /** Changing one loop changes the count by that loop alone. */
  lemma {:induction false} LoopChanged(loops: seq<Loop>, i: nat, l: Loop)
    requires i < |loops|
    ensures Inflight(loops[i := l]) + One(loops[i]) == Inflight(loops) + One(l)
  {
    var k := |loops| - 1;
    if i < k {
      assert loops[i := l][..k] == loops[..k][i := l];
      LoopChanged(loops[..k], i, l);
    } else {
      assert loops[i := l][..k] == loops[..k];
    }
  }
}
