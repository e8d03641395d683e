/** The worker's stopping state and its identity guard (src/worker/runtime.ts). Times are in milliseconds. */
module WorkerRuntime {
  import opened Wrappers
  import Digits

  const LIVENESS_FRESH_MS := 45_000

  // ------------------------------------------------------------------ stopping state

  class WorkerState {
    var stopping: bool
    var draining: bool
    var inflight: nat

    constructor ()
      ensures !stopping && !draining && inflight == 0
    {
      stopping, draining, inflight := false, false, 0;
    }

    predicate CanClaim()
      reads this
    {
      !stopping && !draining
    }

    /** Stopping or draining, with no job in hand. */
    predicate Finished()
      reads this
    {
      !CanClaim() && inflight == 0
    }

    method JobStarted()
      modifies this`inflight
      ensures inflight == old(inflight) + 1 && !Finished()
    {
      inflight := inflight + 1;
    }

    method JobFinished()
      modifies this`inflight
      ensures inflight == if old(inflight) == 0 then 0 else old(inflight) - 1
    {
      inflight := if inflight - 1 > 0 then inflight - 1 else 0;
    }
  }

  class CancelToken {
    var cancelled: bool
  }

  /**
   * Cancels every running import, then waits until none is left or the grace time is over. What other tasks do meanwhile
   * is the function inflightAt: the number of jobs in hand when the clock shows a time.
   */
  method AbortAndWait(tokens: set<CancelToken>, inflightAt: int -> nat, start: int, graceMs: nat, pollMs: nat)
    returns (stopped: bool, clock: int)
    requires pollMs >= 1
    modifies tokens
    ensures forall t :: t in tokens ==> t.cancelled
    ensures stopped <==> inflightAt(clock) == 0
    ensures start <= clock && (clock == start || clock < start + graceMs + pollMs)
    ensures !stopped ==> clock >= start + graceMs
    ensures forall n: nat :: start + n * pollMs < clock ==> inflightAt(start + n * pollMs) > 0
  {
    var todo := tokens;
    while todo != {}
      invariant todo <= tokens
      invariant forall t :: t in tokens && t !in todo ==> t.cancelled
    {
      var t :| t in todo;
      t.cancelled := true;
      todo := todo - {t};
    }
    clock := start;
    var end := start + graceMs;
    ghost var polls: nat := 0;
    while inflightAt(clock) > 0 && clock < end
      invariant clock == start + polls * pollMs
      invariant clock == start || clock < end + pollMs
      invariant forall n :: 0 <= n < polls ==> inflightAt(start + n * pollMs) > 0
      decreases end - clock
    {
      clock := clock + pollMs;
      polls := polls + 1;
    }
    stopped := inflightAt(clock) == 0;
    forall n: nat | start + n * pollMs < clock ensures inflightAt(start + n * pollMs) > 0 {
      Digits.MulCancel(n, polls, pollMs);
    }
  }

  // ------------------------------------------------------------------ liveness pulse

  /** The platform's readers for a date text and a number text; None is NaN. */
  datatype Readers = Readers(date: string -> Option<int>, number: string -> Option<int>)

  /** A process id field: absent, a number, or text that is not a number. */
  datatype Pid = NoPid | Pid(n: int) | NotANumber

  datatype Liveness = Liveness(at: int, host: Option<string>, pid: Pid)

  datatype Process = Process(host: string, pid: int)

  /** split("|"). */
  function SplitBar(s: string): (parts: seq<string>)
    ensures |parts| >= 1
  {
    if s == "" then [""]
    else
      var rest := SplitBar(s[1..]);
      if s[0] == '|' then [""] + rest else [[s[0]] + rest[0]] + rest[1..]
  }

  function ParseLiveness(raw: string, readers: Readers): Liveness {
    var parts := SplitBar(raw);
    var at := readers.date(parts[0]);
    var pid :=
      if |parts| < 3 || parts[2] == "" then NoPid
      else match readers.number(parts[2])
           case Some(n) => Pid(n)
           case None => NotANumber;
    Liveness(if at.Some? then at.value else 0, if |parts| >= 2 then Some(parts[1]) else None, pid)
  }

  /** Is another live process using this identity? */
  predicate IdentityConflict(raw: Option<string>, me: Process, now: int, isPidAlive: Pid -> bool, readers: Readers) {
    if raw.None? || raw.value == "" then false
    else
      var l := ParseLiveness(raw.value, readers);
      if now - l.at > LIVENESS_FRESH_MS then false
      else if l.host.None? || l.pid.NoPid? then true
      else if l.host.value == me.host && l.pid == Pid(me.pid) then false
      else if l.host.value == me.host then isPidAlive(l.pid)
      else true
  }

  lemma ConflictOnlyWhileFresh(raw: Option<string>, me: Process, now: int, isPidAlive: Pid -> bool, readers: Readers)
    requires IdentityConflict(raw, me, now, isPidAlive, readers)
    ensures raw.Some? && now <= ParseLiveness(raw.value, readers).at + LIVENESS_FRESH_MS
  {
  }

  /** The pulse that a worker writes (src/worker/metrics.ts:70-78). */
  function PulseText(time: string, host: string, pid: nat): string {
    time + ("|" + (host + ("|" + Digits.Decimal(pid))))
  }

  lemma {:induction false} SplitAtBar(a: string, rest: string)
    requires '|' !in a
    ensures SplitBar(a + ("|" + rest)) == [a] + SplitBar(rest)
    ensures SplitBar(a) == [a]
  {
    if a == "" {
      assert a + ("|" + rest) == "|" + rest && ("|" + rest)[1..] == rest;
    } else {
      var t := a + ("|" + rest);
      assert t[1..] == a[1..] + ("|" + rest) && t[0] == a[0] != '|';
      SplitAtBar(a[1..], rest);
      assert [a[0]] + a[1..] == a;
      assert ([a[1..]] + SplitBar(rest))[1..] == SplitBar(rest) && [a[1..]][1..] == [];
    }
  }

  /** What is written is read back: the time, the host and the process. */
  lemma PulseReadsBack(time: string, host: string, pid: nat, readers: Readers, at: int)
    requires '|' !in time && '|' !in host
    requires readers.date(time) == Some(at) && readers.number(Digits.Decimal(pid)) == Some(pid)
    ensures ParseLiveness(PulseText(time, host, pid), readers) == Liveness(at, Some(host), Pid(pid))
  {
    var digits := Digits.Decimal(pid);
    assert '|' !in digits;
    hide SplitBar, Digits.Decimal;
    SplitAtBar(time, host + ("|" + digits));
    SplitAtBar(host, digits);
    SplitAtBar(digits, "");
  }

  /**
   * The pulse of a worker stops another process from taking its identity exactly as long as it is no older than 45 s and its
   * writer may still be alive: it is on another host, or it is another process of this host that is alive.
   */
  lemma PulseConflictIff(time: string, host: string, pid: nat, me: Process, now: int, isPidAlive: Pid -> bool,
                         readers: Readers, at: int)
    requires '|' !in time && '|' !in host
    requires readers.date(time) == Some(at) && readers.number(Digits.Decimal(pid)) == Some(pid)
    ensures IdentityConflict(Some(PulseText(time, host, pid)), me, now, isPidAlive, readers)
            <==> now - at <= 45_000 && (host != me.host || (pid != me.pid && isPidAlive(Pid(pid))))
  {
    PulseReadsBack(time, host, pid, readers, at);
    assert PulseText(time, host, pid) != "";
    hide ParseLiveness, PulseText;
  }

  /** A pulse in the old format, a time alone, is taken for a living process as long as it is no older than 45 s. */
  lemma OldPulseConflictIff(time: string, me: Process, now: int, isPidAlive: Pid -> bool, readers: Readers, at: int)
    requires '|' !in time && time != "" && readers.date(time) == Some(at)
    ensures IdentityConflict(Some(time), me, now, isPidAlive, readers) <==> now - at <= 45_000
  {
    SplitAtBar(time, "");
  }

  // ------------------------------------------------------------------ waiting for the identity

  /** Outcome of the wait from time t on, as the answer and the time of the last check. */
  function WaitOutcome(conflictAt: int -> bool, t: int, deadline: int, pollMs: nat): (bool, int)
    requires pollMs >= 1
    decreases deadline - t
  {
    if !conflictAt(t) then (true, t)
    else if t >= deadline then (false, t)
    else WaitOutcome(conflictAt, t + pollMs, deadline, pollMs)
  }

  /** Polls until the conflict is gone or the wait is over; sleeping advances the clock by its argument. */
  method WaitIdentityFree(conflictAt: int -> bool, start: int, maxWaitMs: int, pollMs: nat) returns (free: bool,
                          clock: int)
    requires pollMs >= 1
    ensures (free, clock) == WaitOutcome(conflictAt, start, start + maxWaitMs, pollMs)
    ensures free <==> !conflictAt(clock)
    ensures clock == start || clock < start + maxWaitMs + pollMs
  {
    clock := start;
    while true
      invariant clock == start || clock < start + maxWaitMs + pollMs
      invariant WaitOutcome(conflictAt, start, start + maxWaitMs, pollMs) == WaitOutcome(conflictAt, clock, start + maxWaitMs, pollMs)
      decreases start + maxWaitMs - clock
    {
      if !conflictAt(clock) { return true, clock; }
      if clock - start >= maxWaitMs { return false, clock; }
      clock := clock + pollMs;
    }
  }

  /** A refusal comes only after the whole wait, with the conflict still there. */
  lemma {:induction false} RefusalIsLate(conflictAt: int -> bool, t: int, deadline: int, pollMs: nat)
    requires pollMs >= 1
    ensures var o := WaitOutcome(conflictAt, t, deadline, pollMs);
      o.1 >= t && (!o.0 ==> o.1 >= deadline && conflictAt(o.1))
    decreases deadline - t
  {
    if conflictAt(t) && t < deadline { RefusalIsLate(conflictAt, t + pollMs, deadline, pollMs); }
  }

  /** First poll at or after the deadline. */
  function LastPoll(t: int, deadline: int, pollMs: nat): (last: int)
    requires pollMs >= 1
    ensures last >= t && last >= deadline && (last == t || last < deadline + pollMs)
    decreases deadline - t
  {
    if t >= deadline then t else LastPoll(t + pollMs, deadline, pollMs)
  }

  /** When a conflict that is gone never comes back, the wait succeeds exactly when it is gone by the last poll. */
  lemma {:induction false} WaitSucceedsIff(conflictAt: int -> bool, t: int, deadline: int, pollMs: nat)
    requires pollMs >= 1
    requires forall u, w :: t <= u <= w && conflictAt(w) ==> conflictAt(u)
    ensures WaitOutcome(conflictAt, t, deadline, pollMs).0 <==> !conflictAt(LastPoll(t, deadline, pollMs))
    decreases deadline - t
  {
    if conflictAt(t) && t < deadline { WaitSucceedsIff(conflictAt, t + pollMs, deadline, pollMs); }
  }

  /**
   * A dead predecessor never causes a refusal: if the recorded pulse does not change and lies less than
   * maxWait - LIVENESS_FRESH_MS after the start, the identity becomes free, whatever isPidAlive answers meanwhile.
   */
  lemma DeadPredecessorFrees(raw: Option<string>, me: Process, alive: int -> (Pid -> bool), readers: Readers,
                             start: int, maxWaitMs: int, pollMs: nat)
    requires pollMs >= 1
    requires raw.Some? ==> ParseLiveness(raw.value, readers).at - start < maxWaitMs - LIVENESS_FRESH_MS
    ensures WaitOutcome(t => IdentityConflict(raw, me, t, alive(t), readers), start, start + maxWaitMs, pollMs).0
  {
    var conflictAt := t => IdentityConflict(raw, me, t, alive(t), readers);
    RefusalIsLate(conflictAt, start, start + maxWaitMs, pollMs);
    var o := WaitOutcome(conflictAt, start, start + maxWaitMs, pollMs);
    if !o.0 {
      ConflictOnlyWhileFresh(raw, me, o.1, alive(o.1), readers);
      assert false;
    }
  }

  lemma OtherHostConflict(raw: string, me: Process, now: int, isPidAlive: Pid -> bool, readers: Readers)
    requires raw != ""
    requires var l := ParseLiveness(raw, readers); l.host.Some? && l.host.value != me.host && !l.pid.NoPid?
    ensures IdentityConflict(Some(raw), me, now, isPidAlive, readers)
            <==> now <= ParseLiveness(raw, readers).at + LIVENESS_FRESH_MS
  {
  }

  /** A live process on another host whose pulse is recorded once more would be waited for until that pulse is stale. */
  lemma OtherHostFreesIff(raw: string, me: Process, alive: int -> (Pid -> bool), readers: Readers, start: int,
                          maxWaitMs: int, pollMs: nat)
    requires pollMs >= 1 && raw != ""
    requires var l := ParseLiveness(raw, readers); l.host.Some? && l.host.value != me.host && !l.pid.NoPid?
    ensures WaitOutcome(t => IdentityConflict(Some(raw), me, t, alive(t), readers), start, start + maxWaitMs, pollMs).0
            <==> LastPoll(start, start + maxWaitMs, pollMs) > ParseLiveness(raw, readers).at + LIVENESS_FRESH_MS
  {
    var conflictAt := t => IdentityConflict(Some(raw), me, t, alive(t), readers);
    forall u ensures conflictAt(u) <==> u <= ParseLiveness(raw, readers).at + LIVENESS_FRESH_MS {
      OtherHostConflict(raw, me, u, alive(u), readers);
    }
    WaitSucceedsIff(conflictAt, start, start + maxWaitMs, pollMs);
  }
}
