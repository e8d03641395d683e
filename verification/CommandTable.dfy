/**
 * The table of operator commands (src/supervisor/db.ts:43-85) under any number of supervisors.
 * Each SQL statement is one atomic step.
 */
module CommandTable {
  import opened Wrappers

  type Id = string

  datatype Status = Pending | Accepted | Draining | Applying | Done | Forced | Failed | Cancelled | Expired

  datatype Row = Row(status: Status, requestedAt: int, startedAt: Option<int>, finishedAt: Option<int>, result: Option<string>)

  type Rows = map<Id, Row>

  const HOUR_MS := 3_600_000

  predicate Terminal(s: Status) {
    s.Done? || s.Forced? || s.Failed? || s.Cancelled? || s.Expired?
  }

  // ------------------------------------------------------------------ the statements

  /** PENDING with the earliest request. */
  predicate OldestPending(rows: Rows, id: Id) {
    && id in rows && rows[id].status.Pending?
    && forall other :: other in rows && rows[other].status.Pending? ==> rows[id].requestedAt <= rows[other].requestedAt
  }

  function AcceptRow(r: Row, now: int): Row {
    r.(status := Accepted, startedAt := Some(now))
  }

  /** The guarded update: terminal rows stay as they are, and only a terminal status sets the finish time. */
  function UpdateRow(r: Row, status: Status, result: Option<string>, now: int): Row {
    if Terminal(r.status) then r else
      r.(status := status,
         result := if result.Some? then result else r.result,
         finishedAt := if Terminal(status) then Some(now) else r.finishedAt)
  }

  function ExpireRow(r: Row, now: int): Row {
    if r.status.Pending? && r.requestedAt < now - HOUR_MS
    then r.(status := Expired, finishedAt := Some(now), result := Some("expirou sem supervisor"))
    else r
  }

  function OrphanRow(r: Row, now: int): Row {
    if r.status.Accepted? || r.status.Draining? || r.status.Applying?
    then r.(status := Failed, finishedAt := Some(now), result := Some("supervisor_restart"))
    else r
  }

  function ExpireRows(rows: Rows, now: int): Rows {
    map id | id in rows :: ExpireRow(rows[id], now)
  }

  function OrphanRows(rows: Rows, now: int): Rows {
    map id | id in rows :: OrphanRow(rows[id], now)
  }

  class Table {
    var rows: Rows

    constructor ()
      ensures rows == map[]
    {
      rows := map[];
    }

    /** Accepts the oldest pending command; None when there is none. */
    method ClaimCommand(now: int) returns (claimed: Option<Id>)
      modifies this
      ensures claimed.None? <==> forall id :: id in old(rows) ==> !old(rows)[id].status.Pending?
      ensures claimed.None? ==> rows == old(rows)
      ensures claimed.Some? ==> OldestPending(old(rows), claimed.value)
      ensures claimed.Some? ==> rows == old(rows)[claimed.value := AcceptRow(old(rows)[claimed.value], now)]
      ensures claimed.Some? ==>
        && claimed.value in old(rows)
        && (forall id :: id in old(rows) && old(rows)[id].status == Pending ==> old(rows)[claimed.value].requestedAt <= old(rows)[id].requestedAt)
        && var r := old(rows)[claimed.value];
           && r.status == Pending
           && rows == old(rows)[claimed.value := Row(Accepted, r.requestedAt, Some(now), r.finishedAt, r.result)]
    {
      var pending := set id | id in rows && rows[id].status.Pending?;
      if pending == {} {
        assert forall id :: id in rows && rows[id].status.Pending? ==> id in pending;
        return None;
      }
      OldestExists(rows, pending);
      var id :| OldestPending(rows, id);
      rows := rows[id := AcceptRow(rows[id], now)];
      claimed := Some(id);
    }

    method UpdateCommand(id: Id, status: Status, result: Option<string>, now: int)
      modifies this
      ensures id !in old(rows) ==> rows == old(rows)
      ensures id in old(rows) ==> rows == old(rows)[id := UpdateRow(old(rows)[id], status, result, now)]
      ensures id in old(rows) ==>
        var r, final := old(rows)[id], [Done, Forced, Failed, Cancelled, Expired];
        rows == if r.status in final then old(rows)
                else old(rows)[id := Row(status, r.requestedAt, r.startedAt, if status in final then Some(now) else r.finishedAt,
                                         if result.Some? then result else r.result)]
    {
      if id in rows && !Terminal(rows[id].status) {
        var r := rows[id].(status := status);
        if result.Some? { r := r.(result := result); }
        if Terminal(status) { r := r.(finishedAt := Some(now)); }
        rows := rows[id := r];
      }
    }

    /** Pending commands older than an hour expire; every other row, and every older field of these, stays. */
    method ExpireStale(now: int)
      modifies this
      ensures rows.Keys == old(rows.Keys)
      ensures forall id :: id in rows ==>
        var r := old(rows)[id];
        rows[id] == if r.status == Pending && now - r.requestedAt > 3_600_000
                    then Row(Expired, r.requestedAt, r.startedAt, Some(now), Some("expirou sem supervisor")) else r
      ensures rows == ExpireRows(old(rows), now)
    {
      rows := map id | id in rows ::
        if rows[id].status.Pending? && rows[id].requestedAt < now - HOUR_MS
        then rows[id].(status := Expired, finishedAt := Some(now), result := Some("expirou sem supervisor"))
        else rows[id];
    }

    /** At boot; returns how many commands of the previous supervisor it failed. */
    method FailOrphanedCommands(now: int) returns (n: nat)
      modifies this
      ensures rows.Keys == old(rows.Keys)
      ensures forall id :: id in rows ==>
        var r := old(rows)[id];
        rows[id] == if r.status in [Accepted, Draining, Applying]
                    then Row(Failed, r.requestedAt, r.startedAt, Some(now), Some("supervisor_restart")) else r
      ensures rows == OrphanRows(old(rows), now)
      ensures n == |set id | id in old(rows) && rows[id] != old(rows)[id]|
    {
      ghost var before := rows;
      var hit := set id | id in rows && (rows[id].status.Accepted? || rows[id].status.Draining? || rows[id].status.Applying?);
      rows := map id | id in rows ::
        if id in hit then rows[id].(status := Failed, finishedAt := Some(now), result := Some("supervisor_restart")) else rows[id];
      n := |hit|;
      assert hit == set id | id in before && rows[id] != before[id];
    }
  }

  lemma {:induction false} OldestExists(rows: Rows, pending: set<Id>)
    requires pending == set id | id in rows && rows[id].status.Pending?
    requires pending != {}
    ensures exists id :: OldestPending(rows, id)
  {
    var id := Oldest(rows, pending);
    assert OldestPending(rows, id);
  }

  lemma {:induction false} Oldest(rows: Rows, ids: set<Id>) returns (id: Id)
    requires ids != {} && ids <= rows.Keys
    ensures id in ids && forall other :: other in ids ==> rows[id].requestedAt <= rows[other].requestedAt
    decreases |ids|
  {
    var x :| x in ids;
    var rest := ids - {x};
    if rest == {} {
      id := x;
      forall other | other in ids ensures other == x { assert other == x || other in rest; }
    } else {
      var y := Oldest(rows, rest);
      id := if rows[x].requestedAt <= rows[y].requestedAt then x else y;
    }
  }

  // ------------------------------------------------------------------ runs

  /** The table plus what happened so far: how often each command was accepted, and which had their progress written. */
  datatype Desk = Desk(rows: Rows, accepts: map<Id, nat>, progressed: set<Id>)

  datatype Event =
    | Create(id: Id, at: int)
    | Claim(id: Id, now: int)
    | Update(id: Id, status: Status, result: Option<string>, now: int)
    | ExpireStale(now: int)
    | FailOrphans(now: int)
    | Cancel(id: Id, now: int)

  function Accepts(d: Desk, id: Id): nat {
    if id in d.accepts then d.accepts[id] else 0
  }

  /** A supervisor writes only to commands some supervisor accepted, and writes DRAINING or APPLYING at most once for each. */
  predicate Enabled(d: Desk, e: Event) {
    match e
    case Create(id, _) => id !in d.rows && Accepts(d, id) == 0
    case Claim(id, _) => OldestPending(d.rows, id)
    case Update(id, status, _, _) =>
      && Accepts(d, id) >= 1
      && (status.Draining? || status.Applying? || status.Done? || status.Forced? || status.Failed?)
      && (status.Draining? || status.Applying? ==> id !in d.progressed)
    case ExpireStale(_) => true
    case FailOrphans(_) => true
    case Cancel(_, _) => true
  }

  function Next(d: Desk, e: Event): Desk {
    match e
    case Create(id, at) => d.(rows := d.rows[id := Row(Pending, at, None, None, None)])
    case Claim(id, now) =>
      if id in d.rows then d.(rows := d.rows[id := AcceptRow(d.rows[id], now)], accepts := d.accepts[id := Accepts(d, id) + 1]) else d
    case Update(id, status, result, now) =>
      var rows := if id in d.rows then d.rows[id := UpdateRow(d.rows[id], status, result, now)] else d.rows;
      d.(rows := rows, progressed := if status.Draining? || status.Applying? then d.progressed + {id} else d.progressed)
    case ExpireStale(now) => d.(rows := ExpireRows(d.rows, now))
    case FailOrphans(now) => d.(rows := OrphanRows(d.rows, now))
    case Cancel(id, now) =>
      if id in d.rows && d.rows[id].status.Pending?
      then d.(rows := d.rows[id := d.rows[id].(status := Cancelled, finishedAt := Some(now))]) else d
  }

  predicate Feasible(d: Desk, es: seq<Event>)
    decreases |es|
  {
    es == [] || (Enabled(d, es[0]) && Feasible(Next(d, es[0]), es[1..]))
  }

  function Run(d: Desk, es: seq<Event>): Desk
    decreases |es|
  {
    if es == [] then d else Run(Next(d, es[0]), es[1..])
  }

  const EMPTY_DESK := Desk(map[], map[], {})

  function Rank(s: Status): nat {
    match s
    case Pending => 0
    case Accepted => 1
    case Draining => 2
    case Applying => 2
    case _ => 3
  }

  /** The documented state machine of a command (src/server/worker/commands.ts:27-37). */
  predicate CanTransition(from: Status, to: Status) {
    match from
    case Pending => to.Accepted? || to.Cancelled? || to.Expired? || to.Failed?
    case Accepted => to.Draining? || to.Applying? || to.Done? || to.Failed?
    case Draining => to.Applying? || to.Done? || to.Forced? || to.Failed?
    case Applying => to.Done? || to.Forced? || to.Failed?
    case _ => false
  }

  predicate RowOk(d: Desk, id: Id)
    requires id in d.rows
  {
    var r := d.rows[id];
    && (r.finishedAt.Some? <==> Terminal(r.status))
    && (r.startedAt.Some? <==> Accepts(d, id) == 1)
    && Accepts(d, id) <= 1
    && (r.status.Pending? || r.status.Cancelled? || r.status.Expired? ==> Accepts(d, id) == 0)
    && (r.status.Accepted? || r.status.Draining? || r.status.Applying? || r.status.Done? || r.status.Forced? ==> Accepts(d, id) == 1)
    && ((r.status.Draining? || r.status.Applying?) ==> id in d.progressed)
    && (r.status.Pending? || r.status.Accepted? || r.status.Cancelled? || r.status.Expired? ==> id !in d.progressed)
  }

  ghost predicate Inv(d: Desk) {
    && (forall id :: id in d.rows ==> RowOk(d, id))
    && d.accepts.Keys <= d.rows.Keys && d.progressed <= d.rows.Keys
  }

  lemma NextKeepsInv(d: Desk, e: Event)
    requires Inv(d) && Enabled(d, e)
    ensures Inv(Next(d, e))
  {
    var n := Next(d, e);
    forall id | id in n.rows ensures RowOk(n, id) {
      if id in d.rows { assert RowOk(d, id); }
    }
  }

  /** A step keeps a status, or moves it along the documented machine, or leaves that machine. */
  predicate Leaves(a: Status, b: Status) {
    a != b && !CanTransition(a, b)
  }

  /** FORCED is written to an open command whose progress, DRAINING or APPLYING, was never written. */
  predicate ForcesUnprogressed(d: Desk, e: Event, id: Id) {
    e.Update? && e.id == id && e.status.Forced? && id in d.rows && !Terminal(d.rows[id].status) && id !in d.progressed
  }

  /**
   * One step moves a command's status along the documented machine, or keeps it, with one exception: it leaves the machine,
   * from ACCEPTED to FORCED, exactly when FORCED is written to an open command whose progress was never written.
   */
  lemma NextTransition(d: Desk, e: Event, id: Id)
    requires Inv(d) && Enabled(d, e) && id in d.rows
    ensures id in Next(d, e).rows && Rank(d.rows[id].status) <= Rank(Next(d, e).rows[id].status)
    ensures Leaves(d.rows[id].status, Next(d, e).rows[id].status) <==> ForcesUnprogressed(d, e, id)
    ensures ForcesUnprogressed(d, e, id) ==> d.rows[id].status.Accepted? && Next(d, e).rows[id].status.Forced?
    ensures Terminal(d.rows[id].status) ==> Next(d, e).rows[id] == d.rows[id]
  {
    assert RowOk(d, id);
  }

  /** A run from the empty table whose last step leaves the documented machine. */
  lemma AcceptedCanBeForced() returns (es: seq<Event>, e: Event)
    ensures Feasible(EMPTY_DESK, es + [e]) && "c" in Run(EMPTY_DESK, es).rows
    ensures ForcesUnprogressed(Run(EMPTY_DESK, es), e, "c")
    ensures Leaves(Run(EMPTY_DESK, es).rows["c"].status, Next(Run(EMPTY_DESK, es), e).rows["c"].status)
  {
    var a, b := Create("c", 0), Claim("c", 1);
    es, e := [a, b], Update("c", Forced, None, 2);
    var d1 := Next(EMPTY_DESK, a);
    assert d1.rows == map["c" := Row(Pending, 0, None, None, None)];
    assert OldestPending(d1.rows, "c");
    var d2 := Next(d1, b);
    var d3 := Next(d2, e);
    assert (es + [e])[1..] == [b, e] && [b, e][1..] == [e] && [e][1..] == [] && es[1..] == [b] && [b][1..] == [];
    assert Feasible(d3, []) && Feasible(d2, [e]) && Feasible(d1, [b, e]);
    assert Run(d2, []) == d2 && Run(d1, [b]) == d2;
  }

  /** In every run from the empty table: accepted at most once, and a finish time exactly on the terminal commands. */
  lemma {:induction false} RunKeepsInv(d: Desk, es: seq<Event>)
    requires Inv(d) && Feasible(d, es)
    ensures Inv(Run(d, es))
    decreases |es|
  {
    if es != [] {
      NextKeepsInv(d, es[0]);
      RunKeepsInv(Next(d, es[0]), es[1..]);
    }
  }

  lemma AcceptedAtMostOnce(es: seq<Event>, id: Id)
    requires Feasible(EMPTY_DESK, es)
    ensures var d := Run(EMPTY_DESK, es);
      && Accepts(d, id) <= 1
      && (id in d.rows ==> (d.rows[id].finishedAt.Some? <==> Terminal(d.rows[id].status)))
  {
    RunKeepsInv(EMPTY_DESK, es);
    var d := Run(EMPTY_DESK, es);
    if id in d.rows { assert RowOk(d, id); }
  }

  /** Over any continuation of any run a command only moves forward, and a terminal command never changes again. */
  lemma {:induction false} RunMovesForward(d: Desk, es: seq<Event>, id: Id)
    requires Inv(d) && Feasible(d, es) && id in d.rows
    ensures id in Run(d, es).rows
    ensures Rank(d.rows[id].status) <= Rank(Run(d, es).rows[id].status)
    ensures Terminal(d.rows[id].status) ==> Run(d, es).rows[id] == d.rows[id]
    decreases |es|
  {
    if es != [] {
      NextTransition(d, es[0], id);
      NextKeepsInv(d, es[0]);
      RunMovesForward(Next(d, es[0]), es[1..], id);
    }
  }
}
