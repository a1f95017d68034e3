/** Paging through one execution (core/src/ipc/query_methods.c): what a caller that turns pages on a
    connection's cursor receives, whatever else is called in between. */
module Paging {
  import opened Prelude
  import opened Connections
  import opened Queries
  import opened Sessions

  /** Neither closes nor replaces the cursor of `id`: a page turn on it, a plain query or a transaction call
      on it, or anything on another connection. */
  predicate LeavesCursor(op: Op, id: int) {
    match op
    case OpenOp(_, _, _) => true
    case CloseOp(i, _) => i != id
    case RunOp(i, keep, _, _, _, _, _) => i != id || !keep
    case NextOp(_, limit, _, _) => limit >= 1
    case CursorCloseOp(i, _) => i != id
    case TxOp(_, _, _, _) => true
  }

  /** The rows behind the cursor of `id`, and how many were read. */
  ghost function Source(m: Conns, id: int): ResultSet
    requires CursorsReadable(m) && id in m.table && m.table[id].cursor.Some?
  {
    m.results[m.table[id].cursor.value]
  }

  ghost predicate HasCursor(m: Conns, id: int) {
    id in m.table && m.table[id].cursor.Some?
  }

  /** `id` has the same cursor as before, which stands where it stood. */
  ghost predicate SameCursor(m: Conns, m': Conns, id: int) {
    && id in m.table && id in m'.table && m'.table[id].cursor == m.table[id].cursor
    && (HasCursor(m, id) ==>
          var c := m.table[id].cursor.value; c in m.results && c in m'.results && m'.results[c] == m.results[c])
  }

  lemma PassingLeavesIt(m: Conns, i: int, rs: ResultSet, id: int)
    requires Good(m) && id in m.table && i in m.table
    ensures SameCursor(m, Passing(m, i, rs), id)
    ensures i != id ==> SameCursor(m, Kept(m, i, rs), id)
  {
    NewName(m);
  }

  lemma DropLeavesIt(m: Conns, i: int, id: int)
    requires CursorsReadable(m) && id in m.table && i != id
    ensures SameCursor(m, SetCursor(m, i, None), id)
  {
  }

  lemma SameCursorOn(m: Conns, m1: Conns, m2: Conns, id: int)
    requires SameCursor(m, m1, id) && SameCursor(m1, m2, id)
    ensures SameCursor(m, m2, id)
  {
  }

  lemma OtherResultLeavesIt(m: Conns, i: int, keep: bool, rs: ResultSet, read: nat, id: int)
    requires Good(m) && id in m.table && i in m.table && (i == id ==> !keep)
    ensures var m1 := if keep then SetCursor(m, i, None) else m;
            && SameCursor(m, m1, id) && SameCursor(m, Passing(m1, i, rs), id)
            && (i != id ==> SameCursor(m, Kept(m1, i, rs.(pos := read)), id))
  {
    var m1 := if keep then SetCursor(m, i, None) else m;
    CursorDropSound(m, i);
    if keep {
      DropLeavesIt(m, i, id);
    }
    PassingLeavesIt(m1, i, rs, id);
    SameCursorOn(m, m1, Passing(m1, i, rs), id);
    if i != id {
      PassingLeavesIt(m1, i, rs.(pos := read), id);
      SameCursorOn(m, m1, Kept(m1, i, rs.(pos := read)), id);
    }
  }

  lemma OtherRunLeavesIt(m: Conns, i: int, keep: bool, limit: int, offset: int, a: Answer, t: Trouble, fails: bool,
                         id: int)
    requires Good(m) && id in m.table && (i == id ==> !keep)
    ensures SameCursor(m, RunQuery(m, i, keep, limit, offset, a, t, fails).0, id)
  {
    if i in m.table {
      var rs := ResultSet(if a.result.Some? then a.result.value else [], 0);
      OtherResultLeavesIt(m, i, keep, rs, Materialized(rs, limit, offset, keep, t).pos, id);
    }
  }

  lemma OtherNextLeavesIt(m: Conns, i: int, limit: int, t: Trouble, fails: bool, id: int)
    requires Good(m) && id in m.table && i != id
    ensures SameCursor(m, NextPage(m, i, limit, t, fails).0, id)
  {
    DropLeavesIt(m, i, id);
    if HasCursor(m, id) && HasCursor(m, i) {
      assert EntryHeld(m.table[id], Replay(m.log).value) && EntryHeld(m.table[i], Replay(m.log).value);
      assert m.table[id].cursor != m.table[i].cursor;
    }
  }

  lemma OtherOpenLeavesIt(m: Conns, how: Opening, st: Status, telling: Telling, id: int)
    requires Good(m) && id in m.table
    ensures SameCursor(m, OpenCall(m, how, st, telling).0, id)
  {
    assert id != m.nextId;
    assert SameCursor(m, Open(m, how), id);
  }

  lemma TxLeavesIt(m: Conns, i: int, kind: TxKind, st: Status, fails: bool, id: int)
    requires CursorsReadable(m) && id in m.table
    ensures SameCursor(m, TxDispatch(m, i, kind, st, fails).0, id)
  {
  }

  lemma CloseLeavesIt(m: Conns, i: int, fails: bool, id: int)
    requires CursorsReadable(m) && id in m.table && i != id
    ensures SameCursor(m, Close(m, i), id) && SameCursor(m, CloseCursor(m, i, fails).0, id)
  {
    DropLeavesIt(m, i, id);
  }

  lemma OtherCallLeavesIt(m: Conns, op: Op, id: int)
    requires Good(m) && id in m.table && LeavesCursor(op, id) && !(op.NextOp? && op.id == id)
    ensures SameCursor(m, Apply(m, op).0, id)
  {
    match op {
      case RunOp(i, keep, limit, offset, a, t, fails) =>
        OtherRunLeavesIt(m, i, keep, limit, offset, a, t, fails, id);
      case NextOp(i, limit, t, fails) => OtherNextLeavesIt(m, i, limit, t, fails, id);
      case OpenOp(how, st, telling) => OtherOpenLeavesIt(m, how, st, telling, id);
      case CloseOp(i, fails) => CloseLeavesIt(m, i, fails, id);
      case CursorCloseOp(i, fails) => CloseLeavesIt(m, i, fails, id);
      case TxOp(i, kind, st, fails) => TxLeavesIt(m, i, kind, st, fails, id);
    }
  }

  /** Other calls do not move the cursor of `id`, nor give it one. */
  lemma OthersLeaveIt(m: Conns, op: Op, id: int)
    requires Good(m) && id in m.table && LeavesCursor(op, id) && !(op.NextOp? && op.id == id)
    ensures Good(Apply(m, op).0) && SameCursor(m, Apply(m, op).0, id)
  {
    ApplyKeepsGood(m, op);
    OtherCallLeavesIt(m, op, id);
  }

  // ---------------------------------------------------------------- page turns, as a chain of slices

  /** One page turn on an open cursor: the rows of the result it read, and whether they were delivered. */
  datatype Turn = Turn(from: nat, to: nat, delivered: bool)

  /** Each turn starts where the one before stopped, from `pos` on and within the result. */
  predicate Chain(ts: seq<Turn>, pos: nat, size: nat) {
    if ts == [] then pos <= size else ts[0].from == pos <= ts[0].to <= size && Chain(ts[1..], ts[0].to, size)
  }

  function End(ts: seq<Turn>, pos: nat): nat {
    if ts == [] then pos else End(ts[1..], ts[0].to)
  }

  function Range(from: nat, n: nat): seq<nat> {
    seq(n, i requires 0 <= i < n => from + i)
  }

  /** The places in the result of the rows delivered. */
  function Places(ts: seq<Turn>): seq<nat> {
    if ts == [] then []
    else
      (if ts[0].delivered && ts[0].from <= ts[0].to then Range(ts[0].from, ts[0].to - ts[0].from) else [])
      + Places(ts[1..])
  }

  /** No turn that read rows went undelivered before one that delivered some. */
  predicate Lossless(ts: seq<Turn>) {
    forall i, j | 0 <= i < j < |ts| ::
      !(!ts[i].delivered && ts[i].from < ts[i].to && ts[j].delivered && ts[j].from < ts[j].to)
  }

  predicate NoRows(ts: seq<Turn>) {
    forall j | 0 <= j < |ts| :: !(ts[j].delivered && ts[j].from < ts[j].to)
  }

  lemma {:induction false} NoPlacesIff(ts: seq<Turn>)
    ensures Places(ts) == [] <==> NoRows(ts)
  {
    if ts != [] {
      NoPlacesIff(ts[1..]);
      assert NoRows(ts) <==> !(ts[0].delivered && ts[0].from < ts[0].to) && NoRows(ts[1..]) by {
        assert forall j | 0 < j < |ts| :: ts[j] == ts[1..][j - 1];
      }
    }
  }

  lemma LosslessTail(ts: seq<Turn>)
    requires ts != []
    ensures Lossless(ts) <==> if !ts[0].delivered && ts[0].from < ts[0].to then NoRows(ts[1..]) else Lossless(ts[1..])
  {
    var rest := ts[1..];
    assert forall j | 0 < j < |ts| :: ts[j] == rest[j - 1];
    assert forall j | 0 <= j < |rest| :: rest[j] == ts[j + 1];
  }

  lemma {:induction false} PlacesIncrease(ts: seq<Turn>, pos: nat, size: nat)
    requires Chain(ts, pos, size)
    ensures forall k | 0 <= k < |Places(ts)| :: pos <= Places(ts)[k] < size
    ensures forall j, k | 0 <= j < k < |Places(ts)| :: Places(ts)[j] < Places(ts)[k]
    ensures pos <= End(ts, pos) <= size
  {
    if ts != [] {
      PlacesIncrease(ts[1..], ts[0].to, size);
    }
  }

  lemma JoinRanges(a: nat, n: nat, ps: seq<nat>)
    ensures Range(a, n) + ps == Range(a, n + |ps|) <==> ps == Range(a + n, |ps|)
  {
    var joined := Range(a, n) + ps;
    assert forall k | 0 <= k < |ps| :: joined[n + k] == ps[k];
    if joined == Range(a, n + |ps|) {
      assert forall k | 0 <= k < |ps| :: ps[k] == Range(a, n + |ps|)[n + k];
    }
  }

  predicate Consecutive(ps: seq<nat>, from: nat) {
    ps == Range(from, |ps|)
  }

  lemma DeliveredFirst(a: nat, n: nat, ps: seq<nat>)
    ensures Consecutive(Range(a, n) + ps, a) <==> Consecutive(ps, a + n)
  {
    JoinRanges(a, n, ps);
  }

  lemma RangesMeet(a: nat, n: nat, k: nat)
    ensures Range(a, n) + Range(a + n, k) == Range(a, n + k)
  {
  }

  lemma GapShows(a: nat, b: nat, ps: seq<nat>)
    requires a < b && forall k | 0 <= k < |ps| :: b <= ps[k]
    ensures ps == Range(a, |ps|) <==> ps == []
  {
    if ps != [] {
      assert Range(a, |ps|)[0] == a;
    }
  }

  lemma ConsecutiveGiven(ts: seq<Turn>, pos: nat, size: nat)
    requires ts != [] && Chain(ts, pos, size) && ts[0].delivered
    ensures Consecutive(Places(ts), pos) <==> Consecutive(Places(ts[1..]), ts[0].to)
  {
    var to', later := ts[0].to, Places(ts[1..]);
    assert Consecutive(Range(pos, to' - pos) + later, pos) <==> Consecutive(later, to') by {
      DeliveredFirst(pos, to' - pos, later);
    }
  }

  lemma ConsecutiveLost(ts: seq<Turn>, pos: nat, size: nat)
    requires ts != [] && Chain(ts, pos, size) && !ts[0].delivered
    ensures Consecutive(Places(ts), pos)
            <==> if ts[0].from < ts[0].to then Places(ts[1..]) == [] else Consecutive(Places(ts[1..]), ts[0].to)
  {
    var later := Places(ts[1..]);
    assert Places(ts) == [] + later == later;
    if pos < ts[0].to {
      PlacesIncrease(ts[1..], ts[0].to, size);
      GapShows(pos, ts[0].to, later);
    }
  }

  /** The delivered rows are consecutive exactly when no turn with rows was lost before a delivered one. */
  lemma {:induction false} ConsecutiveIffLossless(ts: seq<Turn>, pos: nat, size: nat)
    requires Chain(ts, pos, size)
    ensures Lossless(ts) <==> Consecutive(Places(ts), pos)
  {
    if ts == [] {
      assert Range(pos, 0) == [];
    } else {
      ConsecutiveIffLossless(ts[1..], ts[0].to, size);
      LosslessTail(ts);
      NoPlacesIff(ts[1..]);
      if ts[0].delivered {
        ConsecutiveGiven(ts, pos, size);
      } else {
        ConsecutiveLost(ts, pos, size);
      }
    }
  }

  predicate AllDelivered(ts: seq<Turn>) {
    forall k | 0 <= k < |ts| :: ts[k].delivered
  }

  /** With every turn delivered, what arrives is everything from the start to where the chain ends. */
  lemma {:induction false} AllDeliveredIsWhole(ts: seq<Turn>, pos: nat, size: nat)
    requires Chain(ts, pos, size) && AllDelivered(ts)
    ensures pos <= End(ts, pos) && Places(ts) == Range(pos, End(ts, pos) - pos)
  {
    if ts == [] {
      assert Range(pos, 0) == [];
    } else {
      var n, k := ts[0].to - pos, End(ts[1..], ts[0].to) - ts[0].to;
      assert AllDelivered(ts[1..]) by {
        assert forall i | 0 <= i < |ts| - 1 :: ts[1..][i] == ts[i + 1];
      }
      AllDeliveredIsWhole(ts[1..], ts[0].to, size);
      RangesMeet(pos, n, k);
      assert Places(ts) == Range(pos, n) + Range(pos + n, k);
    }
  }

  /** The rows of `all` at the given places. */
  function At(all: seq<Row>, places: seq<nat>): seq<Row>
    requires forall k | 0 <= k < |places| :: places[k] < |all|
  {
    seq(|places|, k requires 0 <= k < |places| => all[places[k]])
  }

  lemma AtRange(all: seq<Row>, from: nat, to: nat)
    requires from <= to <= |all|
    ensures At(all, Range(from, to - from)) == all[from..to]
  {
  }

  // ---------------------------------------------------------------- the turns of a run of calls

  ghost predicate Turns(m: Conns, op: Op, id: int) {
    op.NextOp? && op.id == id && HasCursor(m, id)
  }

  /** What one turn reads and whether it is delivered; one the driver breaks reads nothing. */
  ghost function TurnOf(m: Conns, op: Op, id: int): Turn
    requires CursorsReadable(m) && Turns(m, op, id)
  {
    var p := OpenPage(Source(m, id), op.limit, op.t);
    Turn(Source(m, id).pos, if p.st == Success then p.pos else Source(m, id).pos, p.st == Success && !op.jsonFails)
  }

  ghost function TurnsOf(m: Conns, ops: seq<Op>, id: int): seq<Turn>
    decreases |ops|
  {
    if ops == [] then []
    else
      (if CursorsReadable(m) && Turns(m, ops[0], id) then [TurnOf(m, ops[0], id)] else [])
      + TurnsOf(Step(m, ops[0]).0, ops[1..], id)
  }

  /** The rows that arrive in the replies of those turns. */
  ghost function Delivered(m: Conns, ops: seq<Op>, id: int): seq<Row>
    decreases |ops|
  {
    if ops == [] then []
    else
      var (m', reply) := Step(m, ops[0]);
      (if Turns(m, ops[0], id) && reply.Rows? then reply.rows else []) + Delivered(m', ops[1..], id)
  }

  /** One page turn: it delivers the rows the cursor stands at, or none, and moves on or gives the cursor up. */
  lemma OneTurn(m: Conns, op: Op, id: int)
    requires Good(m) && Turns(m, op, id) && op.limit >= 1
    ensures var rs := Source(m, id);
            var turn := TurnOf(m, op, id);
            var (m', reply) := Step(m, op);
            && id in m'.table && rs.pos <= turn.to <= |rs.rows|
            && (HasCursor(m', id) ==> Source(m', id) == rs.(pos := turn.to))
            && (reply.Rows? <==> turn.delivered) && (reply.Rows? || reply.Err?)
            && (reply.Rows? ==> reply.rows == rs.rows[rs.pos..turn.to] && (reply.cursor <==> HasCursor(m', id)))
            && (!HasCursor(m', id) && turn.delivered ==> turn.to == |rs.rows|)
  {
  }

  /** Without a cursor nothing is delivered. */
  lemma {:induction false} NothingWithoutCursor(m: Conns, ops: seq<Op>, id: int)
    requires Good(m) && id in m.table && !HasCursor(m, id) && forall k | 0 <= k < |ops| :: LeavesCursor(ops[k], id)
    ensures TurnsOf(m, ops, id) == [] && Delivered(m, ops, id) == []
    ensures id in Final(m, ops).table && !HasCursor(Final(m, ops), id)
    decreases |ops|
  {
    if ops != [] {
      if !(ops[0].NextOp? && ops[0].id == id) {
        OthersLeaveIt(m, ops[0], id);
      }
      NothingWithoutCursor(Step(m, ops[0]).0, ops[1..], id);
    }
  }

  /** How the turns of a run stand to the result: a chain of slices from where the cursor stood, whose
      delivered part is what arrived, and at whose end the cursor stands if it is still there. */
  ghost predicate Explains(ts: seq<Turn>, rs: ResultSet, arrived: seq<Row>, f: Conns, id: int) {
    && Chain(ts, rs.pos, |rs.rows|)
    && (forall k | 0 <= k < |Places(ts)| :: Places(ts)[k] < |rs.rows|) && arrived == At(rs.rows, Places(ts))
    && CursorsReadable(f)
    && (HasCursor(f, id) ==> Source(f, id) == rs.(pos := End(ts, rs.pos)))
  }

  /** A cursor that is gone without any turn having failed was read to the end. */
  ghost predicate ReadOut(ts: seq<Turn>, rs: ResultSet, f: Conns, id: int) {
    !HasCursor(f, id) && AllDelivered(ts) ==> End(ts, rs.pos) == |rs.rows|
  }

  lemma ExplainsMore(turn: Turn, later: seq<Turn>, rs: ResultSet, arrived: seq<Row>, f: Conns, id: int)
    requires rs.pos == turn.from <= turn.to <= |rs.rows| && Explains(later, rs.(pos := turn.to), arrived, f, id)
    requires turn.delivered ==> ReadOut(later, rs.(pos := turn.to), f, id)
    ensures Explains([turn] + later, rs, (if turn.delivered then rs.rows[turn.from..turn.to] else []) + arrived, f, id)
    ensures ReadOut([turn] + later, rs, f, id)
  {
    var ts := [turn] + later;
    assert ts[1..] == later && ts[0] == turn;
    PlacesIncrease(ts, rs.pos, |rs.rows|);
    AtRange(rs.rows, turn.from, turn.to);
    assert AllDelivered(ts) ==> AllDelivered(later) && ts[0].delivered by {
      assert forall k | 0 <= k < |later| :: later[k] == ts[k + 1];
    }
  }

  /** What a turn adds to the turns and the rows of a run that starts with it. */
  lemma TurnFirst(m: Conns, op: Op, rest: seq<Op>, id: int)
    requires Good(m) && Turns(m, op, id) && op.limit >= 1
    ensures var rs, turn, m' := Source(m, id), TurnOf(m, op, id), Step(m, op).0;
            && TurnsOf(m, [op] + rest, id) == [turn] + TurnsOf(m', rest, id)
            && turn.to <= |rs.rows| && turn.from == rs.pos <= turn.to
            && Delivered(m, [op] + rest, id)
            == (if turn.delivered then rs.rows[turn.from..turn.to] else []) + Delivered(m', rest, id)
  {
    OneTurn(m, op, id);
    assert ([op] + rest)[1..] == rest;
  }

  lemma OtherFirst(m: Conns, op: Op, rest: seq<Op>, id: int)
    requires !Turns(m, op, id)
    ensures TurnsOf(m, [op] + rest, id) == TurnsOf(Step(m, op).0, rest, id)
    ensures Delivered(m, [op] + rest, id) == Delivered(Step(m, op).0, rest, id)
  {
    assert ([op] + rest)[1..] == rest;
  }

  /** What page turns deliver is read off the one result as `Explains` says, whatever else was called and
      whatever failed in between. */
  lemma {:induction false} TurnsFollowTheResult(m: Conns, ops: seq<Op>, id: int)
    requires Good(m) && HasCursor(m, id) && forall k | 0 <= k < |ops| :: LeavesCursor(ops[k], id)
    ensures Explains(TurnsOf(m, ops, id), Source(m, id), Delivered(m, ops, id), Final(m, ops), id)
    ensures ReadOut(TurnsOf(m, ops, id), Source(m, id), Final(m, ops), id)
    decreases |ops|, 0
  {
    if ops == [] { return; }
    var op, rest := ops[0], ops[1..];
    var m' := Step(m, op).0;
    assert ops == [op] + rest;
    assert Final(m, ops) == Final(m', rest);
    ApplyKeepsGood(m, op);
    if Turns(m, op, id) {
      var turn := TurnOf(m, op, id);
      OneTurn(m, op, id);
      TurnFirst(m, op, rest, id);
      LaterTurns(m', rest, id, Source(m, id).(pos := turn.to), turn.delivered);
      ExplainsMore(turn, TurnsOf(m', rest, id), Source(m, id), Delivered(m', rest, id), Final(m', rest), id);
    } else {
      OthersLeaveIt(m, op, id);
      OtherFirst(m, op, rest, id);
      TurnsFollowTheResult(m', rest, id);
    }
  }

  lemma {:induction false} LaterTurns(m: Conns, ops: seq<Op>, id: int, rs: ResultSet, ok: bool)
    requires Good(m) && id in m.table && forall k | 0 <= k < |ops| :: LeavesCursor(ops[k], id)
    requires rs.pos <= |rs.rows| && (HasCursor(m, id) ==> Source(m, id) == rs)
    requires !HasCursor(m, id) && ok ==> rs.pos == |rs.rows|
    ensures Explains(TurnsOf(m, ops, id), rs, Delivered(m, ops, id), Final(m, ops), id)
    ensures ok ==> ReadOut(TurnsOf(m, ops, id), rs, Final(m, ops), id)
    decreases |ops|, 1
  {
    if HasCursor(m, id) {
      TurnsFollowTheResult(m, ops, id);
    } else {
      NothingWithoutCursor(m, ops, id);
      RunsStayGood(m, ops);
    }
  }

  /** Rows delivered by page turns are rows of the one result, each at most once and in order; they are
      consecutive exactly when no turn that read rows was lost before one that delivered some. */
  lemma TurnsAreInOrder(m: Conns, ops: seq<Op>, id: int)
    requires Good(m) && HasCursor(m, id) && forall k | 0 <= k < |ops| :: LeavesCursor(ops[k], id)
    ensures var rs, ts, rows := Source(m, id), TurnsOf(m, ops, id), Delivered(m, ops, id);
            var ps := Places(ts);
            && |rows| == |ps|
            && (forall k | 0 <= k < |ps| :: rs.pos <= ps[k] < |rs.rows| && rows[k] == rs.rows[ps[k]])
            && (forall j, k | 0 <= j < k < |ps| :: ps[j] < ps[k])
            && (Lossless(ts) <==> ps == Range(rs.pos, |ps|))
  {
    TurnsFollowTheResult(m, ops, id);
    var rs := Source(m, id);
    PlacesIncrease(TurnsOf(m, ops, id), rs.pos, |rs.rows|);
    ConsecutiveIffLossless(TurnsOf(m, ops, id), rs.pos, |rs.rows|);
  }

  /** A page lost to a reply that could not be built leaves a hole: of three rows with the cursor at the second,
      two page turns of one row each, the first of whose replies is lost, deliver the third alone. */
  lemma LostReplySkipsRows(m: Conns, id: int, a: Row, b: Row, c: Row)
    requires Good(m) && HasCursor(m, id) && Source(m, id) == ResultSet([a, b, c], 1)
    ensures Delivered(m, [NextOp(id, 1, Smooth, true), NextOp(id, 1, Smooth, false)], id) == [c]
    ensures !Lossless(TurnsOf(m, [NextOp(id, 1, Smooth, true), NextOp(id, 1, Smooth, false)], id))
  {
    var lost, told := NextOp(id, 1, Smooth, true), NextOp(id, 1, Smooth, false);
    var m1 := Step(m, lost).0;
    ApplyKeepsGood(m, lost);
    OneTurn(m, lost, id);
    TurnFirst(m, lost, [told], id);
    TurnFirst(m1, told, [], id);
    assert [lost, told] == [lost] + [told] && [told] == [told] + [];
    var ts := TurnsOf(m, [lost, told], id);
    assert ts[0] == Turn(1, 2, false) && ts[1] == Turn(2, 3, true);
  }

  lemma RunIs(m: Conns, id: int, limit: int, rows: seq<Row>)
    requires id in m.table && limit >= 1
    ensures var m0 := SetCursor(m, id, None);
            var p := OpenPage(ResultSet(rows, 0), limit, Smooth);
            RunQuery(m, id, true, limit, 0, Answer(Success, Some(rows)), Smooth, false) ==
            if p.truncated then (Kept(m0, id, ResultSet(rows, p.pos)), Rows(p.rows, true, true))
            else (Passing(m0, id, ResultSet(rows, 0)), Rows(p.rows, false, false))
  {
  }

  lemma RunStep(m: Conns, op: Op)
    requires CursorsReadable(m) && op.RunOp?
    ensures Step(m, op) == RunQuery(m, op.id, op.keep, op.limit, op.offset, op.a, op.t, op.jsonFails)
  {
  }

  lemma FirstReply(m: Conns, id: int, limit: int, rows: seq<Row>, m1: Conns, first: Reply)
    requires id in m.table && limit >= 1
    requires (m1, first) == RunQuery(m, id, true, limit, 0, Answer(Success, Some(rows)), Smooth, false)
    ensures first.Rows? && id in m1.table
    ensures first.cursor <==> m1.table[id].cursor.Some?
    ensures if first.cursor then
              var c := m1.table[id].cursor.value;
              first.rows <= rows && c in m1.results && m1.results[c] == ResultSet(rows, |first.rows|)
            else first.rows == rows
  {
    var p := OpenPage(ResultSet(rows, 0), limit, Smooth);
    RunIs(m, id, limit, rows);
    assert p.rows == rows[..p.pos] && (!p.truncated ==> p.pos == |rows|);
  }

  lemma FirstPage(m: Conns, id: int, limit: int, rows: seq<Row>, m1: Conns, first: Reply)
    requires Good(m) && id in m.table && limit >= 1
    requires (m1, first) == Step(m, RunOp(id, true, limit, 0, Answer(Success, Some(rows)), Smooth, false))
    ensures first.Rows? && (first.cursor <==> HasCursor(m1, id)) && Good(m1) && id in m1.table
    ensures if HasCursor(m1, id) then first.rows <= rows && Source(m1, id) == ResultSet(rows, |first.rows|)
            else first.rows == rows
  {
    var run := RunOp(id, true, limit, 0, Answer(Success, Some(rows)), Smooth, false);
    ApplyKeepsGood(m, run);
    RunStep(m, run);
    FirstReply(m, id, limit, rows, m1, first);
  }

  lemma FirstOfThree(m: Conns, id: int, a: Row, b: Row, c: Row)
    requires Good(m) && id in m.table
    ensures var m1 := Step(m, RunOp(id, true, 1, 0, Answer(Success, Some([a, b, c])), Smooth, false)).0;
            Good(m1) && HasCursor(m1, id) && Source(m1, id) == ResultSet([a, b, c], 1)
  {
    var (m1, first) := Step(m, RunOp(id, true, 1, 0, Answer(Success, Some([a, b, c])), Smooth, false));
    FirstPage(m, id, 1, [a, b, c], m1, first);
    RunIs(m, id, 1, [a, b, c]);
    assert OpenPage(ResultSet([a, b, c], 0), 1, Smooth).truncated && first.rows == [a, b, c][..1];
  }

  lemma ConnectOpens(m: Conns, driver: nat)
    requires Good(m)
    ensures var m1 := Step(m, OpenOp(Established(false, driver), Success, Told)).0; Good(m1) && m.nextId in m1.table
  {
    OpenKeepsGood(m, Established(false, driver));
    OpenSound(m, Established(false, driver));
  }

  lemma FinalOfTwo(m: Conns, first: Op, second: Op)
    ensures Final(m, [first, second]) == Step(Step(m, first).0, second).0
  {
    assert [first, second] == [first] + [second] && [first] == [] + [first];
    FinalAppend(m, [first], second);
    FinalAppend(m, [], first);
  }

  /** Such a state comes about: connect, then run a query of three rows, one row a page. */
  lemma LostReplyHappens(a: Row, b: Row, c: Row) returns (m: Conns)
    ensures m == Final(NONE_OPEN, [OpenOp(Established(false, 0), Success, Told),
                                   RunOp(1, true, 1, 0, Answer(Success, Some([a, b, c])), Smooth, false)])
    ensures Delivered(m, [NextOp(1, 1, Smooth, true), NextOp(1, 1, Smooth, false)], 1) == [c]
  {
    var open := OpenOp(Established(false, 0), Success, Told);
    var run := RunOp(1, true, 1, 0, Answer(Success, Some([a, b, c])), Smooth, false);
    StartIsGood();
    ConnectOpens(NONE_OPEN, 0);
    var m0 := Step(NONE_OPEN, open).0;
    FirstOfThree(m0, 1, a, b, c);
    m := Step(m0, run).0;
    LostReplySkipsRows(m, 1, a, b, c);
    FinalOfTwo(NONE_OPEN, open, run);
  }

  lemma WholeChain(ts: seq<Turn>, rs: ResultSet, arrived: seq<Row>, f: Conns, id: int)
    requires rs.pos <= |rs.rows| && Explains(ts, rs, arrived, f, id) && ReadOut(ts, rs, f, id) && AllDelivered(ts)
    ensures arrived <= rs.rows[rs.pos..] && (!HasCursor(f, id) ==> arrived == rs.rows[rs.pos..])
  {
    AllDeliveredIsWhole(ts, rs.pos, |rs.rows|);
    PlacesIncrease(ts, rs.pos, |rs.rows|);
    AtRange(rs.rows, rs.pos, End(ts, rs.pos));
  }

  /** Page turns none of which failed deliver the rows from where the cursor stood up to where it stands, or
      all that were left once it is gone. */
  lemma NoTurnFailed(m: Conns, ops: seq<Op>, id: int)
    requires Good(m) && HasCursor(m, id) && forall k | 0 <= k < |ops| :: LeavesCursor(ops[k], id)
    requires AllDelivered(TurnsOf(m, ops, id))
    ensures var rs := Source(m, id); var f := Final(m, ops); var rows := Delivered(m, ops, id);
            rows <= rs.rows[rs.pos..] && (!HasCursor(f, id) ==> rows == rs.rows[rs.pos..])
  {
    TurnsFollowTheResult(m, ops, id);
    WholeChain(TurnsOf(m, ops, id), Source(m, id), Delivered(m, ops, id), Final(m, ops), id);
  }

  lemma LaterPages(m1: Conns, id: int, rows: seq<Row>, first: seq<Row>, ops: seq<Op>)
    requires Good(m1) && id in m1.table && forall k | 0 <= k < |ops| :: LeavesCursor(ops[k], id)
    requires if HasCursor(m1, id) then first <= rows && Source(m1, id) == ResultSet(rows, |first|) else first == rows
    requires AllDelivered(TurnsOf(m1, ops, id))
    ensures var all := first + Delivered(m1, ops, id);
            all <= rows && (!HasCursor(Final(m1, ops), id) ==> all == rows)
  {
    if HasCursor(m1, id) {
      NoTurnFailed(m1, ops, id);
      assert rows == first + rows[|first|..];
    } else {
      NothingWithoutCursor(m1, ops, id);
      assert first + [] == first;
    }
  }

  /** One execution, read page by page: a cursor run on `id` and the turns after it deliver a prefix of the
      rows, and all of them once the cursor is gone, plain queries and other connections notwithstanding. */
  lemma PagesAreOneExecution(m: Conns, id: int, limit: int, rows: seq<Row>, ops: seq<Op>, m1: Conns, first: Reply)
    requires Good(m) && id in m.table && limit >= 1 && forall k | 0 <= k < |ops| :: LeavesCursor(ops[k], id)
    requires (m1, first) == Step(m, RunOp(id, true, limit, 0, Answer(Success, Some(rows)), Smooth, false))
    requires AllDelivered(TurnsOf(m1, ops, id))
    ensures first.Rows? && (first.cursor <==> HasCursor(m1, id))
    ensures var all := first.rows + Delivered(m1, ops, id);
            all <= rows && (!HasCursor(Final(m1, ops), id) ==> all == rows)
  {
    FirstPage(m, id, limit, rows, m1, first);
    LaterPages(m1, id, rows, first.rows, ops);
  }

  /** So it is on a fresh manager, after any run of calls. */
  lemma FreshManagerPages(before: seq<Op>, id: int, limit: int, rows: seq<Row>, ops: seq<Op>, m1: Conns, first: Reply)
    requires id in Final(NONE_OPEN, before).table && limit >= 1 && forall k | 0 <= k < |ops| :: LeavesCursor(ops[k], id)
    requires (m1, first)
          == Step(Final(NONE_OPEN, before), RunOp(id, true, limit, 0, Answer(Success, Some(rows)), Smooth, false))
    requires AllDelivered(TurnsOf(m1, ops, id))
    ensures first.Rows? && (first.cursor <==> HasCursor(m1, id))
    ensures var all := first.rows + Delivered(m1, ops, id);
            all <= rows && (!HasCursor(Final(m1, ops), id) ==> all == rows)
  {
    StartIsGood();
    RunsStayGood(NONE_OPEN, before);
    PagesAreOneExecution(Final(NONE_OPEN, before), id, limit, rows, ops, m1, first);
  }
}
