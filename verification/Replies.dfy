/** What the calls of core/src/ipc answer, by what the driver answered them, and what they leave held. */
module Replies {
  import opened Prelude
  import opened Connections
  import opened ConnManager
  import Json
  import opened Queries
  import opened Sessions
  import SshConfig

  // ---------------------------------------------------------------- query.run without a cursor

  /** A plain run that the driver answers with these rows. */
  function Plain(id: int, limit: int, offset: nat, rows: seq<Row>, t: Trouble): Op {
    RunOp(id, false, limit, offset, Answer(Success, Some(rows)), t, false)
  }

  /** Where a plain page ends. */
  function PlainEnd(limit: int, offset: nat, rows: seq<Row>): (end: nat)
    ensures end <= |rows|
  {
    if limit >= 1 then Min(offset + limit, |rows|) else |rows|
  }

  lemma WholePageIs(limit: int, offset: nat, rows: seq<Row>, t: Trouble)
    ensures var p := WholePage(ResultSet(rows, 0), limit, offset, t);
            var from, to := Min(offset, |rows|), PlainEnd(limit, offset, rows);
            && from <= to && p.st == Broken(t, to + 1, to - from)
            && (p.st == Success ==> p.rows == rows[from..to] && (p.truncated <==> to < |rows|))
  {
  }

  lemma PlainStep(m: Conns, id: int, limit: int, offset: nat, rows: seq<Row>, t: Trouble)
    requires CursorsReadable(m) && id in m.table
    ensures var p := WholePage(ResultSet(rows, 0), limit, offset, t);
            Step(m, Plain(id, limit, offset, rows, t)).1
            == if p.st != Success then Err(CodeOf(p.st)) else Rows(p.rows, p.truncated, false)
  {
  }

  /** It replies the rows from the offset on, as many as the limit allows, whether there are more, and no cursor;
      with a fetch that fails within the page or the look behind it, or a row that cannot be copied, an error. */
  lemma PlainRunReplies(m: Conns, id: int, limit: int, offset: nat, rows: seq<Row>, t: Trouble)
    requires CursorsReadable(m) && id in m.table
    ensures var from, to := Min(offset, |rows|), PlainEnd(limit, offset, rows);
            from <= to && Step(m, Plain(id, limit, offset, rows, t)).1 ==
            match t
            case Smooth => Rows(rows[from..to], to < |rows|, false)
            case NoMemAtStart => Err(CodeInternal)
            case FetchFails(k) => if k <= to then Err(CodeQuery) else Rows(rows[from..to], to < |rows|, false)
            case CopyFails(k) => if k < to - from then Err(CodeInternal) else Rows(rows[from..to], to < |rows|, false)
  {
    WholePageIs(limit, offset, rows, t);
    PlainStep(m, id, limit, offset, rows, t);
  }

  /** The offset of the n-th page. */
  function Offset(n: nat, limit: nat): nat {
    if n == 0 then 0 else Offset(n - 1, limit) + limit
  }

  lemma {:induction false} OffsetIs(n: nat, limit: nat)
    ensures Offset(n, limit) == n * limit
  {
    if n > 0 {
      OffsetIs(n - 1, limit);
      assert n * limit == (n - 1) * limit + limit;
    }
  }

  function RowsIn(reply: Reply): seq<Row> {
    if reply.Rows? then reply.rows else []
  }

  /** The rows in the replies to plain runs at the offsets 0, limit, 2 * limit and so on, the n-th made in the n-th of
      the states `ms`, whatever was called between them. */
  ghost function PlainPages(ms: seq<Conns>, id: int, limit: nat, rows: seq<Row>): seq<Row> {
    if ms == [] then []
    else
      var n := |ms| - 1;
      PlainPages(ms[..n], id, limit, rows) + RowsIn(Step(ms[n], Plain(id, limit, Offset(n, limit), rows, Smooth)).1)
  }

  ghost predicate Serves(m: Conns, id: int) {
    CursorsReadable(m) && id in m.table
  }

  lemma OnePageMore(m: Conns, id: int, limit: nat, offset: nat, rows: seq<Row>)
    requires limit >= 1 && Serves(m, id)
    ensures var reply := Step(m, Plain(id, limit, offset, rows, Smooth)).1;
            rows[..Min(offset, |rows|)] + RowsIn(reply) == rows[..Min(offset + limit, |rows|)]
  {
    PlainRunReplies(m, id, limit, offset, rows, Smooth);
    var from, to := Min(offset, |rows|), Min(offset + limit, |rows|);
    assert rows[..from] + rows[from..to] == rows[..to];
  }

  /** They are a prefix of the rows, and all of them once the limit times their number is as many. */
  lemma {:induction false} PlainPagesAreTheRows(ms: seq<Conns>, id: int, limit: nat, rows: seq<Row>)
    requires limit >= 1 && forall m <- ms :: Serves(m, id)
    ensures PlainPages(ms, id, limit, rows) == rows[..Min(Offset(|ms|, limit), |rows|)]
    decreases |ms|
  {
    if ms != [] {
      var n, front := |ms| - 1, ms[..|ms| - 1];
      assert forall m <- front :: m in ms;
      PlainPagesAreTheRows(front, id, limit, rows);
      assert ms[n] in ms;
      OnePageMore(ms[n], id, limit, Offset(n, limit), rows);
    }
  }

  // ---------------------------------------------------------------- pages of a cursor

  /** A page of an open result: as many rows as the limit, or all that are left; with trouble in the way, none. */
  lemma OpenPageIs(rs: ResultSet, limit: int, t: Trouble)
    requires rs.pos <= |rs.rows| && limit >= 1
    ensures var p, left, to := OpenPage(rs, limit, t), |rs.rows| - rs.pos, Min(rs.pos + limit, |rs.rows|);
            var fetches := if limit <= left then limit else left + 1;
            && p.st == Broken(t, fetches, to - rs.pos)
            && (p.st == Success ==> p.rows == rs.rows[rs.pos..to] && p.pos == to && (p.truncated <==> limit <= left))
  {
  }

  /** What a page of `rs` is answered with. */
  function PageReply(rs: ResultSet, limit: int, t: Trouble): Reply
    requires rs.pos <= |rs.rows| && limit >= 1
  {
    var left, to := |rs.rows| - rs.pos, Min(rs.pos + limit, |rs.rows|);
    var full := limit <= left;
    match t
    case NoMemAtStart => Err(CodeInternal)
    case FetchFails(k) => if k < limit && k <= left then Err(CodeQuery) else Rows(rs.rows[rs.pos..to], full, full)
    case CopyFails(k) => if k < limit && k < left then Err(CodeInternal) else Rows(rs.rows[rs.pos..to], full, full)
    case Smooth => Rows(rs.rows[rs.pos..to], full, full)
  }

  /** A cursor run replies the first rows, as many as the limit, and a cursor exactly when there were that many; a
      failure on the way is answered as such and leaves no cursor. */
  lemma CursorRunReplies(m: Conns, id: int, limit: int, rows: seq<Row>, t: Trouble)
    requires CursorsReadable(m) && id in m.table && limit >= 1
    ensures var (m', reply) := Step(m, RunOp(id, true, limit, 0, Answer(Success, Some(rows)), t, false));
            && reply == PageReply(ResultSet(rows, 0), limit, t)
            && id in m'.table && (m'.table[id].cursor.Some? <==> reply.Rows? && reply.cursor)
  {
    OpenPageIs(ResultSet(rows, 0), limit, t);
  }

  /** So does a page turn, from where the cursor stands; whoever fails loses it. */
  lemma NextPageReplies(m: Conns, id: int, limit: int, t: Trouble)
    requires CursorsReadable(m) && id in m.table && m.table[id].cursor.Some? && limit >= 1
    ensures var (m', reply) := Step(m, NextOp(id, limit, t, false));
            && reply == PageReply(m.results[m.table[id].cursor.value], limit, t)
            && id in m'.table && (m'.table[id].cursor.Some? <==> reply.Rows? && reply.cursor)
  {
    OpenPageIs(m.results[m.table[id].cursor.value], limit, t);
  }

  lemma CursorFreedHolds(m: Conns, id: int)
    requires Good(m) && id in m.table
    ensures var c, r := m.table[id].cursor, Replay(m.log).value;
            Replay(SetCursor(m, id, None).log) == Some(if c.Some? then r.(cursors := r.cursors - {c.value}) else r)
  {
    if m.table[id].cursor.Some? {
      assert EntryHeld(m.table[id], Replay(m.log).value);
      ReplayAppend(m.log, CursorFreed(m.table[id].cursor.value));
    }
  }

  /** A run without a result to read is answered with an error: that of the driver, or that of a query.  Nothing the
      driver handed out along with an error stays; the old cursor is gone exactly if the run was to leave a new one. */
  lemma FailedRunReplies(m: Conns, id: int, keep: bool, limit: int, offset: int, a: Answer, t: Trouble, jsonFails: bool)
    requires Good(m) && id in m.table && (a.st != Success || a.result.None?)
    ensures var m1, (m', reply) := if keep then SetCursor(m, id, None) else m,
                                   Step(m, RunOp(id, keep, limit, offset, a, t, jsonFails));
            && reply == Err(if a.st == Success then CodeQuery else CodeOf(a.st))
            && m'.table == (if keep then m.table[id := m.table[id].(cursor := None)] else m.table)
            && Replay(m'.log) == Replay(m1.log)
  {
    var m1 := if keep then SetCursor(m, id, None) else m;
    CursorDropSound(m, id);
    assert Good(m1) && id in m1.table;
    if a.result.Some? {
      PassingSound(m1, id, ResultSet(a.result.value, 0));
    }
  }

  /** query.cursorClose says whether there was a cursor; afterwards there is none, its result is freed, and a page
      turn is refused. */
  lemma CursorCloseReplies(m: Conns, id: int, limit: int, t: Trouble)
    requires Good(m) && id in m.table
    ensures var c, r, (m', reply) := m.table[id].cursor, Replay(m.log).value, Step(m, CursorCloseOp(id, false));
            && reply == CursorClosed(c.Some?) && m'.table == m.table[id := m.table[id].(cursor := None)]
            && Replay(m'.log) == Some(if c.Some? then r.(cursors := r.cursors - {c.value}) else r)
            && Step(m', NextOp(id, limit, t, false)).1 == Err(CodeNotFound)
  {
    CursorCloseKeepsGood(m, id, false);
    CursorFreedHolds(m, id);
  }

  // ---------------------------------------------------------------- conn.close

  /** What is held without an entry and what it owns. */
  function LeftWithout(r: Held, e: Entry): Held {
    Connections.Released(if e.cursor.Some? then r.(cursors := r.cursors - {e.cursor.value}) else r, e)
  }

  lemma CloseHolds(m: Conns, id: int)
    requires Good(m) && id in m.table
    ensures Replay(Close(m, id).log) == Some(LeftWithout(Replay(m.log).value, m.table[id]))
  {
    var m1 := SetCursor(m, id, None);
    CursorDropSound(m, id);
    CursorFreedHolds(m, id);
    NothingHangs(m1.table, Replay(m1.log).value, id);
    ReleasedHeld(m1.log, m1.table[id]);
  }

  /** conn.close takes the connection off the table and releases its cursor, its handle and its tunnel, each of which
      was held, and nothing else. */
  lemma CloseReplies(m: Conns, id: int, jsonFails: bool)
    requires Good(m) && id in m.table
    ensures var (m', reply), r, e := Step(m, CloseOp(id, jsonFails)), Replay(m.log).value, m.table[id];
            && m'.table == m.table - {id} && Replay(m'.log) == Some(LeftWithout(r, e)) && EntryHeld(e, r)
            && reply == if jsonFails then Err(CodeInternal) else Done
  {
    CloseHolds(m, id);
  }

  // ---------------------------------------------------------------- conn.open

  lemma AcquiredLeaves(r: Held, h: nat, name: Option<nat>, driver: nat)
    requires h !in r.handles && h !in r.inTx && (name.Some? ==> name.value !in r.tunnels)
    ensures LeftWithout(Acquired(r, h, name), Entry(driver, h, name, None, false)) == r
  {
    assert r.handles[h := name] - {h} == r.handles && r.inTx - {h} == r.inTx;
    assert name.Some? ==> r.tunnels + {name.value} - {name.value} == r.tunnels;
  }

  lemma AcquiredGoes(m: Conns, how: Opening)
    requires Good(m) && how.Established?
    ensures Replay(Close(Open(m, how), m.nextId).log) == Replay(m.log)
    ensures Close(Open(m, how), m.nextId).table == m.table
  {
    var m1, up, name := Open(m, how), TunnelUp(m.log, how.tunnelled), TunnelName(m.log, how.tunnelled);
    OpenKeepsGood(m, how);
    OpenedHeld(m.table, m.log, how.tunnelled);
    CloseHolds(m1, m.nextId);
    AcquiredLeaves(Replay(m.log).value, |up|, name, how.driver);
  }

  /** conn.open replies the new id of a connection that is then there, or an error, after which nothing more is there or
      held than before; only when the id could not be put into the reply is it there without being named. */
  lemma OpenReplies(m: Conns, how: Opening, st: Status, telling: Telling)
    requires Good(m)
    ensures var (m', reply) := Step(m, OpenOp(how, st, telling));
            if how.Established? && telling != NoReply then
              && m.nextId in m'.table && m'.table.Keys == m.table.Keys + {m.nextId}
              && reply == Connection(if telling == Told then Some(m.nextId) else None)
            else
              && m'.table == m.table && Replay(m'.log) == Replay(m.log)
              && reply == Err(if how.Established? then CodeInternal else CodeOf(st))
  {
    if how.Established? {
      OpenSound(m, how);
      AcquiredGoes(m, how);
    } else {
      FailedOpenHoldsNothing(m, how);
    }
  }

  function HandlesMade(log: Log): nat {
    if log == [] then 0 else HandlesMade(log[..|log| - 1]) + if log[|log| - 1].Connected? then 1 else 0
  }

  function TunnelsMade(log: Log): nat {
    if log == [] then 0 else TunnelsMade(log[..|log| - 1]) + if log[|log| - 1].TunnelOpened? then 1 else 0
  }

  lemma MadeAppend(log: Log, e: Event)
    ensures HandlesMade(log + [e]) == HandlesMade(log) + if e.Connected? then 1 else 0
    ensures TunnelsMade(log + [e]) == TunnelsMade(log) + if e.TunnelOpened? then 1 else 0
  {
    assert (log + [e])[..|log|] == log;
  }

  /** Whether the driver handed out a handle, and whether a tunnel came up. */
  predicate Returned(how: Opening) {
    how.NoSlot? || how.Established? || (how.ConnectFailed? && how.leftHandle)
  }

  predicate Tunnelled(how: Opening) {
    how.RewriteFailed? || (!how.NotAttempted? && how.tunnelled)
  }

  lemma UpAndDownMake(log: Log, tunnelled: bool, tunnel: Option<nat>)
    ensures HandlesMade(TunnelUp(log, tunnelled)) == HandlesMade(log)
    ensures TunnelsMade(TunnelUp(log, tunnelled)) == TunnelsMade(log) + if tunnelled then 1 else 0
    ensures HandlesMade(TunnelDown(log, tunnel)) == HandlesMade(log)
    ensures TunnelsMade(TunnelDown(log, tunnel)) == TunnelsMade(log)
  {
    MadeAppend(log, TunnelOpened(|log|));
    if tunnel.Some? {
      MadeAppend(log, TunnelClosed(tunnel.value));
    }
  }

  lemma HandleMakes(up: Log, via: Option<nat>)
    ensures var on := up + [Connected(|up|, via)];
            && HandlesMade(on) == HandlesMade(up) + 1 && TunnelsMade(on) == TunnelsMade(up)
            && HandlesMade(TunnelDown(on + [Disconnected(|up|)], via)) == HandlesMade(up) + 1
            && TunnelsMade(TunnelDown(on + [Disconnected(|up|)], via)) == TunnelsMade(up)
  {
    var on := up + [Connected(|up|, via)];
    MadeAppend(up, Connected(|up|, via));
    MadeAppend(on, Disconnected(|up|));
    UpAndDownMake(on + [Disconnected(|up|)], false, via);
  }

  /** No handle and no tunnel that came into being during an open stays out of the log; those of an open that failed
      are released, as nothing more is held then than before. */
  lemma OpenLogsAll(m: Conns, how: Opening)
    ensures HandlesMade(Open(m, how).log) == HandlesMade(m.log) + if Returned(how) then 1 else 0
    ensures TunnelsMade(Open(m, how).log) == TunnelsMade(m.log) + if Tunnelled(how) then 1 else 0
  {
    if !how.NotAttempted? {
      var up, name := TunnelUp(m.log, Tunnelled(how)), TunnelName(m.log, Tunnelled(how));
      UpAndDownMake(m.log, Tunnelled(how), None);
      if Returned(how) {
        HandleMakes(up, name);
      } else {
        UpAndDownMake(up, false, name);
      }
    }
  }

  /** The DSN asks for a connection, and the tunnel it asks for, if any, comes up. */
  predicate ReachesTheDriver(dsn: Option<Json.Json>, a: OpenAnswers) {
    SshConfig.Asked(dsn).Direct? || (SshConfig.Asked(dsn).Tunnel? && !a.unsupported && a.tunnel == Success)
  }

  /** With memory enough a connection opens exactly when the DSN asks for one, its tunnel comes up, and the driver
      connects and hands out a handle; it has a tunnel exactly when the DSN asks for one. */
  lemma OpensExactlyWhen(dsn: Option<Json.Json>, driver: nat, a: OpenAnswers, slotHad: bool)
    ensures var (how, st) := Expected(dsn, driver, a, slotHad);
            && (how.Established? <==> ReachesTheDriver(dsn, a) && a.connect == Success && a.handleReturned && slotHad)
            && (how.Established? ==> how.driver == driver && (how.tunnelled <==> SshConfig.Asked(dsn).Tunnel?))
            && (st == Success <==> how.Established?)
            && (ReachesTheDriver(dsn, a) ==> (Returned(how) <==> a.handleReturned)
                                             && (Tunnelled(how) <==> SshConfig.Asked(dsn).Tunnel?))
            && (!ReachesTheDriver(dsn, a) ==> how.NotAttempted?)
  {
  }

  // ---------------------------------------------------------------- errors

  /** Each kind of failure is told apart by its code, but for those of the core itself. */
  lemma CodesTellApart(st: Status)
    ensures CodeOf(st) == CodeConn <==> st == ErrConn
    ensures CodeOf(st) == CodeQuery <==> st == ErrQuery
    ensures CodeOf(st) == CodeParams <==> st == ErrParam
    ensures CodeOf(st) == CodeUnsupported <==> st == ErrUnsupported
    ensures CodeOf(st) != CodeNotFound
  {
  }

  /** What the driver says of the session in the course of a call, if it is asked. */
  function EngineSays(m: Conns, op: Op): Option<Status> {
    match op
    case RunOp(id, _, _, _, a, _, _) => if id in m.table then Some(a.st) else None
    case TxOp(id, kind, st, _) => if id in m.table && !(kind == Begin && m.table[id].inTx) then Some(st) else None
    case _ => None
  }

  lemma EngineErrors(m: Conns, op: Op)
    requires CursorsReadable(m)
    ensures EngineSays(m, op).Some? && EngineSays(m, op).value != Success ==>
              Step(m, op).1 == Err(CodeOf(EngineSays(m, op).value))
    ensures Step(m, op).1 == Err(CodeConn) && !op.OpenOp? ==> EngineSays(m, op) == Some(ErrConn)
  {
  }

  /** Over every run a reply says the session died exactly when the driver said so of that call. */
  lemma LostIffTheEngineSaysSo(m: Conns, ops: seq<Op>, op: Op, sqlIsRead: bool)
    requires Good(m)
    ensures var before := Final(m, ops);
            Handle(before, op, sqlIsRead).1.Lost? <==> EngineSays(before, op) == Some(ErrConn)
  {
    RunsStayGood(m, ops);
    EngineErrors(Final(m, ops), op);
    LostReplyIs(Final(m, ops), op, sqlIsRead);
  }

  /** A transaction call is answered with success exactly when it was passed on and the engine agreed. */
  lemma TxReplies(m: Conns, op: Op)
    requires CursorsReadable(m) && op.TxOp?
    ensures Step(m, op).1 ==
            if op.id !in m.table then Err(CodeNotFound)
            else if EngineSays(m, op).None? then Err(CodeQuery)
            else if op.st != Success then Err(CodeOf(op.st))
            else if op.jsonFails then Err(CodeInternal)
            else Done
  {
  }
}
