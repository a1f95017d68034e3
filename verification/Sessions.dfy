/** Whole runs of IPC calls over the connections: core/src/ipc/conn_methods.c, query_methods.c,
    tx_methods.c, and the reply dispatch.c and conn_lost.c make of a session that died. */
module Sessions {
  import opened Prelude
  import opened Connections
  import opened ConnManager
  import opened Heap
  import Json
  import opened Queries
  import SshConfig

  /** What the allocator leaves of the reply to conn.open: all of it, none, or one without the id. */
  datatype Telling = Told | NoReply | NoId

  /** A call with checked parameters, and what the driver and the allocator answer during it. */
  datatype Op =
    | OpenOp(how: Opening, st: Status, telling: Telling)
    | CloseOp(id: int, jsonFails: bool)
    | RunOp(id: int, keep: bool, limit: int, offset: int, a: Answer, t: Trouble, jsonFails: bool)
    | NextOp(id: int, limit: int, t: Trouble, jsonFails: bool)
    | CursorCloseOp(id: int, jsonFails: bool)
    | TxOp(id: int, kind: TxKind, st: Status, jsonFails: bool)

  /** `tx_dispatch`: `st` is the engine's answer, should the call get that far. */
  function TxDispatch(m: Conns, id: int, kind: TxKind, st: Status, jsonFails: bool): (Conns, Reply) {
    if id !in m.table then (m, Err(CodeNotFound))
    else if kind == Begin && m.table[id].inTx then (m, Err(CodeQuery))
    else (TxDone(m, id, kind, st), if st != Success then Err(CodeOf(st)) else Answered(Done, jsonFails))
  }

  /** conn.open: without a reply to tell the id in the connection is closed at once; with one that could not take
      the id, it stays. */
  function OpenCall(m: Conns, how: Opening, st: Status, telling: Telling): (Conns, Reply) {
    if !how.Established? then (Open(m, how), Err(CodeOf(st)))
    else
      match telling
      case Told => (Open(m, how), Connection(Some(m.nextId)))
      case NoReply => (Close(Open(m, how), m.nextId), Err(CodeInternal))
      case NoId => (Open(m, how), Connection(None))
  }

  function Apply(m: Conns, op: Op): (Conns, Reply)
    requires CursorsReadable(m)
  {
    match op
    case OpenOp(how, st, telling) => OpenCall(m, how, st, telling)
    case CloseOp(id, jsonFails) =>
      (Close(m, id), if id in m.table then Answered(Done, jsonFails) else Err(CodeNotFound))
    case RunOp(id, keep, limit, offset, a, t, jsonFails) => RunQuery(m, id, keep, limit, offset, a, t, jsonFails)
    case NextOp(id, limit, t, jsonFails) => NextPage(m, id, limit, t, jsonFails)
    case CursorCloseOp(id, jsonFails) => CloseCursor(m, id, jsonFails)
    case TxOp(id, kind, st, jsonFails) => TxDispatch(m, id, kind, st, jsonFails)
  }

  ghost predicate Good(m: Conns) {
    Sound(m) && CursorsReadable(m)
  }

  lemma OpenReadable(m: Conns, how: Opening)
    requires CursorsReadable(m)
    ensures CursorsReadable(Open(m, how))
  {
  }

  lemma OpenKeepsGood(m: Conns, how: Opening)
    requires Good(m)
    ensures Good(Open(m, how))
  {
    OpenKeepsSound(m, how);
    OpenReadable(m, how);
  }

  lemma CloseKeepsGood(m: Conns, id: int)
    requires Good(m)
    ensures Good(Close(m, id))
  {
    CloseSound(m, id);
  }

  lemma OpenCallIs(m: Conns, how: Opening, st: Status, telling: Telling)
    ensures OpenCall(m, how, st, telling).0
         == if how.Established? && telling == NoReply then Close(Open(m, how), m.nextId) else Open(m, how)
  {
  }

  lemma OpenCallKeepsGood(m: Conns, how: Opening, st: Status, telling: Telling)
    requires Good(m)
    ensures Good(OpenCall(m, how, st, telling).0)
  {
    var up, after := Open(m, how), OpenCall(m, how, st, telling).0;
    OpenCallIs(m, how, st, telling);
    if after != up {
      OpenKeepsGood(m, how);
      CloseKeepsGood(up, m.nextId);
    } else {
      OpenKeepsGood(m, how);
    }
  }

  lemma RunKeepsGood(m: Conns, id: int, keep: bool, limit: int, offset: int, a: Answer, t: Trouble, jsonFails: bool)
    requires Good(m)
    ensures Good(RunQuery(m, id, keep, limit, offset, a, t, jsonFails).0)
  {
    RunQuerySound(m, id, keep, limit, offset, a, t, jsonFails);
  }

  lemma NextKeepsGood(m: Conns, id: int, limit: int, t: Trouble, jsonFails: bool)
    requires Good(m)
    ensures Good(NextPage(m, id, limit, t, jsonFails).0)
  {
    NextPageSound(m, id, limit, t, jsonFails);
  }

  lemma CursorCloseKeepsGood(m: Conns, id: int, jsonFails: bool)
    requires Good(m)
    ensures Good(CloseCursor(m, id, jsonFails).0)
  {
    CursorDropSound(m, id);
  }

  lemma TxCallKeepsGood(m: Conns, id: int, kind: TxKind, st: Status, jsonFails: bool)
    requires Good(m)
    ensures Good(TxDispatch(m, id, kind, st, jsonFails).0)
  {
    if id in m.table && !(kind == Begin && m.table[id].inTx) {
      TxSound(m, id, kind, st);
    }
  }

  lemma ConnectionCallKeepsGood(m: Conns, op: Op)
    requires Good(m) && (op.OpenOp? || op.CloseOp? || op.TxOp?)
    ensures Good(Apply(m, op).0)
  {
    match op {
      case OpenOp(how, st, telling) =>
        assert Apply(m, op).0 == OpenCall(m, how, st, telling).0;
        OpenCallKeepsGood(m, how, st, telling);
      case CloseOp(id, _) =>
        assert Apply(m, op).0 == Close(m, id);
        CloseKeepsGood(m, id);
      case TxOp(id, kind, st, jsonFails) =>
        assert Apply(m, op).0 == TxDispatch(m, id, kind, st, jsonFails).0;
        TxCallKeepsGood(m, id, kind, st, jsonFails);
    }
  }

  lemma QueryCallKeepsGood(m: Conns, op: Op)
    requires Good(m) && (op.RunOp? || op.NextOp? || op.CursorCloseOp?)
    ensures Good(Apply(m, op).0)
  {
    match op {
      case RunOp(id, keep, limit, offset, a, t, jsonFails) =>
        assert Apply(m, op).0 == RunQuery(m, id, keep, limit, offset, a, t, jsonFails).0;
        RunKeepsGood(m, id, keep, limit, offset, a, t, jsonFails);
      case NextOp(id, limit, t, jsonFails) =>
        assert Apply(m, op).0 == NextPage(m, id, limit, t, jsonFails).0;
        NextKeepsGood(m, id, limit, t, jsonFails);
      case CursorCloseOp(id, jsonFails) =>
        assert Apply(m, op).0 == CloseCursor(m, id, jsonFails).0;
        CursorCloseKeepsGood(m, id, jsonFails);
    }
  }

  /** Every call keeps the books exact: what the log leaves held is what the connections own. */
  lemma ApplyKeepsGood(m: Conns, op: Op)
    requires Good(m)
    ensures Good(Apply(m, op).0)
  {
    if op.RunOp? || op.NextOp? || op.CursorCloseOp? {
      QueryCallKeepsGood(m, op);
    } else {
      ConnectionCallKeepsGood(m, op);
    }
  }

  /** A fresh manager holds nothing, and its books are exact. */
  lemma StartIsGood()
    ensures Good(NONE_OPEN)
  {
    assert Replay([]) == Some(NOTHING);
  }

  /** The connections are those there were, and none has a new name. */
  predicate SameIds(m: Conns, m': Conns) {
    m'.nextId == m.nextId && m'.table.Keys == m.table.Keys
  }

  lemma RunKeepsIds(m: Conns, id: int, keep: bool, limit: int, offset: int, a: Answer, t: Trouble, jsonFails: bool)
    ensures SameIds(m, RunQuery(m, id, keep, limit, offset, a, t, jsonFails).0)
  {
    var m1 := if keep then SetCursor(m, id, None) else m;
    assert SameIds(m, m1);
  }

  lemma NextKeepsIds(m: Conns, id: int, limit: int, t: Trouble, jsonFails: bool)
    requires CursorsReadable(m)
    ensures SameIds(m, NextPage(m, id, limit, t, jsonFails).0)
  {
  }

  /** A call raises the id counter by one at most, and only the counter's value can be a new id. */
  lemma IdsGrow(m: Conns, op: Op)
    requires Good(m)
    ensures m.nextId <= Apply(m, op).0.nextId <= m.nextId + 1
    ensures forall id <- Apply(m, op).0.table :: id in m.table || id == m.nextId < Apply(m, op).0.nextId
  {
    match op
    case RunOp(id, keep, limit, offset, a, t, jsonFails) =>
      RunKeepsIds(m, id, keep, limit, offset, a, t, jsonFails);
    case NextOp(id, limit, t, jsonFails) => NextKeepsIds(m, id, limit, t, jsonFails);
    case _ =>
  }

  /** One call; there is none on connections whose cursors cannot be read. */
  ghost function Step(m: Conns, op: Op): (Conns, Reply) {
    if CursorsReadable(m) then Apply(m, op) else (m, Err(CodeInternal))
  }

  /** The state after a run of calls. */
  ghost function Final(m: Conns, ops: seq<Op>): Conns
    decreases |ops|
  {
    if ops == [] then m else Final(Step(m, ops[0]).0, ops[1..])
  }

  /** Over every run the books stay exact, and an id that is in use afterwards was in use before or is one
      never given out before: ids are not reused, so a stale one never finds a later connection. */
  lemma {:induction false} RunsStayGood(m: Conns, ops: seq<Op>)
    requires Good(m)
    ensures Good(Final(m, ops)) && m.nextId <= Final(m, ops).nextId
    ensures forall id <- Final(m, ops).table :: id in m.table || m.nextId <= id
    decreases |ops|
  {
    if ops != [] {
      ApplyKeepsGood(m, ops[0]);
      IdsGrow(m, ops[0]);
      var m1 := Apply(m, ops[0]).0;
      RunsStayGood(m1, ops[1..]);
      assert Final(m, ops) == Final(m1, ops[1..]);
    }
  }

  /** An id that was closed never finds a connection again, however many are opened later: every call on it
      is refused and changes nothing. */
  lemma StaleIdStaysStale(m: Conns, ops: seq<Op>, op: Op)
    requires Good(m) && !op.OpenOp? && op.id < m.nextId && op.id !in m.table
    ensures Step(Final(m, ops), op) == (Final(m, ops), Err(CodeNotFound))
  {
    RunsStayGood(m, ops);
    assert op.id !in Final(m, ops).table;
  }

  // ---------------------------------------------------------------- which ids the caller learns

  /** Some reply of the run told `id`. */
  ghost predicate ToldAlong(m: Conns, ops: seq<Op>, id: int)
    decreases |ops|
  {
    ops != [] && (Step(m, ops[0]).1 == Connection(Some(id)) || ToldAlong(Step(m, ops[0]).0, ops[1..], id))
  }

  predicate Untold(m: Conns, op: Op, id: int) {
    op.OpenOp? && op.how.Established? && op.telling == NoId && m.nextId == id
  }

  /** Some call of the run opened `id` and could not put it in its reply. */
  ghost predicate UntoldAlong(m: Conns, ops: seq<Op>, id: int)
    decreases |ops|
  {
    ops != [] && (Untold(m, ops[0], id) || UntoldAlong(Step(m, ops[0]).0, ops[1..], id))
  }

  /** Only conn.open tells an id: that of the connection it leaves open. */
  lemma TellsTheNewId(m: Conns, op: Op, id: int)
    requires Good(m)
    ensures Step(m, op).1 == Connection(Some(id)) ==> id == m.nextId && !Untold(m, op, id)
    ensures Step(m, op).1 == Connection(Some(id)) || Untold(m, op, id) <==>
              id in Step(m, op).0.table && id == m.nextId
    ensures Step(m, op).1 == Connection(Some(id)) || Untold(m, op, id) ==> Step(m, op).0.nextId > id
  {
    match op
    case OpenOp(how, st, telling) =>
    case RunOp(i, keep, limit, offset, a, t, jsonFails) => RunKeepsIds(m, i, keep, limit, offset, a, t, jsonFails);
    case NextOp(i, limit, t, jsonFails) => NextKeepsIds(m, i, limit, t, jsonFails);
    case _ =>
  }

  /** An id below the counter is not told, nor lost, any more. */
  lemma {:induction false} OldIdsAreSettled(m: Conns, ops: seq<Op>, id: int)
    requires Good(m) && id < m.nextId
    ensures !ToldAlong(m, ops, id) && !UntoldAlong(m, ops, id)
    decreases |ops|
  {
    if ops != [] {
      ApplyKeepsGood(m, ops[0]);
      IdsGrow(m, ops[0]);
      TellsTheNewId(m, ops[0], id);
      OldIdsAreSettled(Step(m, ops[0]).0, ops[1..], id);
    }
  }

  /** Of a connection that a run opened and left open the caller learned the id, exactly when no reply was built
      without it; one whose id nobody learned stays open, as no call can name it. */
  lemma {:induction false} OpenIdsAreTold(m: Conns, ops: seq<Op>, id: int)
    requires Good(m) && id !in m.table && id in Final(m, ops).table
    ensures ToldAlong(m, ops, id) <==> !UntoldAlong(m, ops, id)
    decreases |ops|
  {
    var m1, rest := Step(m, ops[0]).0, ops[1..];
    ApplyKeepsGood(m, ops[0]);
    TellsTheNewId(m, ops[0], id);
    IdsGrow(m, ops[0]);
    if id in m1.table {
      OldIdsAreSettled(m1, rest, id);
    } else {
      OpenIdsAreTold(m1, rest, id);
    }
  }

  // ---------------------------------------------------------------- exactly once, in order

  /** How often a resource came into being. */
  function Opened(log: Log, name: nat): nat {
    if log == [] then 0
    else
      var e := log[|log| - 1];
      Opened(log[..|log| - 1], name)
      + if e == TunnelOpened(name) || (e.Connected? && e.h == name) || (e.CursorOpened? && e.c == name) then 1 else 0
  }

  function Released(log: Log, name: nat): nat {
    if log == [] then 0
    else
      var e := log[|log| - 1];
      Released(log[..|log| - 1], name)
      + if e == TunnelClosed(name) || e == Disconnected(name) || e == CursorFreed(name) then 1 else 0
  }

  function HeldCount(r: Held, name: nat): nat {
    (if name in r.tunnels then 1 else 0) + (if name in r.handles then 1 else 0) + (if name in r.cursors then 1 else 0)
  }

  /** On a log that broke no rule a resource opens at most once, and was released as often as it opened,
      save for one that is still held. */
  lemma {:induction false} ReleasedAsOftenAsOpened(log: Log, name: nat)
    requires Replay(log).Some?
    ensures Opened(log, name) <= (if name < |log| then 1 else 0)
    ensures Opened(log, name) == Released(log, name) + HeldCount(Replay(log).value, name)
  {
    if log != [] {
      ReleasedAsOftenAsOpened(log[..|log| - 1], name);
    }
  }

  lemma {:induction false} PrefixReplays(log: Log, i: nat)
    requires Replay(log).Some? && i <= |log|
    ensures Replay(log[..i]).Some?
    ensures i < |log| ==> May(Replay(log[..i]).value, i, log[i])
    ensures i < |log| ==> Replay(log[..i + 1]) == Some(Connections.After(Replay(log[..i]).value, log[i]))
    decreases |log| - i
  {
    if i == |log| {
      assert log[..i] == log;
    } else {
      PrefixReplays(log, i + 1);
      assert log[..i + 1][..i] == log[..i];
    }
  }

  lemma CursorStays(r: Held, n: nat, e: Event, c: nat, h: nat)
    requires May(r, n, e) && c < n && c in r.cursors && r.cursors[c] == h
    ensures e == CursorFreed(c) || (c in After(r, e).cursors && After(r, e).cursors[c] == h)
  {
  }

  lemma RideStays(r: Held, n: nat, e: Event, h: nat, t: nat)
    requires May(r, n, e) && h < n && h in r.handles && r.handles[h] == Some(t)
    ensures e == Disconnected(h) || (h in After(r, e).handles && After(r, e).handles[h] == Some(t))
  {
  }

  lemma {:induction false} CursorHeldUntilFreed(log: Log, i: nat, c: nat, h: nat)
    requires Replay(log).Some? && i < |log| && log[i] == CursorOpened(c, h)
    ensures c == i
    ensures CursorFreed(c) in log[i..] || (c in Replay(log).value.cursors && Replay(log).value.cursors[c] == h)
    decreases |log|
  {
    var front, last := log[..|log| - 1], log[|log| - 1];
    if i < |front| {
      CursorHeldUntilFreed(front, i, c, h);
      assert log[i..] == front[i..] + [last];
      if CursorFreed(c) !in front[i..] {
        CursorStays(Replay(front).value, |front|, last, c, h);
      }
    }
  }

  /** A cursor opened on a handle is freed before that handle is disconnected. */
  lemma CursorGoesFirst(log: Log, i: nat, j: nat, c: nat, h: nat)
    requires Replay(log).Some? && i < j < |log| && log[i] == CursorOpened(c, h) && log[j] == Disconnected(h)
    ensures CursorFreed(c) in log[i..j]
  {
    PrefixReplays(log, j);
    CursorHeldUntilFreed(log[..j], i, c, h);
    assert log[..j][i..] == log[i..j];
  }

  lemma {:induction false} RiddenUntilDisconnected(log: Log, i: nat, h: nat, t: nat)
    requires Replay(log).Some? && i < |log| && log[i] == Connected(h, Some(t))
    ensures h == i
    ensures Disconnected(h) in log[i..] || (h in Replay(log).value.handles && Replay(log).value.handles[h] == Some(t))
    decreases |log|
  {
    var front, last := log[..|log| - 1], log[|log| - 1];
    if i < |front| {
      RiddenUntilDisconnected(front, i, h, t);
      assert log[i..] == front[i..] + [last];
      if Disconnected(h) !in front[i..] {
        RideStays(Replay(front).value, |front|, last, h, t);
      }
    }
  }

  /** A handle that rides a tunnel is disconnected before that tunnel is closed. */
  lemma TunnelGoesLast(log: Log, i: nat, j: nat, h: nat, t: nat)
    requires Replay(log).Some? && i < j < |log| && log[i] == Connected(h, Some(t)) && log[j] == TunnelClosed(t)
    ensures Disconnected(h) in log[i..j]
  {
    PrefixReplays(log, j);
    RiddenUntilDisconnected(log[..j], i, h, t);
    assert log[..j][i..] == log[i..j];
  }

  // ---------------------------------------------------------------- transactions

  /** Whether the calls in a log leave a transaction open on a handle: a begin that succeeded, followed by
      no commit that succeeded and no rollback at all. */
  function OpenTx(log: Log, h: nat): bool {
    if log == [] then false
    else
      match log[|log| - 1]
      case TxCalled(h', kind, st) =>
        if h' != h then OpenTx(log[..|log| - 1], h)
        else if kind == Begin && st == Success then true
        else if kind == Rollback || (kind == Commit && st == Success) then false
        else OpenTx(log[..|log| - 1], h)
      case Disconnected(h') => h' != h && OpenTx(log[..|log| - 1], h)
      case _ => OpenTx(log[..|log| - 1], h)
  }

  lemma {:induction false} ReplayKnowsTx(log: Log, h: nat)
    requires Replay(log).Some?
    ensures h in Replay(log).value.inTx <==> OpenTx(log, h)
  {
    if log != [] {
      ReplayKnowsTx(log[..|log| - 1], h);
    }
  }

  /** Over every run, a connection's flag says exactly whether the log left a transaction open on it. */
  lemma FlagIsTheHistory(m: Conns, ops: seq<Op>)
    requires Good(m)
    ensures var f := Final(m, ops);
            forall id <- f.table :: f.table[id].inTx <==> OpenTx(f.log, f.table[id].handle)
  {
    var f := Final(m, ops);
    RunsStayGood(m, ops);
    forall id | id in f.table
      ensures f.table[id].inTx <==> OpenTx(f.log, f.table[id].handle)
    {
      assert EntryHeld(f.table[id], Replay(f.log).value);
      ReplayKnowsTx(f.log, f.table[id].handle);
    }
  }

  /** ... and no begin was ever passed on while one was open. */
  lemma BeginIsNeverNested(m: Conns, ops: seq<Op>, i: nat)
    requires Good(m)
    ensures var log := Final(m, ops).log;
            i < |log| && log[i].TxCalled? && log[i].kind == Begin ==>
              !OpenTx(log[..i], log[i].h)
  {
    RunsStayGood(m, ops);
    var log := Final(m, ops).log;
    if i < |log| && log[i].TxCalled? {
      PrefixReplays(log, i);
      ReplayKnowsTx(log[..i], log[i].h);
    }
  }

  /** All of it for a fresh manager, over every run of calls on it. */
  lemma FreshManagerRuns(ops: seq<Op>)
    ensures Good(NONE_OPEN)
    ensures var f := Final(NONE_OPEN, ops);
            && Good(f) && (forall id <- f.table :: 1 <= id < f.nextId)
            && (forall id <- f.table :: f.table[id].inTx <==> OpenTx(f.log, f.table[id].handle))
            && (forall i | 0 <= i < |f.log| && f.log[i].TxCalled? && f.log[i].kind == Begin ::
                  !OpenTx(f.log[..i], f.log[i].h))
            && (forall name: nat :: Opened(f.log, name) <= 1 &&
                 Opened(f.log, name) == Released(f.log, name) + HeldCount(Replay(f.log).value, name))
  {
    StartIsGood();
    RunsStayGood(NONE_OPEN, ops);
    var f := Final(NONE_OPEN, ops);
    FlagIsTheHistory(NONE_OPEN, ops);
    forall i | 0 <= i < |f.log| && f.log[i].TxCalled? && f.log[i].kind == Begin
      ensures !OpenTx(f.log[..i], f.log[i].h)
    {
      BeginIsNeverNested(NONE_OPEN, ops, i);
    }
    forall name: nat
      ensures Opened(f.log, name) <= 1
      ensures Opened(f.log, name) == Released(f.log, name) + HeldCount(Replay(f.log).value, name)
    {
      ReleasedAsOftenAsOpened(f.log, name);
    }
  }

  // ---------------------------------------------------------------- replies for a session that died

  datatype Response = Plain(reply: Reply) | Lost(inTx: bool, retrySafe: bool)

  /** The connection a call runs on; conn.open has none. */
  function ConnOf(op: Op): Option<int> {
    if op.OpenOp? then None else Some(op.id)
  }

  /** `retry_safe`. */
  predicate RetrySafe(op: Op, sqlIsRead: bool, inTx: bool) {
    !inTx && op.RunOp? && sqlIsRead
  }

  /** `dbcore_ipc_handle`: the flag is read before the call. */
  ghost function Handle(m: Conns, op: Op, sqlIsRead: bool): (Conns, Response) {
    var conn := ConnOf(op);
    var inTx := conn.Some? && conn.value in m.table && m.table[conn.value].inTx;
    var (m', reply) := Step(m, op);
    (m', if reply == Err(CodeConn) && conn.Some? then Lost(inTx, RetrySafe(op, sqlIsRead, inTx)) else Plain(reply))
  }

  lemma LostReplyIs(before: Conns, op: Op, sqlIsRead: bool)
    requires CursorsReadable(before)
    ensures var response := Handle(before, op, sqlIsRead).1;
            && (response.Lost? <==> !op.OpenOp? && Step(before, op).1 == Err(CodeConn))
            && (response.Lost? ==> op.id in before.table && response.inTx == before.table[op.id].inTx
                                   && (response.retrySafe <==> op.RunOp? && sqlIsRead && !response.inTx))
  {
  }

  /** A reply says the session died exactly when a call on an open connection failed with the connection
      code; it reports the transaction that was open when the call came in, even if the call cleared the
      flag; and it allows a retry exactly for a read run while none was open. */
  lemma LostReplyIsHonest(m: Conns, ops: seq<Op>, op: Op, sqlIsRead: bool)
    requires Good(m)
    ensures var before := Final(m, ops);
            var response := Handle(before, op, sqlIsRead).1;
            && (response.Lost? <==> !op.OpenOp? && Step(before, op).1 == Err(CodeConn))
            && (response.Lost? ==> op.id in before.table
                                   && response.inTx == OpenTx(before.log, before.table[op.id].handle)
                                   && (response.retrySafe <==> op.RunOp? && sqlIsRead && !response.inTx))
  {
    var before := Final(m, ops);
    RunsStayGood(m, ops);
    LostReplyIs(before, op, sqlIsRead);
    FlagIsTheHistory(m, ops);
  }

  // ---------------------------------------------------------------- the code

  /** `tx_dispatch` for each of its three instances; `engine` is what `dbcore_tx_*` returns. */
  method TxCall(mgr: Manager, id: int, kind: TxKind, engine: Status, jsonFails: bool) returns (reply: Reply)
    requires mgr.Valid()
    modifies mgr, mgr.slots
    ensures mgr.Valid() && mgr.slots == old(mgr.slots)
    ensures (mgr.View(), reply) == TxDispatch(old(mgr.View()), id, kind, engine, jsonFails)
  {
    var ref := mgr.Get(id);
    if ref.None? {
      return Err(CodeNotFound);
    }
    var open := mgr.InTx(id);
    if kind == Begin && open {
      return Err(CodeQuery);
    }
    mgr.log := mgr.log + [TxCalled(ref.value.1, kind, engine)];
    if kind == Rollback || engine == Success {
      var _ := mgr.SetTx(id, kind == Begin);
    } else {
      assert mgr.table[id := mgr.table[id].(inTx := mgr.table[id].inTx)] == mgr.table;
    }
    if engine != Success {
      return Err(CodeOf(engine));
    }
    reply := if jsonFails then Err(CodeInternal) else Done;
  }

  /** `ipc_method_conn_open`, once its parameters were checked: a connection there is no reply for is closed. */
  method ConnOpen(mgr: Manager, heap: Allocator, driver: nat, dsn: Option<Json.Json>, a: OpenAnswers, telling: Telling)
    returns (reply: Reply, ghost how: Opening, ghost st: Status, ghost slotHad: bool)
    requires mgr.Valid() && heap.Valid() && mgr.nextId < INT_MAX
    modifies mgr, mgr.slots, heap
    ensures mgr.Valid() && (mgr.slots == old(mgr.slots) || fresh(mgr.slots))
    ensures heap.Valid() && heap.live == old(heap.live)
    ensures (mgr.View(), reply) == OpenCall(old(mgr.View()), how, st, telling)
    ensures heap.failures == old(heap.failures) ==> (how, st) == Expected(dsn, driver, a, slotHad)
    ensures heap.failures > old(heap.failures) ==> st == ErrNoMem
    ensures SshConfig.Asked(dsn).Tunnel? ==> how.NotAttempted? || how.RewriteFailed? || how.tunnelled
  {
    var rc, id;
    rc, id, how, slotHad := mgr.OpenConn(heap, driver, dsn, a);
    st := rc;
    if rc != Success {
      return Err(CodeOf(rc)), how, st, slotHad;
    }
    if telling == NoReply {
      var _ := mgr.CloseConn(id);
      return Err(CodeInternal), how, st, slotHad;
    }
    reply := Connection(if telling == Told then Some(id) else None);
  }

  /** What comes in: a call on a connection, or the opening of one. */
  datatype Request =
    | OpenRequest(driver: nat, dsn: Option<Json.Json>, a: OpenAnswers, telling: Telling)
    | OnConnection(op: Op, sqlIsRead: bool)

  /** As the parameter checks leave it. */
  predicate Checked(r: Request) {
    r.OnConnection? ==> !r.op.OpenOp? && (r.op.RunOp? && r.op.keep ==> r.op.offset <= 0)
  }

  predicate IsRead(r: Request) {
    r.OnConnection? && r.sqlIsRead
  }

  /** `op` is the call that `r` amounts to. */
  predicate AmountsTo(r: Request, op: Op) {
    if r.OnConnection? then op == r.op else op.OpenOp? && op.telling == r.telling
  }

  /** `dbcore_ipc_handle` for a call on a connection: the flag is read before the handler runs. */
  method HandleCall(mgr: Manager, op: Op, sqlIsRead: bool) returns (response: Response)
    requires mgr.Valid() && CursorsReadable(mgr.View()) && Checked(OnConnection(op, sqlIsRead))
    modifies mgr, mgr.slots
    ensures mgr.Valid() && mgr.slots == old(mgr.slots)
    ensures (mgr.View(), response) == Handle(old(mgr.View()), op, sqlIsRead)
  {
    var inTx := mgr.InTx(op.id);
    var reply;
    match op {
      case CloseOp(id, jsonFails) =>
        var st := mgr.CloseConn(id);
        reply := if st != Success then Err(CodeNotFound) else if jsonFails then Err(CodeInternal) else Done;
      case RunOp(id, keep, limit, offset, a, t, jsonFails) =>
        reply := QueryRun(mgr, id, keep, limit, offset, a, t, jsonFails);
      case NextOp(id, limit, t, jsonFails) =>
        reply := QueryNext(mgr, id, limit, t, jsonFails);
      case CursorCloseOp(id, jsonFails) =>
        reply := QueryCursorClose(mgr, id, jsonFails);
      case TxOp(id, kind, st, jsonFails) =>
        reply := TxCall(mgr, id, kind, st, jsonFails);
    }
    response := if reply == Err(CodeConn) then Lost(inTx, RetrySafe(op, sqlIsRead, inTx)) else Plain(reply);
  }

  /** ... and for any request; `op` is the call it amounts to. */
  method IpcHandle(mgr: Manager, heap: Allocator, r: Request) returns (response: Response, ghost op: Op)
    requires mgr.Valid() && heap.Valid() && CursorsReadable(mgr.View()) && Checked(r) && mgr.nextId < INT_MAX
    modifies mgr, mgr.slots, heap
    ensures mgr.Valid() && (mgr.slots == old(mgr.slots) || fresh(mgr.slots))
    ensures heap.Valid() && heap.live == old(heap.live)
    ensures (mgr.View(), response) == Handle(old(mgr.View()), op, IsRead(r))
    ensures AmountsTo(r, op)
  {
    if r.OpenRequest? {
      var reply;
      ghost var how, st, slotHad;
      reply, how, st, slotHad := ConnOpen(mgr, heap, r.driver, r.dsn, r.a, r.telling);
      return Plain(reply), OpenOp(how, st, r.telling);
    }
    op := r.op;
    response := HandleCall(mgr, r.op, r.sqlIsRead);
  }

  lemma {:induction false} FinalAppend(m: Conns, ops: seq<Op>, op: Op)
    ensures Final(m, ops + [op]) == Step(Final(m, ops), op).0
    decreases |ops|
  {
    if ops == [] {
      assert [op][1..] == [] && [] + [op] == [op];
      assert Final(m, [op]) == Final(Step(m, op).0, []);
    } else {
      assert (ops + [op])[1..] == ops[1..] + [op];
      FinalAppend(Step(m, ops[0]).0, ops[1..], op);
    }
  }

  /** Nothing held any more, everything opened was released once. */
  lemma AllReleased(log: Log)
    requires Replay(log) == Some(NOTHING)
    ensures forall name: nat :: Opened(log, name) == Released(log, name) <= 1
  {
    forall name: nat
      ensures Opened(log, name) == Released(log, name) <= 1
    {
      ReleasedAsOftenAsOpened(log, name);
    }
  }

  /** The calls are those that the requests, as far as they came, amount to. */
  predicate Follows(requests: seq<Request>, ops: seq<Op>) {
    |ops| <= |requests| && forall k | 0 <= k < |ops| :: AmountsTo(requests[k], ops[k])
  }

  lemma FollowsOn(requests: seq<Request>, ops: seq<Op>, op: Op)
    requires Follows(requests, ops) && |ops| < |requests| && AmountsTo(requests[|ops|], op)
    ensures Follows(requests, ops + [op])
  {
  }

  /** One request in the life of a manager. */
  method Serve(mgr: Manager, heap: Allocator, r: Request, ghost ops: seq<Op>) returns (response: Response, ghost op: Op)
    requires mgr.Valid() && heap.Valid() && Checked(r) && mgr.nextId < INT_MAX && mgr.View() == Final(NONE_OPEN, ops)
    modifies mgr, mgr.slots, heap
    ensures mgr.Valid() && (mgr.slots == old(mgr.slots) || fresh(mgr.slots)) && mgr.nextId <= old(mgr.nextId) + 1
    ensures heap.Valid() && heap.live == old(heap.live)
    ensures AmountsTo(r, op) && mgr.View() == Final(NONE_OPEN, ops + [op])
    ensures response == Handle(Final(NONE_OPEN, ops), op, IsRead(r)).1
  {
    StartIsGood();
    RunsStayGood(NONE_OPEN, ops);
    response, op := IpcHandle(mgr, heap, r);
    FinalAppend(NONE_OPEN, ops, op);
    IdsGrow(Final(NONE_OPEN, ops), op);
  }

  /** `dbcore_conn_manager_free`, at the end of any run. */
  method ShutDown(mgr: Manager, ghost ops: seq<Op>) returns (log: Log)
    requires mgr.Valid() && mgr.View() == Final(NONE_OPEN, ops)
    modifies mgr, mgr.slots
    ensures Final(NONE_OPEN, ops).log <= log && forall name: nat :: Opened(log, name) == Released(log, name) <= 1
  {
    StartIsGood();
    RunsStayGood(NONE_OPEN, ops);
    mgr.FreeAll();
    log := mgr.log;
    AllReleased(log);
  }

  /** A manager's whole life: it goes where the calls its requests amount to lead, and, after
      `dbcore_conn_manager_free`, every tunnel, handle and driver result that ever came into being was released
      exactly once. */
  method WholeLife(heap: Allocator, requests: seq<Request>) returns (log: Log, ghost ops: seq<Op>)
    requires heap.Valid() && |requests| < INT_MAX && forall k | 0 <= k < |requests| :: Checked(requests[k])
    modifies heap
    ensures heap.Valid() && heap.live == old(heap.live)
    ensures |ops| == |requests| && Follows(requests, ops)
    ensures Final(NONE_OPEN, ops).log <= log
    ensures forall name: nat :: Opened(log, name) == Released(log, name) <= 1
  {
    var mgr := new Manager();
    ops := [];
    for i := 0 to |requests|
      invariant mgr.Valid() && fresh(mgr) && fresh(mgr.slots) && mgr.nextId <= i + 1
      invariant heap.Valid() && heap.live == old(heap.live)
      invariant mgr.View() == Final(NONE_OPEN, ops)
      invariant |ops| == i && Follows(requests, ops)
    {
      var response;
      ghost var op;
      response, op := Serve(mgr, heap, requests[i], ops);
      FollowsOn(requests, ops, op);
      ops := ops + [op];
    }
    log := ShutDown(mgr, ops);
  }
}
