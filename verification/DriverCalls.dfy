/** What the driver of a connection is asked over a run of calls, in order: each query that got a result and each
    transaction call, read off the log and, independently, off the calls (core/src/query/run.c, tx.c). */
module DriverCalls {
  import opened Prelude
  import opened Connections
  import opened Queries
  import opened Sessions

  /** One thing asked on a handle: a result was opened, or a transaction member called. */
  datatype Asked = Executed | TxAsked(kind: TxKind, st: Status)

  function AskedOf(e: Event, h: nat): seq<Asked> {
    match e
    case CursorOpened(_, g) => if g == h then [Executed] else []
    case TxCalled(g, kind, st) => if g == h then [TxAsked(kind, st)] else []
    case _ => []
  }

  function TraceUpTo(log: Log, h: nat, n: nat): seq<Asked>
    requires n <= |log|
  {
    if n == 0 then [] else TraceUpTo(log, h, n - 1) + AskedOf(log[n - 1], h)
  }

  /** Everything asked on a handle. */
  function Trace(log: Log, h: nat): seq<Asked> {
    TraceUpTo(log, h, |log|)
  }

  lemma {:induction false} SameFront(log: Log, longer: Log, h: nat, n: nat)
    requires n <= |log| && log <= longer
    ensures TraceUpTo(longer, h, n) == TraceUpTo(log, h, n)
  {
    if n > 0 {
      SameFront(log, longer, h, n - 1);
      assert longer[n - 1] == log[n - 1];
    }
  }

  lemma TraceAppend(log: Log, e: Event, h: nat)
    ensures Trace(log + [e], h) == Trace(log, h) + AskedOf(e, h)
  {
    SameFront(log, log + [e], h, |log|);
  }

  lemma Silent(log: Log, e: Event, h: nat)
    requires AskedOf(e, h) == []
    ensures Trace(log + [e], h) == Trace(log, h)
  {
    TraceAppend(log, e, h);
    assert Trace(log, h) + [] == Trace(log, h);
  }

  // ---------------------------------------------------------------- the calls, without the log

  /** A begin while a transaction is open is refused; every other transaction call is passed on. */
  predicate PassesOn(op: Op, id: int, open: bool) {
    op.TxOp? && op.id == id && !(op.kind == Begin && open)
  }

  /** What `op` asks of the driver of `id`. */
  function AskedBy(op: Op, id: int, open: bool): seq<Asked> {
    if op.RunOp? && op.id == id && op.a.result.Some? then [Executed]
    else if PassesOn(op, id, open) then [TxAsked(op.kind, op.st)]
    else []
  }

  predicate Begins(op: Op, id: int) {
    op.TxOp? && op.id == id && op.kind == Begin && op.st == Success
  }

  predicate Ends(op: Op, id: int) {
    op.TxOp? && op.id == id && (op.kind == Rollback || (op.kind == Commit && op.st == Success))
  }

  function OpenThen(open: bool, op: Op, id: int): bool {
    Begins(op, id) || (open && !Ends(op, id))
  }

  function CallsOf(ops: seq<Op>, id: int, open: bool): seq<Asked> {
    if ops == [] then [] else AskedBy(ops[0], id, open) + CallsOf(ops[1..], id, OpenThen(open, ops[0], id))
  }

  function OpenAfter(ops: seq<Op>, id: int, open: bool): bool {
    if ops == [] then open else OpenAfter(ops[1..], id, OpenThen(open, ops[0], id))
  }

  predicate NoneEnds(ops: seq<Op>, id: int, from: nat) {
    forall j | from <= j < |ops| :: !Ends(ops[j], id)
  }

  predicate BegunAt(ops: seq<Op>, id: int, i: nat) {
    i < |ops| && Begins(ops[i], id) && NoneEnds(ops, id, i + 1)
  }

  lemma NoneEndsLater(ops: seq<Op>, id: int, i: nat)
    requires ops != []
    ensures NoneEnds(ops, id, i + 1) <==> NoneEnds(ops[1..], id, i)
  {
    var rest := ops[1..];
    if NoneEnds(ops, id, i + 1) {
      forall j | i <= j < |rest|
        ensures !Ends(rest[j], id)
      {
        assert rest[j] == ops[j + 1];
      }
    }
    if NoneEnds(rest, id, i) {
      forall j | i + 1 <= j < |ops|
        ensures !Ends(ops[j], id)
      {
        assert ops[j] == rest[j - 1];
      }
    }
  }

  lemma BegunLater(ops: seq<Op>, id: int, i: nat)
    requires ops != []
    ensures BegunAt(ops, id, i + 1) <==> BegunAt(ops[1..], id, i)
  {
    NoneEndsLater(ops, id, i + 1);
  }

  /** A transaction is open exactly when a begin that succeeded, or the one open before, was followed by no commit
      that succeeded and by no rollback. */
  lemma {:induction false} OpenIff(ops: seq<Op>, id: int, open: bool)
    ensures OpenAfter(ops, id, open) <==> (exists i: nat :: BegunAt(ops, id, i)) || (open && NoneEnds(ops, id, 0))
    decreases |ops|
  {
    if ops != [] {
      var next := OpenThen(open, ops[0], id);
      OpenIff(ops[1..], id, next);
      NoneEndsLater(ops, id, 0);
      if i: nat :| BegunAt(ops, id, i) {
        if i > 0 {
          BegunLater(ops, id, i - 1);
          assert BegunAt(ops[1..], id, i - 1);
        }
      }
      if i: nat :| BegunAt(ops[1..], id, i) {
        BegunLater(ops, id, i);
        assert BegunAt(ops, id, i + 1);
      }
      assert BegunAt(ops, id, 0) <==> Begins(ops[0], id) && NoneEnds(ops[1..], id, 0);
      assert NoneEnds(ops, id, 0) <==> !Ends(ops[0], id) && NoneEnds(ops, id, 1);
    }
  }

  // ---------------------------------------------------------------- one call

  /** `id` is there with the handle `h` and that flag, and `tr` is what its driver was asked. */
  predicate Stands(m: Conns, id: int, h: nat, open: bool, tr: seq<Asked>) {
    id in m.table && m.table[id].handle == h && m.table[id].inTx == open && Trace(m.log, h) == tr
  }

  lemma DropAsksNothing(m: Conns, i: int, id: int, h: nat, open: bool, tr: seq<Asked>)
    requires Stands(m, id, h, open, tr)
    ensures Stands(SetCursor(m, i, None), id, h, open, tr)
  {
    if i in m.table && m.table[i].cursor.Some? {
      Silent(m.log, CursorFreed(m.table[i].cursor.value), h);
    }
  }

  lemma ResultAsks(m: Conns, i: int, rs: ResultSet, read: nat, id: int, h: nat, open: bool, tr: seq<Asked>)
    requires Stands(m, id, h, open, tr) && i in m.table && (i != id ==> m.table[i].handle != h)
    ensures Stands(Passing(m, i, rs), id, h, open, if i == id then tr + [Executed] else tr)
    ensures Stands(Kept(m, i, rs.(pos := read)), id, h, open, if i == id then tr + [Executed] else tr)
  {
    var asked := CursorOpened(|m.log|, m.table[i].handle);
    if i == id {
      TraceAppend(m.log, asked, h);
    } else {
      Silent(m.log, asked, h);
    }
    Silent(m.log + [asked], CursorFreed(|m.log|), h);
  }

  lemma RunAsks(m: Conns, i: int, keep: bool, limit: int, offset: int, a: Answer, t: Trouble, fails: bool, id: int,
                h: nat, open: bool, tr: seq<Asked>)
    requires Sound(m) && Stands(m, id, h, open, tr)
    ensures Stands(RunQuery(m, i, keep, limit, offset, a, t, fails).0, id, h, open,
                   if i == id && a.result.Some? then tr + [Executed] else tr)
  {
    if i in m.table {
      var m1 := if keep then SetCursor(m, i, None) else m;
      DropAsksNothing(m, i, id, h, open, tr);
      assert i != id ==> m1.table[i].handle != h;
      var rs := ResultSet(if a.result.Some? then a.result.value else [], 0);
      ResultAsks(m1, i, rs, Materialized(rs, limit, offset, keep, t).pos, id, h, open, tr);
    }
  }

  lemma NextAsksNothing(m: Conns, i: int, limit: int, t: Trouble, fails: bool, id: int, h: nat, open: bool,
                        tr: seq<Asked>)
    requires CursorsReadable(m) && Stands(m, id, h, open, tr)
    ensures Stands(NextPage(m, i, limit, t, fails).0, id, h, open, tr)
  {
    DropAsksNothing(m, i, id, h, open, tr);
  }

  lemma UpAndDownAreSilent(log: Log, tunnelled: bool, tunnel: Option<nat>, h: nat)
    ensures Trace(TunnelUp(log, tunnelled), h) == Trace(log, h)
    ensures Trace(TunnelDown(log, tunnel), h) == Trace(log, h)
  {
    Silent(log, TunnelOpened(|log|), h);
    if tunnel.Some? {
      Silent(log, TunnelClosed(tunnel.value), h);
    }
  }

  lemma ReleaseIsSilent(log: Log, e: Entry, h: nat)
    ensures Trace(ReleaseLog(log, e), h) == Trace(log, h)
  {
    var log1 := if e.cursor.Some? then log + [CursorFreed(e.cursor.value)] else log;
    if e.cursor.Some? {
      Silent(log, CursorFreed(e.cursor.value), h);
    }
    Silent(log1, Disconnected(e.handle), h);
    UpAndDownAreSilent(log1 + [Disconnected(e.handle)], false, e.tunnel, h);
  }

  lemma PassingHandleIsSilent(log: Log, via: Option<nat>, h: nat)
    ensures var up := log + [Connected(|log|, via)];
            && Trace(up, h) == Trace(log, h)
            && Trace(up + [Disconnected(|log|)], h) == Trace(log, h)
            && Trace(TunnelDown(up + [Disconnected(|log|)], via), h) == Trace(log, h)
  {
    var up := log + [Connected(|log|, via)];
    Silent(log, Connected(|log|, via), h);
    Silent(up, Disconnected(|log|), h);
    UpAndDownAreSilent(up + [Disconnected(|log|)], false, via, h);
  }

  lemma OpenIsSilent(m: Conns, how: Opening, h: nat)
    ensures Trace(Open(m, how).log, h) == Trace(m.log, h)
  {
    if !how.NotAttempted? {
      var tunnelled := how.RewriteFailed? || how.tunnelled;
      var up, name := TunnelUp(m.log, tunnelled), TunnelName(m.log, tunnelled);
      UpAndDownAreSilent(m.log, tunnelled, None, h);
      if how.RewriteFailed? || how.NoHandle? || (how.ConnectFailed? && !how.leftHandle) {
        UpAndDownAreSilent(up, false, name, h);
      } else {
        PassingHandleIsSilent(up, name, h);
      }
    }
  }

  lemma OpenKeepsEntry(m: Conns, how: Opening, id: int)
    requires id in m.table && id != m.nextId
    ensures id in Open(m, how).table && Open(m, how).table[id] == m.table[id]
  {
  }

  lemma OpenAsksNothing(m: Conns, how: Opening, id: int, h: nat, open: bool, tr: seq<Asked>)
    requires Stands(m, id, h, open, tr) && id != m.nextId
    ensures Stands(Open(m, how), id, h, open, tr)
  {
    OpenIsSilent(m, how, h);
    OpenKeepsEntry(m, how, id);
  }

  lemma CloseAsksNothing(m: Conns, i: int, id: int, h: nat, open: bool, tr: seq<Asked>)
    requires Stands(m, id, h, open, tr) && i != id
    ensures Stands(Close(m, i), id, h, open, tr)
  {
    if i in m.table {
      ReleaseIsSilent(m.log, m.table[i], h);
    }
  }

  lemma OpenCallAsksNothing(m: Conns, how: Opening, st: Status, telling: Telling, id: int, h: nat, open: bool,
                            tr: seq<Asked>)
    requires Stands(m, id, h, open, tr) && id != m.nextId
    ensures Stands(OpenCall(m, how, st, telling).0, id, h, open, tr)
  {
    OpenCallIs(m, how, st, telling);
    OpenAsksNothing(m, how, id, h, open, tr);
    CloseAsksNothing(Open(m, how), m.nextId, id, h, open, tr);
  }

  lemma TxDoneAsks(m: Conns, i: int, kind: TxKind, st: Status, id: int, h: nat, open: bool, tr: seq<Asked>)
    requires Stands(m, id, h, open, tr) && i in m.table && (i != id ==> m.table[i].handle != h)
    ensures Stands(TxDone(m, i, kind, st), id, h, if i == id then FlagAfter(open, kind, st) else open,
                   if i == id then tr + [TxAsked(kind, st)] else tr)
  {
    var called := TxCalled(m.table[i].handle, kind, st);
    assert TxDone(m, i, kind, st).log == m.log + [called];
    if i == id {
      TraceAppend(m.log, called, h);
    } else {
      Silent(m.log, called, h);
    }
  }

  lemma TxAsks(m: Conns, op: Op, id: int, h: nat, open: bool, tr: seq<Asked>)
    requires Sound(m) && Stands(m, id, h, open, tr) && op.TxOp?
    ensures Stands(TxDispatch(m, op.id, op.kind, op.st, op.jsonFails).0, id, h, OpenThen(open, op, id),
                   if PassesOn(op, id, open) then tr + [TxAsked(op.kind, op.st)] else tr)
  {
    if op.id in m.table && !(op.kind == Begin && m.table[op.id].inTx) {
      TxDoneAsks(m, op.id, op.kind, op.st, id, h, open, tr);
    }
  }

  lemma StepAsks(m: Conns, op: Op, id: int, h: nat, open: bool, tr: seq<Asked>)
    requires Good(m) && Stands(m, id, h, open, tr) && !(op.CloseOp? && op.id == id)
    ensures Stands(Step(m, op).0, id, h, OpenThen(open, op, id), tr + AskedBy(op, id, open))
  {
    assert tr + [] == tr;
    match op {
      case RunOp(i, keep, limit, offset, a, t, fails) =>
        RunAsks(m, i, keep, limit, offset, a, t, fails, id, h, open, tr);
      case NextOp(i, limit, t, fails) => NextAsksNothing(m, i, limit, t, fails, id, h, open, tr);
      case CursorCloseOp(i, fails) => DropAsksNothing(m, i, id, h, open, tr);
      case CloseOp(i, fails) => CloseAsksNothing(m, i, id, h, open, tr);
      case TxOp(i, kind, st, fails) => TxAsks(m, op, id, h, open, tr);
      case OpenOp(how, st, telling) => OpenCallAsksNothing(m, how, st, telling, id, h, open, tr);
    }
  }

  // ---------------------------------------------------------------- any run of calls

  predicate NeverClosed(ops: seq<Op>, id: int) {
    forall k | 0 <= k < |ops| :: !(ops[k].CloseOp? && ops[k].id == id)
  }

  lemma NeverClosedLater(ops: seq<Op>, id: int)
    requires NeverClosed(ops, id) && ops != []
    ensures !(ops[0].CloseOp? && ops[0].id == id) && NeverClosed(ops[1..], id)
  {
  }

  lemma CallsJoin(tr: seq<Asked>, ops: seq<Op>, id: int, open: bool)
    requires ops != []
    ensures tr + AskedBy(ops[0], id, open) + CallsOf(ops[1..], id, OpenThen(open, ops[0], id))
         == tr + CallsOf(ops, id, open)
  {
    var asked, later := AskedBy(ops[0], id, open), CallsOf(ops[1..], id, OpenThen(open, ops[0], id));
    assert tr + asked + later == tr + (asked + later);
  }

  lemma {:induction false} RunAsksThat(m: Conns, ops: seq<Op>, id: int, h: nat, open: bool, tr: seq<Asked>)
    requires Good(m) && Stands(m, id, h, open, tr) && NeverClosed(ops, id)
    ensures Stands(Final(m, ops), id, h, OpenAfter(ops, id, open), tr + CallsOf(ops, id, open))
    decreases |ops|
  {
    if ops == [] {
      assert tr + [] == tr;
    } else {
      var asked, next := AskedBy(ops[0], id, open), OpenThen(open, ops[0], id);
      StepAsks(m, ops[0], id, h, open, tr);
      ApplyKeepsGood(m, ops[0]);
      NeverClosedLater(ops, id);
      RunAsksThat(Step(m, ops[0]).0, ops[1..], id, h, next, tr + asked);
      CallsJoin(tr, ops, id, open);
    }
  }

  /** Over every run that does not close `id`, its driver is asked, in this order and nothing else: a result for each
      query on it that gets one, and each transaction call on it, as it was called and with the answer it was given,
      but for the begins refused while one was open.  Page turns ask nothing, nor does anything on another connection.
      The flag afterwards is told by those calls alone. */
  lemma DriverIsAsked(m: Conns, ops: seq<Op>, id: int)
    requires Good(m) && id in m.table && NeverClosed(ops, id)
    ensures var f, h, open := Final(m, ops), m.table[id].handle, m.table[id].inTx;
            && id in f.table && f.table[id].handle == h
            && Trace(f.log, h) == Trace(m.log, h) + CallsOf(ops, id, open)
            && (f.table[id].inTx <==> (exists i: nat :: BegunAt(ops, id, i)) || (open && NoneEnds(ops, id, 0)))
  {
    var h, open := m.table[id].handle, m.table[id].inTx;
    RunAsksThat(m, ops, id, h, open, Trace(m.log, h));
    OpenIff(ops, id, open);
  }

  function Executions(tr: seq<Asked>): nat {
    if tr == [] then 0 else Executions(tr[..|tr| - 1]) + if tr[|tr| - 1].Executed? then 1 else 0
  }

  lemma ExecutionsAppend(tr: seq<Asked>, x: Asked)
    ensures Executions(tr + [x]) == Executions(tr) + if x.Executed? then 1 else 0
  {
    assert (tr + [x])[..|tr|] == tr;
  }

  lemma {:induction false} OnlyTx(ops: seq<Op>, id: int, open: bool)
    requires forall k | 0 <= k < |ops| :: !(ops[k].RunOp? && ops[k].id == id)
    ensures forall x <- CallsOf(ops, id, open) :: x.TxAsked?
    decreases |ops|
  {
    if ops != [] {
      OnlyTx(ops[1..], id, OpenThen(open, ops[0], id));
    }
  }

  lemma {:induction false} TxExecutesNothing(tr: seq<Asked>, more: seq<Asked>)
    requires forall x <- more :: x.TxAsked?
    ensures Executions(tr + more) == Executions(tr)
    decreases |more|
  {
    if more == [] {
      assert tr + more == tr;
    } else {
      var front, last := more[..|more| - 1], more[|more| - 1];
      assert last in more && forall x <- front :: x in more;
      TxExecutesNothing(tr, front);
      ExecutionsAppend(tr + front, last);
      assert tr + more == tr + front + [last];
    }
  }

  /** The pages of a cursor run, however many are turned, come from one execution. */
  lemma PagesExecuteOnce(m: Conns, op: Op, ops: seq<Op>)
    requires Good(m) && op.RunOp? && op.id in m.table && op.a.result.Some? && NeverClosed(ops, op.id)
    requires forall k | 0 <= k < |ops| :: !(ops[k].RunOp? && ops[k].id == op.id)
    ensures var h := m.table[op.id].handle;
            Executions(Trace(Final(Step(m, op).0, ops).log, h)) == Executions(Trace(m.log, h)) + 1
  {
    var id := op.id;
    var h, open, tr := m.table[id].handle, m.table[id].inTx, Trace(m.log, m.table[id].handle);
    StepAsks(m, op, id, h, open, tr);
    ApplyKeepsGood(m, op);
    RunAsksThat(Step(m, op).0, ops, id, h, open, tr + [Executed]);
    OnlyTx(ops, id, open);
    TxExecutesNothing(tr + [Executed], CallsOf(ops, id, open));
    ExecutionsAppend(tr, Executed);
  }
}
