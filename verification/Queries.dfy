/** core/src/ipc/query_methods.c over core/src/query/run.c and materialize.c: running a query, paging
    through its result with a cursor kept on the connection, and closing that cursor. */
module Queries {
  import opened Prelude
  import opened Connections
  import opened ConnManager

  // ---------------------------------------------------------------- one page of a driver result

  /** What goes wrong while a page is read: nothing; no memory at once; the k-th `next_row`; or the copy
      of the k-th row of the page. */
  datatype Trouble = Smooth | NoMemAtStart | FetchFails(k: nat) | CopyFails(k: nat)

  /** A materialized page, whether it is marked as truncated, and where the result stands after it. */
  datatype Page = Page(st: Status, rows: seq<Row>, truncated: bool, pos: nat)

  function Broken(t: Trouble, fetches: nat, copies: nat): Status {
    if t == NoMemAtStart then ErrNoMem
    else if t.FetchFails? && t.k < fetches then ErrQuery
    else if t.CopyFails? && t.k < copies then ErrNoMem
    else Success
  }

  /** The next page of a result that stays open: it stops when full without looking further, so it is
      marked as truncated exactly when it is full. */
  function OpenPage(rs: ResultSet, max: int, t: Trouble): Page
    requires rs.pos <= |rs.rows|
  {
    var left := |rs.rows| - rs.pos;
    var full := 0 < max <= left;
    var n := if full then max else left;
    var st := Broken(t, if full then n else n + 1, n);
    Page(st, if st == Success then rs.rows[rs.pos..rs.pos + n] else [], full && st == Success, rs.pos + n)
  }

  /** A page read once for all: after `offset` rows, at most `max`, marked exactly when more rows follow. */
  function WholePage(rs: ResultSet, max: int, offset: int, t: Trouble): Page
    requires rs.pos <= |rs.rows|
  {
    var left := |rs.rows| - rs.pos;
    var skip := if offset <= 0 then 0 else Min(offset, left);
    var more := 0 < max < left - skip;
    var n := if more then max else left - skip;
    var st := Broken(t, skip + n + 1, n);
    Page(st, if st == Success then rs.rows[rs.pos + skip..rs.pos + skip + n] else [], more && st == Success,
         rs.pos + skip + n)
  }

  function Materialized(rs: ResultSet, max: int, offset: int, keepOpen: bool, t: Trouble): Page
    requires rs.pos <= |rs.rows|
  {
    if keepOpen then OpenPage(rs, max, t) else WholePage(rs, max, offset, t)
  }

  /** Where the loop stands after fetching `fetched` rows: those behind the offset were copied, and nothing went
      wrong so far. */
  predicate Reading(rs: ResultSet, max: int, offset: int, t: Trouble, skipped: nat, fetched: nat, got: seq<Row>) {
    && skipped <= fetched && rs.pos + fetched <= |rs.rows|
    && skipped == (if offset <= 0 then 0 else Min(offset, fetched))
    && got == rs.rows[rs.pos + skipped..rs.pos + fetched] && (0 < max ==> |got| <= max)
    && (t.FetchFails? ==> fetched <= t.k) && (t.CopyFails? ==> |got| <= t.k)
  }

  lemma NothingRead(rs: ResultSet, max: int, offset: int, t: Trouble)
    requires rs.pos <= |rs.rows|
    ensures Reading(rs, max, offset, t, 0, 0, [])
  {
  }

  /** One more row, which the offset skips or which is copied. */
  lemma OneMoreRead(rs: ResultSet, max: int, offset: int, t: Trouble, skipped: nat, fetched: nat, got: seq<Row>)
    requires Reading(rs, max, offset, t, skipped, fetched, got) && rs.pos + fetched < |rs.rows|
    requires t != FetchFails(fetched)
    ensures offset > 0 && skipped < offset ==> Reading(rs, max, offset, t, skipped + 1, fetched + 1, got)
    ensures !(offset > 0 && skipped < offset) && !(max > 0 && |got| >= max) && t != CopyFails(|got|) ==>
              Reading(rs, max, offset, t, skipped, fetched + 1, got + [rs.rows[rs.pos + fetched]])
  {
    var rows, from, to := rs.rows, rs.pos + skipped, rs.pos + fetched;
    assert rows[from..to] + [rows[to]] == rows[from..to + 1];
    assert offset > 0 && skipped < offset ==> got == [] == rows[from + 1..to + 1];
  }

  /** Why reading stopped with n rows copied: the page is full, a fetch failed, the rows ran out, or a row could not
      be copied. */
  predicate Stopped(rs: ResultSet, max: int, offset: int, keepOpen: bool, t: Trouble, skipped: nat, n: nat, why: Stop) {
    var fetched := skipped + n;
    match why
    case Full => n == max && 0 < max && (keepOpen || (rs.pos + fetched < |rs.rows| && t != FetchFails(fetched)))
    case NoFetch => t == FetchFails(fetched) && !(keepOpen && max > 0 && n >= max)
    case AtEnd => rs.pos + fetched == |rs.rows| && !(keepOpen && max > 0 && n >= max) && t != FetchFails(fetched)
    case NoCopy => t == CopyFails(n) && rs.pos + fetched < |rs.rows| && (0 < max ==> n < max)
                   && (offset > 0 ==> skipped == offset)
  }

  datatype Stop = Full | NoFetch | AtEnd | NoCopy

  function StatusOf(why: Stop): Status {
    match why
    case NoFetch => ErrQuery
    case NoCopy => ErrNoMem
    case _ => Success
  }

  /** The page that reading to such a stop makes. */
  lemma PageEnds(rs: ResultSet, max: int, offset: int, keepOpen: bool, t: Trouble, skipped: nat, got: seq<Row>,
                 why: Stop)
    requires Reading(rs, max, offset, t, skipped, skipped + |got|, got) && (keepOpen ==> offset <= 0)
    requires t != NoMemAtStart && Stopped(rs, max, offset, keepOpen, t, skipped, |got|, why)
    ensures var want := Materialized(rs, max, offset, keepOpen, t);
            && want.st == StatusOf(why)
            && (want.st == Success ==> want.rows == got && want.truncated == (why == Full))
            && (want.st == Success && keepOpen ==> want.pos == rs.pos + |got|)
  {
  }

  /** The loop of `materialize`. */
  method ReadRows(rs: ResultSet, max: int, offset: int, keepOpen: bool, t: Trouble)
    returns (got: seq<Row>, pos: nat, why: Stop)
    requires rs.pos <= |rs.rows| && t != NoMemAtStart && (keepOpen ==> offset <= 0)
    ensures var want := Materialized(rs, max, offset, keepOpen, t);
            && want.st == StatusOf(why)
            && (want.st == Success ==> want.rows == got && want.truncated == (why == Full))
            && (want.st == Success && keepOpen ==> want.pos == pos)
  {
    got := [];
    var skipped, fetched := 0, 0;
    pos, why := rs.pos, Full;
    NothingRead(rs, max, offset, t);
    while true
      invariant 0 <= skipped <= fetched == pos - rs.pos && why == Full
      invariant Reading(rs, max, offset, t, skipped, fetched, got)
      decreases |rs.rows| - pos
    {
      if keepOpen && max > 0 && |got| >= max {
        break;
      }
      if t == FetchFails(fetched) {
        why := NoFetch;
        break;
      }
      if pos == |rs.rows| {
        why := AtEnd;
        break;
      }
      OneMoreRead(rs, max, offset, t, skipped, fetched, got);
      pos, fetched := pos + 1, fetched + 1;
      if offset > 0 && skipped < offset {
        skipped := skipped + 1;
        continue;
      }
      if max > 0 && |got| >= max {
        break;
      }
      if t == CopyFails(|got|) {
        why := NoCopy;
        break;
      }
      got := got + [rs.rows[pos - 1]];
    }
    PageEnds(rs, max, offset, keepOpen, t, skipped, got, why);
  }

  /** `materialize`. */
  method Materialize(rs: ResultSet, max: int, offset: int, keepOpen: bool, t: Trouble) returns (page: Page, freed: bool)
    requires rs.pos <= |rs.rows| && (keepOpen ==> offset <= 0)
    ensures var want := Materialized(rs, max, offset, keepOpen, t);
            && page.st == want.st && page.rows == want.rows && page.truncated == want.truncated
            && (page.st == Success && keepOpen ==> page.pos == want.pos)
    ensures freed <==> !(keepOpen && page.st == Success && page.truncated)
  {
    page, freed := Page(ErrNoMem, [], false, rs.pos), true;
    if t == NoMemAtStart {
      return;
    }
    var got, pos, why := ReadRows(rs, max, offset, keepOpen, t);
    if StatusOf(why) != Success {
      page := Page(StatusOf(why), [], false, rs.pos);
      return;
    }
    page, freed := Page(Success, got, why == Full, pos), !keepOpen || why != Full;
  }

  /** The flag of a kept-open page is a guess: it can be set with no row left, on an exact multiple. */
  lemma FullPageIsNotAlwaysFollowed()
    ensures var p := OpenPage(ResultSet([[None]], 0), 1, Smooth); p.truncated && p.pos == 1
  {
  }

  /** It is right exactly when the rows left are not a full page and nothing more. */
  lemma FlagIsHonestIff(rs: ResultSet, max: int, t: Trouble)
    requires rs.pos <= |rs.rows| && max > 0 && OpenPage(rs, max, t).st == Success
    ensures (OpenPage(rs, max, t).truncated <==> OpenPage(rs, max, t).pos < |rs.rows|) <==> |rs.rows| - rs.pos != max
  {
  }

  // ---------------------------------------------------------------- the calls, on the map of connections

  /** JSON-RPC error codes of the core. */
  datatype Code = CodeParams | CodeInternal | CodeConn | CodeUnsupported | CodeNotFound | CodeQuery

  /** `ipc_status_to_code`. */
  function CodeOf(st: Status): Code {
    match st
    case ErrConn => CodeConn
    case ErrQuery => CodeQuery
    case ErrUnsupported => CodeUnsupported
    case ErrParam => CodeParams
    case _ => CodeInternal
  }

  datatype Reply =
    | Err(code: Code)
    | Rows(rows: seq<Row>, truncated: bool, cursor: bool)
    | CursorClosed(was: bool)
    | Connection(id: Option<int>)
    | Done

  /** What the driver's `query` answers: a status, and the rows of a result if it hands one out. */
  datatype Answer = Answer(st: Status, result: Option<seq<Row>>)

  function Answered(r: Reply, jsonFails: bool): Reply {
    if jsonFails then Err(CodeInternal) else r
  }

  /** query.run: with `keep` the connection's old cursor goes first and a full page leaves a new one. */
  function RunQuery(m: Conns, id: int, keep: bool, limit: int, offset: int, a: Answer, t: Trouble,
                    jsonFails: bool): (Conns, Reply)
  {
    if id !in m.table then (m, Err(CodeNotFound))
    else
      var m1 := if keep then SetCursor(m, id, None) else m;
      if a.st != Success then
        (if a.result.Some? then Passing(m1, id, ResultSet(a.result.value, 0)) else m1, Err(CodeOf(a.st)))
      else if a.result.None? then (m1, Err(CodeQuery))
      else
        var p := Materialized(ResultSet(a.result.value, 0), limit, offset, keep, t);
        if p.st != Success then (Passing(m1, id, ResultSet(a.result.value, 0)), Err(CodeOf(p.st)))
        else if keep && p.truncated then
          (Kept(m1, id, ResultSet(a.result.value, p.pos)), Answered(Rows(p.rows, true, true), jsonFails))
        else (Passing(m1, id, ResultSet(a.result.value, 0)), Answered(Rows(p.rows, p.truncated, false), jsonFails))
  }

  /** The driver results behind the stored cursors are there, read no further than their end. */
  ghost predicate CursorsReadable(m: Conns) {
    forall i <- m.table :: m.table[i].cursor.Some? ==>
      var c := m.table[i].cursor.value; c in m.results && m.results[c].pos <= |m.results[c].rows|
  }

  /** query.next: one more page from the stored cursor, which is kept while rows may be left. */
  function NextPage(m: Conns, id: int, limit: int, t: Trouble, jsonFails: bool): (Conns, Reply)
    requires CursorsReadable(m)
  {
    if id !in m.table || m.table[id].cursor.None? then (m, Err(CodeNotFound))
    else
      var c := m.table[id].cursor.value;
      var p := OpenPage(m.results[c], limit, t);
      if p.st == Success && p.truncated then
        (m.(results := m.results[c := m.results[c].(pos := p.pos)]), Answered(Rows(p.rows, true, true), jsonFails))
      else
        (SetCursor(m, id, None),
         if p.st != Success then Err(CodeOf(p.st)) else Answered(Rows(p.rows, p.truncated, false), jsonFails))
  }

  /** query.cursorClose. */
  function CloseCursor(m: Conns, id: int, jsonFails: bool): (Conns, Reply) {
    if id !in m.table then (m, Err(CodeNotFound))
    else (SetCursor(m, id, None), Answered(CursorClosed(m.table[id].cursor.Some?), jsonFails))
  }

  /** No stored cursor has the name the next event will get. */
  lemma NewName(m: Conns)
    requires Sound(m)
    ensures forall i <- m.table :: m.table[i].cursor != Some(|m.log|)
  {
    forall i | i in m.table
      ensures m.table[i].cursor != Some(|m.log|)
    {
      assert EntryHeld(m.table[i], Replay(m.log).value);
    }
  }

  lemma PassingReadable(m: Conns, id: int, rs: ResultSet)
    requires Sound(m) && CursorsReadable(m) && id in m.table
    ensures Sound(Passing(m, id, rs)) && CursorsReadable(Passing(m, id, rs))
  {
    PassingSound(m, id, rs);
    NewName(m);
  }

  lemma KeptReadable(m: Conns, id: int, rs: ResultSet)
    requires Sound(m) && CursorsReadable(m) && id in m.table && m.table[id].cursor.None? && rs.pos <= |rs.rows|
    ensures Sound(Kept(m, id, rs)) && CursorsReadable(Kept(m, id, rs))
  {
    KeptSound(m, id, rs);
    NewName(m);
  }

  /** Running a query keeps the ownership exact: a result opened is freed or becomes the one cursor. */
  lemma RunQuerySound(m: Conns, id: int, keep: bool, limit: int, offset: int, a: Answer, t: Trouble, jsonFails: bool)
    requires Sound(m) && CursorsReadable(m)
    ensures Sound(RunQuery(m, id, keep, limit, offset, a, t, jsonFails).0)
    ensures CursorsReadable(RunQuery(m, id, keep, limit, offset, a, t, jsonFails).0)
  {
    if id !in m.table { return; }
    SetCursorSound(m, id);
    var m1 := if keep then SetCursor(m, id, None) else m;
    assert Sound(m1) && CursorsReadable(m1) && id in m1.table;
    if a.result.None? { return; }
    var rs := ResultSet(a.result.value, 0);
    PassingReadable(m1, id, rs);
    if a.st == Success {
      var p := Materialized(rs, limit, offset, keep, t);
      if keep && p.st == Success && p.truncated {
        KeptReadable(m1, id, rs.(pos := p.pos));
      }
    }
  }

  lemma ReadOnSound(m: Conns, c: nat, rs: ResultSet)
    requires Sound(m) && CursorsReadable(m) && c in m.results && rs.pos <= |rs.rows|
    ensures var m' := m.(results := m.results[c := rs]); Sound(m') && CursorsReadable(m')
  {
  }

  lemma CursorDropSound(m: Conns, id: int)
    requires Sound(m) && CursorsReadable(m)
    ensures Sound(SetCursor(m, id, None)) && CursorsReadable(SetCursor(m, id, None))
  {
    SetCursorSound(m, id);
  }

  lemma NextPageSound(m: Conns, id: int, limit: int, t: Trouble, jsonFails: bool)
    requires Sound(m) && CursorsReadable(m)
    ensures var m' := NextPage(m, id, limit, t, jsonFails).0; Sound(m') && CursorsReadable(m')
  {
    if id in m.table && m.table[id].cursor.Some? {
      var c := m.table[id].cursor.value;
      ReadOnSound(m, c, m.results[c].(pos := OpenPage(m.results[c], limit, t).pos));
      CursorDropSound(m, id);
    }
  }

  // ---------------------------------------------------------------- the calls, as code

  /** `dbcore_query_open` and `dbcore_query_run`: execute, read the first page, keep or free the result. */
  method OpenOrRun(mgr: Manager, handle: nat, keep: bool, limit: int, offset: int, a: Answer, t: Trouble)
    returns (st: Status, page: Page, cursor: Option<nat>)
    requires mgr.Valid() && (keep ==> offset <= 0)
    modifies mgr`log, mgr`results
    ensures mgr.Valid()
    ensures var log1 := old(mgr.log) + [CursorOpened(|old(mgr.log)|, handle)];
            mgr.log == if a.result.None? then old(mgr.log)
                       else if cursor.Some? then log1
                       else log1 + [CursorFreed(|old(mgr.log)|)]
    ensures mgr.results == if a.result.None? then old(mgr.results)
                           else
                             var stands := if cursor.Some? then page.pos else 0;
                             old(mgr.results)[|old(mgr.log)| := ResultSet(a.result.value, stands)]
    ensures cursor.Some? ==> cursor == Some(|old(mgr.log)|)
    ensures if a.st != Success then st == a.st && cursor.None?
            else if a.result.None? then st == ErrQuery && cursor.None?
            else var want := Materialized(ResultSet(a.result.value, 0), limit, offset, keep, t);
                 && st == want.st && page.rows == want.rows && page.truncated == want.truncated
                 && (cursor.Some? <==> keep && st == Success && want.truncated)
                 && (cursor.Some? ==> page.pos == want.pos)
  {
    st, page, cursor := a.st, Page(ErrQuery, [], false, 0), None;
    if a.result.None? {
      if st == Success {
        st := ErrQuery;
      }
      return;
    }
    var name := |mgr.log|;
    var rs := ResultSet(a.result.value, 0);
    mgr.log := mgr.log + [CursorOpened(name, handle)];
    mgr.results := mgr.results[name := rs];
    var freed := true;
    if st == Success {
      page, freed := Materialize(rs, limit, offset, keep, t);
      st := page.st;
    }
    if freed {
      mgr.log := mgr.log + [CursorFreed(name)];
    } else {
      mgr.results := mgr.results[name := rs.(pos := page.pos)];
      cursor := Some(name);
    }
  }

  /** `ipc_method_query_run`, once its parameters were checked. */
  method QueryRun(mgr: Manager, id: int, keep: bool, limit: int, offset: int, a: Answer, t: Trouble, jsonFails: bool)
    returns (reply: Reply)
    requires mgr.Valid() && (keep ==> offset <= 0)
    modifies mgr, mgr.slots
    ensures mgr.Valid() && mgr.slots == old(mgr.slots)
    ensures (mgr.View(), reply) == RunQuery(old(mgr.View()), id, keep, limit, offset, a, t, jsonFails)
  {
    var ref := mgr.Get(id);
    if ref.None? {
      return Err(CodeNotFound);
    }
    if keep {
      var _ := mgr.StoreCursor(id, None);
    }
    var st, page, cursor := OpenOrRun(mgr, ref.value.1, keep, limit, offset, a, t);
    if st != Success {
      return Err(CodeOf(st));
    }
    if cursor.Some? {
      // the code's branch for a connection that went away meanwhile cannot be taken: only this thread closes one
      var found := mgr.StoreCursor(id, cursor);
      assert found;
    }
    reply := if jsonFails then Err(CodeInternal) else Rows(page.rows, page.truncated, cursor.Some?);
  }

  /** `dbcore_query_next` on the cursor taken, which goes back to the connection while it is alive. */
  method ReadOn(mgr: Manager, id: int, c: nat, limit: int, t: Trouble) returns (st: Status, rows: seq<Row>, open: bool)
    requires mgr.Valid() && id in mgr.table && mgr.table[id].cursor.None?
    requires c in mgr.results && mgr.results[c].pos <= |mgr.results[c].rows|
    modifies mgr, mgr.slots
    ensures mgr.Valid() && mgr.slots == old(mgr.slots) && mgr.nextId == old(mgr.nextId)
    ensures var want := OpenPage(old(mgr.results[c]), limit, t);
            && st == want.st && rows == want.rows && open == (st == Success && want.truncated)
            && mgr.log == (if open then old(mgr.log) else old(mgr.log) + [CursorFreed(c)])
            && mgr.results == (if open then old(mgr.results)[c := old(mgr.results[c]).(pos := want.pos)]
                               else old(mgr.results))
            && mgr.table == (if open then old(mgr.table)[id := old(mgr.table[id]).(cursor := Some(c))]
                             else old(mgr.table))
  {
    var page, freed := Materialize(mgr.results[c], limit, 0, true, t);
    if freed {
      mgr.log := mgr.log + [CursorFreed(c)];
    } else {
      mgr.results := mgr.results[c := mgr.results[c].(pos := page.pos)];
      var found := mgr.StoreCursor(id, Some(c));
      assert found;
    }
    return page.st, page.rows, !freed;
  }

  /** A cursor taken and put back leaves the entry as it was. */
  lemma TakenBack(table: map<int, Entry>, id: int)
    requires id in table
    ensures var taken := table[id := table[id].(cursor := None)];
            taken[id := taken[id].(cursor := table[id].cursor)] == table
  {
    var e := table[id];
    assert e.(cursor := None).(cursor := e.cursor) == e;
  }

  /** A page turn on a cursor, part by part. */
  lemma NextPageIs(m: Conns, m': Conns, id: int, limit: int, t: Trouble, jsonFails: bool)
    requires CursorsReadable(m) && id in m.table && m.table[id].cursor.Some? && m'.nextId == m.nextId
    requires var c := m.table[id].cursor.value;
             var p := OpenPage(m.results[c], limit, t);
             var open := p.st == Success && p.truncated;
             && m'.table == (if open then m.table else m.table[id := m.table[id].(cursor := None)])
             && m'.log == (if open then m.log else m.log + [CursorFreed(c)])
             && m'.results == if open then m.results[c := m.results[c].(pos := p.pos)] else m.results
    ensures var p := OpenPage(m.results[m.table[id].cursor.value], limit, t);
            var open := p.st == Success && p.truncated;
            NextPage(m, id, limit, t, jsonFails) ==
            (m', if p.st != Success then Err(CodeOf(p.st)) else Answered(Rows(p.rows, open, open), jsonFails))
  {
  }

  /** `ipc_method_query_next`, once its parameters were checked. */
  method QueryNext(mgr: Manager, id: int, limit: int, t: Trouble, jsonFails: bool) returns (reply: Reply)
    requires mgr.Valid() && CursorsReadable(mgr.View())
    modifies mgr, mgr.slots
    ensures mgr.Valid() && mgr.slots == old(mgr.slots)
    ensures (mgr.View(), reply) == NextPage(old(mgr.View()), id, limit, t, jsonFails)
  {
    var ref := mgr.Get(id);
    if ref.None? {
      return Err(CodeNotFound);
    }
    ghost var m := mgr.View();
    var cursor := mgr.Take(id);
    if cursor.None? {
      assert m.table[id := m.table[id].(cursor := None)] == m.table;
      return Err(CodeNotFound);
    }
    var st, rows, open := ReadOn(mgr, id, cursor.value, limit, t);
    TakenBack(m.table, id);
    NextPageIs(m, mgr.View(), id, limit, t, jsonFails);
    reply := if st != Success then Err(CodeOf(st)) else if jsonFails then Err(CodeInternal) else Rows(rows, open, open);
  }

  /** `ipc_method_query_cursor_close`, once its parameters were checked. */
  method QueryCursorClose(mgr: Manager, id: int, jsonFails: bool) returns (reply: Reply)
    requires mgr.Valid()
    modifies mgr, mgr.slots
    ensures mgr.Valid() && mgr.slots == old(mgr.slots)
    ensures (mgr.View(), reply) == CloseCursor(old(mgr.View()), id, jsonFails)
  {
    var ref := mgr.Get(id);
    if ref.None? {
      return Err(CodeNotFound);
    }
    var cursor := mgr.Take(id);
    if cursor.Some? {
      mgr.log := mgr.log + [CursorFreed(cursor.value)];
    }
    reply := if jsonFails then Err(CodeInternal) else CursorClosed(cursor.Some?);
  }
}
