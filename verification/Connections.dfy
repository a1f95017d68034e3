/** The open connections as a finite map from never-reused ids to what each one owns, and every call
    made to drivers and tunnels on their behalf as a log.  core/src/conn/manager.c refines this
    (module ConnManager); the resource rules are stated on the log, which knows no connections. */
module Connections {
  import opened Prelude

  /** `conn_slot` of a live connection.  Handles, tunnels and cursors are named by the length of the
      log at the moment they came into being, so no name is ever used twice. */
  datatype Entry = Entry(driver: nat, handle: nat, tunnel: Option<nat>, cursor: Option<nat>, inTx: bool)

  type Row = seq<Option<string>>

  /** A driver result: its rows and how many were fetched. */
  datatype ResultSet = ResultSet(rows: seq<Row>, pos: nat)

  datatype TxKind = Begin | Commit | Rollback

  datatype Event =
    | TunnelOpened(t: nat)
    | Connected(h: nat, via: Option<nat>)
    | CursorOpened(c: nat, h: nat)
    | CursorFreed(c: nat)
    | Disconnected(h: nat)
    | TunnelClosed(t: nat)
    | TxCalled(h: nat, kind: TxKind, status: Status)

  type Log = seq<Event>

  /** The connections, the id counter, the log, and the driver results by name. */
  datatype Conns = Conns(table: map<int, Entry>, nextId: int, log: Log, results: map<nat, ResultSet>)

  const NONE_OPEN := Conns(map[], 1, [], map[])

  // ---------------------------------------------------------------- the rules of the resources

  /** What is held at some point of a log: open tunnels, handles with the tunnel they ride, driver
      results with their handle, and the handles with a transaction begun through the core. */
  datatype Held = Held(tunnels: set<nat>, handles: map<nat, Option<nat>>, cursors: map<nat, nat>, inTx: set<nat>)

  const NOTHING := Held({}, map[], map[], {})

  /** May `e` happen as the n-th event when `r` is held? */
  predicate May(r: Held, n: nat, e: Event) {
    match e
    case TunnelOpened(t) => t == n
    case Connected(h, via) => h == n && (via.Some? ==> via.value in r.tunnels)
    case CursorOpened(c, h) => c == n && h in r.handles
    case CursorFreed(c) => c in r.cursors
    case Disconnected(h) => h in r.handles && h !in r.cursors.Values
    case TunnelClosed(t) => t in r.tunnels && Some(t) !in r.handles.Values
    case TxCalled(h, kind, st) => h in r.handles && (kind == Begin ==> h !in r.inTx)
  }

  /** A begin that succeeds opens the transaction; a commit that succeeds and any rollback end it. */
  function After(r: Held, e: Event): Held {
    match e
    case TunnelOpened(t) => r.(tunnels := r.tunnels + {t})
    case Connected(h, via) => r.(handles := r.handles[h := via])
    case CursorOpened(c, h) => r.(cursors := r.cursors[c := h])
    case CursorFreed(c) => r.(cursors := r.cursors - {c})
    case Disconnected(h) => r.(handles := r.handles - {h}, inTx := r.inTx - {h})
    case TunnelClosed(t) => r.(tunnels := r.tunnels - {t})
    case TxCalled(h, kind, st) =>
      if kind == Begin && st == Success then r.(inTx := r.inTx + {h})
      else if kind == Rollback || (kind == Commit && st == Success) then r.(inTx := r.inTx - {h})
      else r
  }

  /** What a whole log leaves held; None when it broke a rule. */
  function Replay(log: Log): Option<Held> {
    if log == [] then Some(NOTHING)
    else
      var r := Replay(log[..|log| - 1]);
      var e := log[|log| - 1];
      if r.Some? && May(r.value, |log| - 1, e) then Some(After(r.value, e)) else None
  }

  lemma ReplayAppend(log: Log, e: Event)
    ensures Replay(log + [e]) ==
            if Replay(log).Some? && May(Replay(log).value, |log|, e) then Some(After(Replay(log).value, e)) else None
  {
    assert (log + [e])[..|log|] == log;
  }

  // ---------------------------------------------------------------- ownership

  /** Every name held was issued, and a transaction is open on a live handle. */
  predicate Issued(r: Held, n: nat) {
    && (forall t <- r.tunnels :: t < n) && (forall h <- r.handles :: h < n)
    && (forall c <- r.cursors :: c < n) && (forall h <- r.inTx :: h in r.handles)
  }

  /** What an entry says it owns is held. */
  predicate EntryHeld(e: Entry, r: Held) {
    && e.handle in r.handles && r.handles[e.handle] == e.tunnel
    && (e.tunnel.Some? ==> e.tunnel.value in r.tunnels)
    && (e.cursor.Some? ==> e.cursor.value in r.cursors && r.cursors[e.cursor.value] == e.handle)
    && (e.inTx <==> e.handle in r.inTx)
  }

  /** No two entries share a handle or a tunnel. */
  predicate Apart(table: map<int, Entry>) {
    forall i <- table, j <- table | i != j ::
      && table[i].handle != table[j].handle
      && (table[i].tunnel.Some? ==> table[i].tunnel != table[j].tunnel)
  }

  ghost predicate HandlesOwned(table: map<int, Entry>, r: Held) {
    && (forall h <- r.handles :: exists i :: i in table && table[i].handle == h)
    && (forall t <- r.tunnels :: exists i :: i in table && table[i].tunnel == Some(t))
  }

  ghost predicate CursorsOwned(table: map<int, Entry>, cursors: map<nat, nat>) {
    forall c <- cursors :: exists i :: i in table && table[i].cursor == Some(c)
  }

  /** The held resources are exactly those the entries own, each by one entry. */
  ghost predicate Owns(table: map<int, Entry>, r: Held) {
    && Apart(table) && (forall i <- table :: EntryHeld(table[i], r))
    && HandlesOwned(table, r) && CursorsOwned(table, r.cursors)
  }

  ghost predicate Accounted(table: map<int, Entry>, log: Log) {
    Replay(log).Some? && Issued(Replay(log).value, |log|) && Owns(table, Replay(log).value)
  }

  predicate Numbered(table: map<int, Entry>, nextId: int) {
    nextId >= 1 && forall i <- table :: 1 <= i < nextId
  }

  /** The driver results of the stored cursors are among the known ones. */
  predicate Known(table: map<int, Entry>, results: map<nat, ResultSet>) {
    forall i <- table :: table[i].cursor.Some? ==> table[i].cursor.value in results
  }

  ghost predicate Sound(m: Conns) {
    Numbered(m.table, m.nextId) && Accounted(m.table, m.log) && Known(m.table, m.results)
  }

  // ---------------------------------------------------------------- the operations

  /** `set_in_tx`. */
  function SetInTx(m: Conns, id: int, open: bool): Conns {
    if id in m.table then m.(table := m.table[id := m.table[id].(inTx := open)]) else m
  }

  /** `set_cursor`: a different cursor already stored is freed. */
  function SetCursor(m: Conns, id: int, cursor: Option<nat>): Conns {
    if id !in m.table then m
    else
      var was := m.table[id].cursor;
      m.(table := m.table[id := m.table[id].(cursor := cursor)],
         log := if was.Some? && was != cursor then m.log + [CursorFreed(was.value)] else m.log)
  }

  /** `take_cursor`: the manager forgets the cursor without freeing it. */
  function TakeCursor(m: Conns, id: int): Conns {
    if id in m.table then m.(table := m.table[id := m.table[id].(cursor := None)]) else m
  }

  function TunnelDown(log: Log, tunnel: Option<nat>): Log {
    if tunnel.Some? then log + [TunnelClosed(tunnel.value)] else log
  }

  /** `release_slot`: cursor, handle, tunnel, in that order. */
  function ReleaseLog(log: Log, e: Entry): Log {
    var log1 := if e.cursor.Some? then log + [CursorFreed(e.cursor.value)] else log;
    TunnelDown(log1 + [Disconnected(e.handle)], e.tunnel)
  }

  /** `dbcore_conn_manager_close`. */
  function Close(m: Conns, id: int): Conns {
    if id in m.table then m.(table := m.table - {id}, log := ReleaseLog(m.log, m.table[id])) else m
  }

  /** How far an open got.  `tunnelled` says whether a tunnel was up by then. */
  datatype Opening =
    | NotAttempted
    | RewriteFailed
    | ConnectFailed(tunnelled: bool, leftHandle: bool)
    | NoHandle(tunnelled: bool)
    | NoSlot(tunnelled: bool)
    | Established(tunnelled: bool, driver: nat)

  function TunnelUp(log: Log, tunnelled: bool): Log {
    if tunnelled then log + [TunnelOpened(|log|)] else log
  }

  function TunnelName(log: Log, tunnelled: bool): Option<nat> {
    if tunnelled then Some(|log|) else None
  }

  /** `dbcore_conn_manager_open`, by how far it got. */
  function Open(m: Conns, how: Opening): Conns {
    match how
    case NotAttempted => m
    case RewriteFailed => m.(log := TunnelDown(TunnelUp(m.log, true), Some(|m.log|)))
    case ConnectFailed(tunnelled, leftHandle) =>
      var up := TunnelUp(m.log, tunnelled);
      var name := TunnelName(m.log, tunnelled);
      m.(log := TunnelDown(if leftHandle then up + [Connected(|up|, name)] + [Disconnected(|up|)] else up, name))
    case NoHandle(tunnelled) => m.(log := TunnelDown(TunnelUp(m.log, tunnelled), TunnelName(m.log, tunnelled)))
    case NoSlot(tunnelled) =>
      var up := TunnelUp(m.log, tunnelled);
      var name := TunnelName(m.log, tunnelled);
      m.(log := TunnelDown(up + [Connected(|up|, name)] + [Disconnected(|up|)], name))
    case Established(tunnelled, driver) =>
      var up := TunnelUp(m.log, tunnelled);
      var name := TunnelName(m.log, tunnelled);
      Conns(m.table[m.nextId := Entry(driver, |up|, name, None, false)], m.nextId + 1,
            up + [Connected(|up|, name)], m.results)
  }

  // ---------------------------------------------------------------- each keeps the ownership exact

  /** Handles and tunnels have the same owners in a table with the same handles and tunnels. */
  lemma SameOwners(table: map<int, Entry>, t': map<int, Entry>, r: Held, r': Held)
    requires Apart(table) && HandlesOwned(table, r) && r'.handles == r.handles && r'.tunnels == r.tunnels
    requires t'.Keys == table.Keys
    requires forall i <- table :: t'[i].handle == table[i].handle && t'[i].tunnel == table[i].tunnel
    ensures Apart(t') && HandlesOwned(t', r')
  {
    forall h | h in r'.handles
      ensures exists i :: i in t' && t'[i].handle == h
    {
      var i :| i in table && table[i].handle == h;
      assert i in t' && t'[i].handle == h;
    }
    forall t | t in r'.tunnels
      ensures exists i :: i in t' && t'[i].tunnel == Some(t)
    {
      var i :| i in table && table[i].tunnel == Some(t);
      assert i in t' && t'[i].tunnel == Some(t);
    }
  }

  /** The entry without its cursor, which none of the others has. */
  lemma FreedHeld(table: map<int, Entry>, r: Held, id: int, c: nat, i: int)
    requires Apart(table) && id in table && i in table && EntryHeld(table[i], r) && EntryHeld(table[id], r)
    requires table[id].cursor == Some(c)
    ensures EntryHeld(if i == id then table[id].(cursor := None) else table[i], r.(cursors := r.cursors - {c}))
  {
  }

  lemma FreedOwned(table: map<int, Entry>, cursors: map<nat, nat>, id: int)
    requires CursorsOwned(table, cursors) && id in table && table[id].cursor.Some?
    ensures CursorsOwned(table[id := table[id].(cursor := None)], cursors - {table[id].cursor.value})
  {
    var t', left := table[id := table[id].(cursor := None)], cursors - {table[id].cursor.value};
    forall c | c in left
      ensures exists i :: i in t' && t'[i].cursor == Some(c)
    {
      var i :| i in table && table[i].cursor == Some(c);
      assert i in t' && t'[i].cursor == Some(c);
    }
  }

  lemma FreedKeeps(table: map<int, Entry>, r: Held, id: int)
    requires Owns(table, r) && id in table && table[id].cursor.Some?
    ensures Owns(table[id := table[id].(cursor := None)], r.(cursors := r.cursors - {table[id].cursor.value}))
  {
    var c := table[id].cursor.value;
    var t', r' := table[id := table[id].(cursor := None)], r.(cursors := r.cursors - {c});
    SameOwners(table, t', r, r');
    FreedOwned(table, r.cursors, id);
    forall i | i in t'
      ensures EntryHeld(t'[i], r')
    {
      FreedHeld(table, r, id, c, i);
    }
  }

  lemma FreedIssued(r: Held, n: nat, c: nat)
    requires Issued(r, n)
    ensures Issued(r.(cursors := r.cursors - {c}), n + 1)
  {
  }

  lemma FreedAccounted(table: map<int, Entry>, log: Log, id: int)
    requires Accounted(table, log) && id in table && table[id].cursor.Some?
    ensures Accounted(table[id := table[id].(cursor := None)], log + [CursorFreed(table[id].cursor.value)])
  {
    var r, c := Replay(log).value, table[id].cursor.value;
    assert May(r, |log|, CursorFreed(c)) by {
      assert EntryHeld(table[id], r);
    }
    ReplayAppend(log, CursorFreed(c));
    FreedKeeps(table, r, id);
    FreedIssued(r, |log|, c);
  }

  lemma SetCursorSound(m: Conns, id: int)
    requires Sound(m)
    ensures Sound(SetCursor(m, id, None))
  {
    if id in m.table && m.table[id].cursor.None? {
      assert SetCursor(m, id, None) == m by {
        assert m.table[id := m.table[id].(cursor := None)] == m.table;
      }
    } else if id in m.table {
      FreedAccounted(m.table, m.log, id);
      assert Known(m.table[id := m.table[id].(cursor := None)], m.results);
    }
  }

  /** Nothing hangs on a connection without a cursor but its handle, and on its tunnel nothing but that. */
  lemma NothingHangs(table: map<int, Entry>, r: Held, id: int)
    requires Owns(table, r) && id in table && table[id].cursor.None?
    ensures var e := table[id];
            && e.handle in r.handles && e.handle !in r.cursors.Values
            && (e.tunnel.Some? ==> e.tunnel.value in r.tunnels && e.tunnel !in (r.handles - {e.handle}).Values)
  {
    var e := table[id];
    assert EntryHeld(e, r);
    forall c | c in r.cursors
      ensures r.cursors[c] != e.handle
    {
      var i :| i in table && table[i].cursor == Some(c);
      assert EntryHeld(table[i], r) && i != id;
    }
    forall h | h in r.handles && h != e.handle
      ensures e.tunnel.Some? ==> r.handles[h] != e.tunnel
    {
      var i :| i in table && table[i].handle == h;
      assert EntryHeld(table[i], r);
    }
  }

  function Released(r: Held, e: Entry): Held {
    Held(if e.tunnel.Some? then r.tunnels - {e.tunnel.value} else r.tunnels,
         r.handles - {e.handle}, r.cursors, r.inTx - {e.handle})
  }

  lemma ReleasedOwned(table: map<int, Entry>, r: Held, id: int)
    requires HandlesOwned(table, r) && CursorsOwned(table, r.cursors) && id in table && table[id].cursor.None?
    ensures HandlesOwned(table - {id}, Released(r, table[id])) && CursorsOwned(table - {id}, r.cursors)
  {
    var t', r' := table - {id}, Released(r, table[id]);
    forall h | h in r'.handles
      ensures exists i :: i in t' && t'[i].handle == h
    {
      var i :| i in table && table[i].handle == h;
      assert i in t' && t'[i].handle == h;
    }
    forall t | t in r'.tunnels
      ensures exists i :: i in t' && t'[i].tunnel == Some(t)
    {
      var i :| i in table && table[i].tunnel == Some(t);
      assert i in t' && t'[i].tunnel == Some(t);
    }
    forall c | c in r.cursors
      ensures exists i :: i in t' && t'[i].cursor == Some(c)
    {
      var i :| i in table && table[i].cursor == Some(c);
      assert i in t' && t'[i].cursor == Some(c);
    }
  }

  lemma ReleasedKeeps(table: map<int, Entry>, r: Held, id: int)
    requires Owns(table, r) && id in table && table[id].cursor.None?
    ensures Owns(table - {id}, Released(r, table[id]))
  {
    var t' := table - {id};
    ReleasedOwned(table, r, id);
    forall i | i in t'
      ensures EntryHeld(t'[i], Released(r, table[id]))
    {
      assert i in table && i != id && EntryHeld(table[i], r);
    }
  }

  lemma ReleasedHeld(log: Log, e: Entry)
    requires Replay(log).Some?
    requires var r := Replay(log).value;
             e.handle in r.handles && e.handle !in r.cursors.Values
             && (e.tunnel.Some? ==> e.tunnel.value in r.tunnels && e.tunnel !in (r.handles - {e.handle}).Values)
    ensures Replay(TunnelDown(log + [Disconnected(e.handle)], e.tunnel)) == Some(Released(Replay(log).value, e))
  {
    ReplayAppend(log, Disconnected(e.handle));
    if e.tunnel.Some? {
      ReplayAppend(log + [Disconnected(e.handle)], TunnelClosed(e.tunnel.value));
    }
  }

  lemma ReleasedAccounted(table: map<int, Entry>, log: Log, id: int)
    requires Accounted(table, log) && id in table && table[id].cursor.None?
    ensures var e := table[id];
            Accounted(table - {id}, TunnelDown(log + [Disconnected(e.handle)], e.tunnel))
  {
    var r := Replay(log).value;
    NothingHangs(table, r, id);
    ReleasedHeld(log, table[id]);
    ReleasedKeeps(table, r, id);
  }

  lemma CloseSound(m: Conns, id: int)
    requires Sound(m)
    ensures Sound(Close(m, id))
  {
    if id in m.table {
      SetCursorSound(m, id);
      var m1 := SetCursor(m, id, None);
      ReleasedAccounted(m1.table, m1.log, id);
      assert m1.table - {id} == m.table - {id};
    }
  }

  lemma HandleComesAndGoes(r: Held, n: nat, via: Option<nat>)
    requires (via.Some? ==> via.value in r.tunnels) && n !in r.handles && n !in r.cursors.Values && n !in r.inTx
    ensures May(r, n, Connected(n, via))
    ensures var r1 := After(r, Connected(n, via)); May(r1, n + 1, Disconnected(n)) && After(r1, Disconnected(n)) == r
  {
    assert r.handles[n := via] - {n} == r.handles && r.inTx - {n} == r.inTx;
  }

  /** A handle opened and disconnected at once leaves what is held as it was. */
  lemma HandlePasses(log: Log, via: Option<nat>)
    requires Replay(log).Some?
    requires var r := Replay(log).value;
             && (via.Some? ==> via.value in r.tunnels)
             && |log| !in r.handles && |log| !in r.cursors.Values && |log| !in r.inTx
    ensures Replay(log + [Connected(|log|, via)] + [Disconnected(|log|)]) == Replay(log)
  {
    HandleComesAndGoes(Replay(log).value, |log|, via);
    ReplayAppend(log, Connected(|log|, via));
    ReplayAppend(log + [Connected(|log|, via)], Disconnected(|log|));
  }

  lemma TunnelHeld(log: Log, tunnelled: bool)
    requires Replay(log).Some?
    ensures var r := Replay(log).value;
            Replay(TunnelUp(log, tunnelled)) == Some(if tunnelled then r.(tunnels := r.tunnels + {|log|}) else r)
  {
    ReplayAppend(log, TunnelOpened(|log|));
  }

  /** A tunnel that no handle rides comes down. */
  lemma TunnelReleased(log: Log, tunnel: Option<nat>, r: Held)
    requires tunnel.Some? ==> tunnel.value !in r.tunnels && forall h <- r.handles :: r.handles[h] != tunnel
    requires Replay(log) == Some(if tunnel.Some? then r.(tunnels := r.tunnels + {tunnel.value}) else r)
    ensures Replay(TunnelDown(log, tunnel)) == Some(r)
  {
    if tunnel.Some? {
      ReplayAppend(log, TunnelClosed(tunnel.value));
      assert r.tunnels + {tunnel.value} - {tunnel.value} == r.tunnels;
    }
  }

  lemma FreshTunnel(table: map<int, Entry>, log: Log)
    requires Accounted(table, log)
    ensures var r := Replay(log).value; |log| !in r.tunnels && forall h <- r.handles :: r.handles[h] != Some(|log|)
  {
    var r := Replay(log).value;
    forall h | h in r.handles
      ensures r.handles[h] != Some(|log|)
    {
      var i :| i in table && table[i].handle == h;
      assert EntryHeld(table[i], r);
    }
  }

  lemma FreshHandle(table: map<int, Entry>, log: Log, n: nat)
    requires Accounted(table, log) && n >= |log|
    ensures var r := Replay(log).value; n !in r.handles && n !in r.cursors.Values && n !in r.inTx
  {
    var r := Replay(log).value;
    forall c | c in r.cursors
      ensures r.cursors[c] != n
    {
      var i :| i in table && table[i].cursor == Some(c);
      assert EntryHeld(table[i], r);
    }
  }

  lemma TunnelPasses(table: map<int, Entry>, log: Log, tunnelled: bool)
    requires Accounted(table, log)
    ensures Replay(TunnelDown(TunnelUp(log, tunnelled), TunnelName(log, tunnelled))) == Replay(log)
  {
    TunnelHeld(log, tunnelled);
    FreshTunnel(table, log);
    TunnelReleased(TunnelUp(log, tunnelled), TunnelName(log, tunnelled), Replay(log).value);
  }

  lemma BothPass(table: map<int, Entry>, log: Log, tunnelled: bool)
    requires Accounted(table, log)
    ensures var up, name := TunnelUp(log, tunnelled), TunnelName(log, tunnelled);
            Replay(TunnelDown(up + [Connected(|up|, name)] + [Disconnected(|up|)], name)) == Replay(log)
  {
    var up, name := TunnelUp(log, tunnelled), TunnelName(log, tunnelled);
    TunnelHeld(log, tunnelled);
    FreshTunnel(table, log);
    FreshHandle(table, log, |up|);
    HandlePasses(up, name);
    TunnelReleased(up + [Connected(|up|, name)] + [Disconnected(|up|)], name, Replay(log).value);
  }

  /** An open that fails releases what it acquired: afterwards exactly the same is held as before. */
  lemma FailedOpenHoldsNothing(m: Conns, how: Opening)
    requires Sound(m) && !how.Established?
    ensures Replay(Open(m, how).log) == Replay(m.log)
    ensures Open(m, how).table == m.table && Open(m, how).nextId == m.nextId
  {
    match how
    case NotAttempted =>
    case RewriteFailed => TunnelPasses(m.table, m.log, true);
    case NoHandle(tunnelled) => TunnelPasses(m.table, m.log, tunnelled);
    case NoSlot(tunnelled) => BothPass(m.table, m.log, tunnelled);
    case ConnectFailed(tunnelled, leftHandle) =>
      if leftHandle {
        BothPass(m.table, m.log, tunnelled);
      } else {
        TunnelPasses(m.table, m.log, tunnelled);
      }
  }

  function Acquired(r: Held, handle: nat, tunnel: Option<nat>): Held {
    Held(if tunnel.Some? then r.tunnels + {tunnel.value} else r.tunnels, r.handles[handle := tunnel], r.cursors, r.inTx)
  }

  lemma ConnectedOwned(table: map<int, Entry>, r: Held, id: int, e: Entry)
    requires HandlesOwned(table, r) && CursorsOwned(table, r.cursors) && id !in table
    ensures HandlesOwned(table[id := e], Acquired(r, e.handle, e.tunnel)) && CursorsOwned(table[id := e], r.cursors)
  {
    var t', r' := table[id := e], Acquired(r, e.handle, e.tunnel);
    assert t'[id] == e;
    forall h | h in r'.handles && h != e.handle
      ensures exists i :: i in t' && t'[i].handle == h
    {
      var i :| i in table && table[i].handle == h;
      assert i in t' && t'[i].handle == h;
    }
    forall t | t in r.tunnels
      ensures exists i :: i in t' && t'[i].tunnel == Some(t)
    {
      var i :| i in table && table[i].tunnel == Some(t);
      assert i in t' && t'[i].tunnel == Some(t);
    }
    forall c | c in r.cursors
      ensures exists i :: i in t' && t'[i].cursor == Some(c)
    {
      var i :| i in table && table[i].cursor == Some(c);
      assert i in t' && t'[i].cursor == Some(c);
    }
  }

  lemma ConnectedApart(table: map<int, Entry>, r: Held, id: int, e: Entry)
    requires Owns(table, r) && id !in table && e.handle !in r.handles
    requires e.tunnel.Some? ==> e.tunnel.value !in r.tunnels
    ensures Apart(table[id := e])
  {
    forall i | i in table
      ensures table[i].handle != e.handle && (e.tunnel.Some? ==> table[i].tunnel != e.tunnel)
    {
      assert EntryHeld(table[i], r);
    }
  }

  lemma ConnectedKeeps(table: map<int, Entry>, r: Held, id: int, e: Entry)
    requires Owns(table, r) && id !in table && e.cursor.None? && !e.inTx
    requires e.handle !in r.handles && e.handle !in r.inTx
    requires e.tunnel.Some? ==> e.tunnel.value !in r.tunnels
    ensures Owns(table[id := e], Acquired(r, e.handle, e.tunnel))
  {
    var t' := table[id := e];
    ConnectedOwned(table, r, id, e);
    ConnectedApart(table, r, id, e);
    forall i | i in t'
      ensures EntryHeld(t'[i], Acquired(r, e.handle, e.tunnel))
    {
      assert i != id ==> EntryHeld(table[i], r);
    }
  }

  lemma OpenedHeld(table: map<int, Entry>, log: Log, tunnelled: bool)
    requires Accounted(table, log)
    ensures var r, up, name := Replay(log).value, TunnelUp(log, tunnelled), TunnelName(log, tunnelled);
            && |up| !in r.handles && |up| !in r.inTx && |log| !in r.tunnels
            && Replay(up + [Connected(|up|, name)]) == Some(Acquired(r, |up|, name))
  {
    var up := TunnelUp(log, tunnelled);
    TunnelHeld(log, tunnelled);
    FreshHandle(table, log, |up|);
    ReplayAppend(up, Connected(|up|, TunnelName(log, tunnelled)));
  }

  lemma ConnectedIssued(r: Held, was: nat, n: nat, h: nat, name: Option<nat>)
    requires Issued(r, was) && n > h >= was && (name.Some? ==> name.value < n)
    ensures Issued(Acquired(r, h, name), n)
  {
  }

  lemma ConnectedAccounted(table: map<int, Entry>, log: Log, id: int, tunnelled: bool, driver: nat)
    requires Accounted(table, log) && id !in table
    ensures var up, name := TunnelUp(log, tunnelled), TunnelName(log, tunnelled);
            Accounted(table[id := Entry(driver, |up|, name, None, false)], up + [Connected(|up|, name)])
  {
    var r, up, name := Replay(log).value, TunnelUp(log, tunnelled), TunnelName(log, tunnelled);
    OpenedHeld(table, log, tunnelled);
    ConnectedIssued(r, |log|, |up| + 1, |up|, name);
    ConnectedKeeps(table, r, id, Entry(driver, |up|, name, None, false));
  }

  lemma ConnectedKnown(table: map<int, Entry>, nextId: int, results: map<nat, ResultSet>, e: Entry)
    requires Numbered(table, nextId) && Known(table, results) && e.cursor.None?
    ensures Numbered(table[nextId := e], nextId + 1) && Known(table[nextId := e], results)
  {
  }

  lemma ConnectedSound(m: Conns, tunnelled: bool, driver: nat)
    requires Sound(m)
    ensures Sound(Open(m, Established(tunnelled, driver)))
  {
    var up, name := TunnelUp(m.log, tunnelled), TunnelName(m.log, tunnelled);
    var m' := Open(m, Established(tunnelled, driver));
    var e := Entry(driver, |up|, name, None, false);
    assert m' == Conns(m.table[m.nextId := e], m.nextId + 1, up + [Connected(|up|, name)], m.results);
    ConnectedAccounted(m.table, m.log, m.nextId, tunnelled, driver);
    ConnectedKnown(m.table, m.nextId, m.results, e);
  }

  lemma OpenKeepsSound(m: Conns, how: Opening)
    requires Sound(m)
    ensures Sound(Open(m, how))
  {
    if how.Established? {
      ConnectedSound(m, how.tunnelled, how.driver);
    } else {
      FailedOpenHoldsNothing(m, how);
      assert |Open(m, how).log| >= |m.log|;
    }
  }

  lemma EntersAlone(table: map<int, Entry>, nextId: int, e: Entry)
    requires Numbered(table, nextId)
    ensures nextId !in table && table[nextId := e].Keys == table.Keys + {nextId}
    ensures forall i <- table :: table[nextId := e][i] == table[i]
  {
  }

  /** A new connection enters under a new id, with no cursor and a clear flag, owning what it opened; those
      there were stay as they are. */
  lemma OpenSound(m: Conns, how: Opening)
    requires Sound(m)
    ensures Sound(Open(m, how))
    ensures how.Established? ==>
              var m', id := Open(m, how), m.nextId;
              && id !in m.table && m'.nextId == id + 1 && m'.table.Keys == m.table.Keys + {id}
              && (forall i <- m.table :: m'.table[i] == m.table[i])
              && m'.table[id].driver == how.driver && m'.table[id].cursor.None? && !m'.table[id].inTx
              && (m'.table[id].tunnel.Some? <==> how.tunnelled)
              && m'.table[id].handle !in Replay(m.log).value.handles
              && (m'.table[id].tunnel.Some? ==> m'.table[id].tunnel.value !in Replay(m.log).value.tunnels)
  {
    OpenKeepsSound(m, how);
    if how.Established? {
      OpenedHeld(m.table, m.log, how.tunnelled);
      EntersAlone(m.table, m.nextId, Entry(how.driver, |TunnelUp(m.log, how.tunnelled)|,
                                           TunnelName(m.log, how.tunnelled), None, false));
    }
  }

  // ---------------------------------------------------------------- queries and transactions

  /** A driver result opened and freed within one call. */
  function Passing(m: Conns, id: int, rs: ResultSet): Conns
    requires id in m.table
  {
    m.(log := m.log + [CursorOpened(|m.log|, m.table[id].handle)] + [CursorFreed(|m.log|)],
       results := m.results[|m.log| := rs])
  }

  lemma PassingHeld(log: Log, h: nat)
    requires Replay(log).Some? && h in Replay(log).value.handles && |log| !in Replay(log).value.cursors
    ensures Replay(log + [CursorOpened(|log|, h)] + [CursorFreed(|log|)]) == Replay(log)
  {
    var r := Replay(log).value;
    ReplayAppend(log, CursorOpened(|log|, h));
    ReplayAppend(log + [CursorOpened(|log|, h)], CursorFreed(|log|));
    assert r.cursors[|log| := h] - {|log|} == r.cursors;
  }

  lemma PassingSound(m: Conns, id: int, rs: ResultSet)
    requires Sound(m) && id in m.table
    ensures Sound(Passing(m, id, rs)) && Replay(Passing(m, id, rs).log) == Replay(m.log)
  {
    assert EntryHeld(m.table[id], Replay(m.log).value);
    PassingHeld(m.log, m.table[id].handle);
  }

  /** A driver result opened and kept as the connection's cursor, which has none. */
  function Kept(m: Conns, id: int, rs: ResultSet): Conns
    requires id in m.table
  {
    m.(log := m.log + [CursorOpened(|m.log|, m.table[id].handle)], results := m.results[|m.log| := rs],
       table := m.table[id := m.table[id].(cursor := Some(|m.log|))])
  }

  lemma KeptHeld(table: map<int, Entry>, r: Held, id: int, c: nat, i: int)
    requires Owns(table, r) && id in table && table[id].cursor.None? && c !in r.cursors && i in table
    ensures EntryHeld(if i == id then table[id].(cursor := Some(c)) else table[i],
                      r.(cursors := r.cursors[c := table[id].handle]))
  {
    assert EntryHeld(table[i], r);
  }

  lemma KeptOwned(table: map<int, Entry>, cursors: map<nat, nat>, id: int, c: nat)
    requires CursorsOwned(table, cursors) && id in table && table[id].cursor.None?
    ensures CursorsOwned(table[id := table[id].(cursor := Some(c))], cursors[c := table[id].handle])
  {
    var t' := table[id := table[id].(cursor := Some(c))];
    assert t'[id].cursor == Some(c);
    forall d | d in cursors && d != c
      ensures exists i :: i in t' && t'[i].cursor == Some(d)
    {
      var i :| i in table && table[i].cursor == Some(d);
      assert i in t' && t'[i].cursor == Some(d);
    }
  }

  lemma KeptKeeps(table: map<int, Entry>, r: Held, id: int, c: nat)
    requires Owns(table, r) && id in table && table[id].cursor.None? && c !in r.cursors
    ensures Owns(table[id := table[id].(cursor := Some(c))], r.(cursors := r.cursors[c := table[id].handle]))
  {
    var t', r' := table[id := table[id].(cursor := Some(c))], r.(cursors := r.cursors[c := table[id].handle]);
    SameOwners(table, t', r, r');
    KeptOwned(table, r.cursors, id, c);
    forall i | i in t'
      ensures EntryHeld(t'[i], r')
    {
      KeptHeld(table, r, id, c, i);
    }
  }

  lemma KeptAccounted(table: map<int, Entry>, log: Log, id: int)
    requires Accounted(table, log) && id in table && table[id].cursor.None?
    ensures Accounted(table[id := table[id].(cursor := Some(|log|))], log + [CursorOpened(|log|, table[id].handle)])
  {
    var r := Replay(log).value;
    assert EntryHeld(table[id], r);
    ReplayAppend(log, CursorOpened(|log|, table[id].handle));
    KeptKeeps(table, r, id, |log|);
  }

  lemma KeptSound(m: Conns, id: int, rs: ResultSet)
    requires Sound(m) && id in m.table && m.table[id].cursor.None?
    ensures Sound(Kept(m, id, rs))
  {
    KeptAccounted(m.table, m.log, id);
    assert Known(Kept(m, id, rs).table, Kept(m, id, rs).results);
  }

  /** What `tx_dispatch` does with the flag once the engine answered `st`. */
  function FlagAfter(was: bool, kind: TxKind, st: Status): bool {
    if kind == Rollback || st == Success then kind == Begin else was
  }

  /** A transaction call that was made, and the flag after it. */
  function TxDone(m: Conns, id: int, kind: TxKind, st: Status): Conns
    requires id in m.table
  {
    m.(log := m.log + [TxCalled(m.table[id].handle, kind, st)],
       table := m.table[id := m.table[id].(inTx := FlagAfter(m.table[id].inTx, kind, st))])
  }

  lemma TxEntryHeld(table: map<int, Entry>, r: Held, id: int, open: bool, i: int)
    requires Owns(table, r) && id in table && i in table
    ensures var h := table[id].handle;
            EntryHeld(if i == id then table[id].(inTx := open) else table[i],
                      r.(inTx := if open then r.inTx + {h} else r.inTx - {h}))
  {
    assert EntryHeld(table[i], r);
  }

  lemma TxCursorsOwned(table: map<int, Entry>, cursors: map<nat, nat>, id: int, open: bool)
    requires CursorsOwned(table, cursors) && id in table
    ensures CursorsOwned(table[id := table[id].(inTx := open)], cursors)
  {
    var t' := table[id := table[id].(inTx := open)];
    forall c | c in cursors
      ensures exists i :: i in t' && t'[i].cursor == Some(c)
    {
      var i :| i in table && table[i].cursor == Some(c);
      assert i in t' && t'[i].cursor == Some(c);
    }
  }

  lemma TxKeeps(table: map<int, Entry>, r: Held, id: int, open: bool)
    requires Owns(table, r) && id in table
    ensures var h := table[id].handle;
            Owns(table[id := table[id].(inTx := open)], r.(inTx := if open then r.inTx + {h} else r.inTx - {h}))
  {
    var h := table[id].handle;
    var t', r' := table[id := table[id].(inTx := open)], r.(inTx := if open then r.inTx + {h} else r.inTx - {h});
    SameOwners(table, t', r, r');
    TxCursorsOwned(table, r.cursors, id, open);
    forall i | i in t'
      ensures EntryHeld(t'[i], r')
    {
      TxEntryHeld(table, r, id, open, i);
    }
  }

  lemma TxHeld(r: Held, n: nat, h: nat, kind: TxKind, st: Status)
    requires h in r.handles && (kind == Begin ==> h !in r.inTx)
    ensures May(r, n, TxCalled(h, kind, st))
    ensures After(r, TxCalled(h, kind, st))
         == r.(inTx := if FlagAfter(h in r.inTx, kind, st) then r.inTx + {h} else r.inTx - {h})
  {
    assert h in r.inTx ==> r.inTx + {h} == r.inTx;
    assert h !in r.inTx ==> r.inTx - {h} == r.inTx;
  }

  lemma TxAccounted(table: map<int, Entry>, log: Log, id: int, kind: TxKind, st: Status)
    requires Accounted(table, log) && id in table && (kind == Begin ==> !table[id].inTx)
    ensures Accounted(table[id := table[id].(inTx := FlagAfter(table[id].inTx, kind, st))],
                      log + [TxCalled(table[id].handle, kind, st)])
  {
    var r, h := Replay(log).value, table[id].handle;
    assert EntryHeld(table[id], r);
    TxHeld(r, |log|, h, kind, st);
    ReplayAppend(log, TxCalled(h, kind, st));
    TxKeeps(table, r, id, FlagAfter(table[id].inTx, kind, st));
  }

  lemma TxSound(m: Conns, id: int, kind: TxKind, st: Status)
    requires Sound(m) && id in m.table && (kind == Begin ==> !m.table[id].inTx)
    ensures Sound(TxDone(m, id, kind, st))
  {
    TxAccounted(m.table, m.log, id, kind, st);
    assert Known(TxDone(m, id, kind, st).table, m.results);
  }
}
