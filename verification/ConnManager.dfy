/** core/src/conn/manager.c: the growable array of slots, which refines the map of module Connections. */
module ConnManager {
  import opened Prelude
  import opened Connections
  import opened Heap
  import Json
  import SshConfig

  /** `conn_slot`; id 0 is a free slot. */
  datatype Slot = Slot(id: int, driver: nat, handle: nat, tunnel: Option<nat>, cursor: Option<nat>, inTx: bool)

  const FREE_SLOT := Slot(0, 0, 0, None, None, false)

  function EntryOf(s: Slot): Entry {
    Entry(s.driver, s.handle, s.tunnel, s.cursor, s.inTx)
  }

  /** The live slots are the table, each at the place `at` says. */
  ghost predicate Tracks(slots: seq<Slot>, table: map<int, Entry>, at: map<int, nat>) {
    && at.Keys == table.Keys
    && (forall id <- at :: id > 0 && at[id] < |slots| && slots[at[id]].id == id && EntryOf(slots[at[id]]) == table[id])
    && (forall k | 0 <= k < |slots| && slots[k].id != 0 :: slots[k].id in at && at[slots[k].id] == k)
  }

  lemma TracksSet(slots: seq<Slot>, table: map<int, Entry>, at: map<int, nat>, k: nat, s: Slot)
    requires Tracks(slots, table, at) && k < |slots| && slots[k].id != 0 && s.id == slots[k].id
    ensures Tracks(slots[k := s], table[s.id := EntryOf(s)], at)
  {
  }

  lemma TracksFree(slots: seq<Slot>, table: map<int, Entry>, at: map<int, nat>, k: nat, s: Slot)
    requires Tracks(slots, table, at) && k < |slots| && slots[k].id != 0 && s.id == 0
    ensures Tracks(slots[k := s], table - {slots[k].id}, at - {slots[k].id})
  {
  }

  lemma TracksAdd(slots: seq<Slot>, table: map<int, Entry>, at: map<int, nat>, k: nat, s: Slot)
    requires Tracks(slots, table, at) && k < |slots| && slots[k].id == 0 && s.id > 0 && s.id !in table
    ensures Tracks(slots[k := s], table[s.id := EntryOf(s)], at[s.id := k])
  {
  }

  lemma TracksGrow(slots: seq<Slot>, table: map<int, Entry>, at: map<int, nat>, more: nat)
    requires Tracks(slots, table, at)
    ensures Tracks(slots + seq(more, _ => FREE_SLOT), table, at)
  {
    var grown := slots + seq(more, _ => FREE_SLOT);
    assert forall k | 0 <= k < |slots| :: grown[k] == slots[k];
  }

  lemma NoLiveSlot(slots: seq<Slot>, table: map<int, Entry>, at: map<int, nat>)
    requires Tracks(slots, table, at) && forall k | 0 <= k < |slots| :: slots[k].id == 0
    ensures table == map[]
  {
    assert forall id :: id !in table;
    assert table.Keys == {};
  }

  /** What the driver's `connect` and the allocations answer during one open. */
  datatype OpenAnswers = OpenAnswers(
    unsupported: bool, tunnel: Status, connect: Status, handleReturned: bool, growFails: bool)

  /** `ssh_tunnel_open`, as far as its caller can tell: its argument check, then what the network says. */
  method SshTunnelOpen(cfg: SshConfig.Config, answer: Status) returns (st: Status)
    ensures cfg.Openable() ==> st == answer
  {
    if cfg.host.Unset? || cfg.user.Unset? || cfg.targetHost.Unset? {
      return ErrParam;
    }
    return answer;
  }

  /** How an open that gets to `connect` ends, given whether a slot could be had. */
  function Attempt(tunnelled: bool, driver: nat, a: OpenAnswers, slotHad: bool): Opening {
    if a.connect != Success then ConnectFailed(tunnelled, a.handleReturned)
    else if !a.handleReturned then NoHandle(tunnelled)
    else if !slotHad then NoSlot(tunnelled)
    else Established(tunnelled, driver)
  }

  function AttemptStatus(a: OpenAnswers, slotHad: bool): Status {
    if a.connect != Success then a.connect
    else if !a.handleReturned then ErrParam
    else if !slotHad then ErrNoMem
    else Success
  }

  /** How an open ends when no string allocation fails. */
  function Expected(dsn: Option<Json.Json>, driver: nat, a: OpenAnswers, slotHad: bool): (Opening, Status) {
    match SshConfig.Asked(dsn)
    case Invalid => (NotAttempted, ErrParam)
    case Direct => (Attempt(false, driver, a, slotHad), AttemptStatus(a, slotHad))
    case Tunnel(_) =>
      if a.unsupported then (NotAttempted, ErrParam)
      else if a.tunnel != Success then (NotAttempted, a.tunnel)
      else (Attempt(true, driver, a, slotHad), AttemptStatus(a, slotHad))
  }

  lemma CloseOnlyAdds(m: Conns, id: int)
    ensures m.log <= Close(m, id).log
  {
  }

  /** Without connections nothing is held. */
  lemma NothingHeld(m: Conns)
    requires Sound(m) && m.table == map[]
    ensures Replay(m.log) == Some(NOTHING)
  {
    var r := Replay(m.log).value;
    assert r.handles.Keys == {} && r.tunnels == {} && r.cursors.Keys == {};
    assert forall h <- r.inTx :: h in r.handles;
    assert r.inTx == {};
  }

  /** `dbcore_conn_manager`, with the calls it made and the driver results behind its cursors. */
  class Manager {
    var slots: array<Slot>
    var nextId: int
    ghost var table: map<int, Entry>
    ghost var at: map<int, nat>
    var log: Log
    var results: map<nat, ResultSet>

    ghost function View(): Conns
      reads this
    {
      Conns(table, nextId, log, results)
    }

    ghost predicate Valid()
      reads this, slots
    {
      && nextId >= 1 && Tracks(slots[..], table, at)
      && (forall id <- table :: id < nextId)
    }

    constructor ()
      ensures Valid() && View() == NONE_OPEN && fresh(slots)
    {
      slots := new Slot[0];
      nextId, table, at, log, results := 1, map[], map[], [], map[];
    }

    /** `find_slot`: the place of a live connection, or -1. */
    method FindSlot(id: int) returns (i: int)
      requires Valid()
      ensures if id in table then i == at[id] && slots[i].id == id else i == -1
    {
      if id <= 0 {
        return -1;
      }
      i := 0;
      while i < slots.Length
        invariant 0 <= i <= slots.Length
        invariant id in table ==> i <= at[id]
      {
        if slots[i].id == id {
          return;
        }
        i := i + 1;
      }
      return -1;
    }

    /** `acquire_slot`: a free place, in an array that may have been moved; -1 when it could not grow. */
    method AcquireSlot(growFails: bool) returns (i: int)
      requires Valid()
      modifies this`slots
      ensures Valid() && (slots == old(slots) || fresh(slots))
      ensures i >= -1 && (i == -1 ==> growFails)
      ensures i >= 0 ==> i < slots.Length && slots[i].id == 0
    {
      i := 0;
      while i < slots.Length
        invariant 0 <= i <= slots.Length
      {
        if slots[i].id == 0 {
          return;
        }
        i := i + 1;
      }
      if growFails {
        return -1;
      }
      var cap := slots.Length;
      var newCap := if cap == 0 then 4 else cap * 2;
      var src := slots;
      var grown := new Slot[newCap](k requires 0 <= k reads src => if k < src.Length then src[k] else FREE_SLOT);
      assert grown[..] == slots[..] + seq(newCap - cap, _ => FREE_SLOT);
      TracksGrow(slots[..], table, at, newCap - cap);
      slots := grown;
      return cap;
    }

    /** `release_slot`: the cursor, the handle, the tunnel; then the slot is free. */
    method ReleaseSlot(i: nat)
      requires Valid() && i < slots.Length && slots[i].id != 0
      modifies this, slots
      ensures Valid() && View() == Close(old(View()), old(slots[i].id)) && slots == old(slots)
      ensures forall k | 0 <= k < slots.Length && k != i :: slots[k] == old(slots[k])
      ensures slots[i].id == 0
    {
      ghost var before, id := slots[..], slots[i].id;
      if slots[i].cursor.Some? {
        log := log + [CursorFreed(slots[i].cursor.value)];
        slots[i] := slots[i].(cursor := None);
      }
      log := log + [Disconnected(slots[i].handle)];
      if slots[i].tunnel.Some? {
        log := log + [TunnelClosed(slots[i].tunnel.value)];
      }
      slots[i] := slots[i].(id := 0, driver := 0, handle := 0, tunnel := None);
      TracksFree(before, table, at, i, slots[i]);
      assert slots[..] == before[i := slots[i]];
      table, at := table - {id}, at - {id};
    }

    /** `dbcore_conn_manager_close`. */
    method CloseConn(id: int) returns (st: Status)
      requires Valid()
      modifies this, slots
      ensures Valid() && View() == Close(old(View()), id) && slots == old(slots)
      ensures st == if id in old(table) then Success else ErrParam
    {
      var i := FindSlot(id);
      if i < 0 {
        return ErrParam;
      }
      ReleaseSlot(i);
      return Success;
    }

    /** `ssh_tunnel_close`; NULL is a no-op. */
    method CloseTunnel(tunnel: Option<nat>)
      modifies this`log
      ensures log == TunnelDown(old(log), tunnel)
    {
      if tunnel.Some? {
        log := log + [TunnelClosed(tunnel.value)];
      }
    }

    /** The tunnel is up: point the DSN at its local end, or close it again. */
    method Rewrite(heap: Allocator, cfg: SshConfig.Config) returns (st: Status, rewritten: Ptr)
      requires heap.Valid() && Heap.Owned(cfg.Ptrs(), heap.live)
      modifies this`log, heap
      ensures heap.Valid() && Heap.Owned(cfg.Ptrs(), heap.live)
      ensures heap.live == old(heap.live) + Addr(rewritten) && Addr(rewritten) !! old(heap.live)
      ensures st == Success <==> rewritten.At?
      ensures st == Success ==> heap.failures == old(heap.failures) && log == TunnelUp(old(log), true)
      ensures st != Success ==> st == ErrNoMem && heap.failures > old(heap.failures)
                                && log == TunnelDown(TunnelUp(old(log), true), Some(|old(log)|))
    {
      log := log + [TunnelOpened(|log|)];
      rewritten := heap.Copy("dsn at the local port");
      OwnedAddrs(cfg.Ptrs(), old(heap.live));
      OwnedWithin(cfg.Ptrs(), old(heap.live), heap.live);
      st := Success;
      if rewritten.Unset? {
        CloseTunnel(Some(|log| - 1));
        st := ErrNoMem;
      }
    }

    /** `dbcore_conn_manager_open`, up to the driver's connect: parse, tunnel, rewrite, dispose. */
    method Prepare(heap: Allocator, dsn: Option<Json.Json>, a: OpenAnswers)
      returns (st: Status, tunnelled: bool, rewritten: Ptr, ghost how: Opening)
      requires heap.Valid()
      modifies this`log, heap
      ensures heap.Valid() && heap.failures >= old(heap.failures)
      ensures heap.failures > old(heap.failures) ==> st == ErrNoMem
      ensures st == Success ==> heap.failures == old(heap.failures) && log == TunnelUp(old(log), tunnelled)
      ensures st == Success ==> heap.live == old(heap.live) + Addr(rewritten) && Addr(rewritten) !! old(heap.live)
      ensures st == Success ==> if tunnelled then SshConfig.Asked(dsn).Tunnel? && !a.unsupported && a.tunnel == Success
                                else SshConfig.Asked(dsn).Direct?
      ensures st != Success ==> heap.live == old(heap.live) && (how == NotAttempted || how == RewriteFailed)
      ensures st != Success ==> log == Open(old(View()), how).log
      ensures st != Success && heap.failures == old(heap.failures) ==>
                how == NotAttempted &&
                if SshConfig.Asked(dsn).Tunnel? then st == (if a.unsupported then ErrParam else a.tunnel)
                else SshConfig.Asked(dsn).Invalid? && st == ErrParam
    {
      tunnelled, rewritten, how := false, Unset, NotAttempted;
      ghost var live0 := heap.live;
      var cfg := new SshConfig.Config();
      st := cfg.Parse(heap, dsn);
      if st != Success {
        return;
      }
      OwnedAddrs(cfg.Ptrs(), heap.live);
      if cfg.present {
        if a.unsupported {
          st := ErrParam;
        } else {
          st := SshTunnelOpen(cfg, a.tunnel);
        }
        if st != Success {
          cfg.Dispose(heap);
          return;
        }
        tunnelled := true;
        st, rewritten := Rewrite(heap, cfg);
        how := if st == Success then NotAttempted else RewriteFailed;
      }
      cfg.Dispose(heap);
    }

    /** The connected handle gets a slot and the next id; 0 when there is no slot to be had. */
    method Register(driver: nat, handle: nat, tunnel: Option<nat>, growFails: bool) returns (id: int)
      requires Valid() && nextId < INT_MAX
      modifies this`slots, this`nextId, this`table, this`at, slots
      ensures Valid() && (slots == old(slots) || fresh(slots))
      ensures id == 0 || id == old(nextId)
      ensures id == 0 ==> growFails && table == old(table) && nextId == old(nextId)
      ensures id > 0 ==> table == old(table)[id := Entry(driver, handle, tunnel, None, false)] && nextId == id + 1
    {
      var i := AcquireSlot(growFails);
      if i < 0 {
        return 0;
      }
      var s := Slot(nextId, driver, handle, tunnel, None, false);
      TracksAdd(slots[..], table, at, i, s);
      slots[i] := s;
      table, at := table[nextId := EntryOf(s)], at[nextId := i];
      id := nextId;
      nextId := nextId + 1;
    }

    /** The rest of it: connect, and take a slot for the handle. */
    method ConnectAndKeep(driver: nat, tunnelled: bool, ghost log0: Log, a: OpenAnswers)
      returns (st: Status, id: int, ghost how: Opening, ghost slotHad: bool)
      requires Valid() && nextId < INT_MAX && log == TunnelUp(log0, tunnelled)
      modifies this, slots
      ensures Valid() && View() == Open(old(View()).(log := log0), how)
      ensures how == Attempt(tunnelled, driver, a, slotHad) && st == AttemptStatus(a, slotHad)
      ensures !slotHad ==> a.growFails
      ensures id == if st == Success then old(nextId) else 0
      ensures slots == old(slots) || fresh(slots)
    {
      id, slotHad, st := 0, true, a.connect;
      how := Attempt(tunnelled, driver, a, true);
      var tunnel := if tunnelled then Some(|log| - 1) else None;
      var handle := |log|;
      if a.handleReturned {
        log := log + [Connected(handle, tunnel)];
      }
      if st != Success {
        if a.handleReturned {
          log := log + [Disconnected(handle)];
        }
        CloseTunnel(tunnel);
        return;
      }
      if !a.handleReturned {
        CloseTunnel(tunnel);
        st := ErrParam;
        return;
      }
      id := Register(driver, handle, tunnel, a.growFails);
      if id == 0 {
        log := log + [Disconnected(handle)];
        CloseTunnel(tunnel);
        slotHad, how, st := false, NoSlot(tunnelled), ErrNoMem;
      }
    }

    /** `dbcore_conn_manager_open`.  Every exit leaves the heap as it was and the log as `how` says; a DSN
        that asks for a tunnel is never connected without one, whichever allocation fails. */
    method OpenConn(heap: Allocator, driver: nat, dsn: Option<Json.Json>, a: OpenAnswers)
      returns (st: Status, id: int, ghost how: Opening, ghost slotHad: bool)
      requires Valid() && heap.Valid() && nextId < INT_MAX
      modifies this, slots, heap
      ensures Valid() && heap.Valid() && heap.live == old(heap.live) && (slots == old(slots) || fresh(slots))
      ensures View() == Open(old(View()), how)
      ensures st == Success <==> how.Established?
      ensures id == if st == Success then old(nextId) else 0
      ensures heap.failures == old(heap.failures) ==> (how, st) == Expected(dsn, driver, a, slotHad)
      ensures heap.failures > old(heap.failures) ==> st == ErrNoMem && (how == NotAttempted || how == RewriteFailed)
      ensures !slotHad ==> a.growFails
      ensures SshConfig.Asked(dsn).Tunnel? ==> how.NotAttempted? || how.RewriteFailed? || how.tunnelled
    {
      id, slotHad := 0, true;
      ghost var log0 := log;
      var tunnelled, rewritten;
      st, tunnelled, rewritten, how := Prepare(heap, dsn, a);
      if st != Success {
        return;
      }
      st, id, how, slotHad := ConnectAndKeep(driver, tunnelled, log0, a);
      heap.Free(rewritten);
    }

    /** `dbcore_conn_manager_get`. */
    method Get(id: int) returns (ref: Option<(nat, nat)>)
      requires Valid()
      ensures ref == if id in table then Some((table[id].driver, table[id].handle)) else None
    {
      var i := FindSlot(id);
      return if i < 0 then None else Some((slots[i].driver, slots[i].handle));
    }

    /** `dbcore_conn_manager_set_in_tx`. */
    method SetTx(id: int, open: bool) returns (found: bool)
      requires Valid()
      modifies this, slots
      ensures Valid() && View() == SetInTx(old(View()), id, open) && slots == old(slots)
      ensures found == (id in old(table))
    {
      var i := FindSlot(id);
      found := i >= 0;
      if found {
        TracksSet(slots[..], table, at, i, slots[i].(inTx := open));
        slots[i] := slots[i].(inTx := open);
        table := table[id := EntryOf(slots[i])];
      }
    }

    /** `dbcore_conn_manager_in_tx`. */
    method InTx(id: int) returns (open: bool)
      requires Valid()
      ensures open == (id in table && table[id].inTx)
    {
      var i := FindSlot(id);
      open := i >= 0 && slots[i].inTx;
    }

    /** `dbcore_conn_manager_set_cursor`. */
    method StoreCursor(id: int, cursor: Option<nat>) returns (found: bool)
      requires Valid()
      modifies this, slots
      ensures Valid() && View() == SetCursor(old(View()), id, cursor) && slots == old(slots)
      ensures found == (id in old(table))
    {
      var i := FindSlot(id);
      found := i >= 0;
      if found {
        if slots[i].cursor.Some? && slots[i].cursor != cursor {
          log := log + [CursorFreed(slots[i].cursor.value)];
        }
        TracksSet(slots[..], table, at, i, slots[i].(cursor := cursor));
        slots[i] := slots[i].(cursor := cursor);
        table := table[id := EntryOf(slots[i])];
      }
    }

    /** `dbcore_conn_manager_take_cursor`. */
    method Take(id: int) returns (cursor: Option<nat>)
      requires Valid()
      modifies this, slots
      ensures Valid() && View() == TakeCursor(old(View()), id) && slots == old(slots)
      ensures cursor == if id in old(table) then old(table)[id].cursor else None
    {
      var i := FindSlot(id);
      if i < 0 {
        return None;
      }
      cursor := slots[i].cursor;
      TracksSet(slots[..], table, at, i, slots[i].(cursor := None));
      slots[i] := slots[i].(cursor := None);
      table := table[id := EntryOf(slots[i])];
    }

    method FreeSlot(i: nat)
      requires Valid() && Sound(View()) && i < slots.Length && slots[i].id != 0
      modifies this, slots
      ensures Valid() && Sound(View()) && slots == old(slots) && old(log) <= log
      ensures slots[i].id == 0 && forall k | 0 <= k < slots.Length && k != i :: slots[k] == old(slots[k])
    {
      CloseSound(View(), slots[i].id);
      CloseOnlyAdds(View(), slots[i].id);
      ReleaseSlot(i);
    }

    /** `dbcore_conn_manager_free`: nothing is held afterwards. */
    method FreeAll()
      requires Valid() && Sound(View())
      modifies this, slots
      ensures table == map[] && Replay(log) == Some(NOTHING) && old(log) <= log
    {
      var i := 0;
      while i < slots.Length
        invariant 0 <= i <= slots.Length && Valid() && Sound(View()) && slots == old(slots) && old(log) <= log
        invariant forall k | 0 <= k < i :: slots[k].id == 0
      {
        if slots[i].id != 0 {
          FreeSlot(i);
        }
        i := i + 1;
      }
      NoLiveSlot(slots[..], table, at);
      NothingHeld(View());
    }
  }
}
