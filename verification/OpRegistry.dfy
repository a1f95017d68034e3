/** core/src/query/op_registry.c: the fixed table behind op.cancel, refining a map from connection id
    to the running query.  Every method runs under the table's lock. */
module OpRegistry {
  import opened Prelude

  /** A driver handle, and whether its driver has a cancel hook. */
  datatype Ref = Ref(handle: nat, cancels: bool)

  const OP_SLOTS: nat := 64

  /** `dbcore_op_begin`: tracked unless the table is full. */
  function Begin(entries: map<int, Ref>, conn: int, ref: Ref): map<int, Ref> {
    if conn in entries || |entries| < OP_SLOTS then entries[conn := ref] else entries
  }

  /** Whether `dbcore_op_cancel` reaches a driver's hook. */
  predicate Hits(entries: map<int, Ref>, conn: int) {
    conn in entries && entries[conn].cancels
  }

  /** What `dbcore_op_cancel` returns when the hook, if reached, answers `hook`. */
  function CancelStatus(entries: map<int, Ref>, conn: int, hook: Status): Status {
    if conn !in entries then ErrParam else if entries[conn].cancels then hook else ErrUnsupported
  }

  // ---------------------------------------------------------------- what cancel finds, by what was begun and ended

  datatype Change = Began(conn: int, ref: Ref) | Ended(conn: int)

  function Entries(cs: seq<Change>): map<int, Ref> {
    if cs == [] then map[]
    else
      var was, last := Entries(cs[..|cs| - 1]), cs[|cs| - 1];
      if last.Began? then Begin(was, last.conn, last.ref) else was - {last.conn}
  }

  /** The connections with a query that began and did not end. */
  function InQuery(cs: seq<Change>): set<int> {
    if cs == [] then {}
    else
      var was, last := InQuery(cs[..|cs| - 1]), cs[|cs| - 1];
      if last.Began? then was + {last.conn} else was - {last.conn}
  }

  /** There were never more of them than slots. */
  predicate Fits(cs: seq<Change>) {
    |InQuery(cs)| <= OP_SLOTS && (cs == [] || Fits(cs[..|cs| - 1]))
  }

  /** The query that began last on the connection, unless it ended. */
  function Latest(cs: seq<Change>, conn: int): Option<Ref> {
    if cs == [] then None
    else
      var last := cs[|cs| - 1];
      if last.conn != conn then Latest(cs[..|cs| - 1], conn) else if last.Began? then Some(last.ref) else None
  }

  lemma {:induction false} TracksAll(cs: seq<Change>)
    requires Fits(cs)
    ensures Entries(cs).Keys == InQuery(cs)
  {
    if cs != [] {
      var front, last := cs[..|cs| - 1], cs[|cs| - 1];
      TracksAll(front);
      assert |Entries(front)| == |InQuery(front)|;
      if last.Began? && last.conn !in InQuery(front) {
        assert |InQuery(front) + {last.conn}| == |InQuery(front)| + 1;
      }
    }
  }

  lemma {:induction false} TracksLatest(cs: seq<Change>, conn: int)
    requires Fits(cs)
    ensures if conn in Entries(cs) then Latest(cs, conn) == Some(Entries(cs)[conn]) else Latest(cs, conn) == None
  {
    if cs != [] {
      TracksAll(cs);
      TracksLatest(cs[..|cs| - 1], conn);
    }
  }

  /** With a slot for each, op.cancel reaches the hook of the query that began last on the connection and has not ended,
      and is told what that says; without a query, or without a hook, it is told so. */
  lemma CancelFinds(cs: seq<Change>, conn: int, hook: Status)
    requires Fits(cs)
    ensures CancelStatus(Entries(cs), conn, hook) ==
            match Latest(cs, conn)
            case None => ErrParam
            case Some(ref) => if ref.cancels then hook else ErrUnsupported
    ensures Hits(Entries(cs), conn) <==> Latest(cs, conn).Some? && Latest(cs, conn).value.cancels
    ensures Hits(Entries(cs), conn) ==> Entries(cs)[conn] == Latest(cs, conn).value
  {
    TracksLatest(cs, conn);
  }

  // ---------------------------------------------------------------- the table

  /** `op_slot`. */
  datatype Slot = Slot(inUse: bool, connId: int, ref: Ref)

  /** The slots in use are the entries, each at the place `at` says. */
  ghost predicate Tracks(slots: seq<Slot>, entries: map<int, Ref>, at: map<int, nat>) {
    && at.Keys == entries.Keys
    && (forall id <- at :: at[id] < |slots| && slots[at[id]] == Slot(true, id, entries[id]))
    && (forall k | 0 <= k < |slots| && slots[k].inUse :: slots[k].connId in at && at[slots[k].connId] == k)
  }

  function InUse(slots: seq<Slot>): nat {
    if slots == [] then 0
    else InUse(slots[..|slots| - 1]) + if slots[|slots| - 1].inUse then 1 else 0
  }

  lemma TracksFront(slots: seq<Slot>, entries: map<int, Ref>, at: map<int, nat>)
    requires Tracks(slots, entries, at) && slots != []
    ensures var front, last := slots[..|slots| - 1], slots[|slots| - 1];
            if last.inUse then
              last.connId in entries && Tracks(front, entries - {last.connId}, at - {last.connId})
            else Tracks(front, entries, at)
  {
  }

  lemma {:induction false} EntryCount(slots: seq<Slot>, entries: map<int, Ref>, at: map<int, nat>)
    requires Tracks(slots, entries, at)
    ensures |entries| == InUse(slots)
    decreases |slots|
  {
    if slots == [] {
      assert forall id :: id in at ==> at[id] < |slots|;
      assert at.Keys == {};
    } else {
      var front, last := slots[..|slots| - 1], slots[|slots| - 1];
      TracksFront(slots, entries, at);
      if last.inUse {
        EntryCount(front, entries - {last.connId}, at - {last.connId});
        assert entries.Keys == (entries - {last.connId}).Keys + {last.connId};
      } else {
        EntryCount(front, entries, at);
      }
    }
  }

  lemma {:induction false} CountedFull(slots: seq<Slot>)
    ensures InUse(slots) <= |slots|
    ensures InUse(slots) == |slots| <==> forall k | 0 <= k < |slots| :: slots[k].inUse
  {
    if slots != [] {
      CountedFull(slots[..|slots| - 1]);
    }
  }

  /** There are as many entries as slots exactly when every slot is in use. */
  lemma FullIffAllInUse(slots: seq<Slot>, entries: map<int, Ref>, at: map<int, nat>)
    requires Tracks(slots, entries, at)
    ensures |entries| <= |slots|
    ensures |entries| == |slots| <==> forall k | 0 <= k < |slots| :: slots[k].inUse
  {
    EntryCount(slots, entries, at);
    CountedFull(slots);
  }

  /** One slot written: a free one, or the one that held the entry. */
  lemma SlotWritten(slots: seq<Slot>, entries: map<int, Ref>, at: map<int, nat>, idx: nat, conn: int, ref: Ref)
    requires Tracks(slots, entries, at) && idx < |slots|
    requires if conn in entries then idx == at[conn] else !slots[idx].inUse
    ensures Tracks(slots[idx := Slot(true, conn, ref)], entries[conn := ref], at[conn := idx])
  {
  }

  class Table {
    const slots: array<Slot>
    ghost var entries: map<int, Ref>
    ghost var at: map<int, nat>

    ghost predicate Valid()
      reads this, slots
    {
      slots.Length == OP_SLOTS && Tracks(slots[..], entries, at)
    }

    constructor ()
      ensures Valid() && entries == map[] && fresh(slots)
    {
      slots := new Slot[OP_SLOTS](_ => Slot(false, 0, Ref(0, false)));
      entries, at := map[], map[];
    }

    /** `find_slot`. */
    method FindSlot(conn: int) returns (i: int)
      requires Valid()
      ensures if conn in entries then i == at[conn] else i == -1
    {
      i := 0;
      while i < slots.Length
        invariant 0 <= i <= slots.Length
        invariant conn in entries ==> i <= at[conn]
      {
        if slots[i].inUse && slots[i].connId == conn {
          return;
        }
        i := i + 1;
      }
      return -1;
    }

    /** The first slot that is not in use. */
    method FreeSlot() returns (idx: int)
      ensures -1 <= idx < slots.Length
      ensures if idx == -1 then forall k | 0 <= k < slots.Length :: slots[k].inUse else !slots[idx].inUse
    {
      idx := 0;
      while idx < slots.Length
        invariant 0 <= idx <= slots.Length
        invariant forall k | 0 <= k < idx :: slots[k].inUse
      {
        if !slots[idx].inUse {
          return;
        }
        idx := idx + 1;
      }
      return -1;
    }

    /** `dbcore_op_begin`: replaces an entry of the same connection; untracked only when all slots are taken. */
    method OpBegin(conn: int, ref: Ref)
      requires Valid()
      modifies this, slots
      ensures Valid() && entries == Begin(old(entries), conn, ref)
    {
      var idx := FindSlot(conn);
      if idx < 0 {
        idx := FreeSlot();
      }
      FullIffAllInUse(slots[..], entries, at);
      if idx >= 0 {
        SlotWritten(slots[..], entries, at, idx, conn, ref);
        slots[idx] := Slot(true, conn, ref);
        entries, at := entries[conn := ref], at[conn := idx];
      }
    }

    /** `dbcore_op_end`. */
    method OpEnd(conn: int)
      requires Valid()
      modifies this, slots
      ensures Valid() && entries == old(entries) - {conn}
    {
      var idx := FindSlot(conn);
      if idx >= 0 {
        slots[idx] := slots[idx].(inUse := false);
      }
      entries, at := entries - {conn}, at - {conn};
    }

    /** `dbcore_op_cancel`: the handle the driver's hook is called on, if any, and the status. */
    method OpCancel(conn: int, hook: Status) returns (st: Status, signalled: Option<nat>)
      requires Valid()
      ensures st == CancelStatus(entries, conn, hook)
      ensures signalled == if Hits(entries, conn) then Some(entries[conn].handle) else None
    {
      var idx := FindSlot(conn);
      if idx < 0 {
        return ErrParam, None;
      }
      st, signalled := ErrUnsupported, None;
      if slots[idx].ref.cancels {
        st, signalled := hook, Some(slots[idx].ref.handle);
      }
    }
  }
}
