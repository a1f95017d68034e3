/** `malloc` and `free`: which strings are allocated, and which calls fail. */
module Heap {

  datatype Ptr = Unset | At(addr: nat, text: string)

  function Addr(p: Ptr): set<nat> {
    if p.At? then {p.addr} else {}
  }

  function Addrs(ps: seq<Ptr>): set<nat> {
    if ps == [] then {} else Addr(ps[0]) + Addrs(ps[1..])
  }

  /** The strings are allocated, and no two are the same one. */
  ghost predicate Owned(ps: seq<Ptr>, live: set<nat>) {
    ps == [] || (Addr(ps[0]) <= live && Addr(ps[0]) !! Addrs(ps[1..]) && Owned(ps[1..], live))
  }

  lemma {:induction false} OwnedWithin(ps: seq<Ptr>, live: set<nat>, other: set<nat>)
    requires Owned(ps, live) && Addrs(ps) <= other
    ensures Owned(ps, other)
  {
    if ps != [] {
      OwnedWithin(ps[1..], live, other);
    }
  }

  lemma {:induction false} OwnedAddrs(ps: seq<Ptr>, live: set<nat>)
    requires Owned(ps, live)
    ensures Addrs(ps) <= live
  {
    if ps != [] {
      OwnedAddrs(ps[1..], live);
    }
  }

  lemma {:induction false} AppendOwned(ps: seq<Ptr>, p: Ptr, live: set<nat>)
    requires Owned(ps, live) && Addr(p) !! live
    ensures Addrs(ps + [p]) == Addrs(ps) + Addr(p) && Owned(ps + [p], live + Addr(p))
  {
    if ps == [] {
      assert [p][1..] == [];
      assert ps + [p] == [p];
    } else {
      AppendOwned(ps[1..], p, live);
      assert (ps + [p])[1..] == ps[1..] + [p];
    }
  }

  lemma {:induction false} UnsetOwns(ps: seq<Ptr>, live: set<nat>)
    requires forall i | 0 <= i < |ps| :: ps[i] == Unset
    ensures Owned(ps, live) && Addrs(ps) == {}
  {
    if ps != [] {
      UnsetOwns(ps[1..], live);
    }
  }

  lemma {:induction false} ReplaceOwned(ps: seq<Ptr>, i: nat, p: Ptr, live: set<nat>)
    requires i < |ps| && ps[i] == Unset && Owned(ps, live) && Addr(p) !! live
    ensures Addrs(ps[i := p]) == Addrs(ps) + Addr(p) && Owned(ps[i := p], live + Addr(p))
  {
    OwnedAddrs(ps, live);
    if i == 0 {
      assert ps[i := p][1..] == ps[1..];
      OwnedWithin(ps[1..], live, live + Addr(p));
    } else {
      ReplaceOwned(ps[1..], i - 1, p, live);
      assert ps[i := p][1..] == ps[1..][i - 1 := p];
    }
  }

  lemma {:induction false} OwnedFront(ps: seq<Ptr>, live: set<nat>)
    requires Owned(ps + [Unset], live)
    ensures Owned(ps, live) && Addrs(ps + [Unset]) == Addrs(ps)
  {
    if ps != [] {
      assert (ps + [Unset])[1..] == ps[1..] + [Unset];
      OwnedFront(ps[1..], live);
    } else {
      assert (ps + [Unset])[1..] == [];
    }
  }

  class Allocator {
    var live: set<nat>
    var next: nat
    var failures: nat
    const fails: nat -> bool

    ghost predicate Valid()
      reads this
    {
      forall a <- live :: a < next
    }

    /** Since `live0`, exactly the strings `ps` were allocated, each of its own. */
    ghost predicate Copied(ps: seq<Ptr>, live0: set<nat>)
      reads this
    {
      Valid() && Owned(ps, live) && live == live0 + Addrs(ps) && live0 !! Addrs(ps)
    }

    lemma DropUnset(ps: seq<Ptr>, live0: set<nat>)
      requires Copied(ps + [Unset], live0)
      ensures Copied(ps, live0)
    {
      OwnedFront(ps, live);
    }

    constructor (fails: nat -> bool)
      ensures Valid() && live == {} && failures == 0 && this.fails == fails
    {
      live, next, failures := {}, 0, 0;
      this.fails := fails;
    }

    /** A copy of `text`; Unset when this call is one that fails. */
    method Copy(text: string) returns (p: Ptr)
      requires Valid()
      modifies this
      ensures Valid() && next == old(next) + 1
      ensures live == old(live) + Addr(p) && Addr(p) !! old(live)
      ensures p.Unset? ==> failures == old(failures) + 1
      ensures p.At? ==> p.text == text && failures == old(failures)
    {
      if fails(next) {
        p := Unset;
        failures := failures + 1;
      } else {
        p := At(next, text);
        live := live + {next};
      }
      next := next + 1;
    }

    /** Freeing what is not allocated is forbidden; freeing NULL does nothing. */
    method Free(p: Ptr)
      requires Valid() && (p.At? ==> p.addr in live)
      modifies this
      ensures Valid() && next == old(next) && failures == old(failures)
      ensures live == old(live) - Addr(p)
    {
      if p.At? {
        live := live - {p.addr};
      }
    }

    /** `Free` of the first of the strings still owned. */
    method FreeFirst(p: Ptr, ghost ps: seq<Ptr>)
      requires Valid() && ps != [] && ps[0] == p && Owned(ps, live)
      modifies this
      ensures Valid() && next == old(next) && failures == old(failures)
      ensures Owned(ps[1..], live) && live - Addrs(ps[1..]) == old(live) - Addrs(ps)
    {
      OwnedAddrs(ps, live);
      Free(p);
      OwnedWithin(ps[1..], old(live), live);
    }
  }
}
