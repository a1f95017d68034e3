/** core/src/ipc/redact.c: masking every value under a secret key before a request is printed, or
    withholding the request when a secret may have survived. */
module Redact {
  import opened Prelude
  import opened Json
  import Text

  const SECRETS: seq<string> :=
    ["password", "passwd", "pwd", "passphrase", "secret", "token", "privatekey", "private_key", "apikey", "credential"]

  const MASK: Json := Str("***")

  // ---------------------------------------------------------------- secret keys

  /** `needle` stands at `p` in `haystack`, once that is folded. */
  predicate MatchesAt(haystack: string, needle: string, p: nat) {
    p + |needle| <= |haystack| && forall i | 0 <= i < |needle| :: Text.Lower(haystack[p + i]) == needle[i]
  }

  ghost predicate Contains(haystack: string, needle: string) {
    exists p: nat :: MatchesAt(haystack, needle, p)
  }

  ghost predicate IsSecret(key: string) {
    exists k :: 0 <= k < |SECRETS| && Contains(key, SECRETS[k])
  }

  /** The same letter, in whichever case. */
  predicate SameLetter(c: char, d: char) {
    c == d || ('A' <= c <= 'Z' && d as int == c as int + 32) || ('A' <= d <= 'Z' && c as int == d as int + 32)
  }

  predicate SameButCase(s: string, t: string) {
    |s| == |t| && forall i | 0 <= i < |s| :: SameLetter(s[i], t[i])
  }

  lemma SameLetterFolds(c: char, d: char)
    requires SameLetter(c, d)
    ensures Text.Lower(c) == Text.Lower(d)
  {
  }

  lemma CaseKeepsMatch(s: string, t: string, needle: string, p: nat)
    requires SameButCase(s, t) && MatchesAt(s, needle, p)
    ensures MatchesAt(t, needle, p)
  {
    forall i | 0 <= i < |needle|
      ensures Text.Lower(t[p + i]) == needle[i]
    {
      SameLetterFolds(s[p + i], t[p + i]);
    }
  }

  lemma SecretsAreLower(k: nat, i: nat)
    requires k < |SECRETS| && i < |SECRETS[k]|
    ensures Text.Lower(SECRETS[k][i]) == SECRETS[k][i]
  {
  }

  /** A key with a secret word anywhere in it, in whichever case, is secret. */
  lemma SecretInAnyCase(front: string, word: string, back: string, k: nat)
    requires k < |SECRETS| && SameButCase(SECRETS[k], word)
    ensures IsSecret(front + word + back)
  {
    var key := front + word + back;
    forall i | 0 <= i < |word|
      ensures Text.Lower(key[|front| + i]) == SECRETS[k][i]
    {
      assert key[|front| + i] == word[i];
      SameLetterFolds(SECRETS[k][i], word[i]);
      SecretsAreLower(k, i);
    }
    assert MatchesAt(key, SECRETS[k], |front|);
    assert Contains(key, SECRETS[k]);
  }

  /** Case makes no difference to what is secret. */
  lemma CaseIsIgnored(s: string, t: string)
    requires SameButCase(s, t) && IsSecret(s)
    ensures IsSecret(t)
  {
    var k :| 0 <= k < |SECRETS| && Contains(s, SECRETS[k]);
    var p: nat :| MatchesAt(s, SECRETS[k], p);
    CaseKeepsMatch(s, t, SECRETS[k], p);
    assert Contains(t, SECRETS[k]);
  }

  /** `contains_fold`. */
  method ContainsFold(haystack: string, needle: string) returns (found: bool)
    ensures found <==> Contains(haystack, needle)
  {
    if needle == "" {
      assert MatchesAt(haystack, needle, 0);
      return true;
    }
    var p: nat := 0;
    while p < |haystack|
      invariant p <= |haystack| && forall q: nat | q < p :: !MatchesAt(haystack, needle, q)
    {
      var i := 0;
      while i < |needle| && p + i < |haystack| && Text.Lower(haystack[p + i]) == needle[i]
        invariant 0 <= i <= |needle| && p + i <= |haystack|
        invariant forall k | 0 <= k < i :: Text.Lower(haystack[p + k]) == needle[k]
      {
        i := i + 1;
      }
      if i == |needle| {
        assert MatchesAt(haystack, needle, p);
        return true;
      }
      p := p + 1;
    }
    return false;
  }

  /** `is_secret_key`. */
  method IsSecretKey(key: string) returns (secret: bool)
    ensures secret <==> IsSecret(key)
  {
    for i := 0 to |SECRETS|
      invariant forall k | 0 <= k < i :: !Contains(key, SECRETS[k])
    {
      var found := ContainsFold(key, SECRETS[i]);
      if found {
        return true;
      }
    }
    return false;
  }

  // ---------------------------------------------------------------- the mask, as a function on trees

  predicate IsContainer(j: Json) {
    j.Object? || j.Array?
  }

  /** Every value under a secret key replaced, everything else unchanged. */
  ghost function Masked(j: Json): Json {
    match j
    case Object(members) =>
      Object(seq(|members|, i requires 0 <= i < |members| => Member(members[i].key, MaskedMember(members[i]))))
    case Array(items) => Array(seq(|items|, i requires 0 <= i < |items| => Masked(items[i])))
    case _ => j
  }

  ghost function MaskedMember(m: Member): Json {
    if IsSecret(m.key) then MASK else Masked(m.value)
  }

  /** Some secret-keyed value is not the mask. */
  ghost predicate Exposed(j: Json) {
    match j
    case Object(members) =>
      exists i :: 0 <= i < |members| &&
        if IsSecret(members[i].key) then members[i].value != MASK else Exposed(members[i].value)
    case Array(items) => exists i :: 0 <= i < |items| && Exposed(items[i])
    case _ => false
  }

  /** `b` is `a` with some of its secret-keyed values masked. */
  ghost predicate PartlyMasked(a: Json, b: Json) {
    match a
    case Object(ms) =>
      && b.Object? && |b.members| == |ms|
      && forall i | 0 <= i < |ms| ::
           && b.members[i].key == ms[i].key
           && if IsSecret(ms[i].key) then b.members[i].value == ms[i].value || b.members[i].value == MASK
              else PartlyMasked(ms[i].value, b.members[i].value)
    case Array(xs) =>
      b.Array? && |b.items| == |xs| && forall i | 0 <= i < |xs| :: PartlyMasked(xs[i], b.items[i])
    case _ => b == a
  }

  /** A partly masked tree in which nothing is exposed is the masked tree. */
  lemma {:induction false} NothingExposedIsMasked(a: Json, b: Json)
    requires PartlyMasked(a, b)
    ensures !Exposed(b) ==> b == Masked(a)
    decreases a
  {
    match a {
      case Object(ms) =>
        forall i | 0 <= i < |ms| && !IsSecret(ms[i].key)
          ensures !Exposed(b.members[i].value) ==> b.members[i].value == Masked(ms[i].value)
        {
          NothingExposedIsMasked(ms[i].value, b.members[i].value);
        }
        if !Exposed(b) {
          assert b.members == Masked(a).members;
        }
      case Array(xs) =>
        forall i | 0 <= i < |xs|
          ensures !Exposed(b.items[i]) ==> b.items[i] == Masked(xs[i])
        {
          NothingExposedIsMasked(xs[i], b.items[i]);
        }
        if !Exposed(b) {
          assert b.items == Masked(a).items;
        }
      case _ =>
    }
  }

  /** Masking hides every secret and is idempotent. */
  lemma {:induction false} MaskedHides(j: Json)
    ensures !Exposed(Masked(j)) && Masked(Masked(j)) == Masked(j)
    decreases j
  {
    match j {
      case Object(ms) =>
        forall i | 0 <= i < |ms|
          ensures !Exposed(Masked(ms[i].value)) && Masked(Masked(ms[i].value)) == Masked(ms[i].value)
        {
          MaskedHides(ms[i].value);
        }
        assert Masked(Masked(j)).members == Masked(j).members;
      case Array(xs) =>
        forall i | 0 <= i < |xs|
          ensures !Exposed(Masked(xs[i])) && Masked(Masked(xs[i])) == Masked(xs[i])
        {
          MaskedHides(xs[i]);
        }
        assert Masked(Masked(j)).items == Masked(j).items;
      case _ =>
    }
  }

  // ---------------------------------------------------------------- the code

  /** The allocator, as far as the masks need it: which of its calls fail. */
  class Masks {
    const fails: nat -> bool
    var calls: nat
    var failed: bool

    constructor (fails: nat -> bool)
    {
      this.fails := fails;
      calls, failed := 0, false;
    }

    /** `cJSON_CreateString(REDACTED)`. */
    method Create() returns (mask: Option<Json>)
      modifies this
      ensures mask == None || mask == Some(MASK)
      ensures failed == (old(failed) || mask.None?)
    {
      mask := if fails(calls) then None else Some(MASK);
      failed := failed || mask.None?;
      calls := calls + 1;
    }
  }

  /** The place of the first member of that name. */
  function FirstOf(members: seq<Member>, key: string): (f: nat)
    ensures f <= |members| && (f < |members| ==> members[f].key == key)
    ensures forall k | 0 <= k < f :: members[k].key != key
  {
    if members == [] || members[0].key == key then 0 else 1 + FirstOf(members[1..], key)
  }

  predicate FirstOfItsKey(ms: seq<Member>, i: nat)
    requires i < |ms|
  {
    forall k | 0 <= k < i :: ms[k].key != ms[i].key
  }

  /** What the pass makes of a tree when no mask fails: replacing by name only ever reaches the first member
      of a name. */
  ghost function Swept(j: Json): Json {
    match j
    case Object(ms) => Object(seq(|ms|, i requires 0 <= i < |ms| =>
      Member(ms[i].key, if !IsSecret(ms[i].key) then Swept(ms[i].value)
                        else if FirstOfItsKey(ms, i) then MASK else ms[i].value)))
    case Array(xs) => Array(seq(|xs|, i requires 0 <= i < |xs| => Swept(xs[i])))
    case _ => j
  }

  /** `redact_tree`. */
  method RedactTree(node: Json, masks: Masks) returns (r: Json)
    modifies masks
    ensures PartlyMasked(node, r)
    ensures old(masks.failed) ==> masks.failed
    ensures !masks.failed ==> r == Swept(node)
    decreases node, 1
  {
    match node {
      case Object(ms) =>
        var members := RedactMembers(ms, masks);
        r := Object(members);
      case Array(xs) =>
        var items := RedactItems(xs, masks);
        r := Array(items);
      case _ => r := node;
    }
  }

  /** Its loop over the members of an object. */
  method RedactMembers(ms: seq<Member>, masks: Masks) returns (members: seq<Member>)
    modifies masks
    ensures PartlyMasked(Object(ms), Object(members))
    ensures old(masks.failed) ==> masks.failed
    ensures !masks.failed ==> members == Swept(Object(ms)).members
    decreases Object(ms), 0
  {
    members := ms;
    var i := 0;
    while i < |ms|
      invariant 0 <= i <= |ms| && |members| == |ms|
      invariant forall k | 0 <= k < |ms| :: members[k].key == ms[k].key
      invariant forall k | i <= k < |ms| :: members[k] == ms[k]
      invariant forall k | 0 <= k < i ::
                  if IsSecret(ms[k].key) then members[k].value == ms[k].value || members[k].value == MASK
                  else PartlyMasked(ms[k].value, members[k].value)
      invariant old(masks.failed) ==> masks.failed
      invariant !masks.failed ==> forall k | 0 <= k < i :: members[k] == Swept(Object(ms)).members[k]
    {
      var secret := IsSecretKey(ms[i].key);
      if secret {
        var masked := masks.Create();
        if masked.Some? {
          var f := FirstOf(members, ms[i].key);
          members := members[f := Member(ms[i].key, masked.value)];
        }
      } else if IsContainer(ms[i].value) {
        var child := RedactTree(ms[i].value, masks);
        members := members[i := Member(ms[i].key, child)];
      }
      i := i + 1;
    }
    assert !masks.failed ==> members == Swept(Object(ms)).members;
  }

  /** Its loop over the items of an array. */
  method RedactItems(xs: seq<Json>, masks: Masks) returns (items: seq<Json>)
    modifies masks
    ensures PartlyMasked(Array(xs), Array(items))
    ensures old(masks.failed) ==> masks.failed
    ensures !masks.failed ==> items == Swept(Array(xs)).items
    decreases Array(xs), 0
  {
    items := xs;
    var i := 0;
    while i < |xs|
      invariant 0 <= i <= |xs| && |items| == |xs|
      invariant forall k | i <= k < |xs| :: items[k] == xs[k]
      invariant forall k | 0 <= k < i :: PartlyMasked(xs[k], items[k])
      invariant old(masks.failed) ==> masks.failed
      invariant !masks.failed ==> forall k | 0 <= k < i :: items[k] == Swept(xs[k])
    {
      if IsContainer(xs[i]) {
        var child := RedactTree(xs[i], masks);
        items := items[i := child];
      }
      i := i + 1;
    }
    assert !masks.failed ==> items == Swept(Array(xs)).items;
  }

  /** `has_exposed_secret`. */
  method HasExposedSecret(node: Json) returns (exposed: bool)
    ensures exposed <==> Exposed(node)
    decreases node
  {
    match node {
      case Object(ms) =>
        for i := 0 to |ms|
          invariant forall k | 0 <= k < i :: if IsSecret(ms[k].key) then ms[k].value == MASK else !Exposed(ms[k].value)
        {
          var secret := IsSecretKey(ms[i].key);
          if secret && ms[i].value != MASK {
            return true;
          }
          if !secret && IsContainer(ms[i].value) {
            var below := HasExposedSecret(ms[i].value);
            if below {
              return true;
            }
          }
        }
        return false;
      case Array(xs) =>
        for i := 0 to |xs|
          invariant forall k | 0 <= k < i :: !Exposed(xs[k])
        {
          if IsContainer(xs[i]) {
            var below := HasExposedSecret(xs[i]);
            if below {
              return true;
            }
          }
        }
        return false;
      case _ => return false;
    }
  }

  // ---------------------------------------------------------------- when a request is printed

  /** Each secret value is the first of its name in its object, or reads as the mask already. */
  ghost predicate Reachable(j: Json) {
    match j
    case Object(ms) =>
      forall i | 0 <= i < |ms| ::
        if IsSecret(ms[i].key) then FirstOfItsKey(ms, i) || ms[i].value == MASK else Reachable(ms[i].value)
    case Array(xs) => forall i | 0 <= i < |xs| :: Reachable(xs[i])
    case _ => true
  }

  /** No object of the tree has two members of one name. */
  ghost predicate DistinctKeys(j: Json) {
    match j
    case Object(ms) => forall i | 0 <= i < |ms| :: FirstOfItsKey(ms, i) && DistinctKeys(ms[i].value)
    case Array(xs) => forall i | 0 <= i < |xs| :: DistinctKeys(xs[i])
    case _ => true
  }

  lemma {:induction false} SweptHidesIffReachable(j: Json)
    ensures Exposed(Swept(j)) <==> !Reachable(j)
    decreases j
  {
    match j {
      case Object(ms) =>
        var rs := Swept(j).members;
        forall i | 0 <= i < |ms|
          ensures (if IsSecret(rs[i].key) then rs[i].value != MASK else Exposed(rs[i].value)) <==>
                  !(if IsSecret(ms[i].key) then FirstOfItsKey(ms, i) || ms[i].value == MASK else Reachable(ms[i].value))
        {
          SweptHidesIffReachable(ms[i].value);
        }
      case Array(xs) =>
        forall i | 0 <= i < |xs|
          ensures Exposed(Swept(xs[i])) <==> !Reachable(xs[i])
        {
          SweptHidesIffReachable(xs[i]);
        }
        assert forall i | 0 <= i < |xs| :: Swept(j).items[i] == Swept(xs[i]);
      case _ =>
    }
  }

  /** With distinct names per object every request is printed, masked, unless an allocation fails. */
  lemma {:induction false} DistinctKeysAreReachable(j: Json)
    requires DistinctKeys(j)
    ensures Reachable(j)
    decreases j
  {
    match j {
      case Object(ms) =>
        forall i | 0 <= i < |ms|
          ensures Reachable(ms[i].value)
        {
          DistinctKeysAreReachable(ms[i].value);
        }
      case Array(xs) =>
        forall i | 0 <= i < |xs|
          ensures Reachable(xs[i])
        {
          DistinctKeysAreReachable(xs[i]);
        }
      case _ =>
    }
  }

  /** `dbcore_ipc_redact`: the tree that is printed, or None for the fixed marker; None in is text that is
      not JSON.  What is printed is the masked request, whichever allocation fails and whatever keys repeat. */
  method IpcRedact(request: Option<Json>, masks: Masks, printFails: bool) returns (printed: Option<Json>)
    requires !masks.failed
    modifies masks
    ensures printed.Some? ==> request.Some? && printed.value == Masked(request.value)
    ensures !masks.failed && !printFails && request.Some? ==> (printed.Some? <==> Reachable(request.value))
  {
    if request.None? {
      return None;
    }
    var root := request.value;
    if IsContainer(root) {
      root := RedactTree(root, masks);
      NothingExposedIsMasked(request.value, root);
      SweptHidesIffReachable(request.value);
      var exposed := HasExposedSecret(root);
      if exposed {
        return None;
      }
    }
    return if printFails then None else Some(root);
  }
}
