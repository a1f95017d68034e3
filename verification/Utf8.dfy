/** core/src/ipc/utf8.c: the guard that keeps malformed text out of the JSON frames.  Well-formedness
    is defined here by encoding scalar values, independently of the byte ranges the code checks. */
module Utf8 {
  import opened Prelude

  /** What a NUL-terminated C string can hold. */
  type CString = s: seq<byte> | 0 !in s

  /** A Unicode scalar value other than U+0000: not a surrogate, not above U+10FFFF. */
  type Scalar = v: int | 1 <= v <= 0x10FFFF && !(0xD800 <= v <= 0xDFFF) witness 1

  /** Its UTF-8 form (section 3 of RFC 3629). */
  function Encode(v: Scalar): (r: seq<byte>)
    ensures 1 <= |r| <= 4
  {
    if v < 0x80 then [v]
    else if v < 0x800 then [0xC0 + v / 64, 0x80 + v % 64]
    else if v < 0x10000 then [0xE0 + v / 4096, 0x80 + v / 64 % 64, 0x80 + v % 64]
    else [0xF0 + v / 262144, 0x80 + v / 4096 % 64, 0x80 + v / 64 % 64, 0x80 + v % 64]
  }

  function EncodeAll(vs: seq<Scalar>): seq<byte> {
    if vs == [] then [] else Encode(vs[0]) + EncodeAll(vs[1..])
  }

  ghost predicate Valid(s: seq<byte>) {
    exists vs :: EncodeAll(vs) == s
  }

  /** Some scalar value can be decoded at the front of `s`. */
  ghost predicate Decodable(s: seq<byte>) {
    exists v: Scalar :: Encode(v) <= s
  }

  /** How many bytes the scalar value at the front of `s` takes; 0 when none can be decoded there. */
  ghost function Front(s: seq<byte>): (n: nat)
    ensures n <= |s| && n <= 4 && (n == 0 <==> !Decodable(s))
  {
    if Decodable(s) then
      var v: Scalar :| Encode(v) <= s;
      |Encode(v)|
    else 0
  }

  const REPLACEMENT: seq<byte> := [0xEF, 0xBF, 0xBD]

  /** Keep what decodes, replace each byte at which nothing does. */
  ghost function Repair(s: seq<byte>): seq<byte> {
    if s == [] then []
    else if Front(s) == 0 then REPLACEMENT + Repair(s[1..])
    else s[..Front(s)] + Repair(s[Front(s)..])
  }

  // ---------------------------------------------------------------- encodings are prefix-free

  /** Table 3-7 of Unicode 15.0, section 3.9, read off the encoding. */
  lemma EncodeBytes(v: Scalar)
    ensures var e := Encode(v);
            && (|e| == 1 ==> 0 < e[0] < 0x80)
            && (|e| == 2 ==> 0xC2 <= e[0] <= 0xDF && 0x80 <= e[1] <= 0xBF)
            && (|e| == 3 ==> 0xE0 <= e[0] <= 0xEF && 0x80 <= e[1] <= 0xBF && 0x80 <= e[2] <= 0xBF
                             && (e[0] == 0xE0 ==> 0xA0 <= e[1]) && (e[0] == 0xED ==> e[1] <= 0x9F))
            && (|e| == 4 ==> 0xF0 <= e[0] <= 0xF4 && 0x80 <= e[1] <= 0xBF
                             && 0x80 <= e[2] <= 0xBF && 0x80 <= e[3] <= 0xBF
                             && (e[0] == 0xF0 ==> 0x90 <= e[1]) && (e[0] == 0xF4 ==> e[1] <= 0x8F))
  {
  }

  /** The value, back from its bytes. */
  function Decode(e: seq<byte>): int
    requires 1 <= |e| <= 4
  {
    var a: int := e[0];
    var b: int := if |e| > 1 then e[1] as int - 0x80 else 0;
    var c: int := if |e| > 2 then e[2] as int - 0x80 else 0;
    var d: int := if |e| > 3 then e[3] as int - 0x80 else 0;
    if |e| == 1 then a
    else if |e| == 2 then (a - 0xC0) * 64 + b
    else if |e| == 3 then (a - 0xE0) * 4096 + b * 64 + c
    else (a - 0xF0) * 262144 + b * 4096 + c * 64 + d
  }

  lemma DecodeEncodes(v: Scalar)
    ensures Decode(Encode(v)) == v
  {
    if v >= 0x10000 {
      assert v / 4096 == v / 262144 * 64 + v / 4096 % 64;
    }
    if v >= 0x800 {
      assert v / 64 == v / 4096 * 64 + v / 64 % 64;
    }
  }

  lemma PrefixFree(v: Scalar, w: Scalar, s: seq<byte>)
    requires Encode(v) <= s && Encode(w) <= s
    ensures v == w
  {
    EncodeBytes(v);
    EncodeBytes(w);
    assert Encode(v)[0] == s[0] == Encode(w)[0];
    assert Encode(v) == s[..|Encode(v)|] && Encode(w) == s[..|Encode(w)|];
    DecodeEncodes(v);
    DecodeEncodes(w);
  }

  lemma Regroup(a: seq<byte>, b: seq<byte>, c: seq<byte>)
    ensures a + (b + c) == a + b + c
  {
  }

  lemma CancelFront(e: seq<byte>, a: seq<byte>, b: seq<byte>)
    requires e + a == e + b
    ensures a == b
  {
    assert a == (e + a)[|e|..] && b == (e + b)[|e|..];
  }

  lemma CancelOne(u: Scalar, m: seq<byte>, t: seq<byte>, v: Scalar, w: seq<byte>)
    requires Encode(u) + m + t == Encode(v) + w
    ensures u == v && m + t == w
  {
    Regroup(Encode(u), m, t);
    PrefixFree(u, v, Encode(v) + w);
    CancelFront(Encode(u), m + t, w);
  }

  lemma PrefixOn(us: seq<Scalar>, vs: seq<Scalar>)
    requires us != [] && vs != [] && us[0] == vs[0] && us[1..] <= vs[1..]
    ensures us <= vs && vs[|us|..] == vs[1..][|us| - 1..]
  {
    assert us == [us[0]] + us[1..] && vs == [vs[0]] + vs[1..];
  }

  /** A valid prefix can be cancelled: what follows it is valid exactly when the whole is. */
  lemma {:induction false} Cancel(us: seq<Scalar>, t: seq<byte>, vs: seq<Scalar>)
    requires EncodeAll(us) + t == EncodeAll(vs)
    ensures us <= vs && t == EncodeAll(vs[|us|..])
  {
    if us != [] {
      assert vs != [];
      CancelOne(us[0], EncodeAll(us[1..]), t, vs[0], EncodeAll(vs[1..]));
      Cancel(us[1..], t, vs[1..]);
      PrefixOn(us, vs);
    }
  }

  /** A text stands for one sequence of scalar values only. */
  lemma DecodingIsUnique(us: seq<Scalar>, vs: seq<Scalar>)
    requires EncodeAll(us) == EncodeAll(vs)
    ensures us == vs
  {
    assert EncodeAll(us) + [] == EncodeAll(vs);
    Cancel(us, [], vs);
    assert vs[|us|..] == [];
  }

  lemma {:induction false} EncodeAllAppend(us: seq<Scalar>, vs: seq<Scalar>)
    ensures EncodeAll(us + vs) == EncodeAll(us) + EncodeAll(vs)
  {
    if us == [] {
      assert us + vs == vs;
    } else {
      assert (us + vs)[1..] == us[1..] + vs;
      EncodeAllAppend(us[1..], vs);
    }
  }

  lemma FrontIs(v: Scalar, s: seq<byte>)
    requires Encode(v) <= s
    ensures Front(s) == |Encode(v)| && s[..Front(s)] == Encode(v) && s == Encode(v) + s[Front(s)..]
  {
    assert Decodable(s);
    forall w: Scalar | Encode(w) <= s
      ensures w == v
    {
      PrefixFree(v, w, s);
    }
  }

  lemma NothingDecodes(s: seq<byte>, vs: seq<Scalar>)
    requires s != [] && !Decodable(s)
    ensures EncodeAll(vs) != s
  {
    if vs != [] {
      assert Encode(vs[0]) <= EncodeAll(vs);
    }
  }

  lemma ValidRest(v: Scalar, t: seq<byte>)
    ensures Valid(Encode(v) + t) <==> Valid(t)
  {
    var s := Encode(v) + t;
    if Valid(s) {
      var vs :| EncodeAll(vs) == s;
      assert EncodeAll([v]) == Encode(v);
      Cancel([v], t, vs);
    }
    if Valid(t) {
      var ws :| EncodeAll(ws) == t;
      EncodeAllAppend([v], ws);
      assert EncodeAll([v]) == Encode(v);
    }
  }

  /** The front of a valid non-empty text decodes, and the rest is valid. */
  lemma ValidFront(s: seq<byte>)
    requires s != []
    ensures Valid(s) <==> Front(s) > 0 && Valid(s[Front(s)..])
  {
    if Decodable(s) {
      var v: Scalar :| Encode(v) <= s;
      FrontIs(v, s);
      ValidRest(v, s[Front(s)..]);
    } else {
      forall vs
        ensures EncodeAll(vs) != s
      {
        NothingDecodes(s, vs);
      }
    }
  }

  // ---------------------------------------------------------------- the laws of the repair

  lemma RepairBehind(v: Scalar, t: seq<byte>)
    ensures Repair(Encode(v) + t) == Encode(v) + Repair(t)
  {
    FrontIs(v, Encode(v) + t);
  }

  lemma {:induction false} RepairKeepsEncoded(us: seq<Scalar>, b: seq<byte>)
    ensures Repair(EncodeAll(us) + b) == EncodeAll(us) + Repair(b)
  {
    if us == [] {
      assert EncodeAll(us) + b == b;
    } else {
      var e, m := Encode(us[0]), EncodeAll(us[1..]);
      assert EncodeAll(us) == e + m;
      RepairKeepsEncoded(us[1..], b);
      assert Repair(e + m + b) == e + m + Repair(b) by {
        Regroup(e, m, b);
        RepairBehind(us[0], m + b);
        Regroup(e, m, Repair(b));
      }
    }
  }

  /** A valid text in front is kept byte for byte, and does not change how the rest is repaired. */
  lemma RepairKeepsValidFront(a: seq<byte>, b: seq<byte>)
    requires Valid(a)
    ensures Repair(a + b) == a + Repair(b)
  {
    var us :| EncodeAll(us) == a;
    RepairKeepsEncoded(us, b);
  }

  /** After a valid text, one undecodable byte becomes one U+FFFD and the repair goes on behind it. */
  lemma RepairReplacesOneByte(a: seq<byte>, b: seq<byte>)
    requires Valid(a) && b != [] && !Decodable(b)
    ensures Repair(a + b) == a + REPLACEMENT + Repair(b[1..])
  {
    RepairKeepsValidFront(a, b);
    Regroup(a, REPLACEMENT, Repair(b[1..]));
  }

  lemma ReplacementIsScalar()
    ensures Encode(0xFFFD) == REPLACEMENT
  {
  }

  lemma {:induction false} RepairIsValid(s: seq<byte>)
    ensures Valid(Repair(s)) && |Repair(s)| <= 3 * |s|
    decreases |s|
  {
    if s == [] {
      assert EncodeAll([]) == [];
    } else if Decodable(s) {
      var v: Scalar :| Encode(v) <= s;
      FrontIs(v, s);
      RepairIsValid(s[Front(s)..]);
      ValidRest(v, Repair(s[Front(s)..]));
    } else {
      RepairIsValid(s[1..]);
      ReplacementIsScalar();
      ValidRest(0xFFFD, Repair(s[1..]));
    }
  }

  /** The repair leaves a text alone exactly when it is well-formed. */
  lemma RepairIsIdentityIffValid(s: seq<byte>)
    ensures Repair(s) == s <==> Valid(s)
  {
    if Valid(s) {
      RepairKeepsValidFront(s, []);
      assert s + [] == s;
    }
    RepairIsValid(s);
  }

  lemma RepairIsIdempotent(s: seq<byte>)
    ensures Repair(Repair(s)) == Repair(s)
  {
    RepairIsValid(s);
    RepairIsIdentityIffValid(Repair(s));
  }

  // ---------------------------------------------------------------- the code

  /** The first-byte table of the code: the length it announces and the range of the second byte. */
  predicate Announces(c: byte, len: nat, min2: int, max2: int) {
    || (len == 2 && 0xC2 <= c <= 0xDF && (min2, max2) == (0x80, 0xBF))
    || (len == 3 && c == 0xE0 && (min2, max2) == (0xA0, 0xBF))
    || (len == 3 && c == 0xED && (min2, max2) == (0x80, 0x9F))
    || (len == 3 && 0xE1 <= c <= 0xEF && c != 0xED && (min2, max2) == (0x80, 0xBF))
    || (len == 4 && c == 0xF0 && (min2, max2) == (0x90, 0xBF))
    || (len == 4 && 0xF1 <= c <= 0xF3 && (min2, max2) == (0x80, 0xBF))
    || (len == 4 && c == 0xF4 && (min2, max2) == (0x80, 0x8F))
    || (len == 0 && (0x80 <= c < 0xC2 || 0xF5 <= c))
  }

  lemma Undecodable(s: seq<byte>, len: nat, min2: int, max2: int)
    requires s != [] && Announces(s[0], len, min2, max2)
    requires len == 0 || |s| < len || s[1] < min2 || s[1] > max2 || exists j | 2 <= j < len :: s[j] / 64 != 2
    ensures !Decodable(s)
  {
    forall v: Scalar
      ensures !(Encode(v) <= s)
    {
      EncodeBytes(v);
    }
  }

  /** Six-bit digits come back by division. */
  lemma Digits(a: int, b: int, c: int)
    requires 0 <= b < 64 && 0 <= c < 64
    ensures var v := a * 4096 + b * 64 + c; v / 4096 == a && v / 64 % 64 == b && v % 64 == c
  {
    var high := a * 64 + b;
    assert (high * 64 + c) / 64 == high && (high * 64 + c) % 64 == c;
    assert (a * 64 + b) / 64 == a && (a * 64 + b) % 64 == b;
    assert (a * 4096 + (b * 64 + c)) / 4096 == a;
  }

  lemma Witness3(s0: byte, s1: byte, s2: byte) returns (v: Scalar)
    requires 0xE0 <= s0 <= 0xEF && 0x80 <= s1 <= 0xBF && 0x80 <= s2 <= 0xBF
    requires (s0 == 0xE0 ==> 0xA0 <= s1) && (s0 == 0xED ==> s1 <= 0x9F)
    ensures Encode(v) == [s0, s1, s2]
  {
    Digits(s0 - 0xE0, s1 - 0x80, s2 - 0x80);
    v := (s0 as int - 0xE0) * 4096 + (s1 as int - 0x80) * 64 + (s2 as int - 0x80);
  }

  lemma Witness4(s0: byte, s1: byte, s2: byte, s3: byte) returns (v: Scalar)
    requires 0xF0 <= s0 <= 0xF4 && 0x80 <= s1 <= 0xBF && 0x80 <= s2 <= 0xBF && 0x80 <= s3 <= 0xBF
    requires (s0 == 0xF0 ==> 0x90 <= s1) && (s0 == 0xF4 ==> s1 <= 0x8F)
    ensures Encode(v) == [s0, s1, s2, s3]
  {
    var a: int, b: int := s0 - 0xF0, s1 - 0x80;
    Digits(a * 64 + b, s2 - 0x80, s3 - 0x80);
    assert (a * 64 + b) / 64 == a && (a * 64 + b) % 64 == b;
    v := a * 262144 + b * 4096 + (s2 as int - 0x80) * 64 + (s3 as int - 0x80);
    assert v / 4096 == a * 64 + b && v / 262144 == a;
  }

  lemma Witness(s: seq<byte>, len: nat, min2: int, max2: int) returns (v: Scalar)
    requires 2 <= len <= |s| && Announces(s[0], len, min2, max2) && min2 <= s[1] <= max2
    requires forall j | 2 <= j < len :: 0x80 <= s[j] <= 0xBF
    ensures Encode(v) <= s && |Encode(v)| == len
  {
    if len == 2 {
      v := (s[0] as int - 0xC0) * 64 + (s[1] as int - 0x80);
      assert Encode(v) == [s[0], s[1]] == s[..2];
    } else if len == 3 {
      v := Witness3(s[0], s[1], s[2]);
      assert Encode(v) == s[..3];
    } else {
      v := Witness4(s[0], s[1], s[2], s[3]);
      assert Encode(v) == s[..4];
    }
  }

  lemma DecodeWitness(s: seq<byte>, len: nat, min2: int, max2: int)
    requires 2 <= len <= |s| && Announces(s[0], len, min2, max2) && min2 <= s[1] <= max2
    requires forall j | 2 <= j < len :: 0x80 <= s[j] <= 0xBF
    ensures Front(s) == len
  {
    var v := Witness(s, len, min2, max2);
    FrontIs(v, s);
  }

  /** `seq_len`: the length of what decodes at the front, or 0. */
  method SeqLen(s: seq<byte>) returns (len: nat)
    requires s != [] && s[0] != 0
    ensures len == Front(s)
  {
    var c := s[0];
    var min2, max2;
    if c < 0x80 {
      FrontIs(c, s);
      return 1;
    } else if 0xC2 <= c <= 0xDF {
      len, min2, max2 := 2, 0x80, 0xBF;
    } else if c == 0xE0 {
      len, min2, max2 := 3, 0xA0, 0xBF;
    } else if c == 0xED {
      len, min2, max2 := 3, 0x80, 0x9F;
    } else if 0xE1 <= c <= 0xEC || c == 0xEE || c == 0xEF {
      len, min2, max2 := 3, 0x80, 0xBF;
    } else if c == 0xF0 {
      len, min2, max2 := 4, 0x90, 0xBF;
    } else if 0xF1 <= c <= 0xF3 {
      len, min2, max2 := 4, 0x80, 0xBF;
    } else if c == 0xF4 {
      len, min2, max2 := 4, 0x80, 0x8F;
    } else {
      Undecodable(s, 0, 0, 0);
      return 0;
    }
    if |s| < len || s[1] < min2 || s[1] > max2 {
      Undecodable(s, len, min2, max2);
      return 0;
    }
    var k := 2;
    while k < len
      invariant 2 <= k <= len
      invariant forall j | 2 <= j < k :: 0x80 <= s[j] <= 0xBF
    {
      // (s[k] & 0xC0) != 0x80: the two high bits of a continuation byte are 10
      if s[k] / 64 != 2 {
        Undecodable(s, len, min2, max2);
        return 0;
      }
      k := k + 1;
    }
    DecodeWitness(s, len, min2, max2);
  }

  /** `ipc_utf8_valid`; None is the NULL pointer. */
  method IpcUtf8Valid(text: Option<CString>) returns (ok: bool)
    ensures ok <==> text.None? || Valid(text.value)
  {
    if text.None? {
      return true;
    }
    var s := text.value;
    var i := 0;
    while i < |s|
      invariant i <= |s| && (Valid(s) <==> Valid(s[i..]))
    {
      var len := SeqLen(s[i..]);
      ValidFront(s[i..]);
      if len == 0 {
        return false;
      }
      assert s[i..][len..] == s[i + len..];
      i := i + len;
    }
    assert EncodeAll([]) == [] == s[i..];
    return true;
  }

  /** What one turn writes, and how far it goes. */
  ghost function Piece(t: seq<byte>): seq<byte> {
    if Front(t) > 0 then t[..Front(t)] else REPLACEMENT
  }

  ghost function Stride(t: seq<byte>): (n: nat)
    requires t != []
    ensures 0 < n <= |t|
  {
    if Front(t) > 0 then Front(t) else 1
  }

  /** The loop as a recursion: what is written in the end, with `done` written and t to come. */
  ghost function RepairOnto(done: seq<byte>, t: seq<byte>): seq<byte>
    decreases |t|
  {
    if t == [] then done else RepairOnto(done + Piece(t), t[Stride(t)..])
  }

  lemma TurnOnto(done: seq<byte>, t: seq<byte>)
    requires t != []
    ensures RepairOnto(done + Piece(t), t[Stride(t)..]) == RepairOnto(done, t)
  {
  }

  lemma {:induction false} RepairOntoIsRepair(done: seq<byte>, t: seq<byte>)
    ensures RepairOnto(done, t) == done + Repair(t)
    decreases |t|
  {
    if t == [] {
      assert done + [] == done;
    } else {
      var piece, rest := Piece(t), t[Stride(t)..];
      RepairOntoIsRepair(done + piece, rest);
      assert Repair(t) == piece + Repair(rest);
      Regroup(done, piece, Repair(rest));
    }
  }

  lemma PieceAt(s: seq<byte>, i: nat, len: nat)
    requires i < |s| && len == Front(s[i..])
    ensures Piece(s[i..]) == if len > 0 then s[i..i + len] else REPLACEMENT
    ensures Stride(s[i..]) == if len > 0 then len else 1
    ensures s[i..][Stride(s[i..])..] == s[i + Stride(s[i..])..]
  {
    assert len > 0 ==> s[i..][..len] == s[i..i + len];
  }

  lemma WholeRepair(s: seq<byte>)
    ensures RepairOnto([], s) == Repair(s)
  {
    RepairOntoIsRepair([], s);
    assert [] + Repair(s) == Repair(s);
  }

  /** `memcpy` within bounds. */
  method CopyInto(out: array<byte>, at: nat, data: seq<byte>)
    requires at + |data| <= out.Length
    modifies out
    ensures out[..at + |data|] == old(out[..at]) + data
    ensures out[at + |data|..] == old(out[at + |data|..])
  {
    forall k | 0 <= k < |data| {
      out[at + k] := data[k];
    }
  }

  /** One turn of the loop: copy what decodes, or write U+FFFD for one byte where nothing does. */
  method RepairTurn(out: array<byte>, s: seq<byte>, i: nat, w: nat) returns (i': nat, w': nat)
    requires 0 !in s && i < |s| && w <= 3 * i && out.Length == 3 * |s| + 1
    modifies out
    ensures i < i' <= |s| && w' <= 3 * i'
    ensures s[i'..] == s[i..][Stride(s[i..])..] && out[..w'] == old(out[..w]) + Piece(s[i..])
  {
    var len := SeqLen(s[i..]);
    var piece := if len > 0 then s[i..i + len] else REPLACEMENT;
    PieceAt(s, i, len);
    i', w' := i + if len > 0 then len else 1, w + |piece|;
    CopyInto(out, w, piece);
  }

  /** `ipc_utf8_repair`: an owned, terminated copy; null for NULL or when `malloc` fails. */
  method IpcUtf8Repair(text: Option<CString>, mallocFails: bool) returns (out: array?<byte>, ghost o: nat)
    ensures out == null <==> text.None? || mallocFails
    ensures out != null ==> fresh(out) && out.Length == 3 * |text.value| + 1
    ensures out != null ==> o < out.Length && out[..o] == Repair(text.value) && out[o] == 0
  {
    out, o := null, 0;
    if text.None? || mallocFails {
      return;
    }
    var s := text.value;
    var buf := new byte[|s| * 3 + 1];
    var i: nat, w: nat := 0, 0;
    assert buf[..w] == [] && s[i..] == s;
    while i < |s|
      invariant i <= |s| && w <= 3 * i
      invariant RepairOnto(buf[..w], s[i..]) == RepairOnto([], s)
    {
      TurnOnto(buf[..w], s[i..]);
      i, w := RepairTurn(buf, s, i, w);
    }
    WholeRepair(s);
    buf[w] := 0;
    out, o := buf, w;
  }

  lemma {:induction false} RepairHasNoNul(s: CString)
    ensures 0 !in Repair(s)
    decreases |s|
  {
    if s != [] {
      RepairHasNoNul(s[if Front(s) == 0 then 1 else Front(s)..]);
    }
  }

  /** `strlen`: the repaired text holds no NUL, so it is read back whole. */
  method Strlen(a: array<byte>, ghost o: nat, ghost s: CString) returns (len: nat)
    requires o < a.Length && a[o] == 0 && a[..o] == Repair(s)
    ensures len == o
  {
    RepairHasNoNul(s);
    len := 0;
    while a[len] != 0
      invariant len <= o
      decreases o - len
    {
      len := len + 1;
    }
    assert forall k | 0 <= k < o :: a[..o][k] in Repair(s);
  }

  /** `ipc_utf8_string`: the text of the JSON string made of `s`; None when an allocation fails. */
  method IpcUtf8String(text: Option<CString>, repairFails: bool, createFails: bool) returns (r: Option<seq<byte>>)
    ensures r.Some? ==> Valid(r.value) && r.value == if text.None? then [] else Repair(text.value)
    ensures r.None? ==> createFails || (repairFails && text.Some? && !Valid(text.value))
  {
    if text.None? {
      assert EncodeAll([]) == [];
      return if createFails then None else Some([]);
    }
    RepairIsIdentityIffValid(text.value);
    RepairIsValid(text.value);
    var ok := IpcUtf8Valid(text);
    if ok {
      return if createFails then None else Some(text.value);
    }
    ghost var o;
    var fixed;
    fixed, o := IpcUtf8Repair(text, repairFails);
    if fixed == null {
      return None;
    }
    var len := Strlen(fixed, o, text.value);
    return if createFails then None else Some(fixed[..len]);
  }
}
