/** app/src/window_state.c: the remembered window geometry as one line of text. */
module WindowState {
  import opened Prelude
  import opened Text

  const MIN_SIZE: int := 320

  /** `quaero_window_state`. */
  datatype State = State(x: int, y: int, width: int, height: int, maximized: int)

  predicate IsInt(n: int) {
    INT_MIN <= n <= INT_MAX
  }

  /** The fields are C ints. */
  predicate InRange(s: State) {
    IsInt(s.x) && IsInt(s.y) && IsInt(s.width) && IsInt(s.height) && IsInt(s.maximized)
  }

  /** A state the parser accepts. */
  predicate Usable(s: State) {
    InRange(s) && s.width >= MIN_SIZE && s.height >= MIN_SIZE && (s.maximized == 0 || s.maximized == 1)
  }

  // ---------------------------------------------------------------- the code

  /** `next_int`: the value, and where the text goes on.  Out of the range of `long` is out of that of `int`. */
  function NextInt(text: string, p: nat): (r: Option<(int, nat)>)
    requires p <= |text|
    ensures r.Some? ==> IsInt(r.value.0) && r.value.1 <= |text|
  {
    var (v, end) := Strtol(text, p);
    if end == p || v < INT_MIN || v > INT_MAX then None else Some((v, end))
  }

  function Then(front: seq<int>, more: Option<(seq<int>, nat)>): Option<(seq<int>, nat)> {
    if more.None? then None else Some((front + more.value.0, more.value.1))
  }

  /** The next n numbers, and where the text goes on. */
  function ReadInts(text: string, p: nat, n: nat): (r: Option<(seq<int>, nat)>)
    requires p <= |text|
    ensures r.Some? ==> |r.value.0| == n && r.value.1 <= |text|
    decreases n, |text|
  {
    if n == 0 then Some(([], p))
    else
      var first := NextInt(text, p);
      if first.None? then None else Then([first.value.0], ReadInts(text, first.value.1, n - 1))
  }

  lemma ThenNothing(r: Option<(seq<int>, nat)>)
    ensures Then([], r) == r
  {
    if r.Some? {
      assert [] + r.value.0 == r.value.0;
    }
  }

  lemma ThenThen(front: seq<int>, n: int, r: Option<(seq<int>, nat)>)
    ensures Then(front, Then([n], r)) == Then(front + [n], r)
  {
    if r.Some? {
      assert front + ([n] + r.value.0) == front + [n] + r.value.0;
    }
  }

  function Parsed(text: string): Option<State> {
    var five := ReadInts(text, 0, 5);
    if five.None? then None
    else
      var (f, rest) := five.value;
      var s := State(f[0], f[1], f[2], f[3], f[4]);
      if PastSpaces(text, rest) == |text| && Usable(s) then Some(s) else None
  }

  /** The calls of `next_int`, which end at the first that fails. */
  method FiveInts(t: string) returns (fields: seq<int>, p: nat)
    ensures p <= |t| && |fields| <= 5 && forall k | 0 <= k < |fields| :: IsInt(fields[k])
    ensures ReadInts(t, 0, 5) == if |fields| == 5 then Some((fields, p)) else None
  {
    fields, p := [], 0;
    ThenNothing(ReadInts(t, 0, 5));
    while |fields| < 5
      invariant p <= |t| && |fields| <= 5 && forall k | 0 <= k < |fields| :: IsInt(fields[k])
      invariant ReadInts(t, 0, 5) == Then(fields, ReadInts(t, p, 5 - |fields|))
      decreases 5 - |fields|
    {
      var next := NextInt(t, p);
      if next.None? {
        return;
      }
      ThenThen(fields, next.value.0, ReadInts(t, next.value.1, 4 - |fields|));
      fields, p := fields + [next.value.0], next.value.1;
    }
    assert fields + [] == fields;
  }

  /** `quaero_window_state_parse`; None is NULL, and `was` what `*out` holds before. */
  method Parse(text: Option<string>, was: State) returns (ok: bool, out: State)
    ensures ok <==> text.Some? && Parsed(text.value).Some?
    ensures out == if ok then Parsed(text.value).value else was
  {
    ok, out := false, was;
    if text.None? {
      return;
    }
    var t := text.value;
    var fields, p := FiveInts(t);
    if |fields| < 5 {
      return;
    }
    var s := State(fields[0], fields[1], fields[2], fields[3], fields[4]);
    ghost var rest := p;
    while p < |t| && IsSpace(t[p])
      invariant rest <= p <= |t| && PastSpaces(t, rest) == PastSpaces(t, p)
    {
      p := p + 1;
    }
    if p < |t| {
      return;
    }
    if s.width < MIN_SIZE || s.height < MIN_SIZE || (s.maximized != 0 && s.maximized != 1) {
      return;
    }
    ok, out := true, s;
  }

  function Formatted(s: State): string {
    FormatInt(s.x) + " " + FormatInt(s.y) + " " + FormatInt(s.width) + " " + FormatInt(s.height) + " "
    + (if s.maximized != 0 then "1" else "0") + "\n"
  }

  /** `quaero_window_state_format`, into a buffer whose length is its capacity. */
  method Format(s: State, buf: array<char>) returns (n: nat)
    modifies buf
    ensures if |Formatted(s)| < buf.Length then n == |Formatted(s)| && buf[..n] == Formatted(s) && buf[n] == '\0'
            else n == 0 && (buf.Length > 0 ==> buf[0] == '\0')
  {
    if buf.Length == 0 {
      return 0;
    }
    var text := Formatted(s);
    var written := Min(|text|, buf.Length - 1);
    forall k | 0 <= k < written {
      buf[k] := text[k];
    }
    buf[written] := '\0';
    if |text| >= buf.Length {
      buf[0] := '\0';
      return 0;
    }
    return |text|;
  }

  // ---------------------------------------------------------------- round trip and bounds

  function Power10(k: nat): nat {
    if k == 0 then 1 else 10 * Power10(k - 1)
  }

  lemma {:induction false} DecimalLength(n: nat, k: nat, bound: nat)
    requires k >= 1 && n < bound && bound == Power10(k)
    ensures |Decimal(n)| <= k
    decreases k
  {
    if n >= 10 {
      DecimalLength(n / 10, k - 1, Power10(k - 1));
    }
  }

  lemma FormatIntLength(n: int)
    requires IsInt(n)
    ensures |FormatInt(n)| <= if n < 0 then 11 else 10
  {
    assert Power10(10) == 10_000_000_000 by {
      assert Power10(5) == 100_000;
      assert Power10(10) == 10 * (10 * (10 * (10 * (10 * Power10(5)))));
    }
    DecimalLength(if n < 0 then -n else n, 10, Power10(10));
  }

  /** Every line of an accepted state fits in 64 bytes with its terminator, with INT_MIN coordinates too. */
  lemma LineFits(s: State)
    requires Usable(s)
    ensures |Formatted(s)| <= 48
  {
    FormatIntLength(s.x);
    FormatIntLength(s.y);
    FormatIntLength(s.width);
    FormatIntLength(s.height);
  }

  /** A formatted int, after at most one space, is read back, up to whatever follows it. */
  lemma IntReadsBack(text: string, p: nat, w: nat, n: int)
    requires IsInt(n) && p <= w <= p + 1 && Holds(text, w, FormatInt(n)) && (w > p ==> text[p] == ' ')
    requires w + |FormatInt(n)| == |text| || !IsDigit(text[w + |FormatInt(n)|])
    ensures NextInt(text, p) == Some((n, w + |FormatInt(n)|))
  {
    if n < 0 {
      var d := Decimal(-n);
      DecimalReads(-n);
      HoldsBoth(text, w, "-", d);
      assert "-"[0] == '-' == text[w];
      StrtolReads(text, p, w, w + 1, d);
    } else {
      DecimalReads(n);
      StrtolReads(text, p, w, w, Decimal(n));
    }
  }

  lemma ReadNext(text: string, p: nat, v: int, next: nat, k: nat)
    requires p <= |text| && NextInt(text, p) == Some((v, next))
    ensures ReadInts(text, p, 1 + k) == Then([v], ReadInts(text, next, k))
  {
  }

  lemma Flag(m: int)
    requires m == 0 || m == 1
    ensures FormatInt(m) == if m != 0 then "1" else "0"
  {
    assert "" + "1" == "1" && "" + "0" == "0";
  }

  predicate AllSpaces(text: string, from: nat) {
    forall k | from <= k < |text| :: IsSpace(text[k])
  }

  lemma {:induction false} PastSpacesIff(text: string, from: nat)
    requires from <= |text|
    ensures PastSpaces(text, from) == |text| <==> AllSpaces(text, from)
    decreases |text| - from
  {
    if from < |text| && IsSpace(text[from]) {
      PastSpacesIff(text, from + 1);
    }
  }

  /** From p up to `end` the text is the pieces, each behind a space. */
  predicate Spells(text: string, p: nat, pieces: seq<string>, end: nat)
    decreases |pieces|
  {
    if pieces == [] then p == end <= |text|
    else
      && p < |text| && text[p] == ' ' && Holds(text, p + 1, pieces[0])
      && Spells(text, p + 1 + |pieces[0]|, pieces[1..], end)
  }

  predicate Formats(ns: seq<int>, pieces: seq<string>) {
    if ns == [] then pieces == []
    else IsInt(ns[0]) && pieces != [] && pieces[0] == FormatInt(ns[0]) && Formats(ns[1..], pieces[1..])
  }

  /** Formatted ints in a row are read back as they are. */
  lemma {:induction false} IntsReadBack(text: string, p: nat, ns: seq<int>, pieces: seq<string>, end: nat)
    requires Spells(text, p, pieces, end) && end < |text| && !IsDigit(text[end]) && Formats(ns, pieces)
    ensures p <= |text| && ReadInts(text, p, |ns|) == Some((ns, end))
    decreases |ns|
  {
    if ns != [] {
      var n, rest, next := ns[0], ns[1..], p + 1 + |pieces[0]|;
      assert Spells(text, next, pieces[1..], end) && (next == end || text[next] == ' ');
      IntReadsBack(text, p, p + 1, n);
      ReadNext(text, p, n, next, |rest|);
      IntsReadBack(text, next, rest, pieces[1..], end);
      assert [n] + rest == ns;
    }
  }

  /** The pieces each behind a space, and the end of the line. */
  function Tail(pieces: seq<string>): string {
    if pieces == [] then "\n" else " " + pieces[0] + Tail(pieces[1..])
  }

  lemma Join(front: string, piece: string, rest: string)
    ensures front + (" " + piece + rest) == front + " " + piece + rest
  {
  }

  lemma PartBehind(text: string, front: string, piece: string, rest: string)
    requires text == front + " " + piece + rest
    ensures |front| < |text| && text[|front|] == ' ' && Holds(text, |front| + 1, piece)
  {
    assert forall k | 0 <= k < |piece| :: text[|front| + 1 + k] == piece[k];
  }

  lemma JoinBehind(front: string, piece: string, rest: string, behind: string)
    ensures front + (" " + piece + rest) + behind == front + " " + piece + rest + behind
    ensures front + " " + piece + rest + behind == front + " " + piece + (rest + behind)
  {
    Join(front, piece, rest);
  }

  /** The tail stands behind `front`, whatever stands behind it. */
  lemma {:induction false} TailSpelled(text: string, front: string, pieces: seq<string>, behind: string)
    requires text == front + Tail(pieces) + behind
    ensures var end := |front| + |Tail(pieces)| - 1;
            0 <= end < |text| && text[end] == '\n' && Spells(text, |front|, pieces, end)
    decreases |pieces|
  {
    if pieces != [] {
      var longer, rest := front + " " + pieces[0], Tail(pieces[1..]);
      JoinBehind(front, pieces[0], rest, behind);
      PartBehind(text, front, pieces[0], rest + behind);
      TailSpelled(text, longer, pieces[1..], behind);
    }
  }

  lemma FrontHeld(text: string, front: string, rest: string, behind: string)
    requires text == front + rest + behind
    ensures Holds(text, 0, front)
  {
  }

  lemma LineSpelled(text: string, a: string, pieces: seq<string>, behind: string)
    requires text == a + Tail(pieces) + behind
    ensures var end := |a| + |Tail(pieces)| - 1;
            && 0 <= end < |text| && text[end] == '\n' && Holds(text, 0, a) && Spells(text, |a|, pieces, end)
  {
    FrontHeld(text, a, Tail(pieces), behind);
    TailSpelled(text, a, pieces, behind);
  }

  lemma LineReads(text: string, x: int, a: string, ns: seq<int>, pieces: seq<string>, end: nat)
    requires IsInt(x) && a == FormatInt(x) && Formats(ns, pieces) && end < |text| && text[end] == '\n'
    requires Holds(text, 0, a) && Spells(text, |a|, pieces, end)
    ensures ReadInts(text, 0, 1 + |ns|) == Some(([x] + ns, end))
  {
    assert |a| == end || text[|a|] == ' ';
    IntReadsBack(text, 0, 0, x);
    IntsReadBack(text, |a|, ns, pieces, end);
    ReadNext(text, 0, x, |a|, |ns|);
  }

  /** The line of five pieces is the first and a tail of four. */
  lemma LineIs(a: string, b: string, c: string, d: string, e: string)
    ensures a + Tail([b, c, d, e]) == a + " " + b + " " + c + " " + d + " " + e + "\n"
  {
    var ab := a + " " + b;
    var abc := ab + " " + c;
    assert [b, c, d, e][1..] == [c, d, e] && [c, d, e][1..] == [d, e] && [d, e][1..] == [e] && [e][1..] == [];
    Join(a, b, Tail([c, d, e]));
    Join(ab, c, Tail([d, e]));
    Join(abc, d, Tail([e]));
    Join(abc + " " + d, e, Tail([]));
  }

  lemma FormatsFour(y: int, w: int, h: int, m: int)
    requires IsInt(y) && IsInt(w) && IsInt(h) && IsInt(m)
    ensures Formats([y, w, h, m], [FormatInt(y), FormatInt(w), FormatInt(h), FormatInt(m)])
  {
    var b, c, d, e := FormatInt(y), FormatInt(w), FormatInt(h), FormatInt(m);
    assert [y, w, h, m][1..] == [w, h, m] && [w, h, m][1..] == [h, m] && [h, m][1..] == [m] && [m][1..] == [];
    assert [b, c, d, e][1..] == [c, d, e] && [c, d, e][1..] == [d, e] && [d, e][1..] == [e] && [e][1..] == [];
    assert Formats([], []) && Formats([m], [e]) && Formats([h, m], [d, e]) && Formats([w, h, m], [c, d, e]);
  }

  function Numbers(s: State): seq<int> {
    [s.x, s.y, s.width, s.height, s.maximized]
  }

  /** A line of which the flag is one that is formatted as itself. */
  predicate IsLine(s: State) {
    InRange(s) && (s.maximized == 0 || s.maximized == 1)
  }

  function Pieces(s: State): seq<string> {
    [FormatInt(s.y), FormatInt(s.width), FormatInt(s.height), FormatInt(s.maximized)]
  }

  lemma LineTail(s: State)
    requires IsLine(s)
    ensures Formatted(s) == FormatInt(s.x) + Tail(Pieces(s))
  {
    Flag(s.maximized);
    LineIs(FormatInt(s.x), FormatInt(s.y), FormatInt(s.width), FormatInt(s.height), FormatInt(s.maximized));
  }

  /** The line of a state is read as its five numbers, up to its last character. */
  lemma FiveReadBack(s: State, text: string, a: string, behind: string) returns (end: nat)
    requires IsLine(s) && a == FormatInt(s.x) && text == a + Tail(Pieces(s)) + behind
    ensures end + 1 == |a + Tail(Pieces(s))| && end < |text| && text[end] == '\n'
    ensures ReadInts(text, 0, 5) == Some((Numbers(s), end))
  {
    var ns := [s.y, s.width, s.height, s.maximized];
    LineSpelled(text, a, Pieces(s), behind);
    end := |a| + |Tail(Pieces(s))| - 1;
    FormatsFour(s.y, s.width, s.height, s.maximized);
    LineReads(text, s.x, a, ns, Pieces(s), end);
    assert [s.x] + ns == Numbers(s);
  }

  /** What a text of five numbers and something behind them is parsed to. */
  lemma ParsedFrom(text: string, s: State, end: nat)
    requires end <= |text| && ReadInts(text, 0, 5) == Some((Numbers(s), end))
    ensures Parsed(text) == if AllSpaces(text, end) && Usable(s) then Some(s) else None
  {
    PastSpacesIff(text, end);
  }

  lemma SpacesBehind(line: string, behind: string, end: nat)
    requires end + 1 == |line| && (line + behind)[end] == '\n'
    ensures AllSpaces(line + behind, end) <==> AllSpaces(behind, 0)
  {
    var text := line + behind;
    if AllSpaces(text, end) {
      forall k | 0 <= k < |behind|
        ensures IsSpace(behind[k])
      {
        assert text[|line| + k] == behind[k];
      }
    }
    if AllSpaces(behind, 0) {
      forall k | end <= k < |text|
        ensures IsSpace(text[k])
      {
        assert k > end ==> text[k] == behind[k - |line|];
      }
    }
  }

  /** The line of any five numbers, with anything behind it, is accepted exactly when they are a usable state and what
      is behind is white space; and then as that state. */
  lemma ParseDecides(s: State, behind: string)
    requires IsLine(s)
    ensures Parsed(Formatted(s) + behind) == if Usable(s) && AllSpaces(behind, 0) then Some(s) else None
  {
    var a := FormatInt(s.x);
    var line := a + Tail(Pieces(s));
    LineTail(s);
    var end := FiveReadBack(s, line + behind, a, behind);
    ParsedFrom(line + behind, s, end);
    SpacesBehind(line, behind, end);
  }

  /** parse(format(s)) = s for every state the parser accepts. */
  lemma FormatRoundTrips(s: State)
    requires Usable(s)
    ensures Parsed(Formatted(s)) == Some(s)
  {
    ParseDecides(s, "");
    assert Formatted(s) + "" == Formatted(s);
  }
}
