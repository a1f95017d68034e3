/** `quaero_menu_accel_gtk` of app/src/menu_model.c: an accelerator of the UI respelled for GTK, written
    into a bounded buffer. */
module Accelerator {
  import opened Prelude
  import Text

  // ---------------------------------------------------------------- pieces

  /** The place of the first '+', or the length. */
  function Plus(s: string): (n: nat)
    ensures n <= |s| && (n < |s| ==> s[n] == '+')
    ensures forall k | 0 <= k < n :: s[k] != '+'
  {
    if s == "" || s[0] == '+' then 0 else 1 + Plus(s[1..])
  }

  /** The length of the first piece: up to a '+', or one when the piece is that '+' itself. */
  function PieceLen(s: string): (n: nat)
    requires s != ""
    ensures 1 <= n <= |s|
  {
    if Plus(s) == 0 then 1 else Plus(s)
  }

  /** What is left after a piece and the '+' that joins it to the next. */
  function Rest(s: string): (r: string)
    requires s != ""
    ensures |r| < |s|
  {
    var n := PieceLen(s);
    if n < |s| && s[n] == '+' then s[n + 1..] else s[n..]
  }

  predicate IsMod(piece: string) {
    piece == "Ctrl" || piece == "Shift" || piece == "Alt"
  }

  function ModSpelling(piece: string): string {
    if piece == "Ctrl" then "<Control>" else if piece == "Shift" then "<Shift>" else "<Alt>"
  }

  /** `gdk_key_name`: the keys GDK spells differently. */
  function GdkName(key: string): Option<string> {
    match key
    case "Enter" => Some("Return")
    case "Esc" => Some("Escape")
    case "PageDown" => Some("Page_Down")
    case "PageUp" => Some("Page_Up")
    case "Backspace" => Some("BackSpace")
    case "Space" => Some("space")
    case _ => None
  }

  function KeySpelling(key: string): string
    requires key != ""
  {
    if GdkName(key).Some? then GdkName(key).value
    else if |key| == 1 then [Text.Lower(key[0])]
    else key
  }

  /** Whether the first piece of `s` is a modifier: one of the three, with something joined to it. */
  predicate StartsWithMod(s: string)
    requires s != ""
  {
    PieceLen(s) < |s| && IsMod(s[..PieceLen(s)])
  }

  /** The first piece, spelled as GTK does. */
  function FirstSpelling(s: string): string
    requires s != ""
  {
    if StartsWithMod(s) then ModSpelling(s[..PieceLen(s)]) else KeySpelling(s[..PieceLen(s)])
  }

  /** The whole translation, and whether it has a key. */
  function Translate(s: string): (r: (string, bool))
    decreases |s|
  {
    if s == "" then ("", false)
    else
      var (rest, key) := Translate(Rest(s));
      (FirstSpelling(s) + rest, key || !StartsWithMod(s))
  }

  // ---------------------------------------------------------------- the code

  /** `append`: into the buffer if it fits with its terminator. */
  method Append(buf: array<char>, len: nat, s: string) returns (ok: bool, len': nat)
    requires len < buf.Length
    modifies buf
    ensures ok <==> len + |s| + 1 <= buf.Length
    ensures ok ==> len' == len + |s| && buf[..len'] == old(buf[..len]) + s && buf[len'] == '\0'
    ensures !ok ==> len' == len && buf[..] == old(buf[..])
  {
    if len + |s| + 1 > buf.Length {
      return false, len;
    }
    forall k | 0 <= k < |s| {
      buf[len + k] := s[k];
    }
    buf[len + |s|] := '\0';
    return true, len + |s|;
  }

  /** The body of the loop of `quaero_menu_accel_gtk`, but for the writing: the piece at `p` as it is spelled, and
      where the next starts. */
  method NextPiece(s: string, p: nat) returns (text: string, isMod: bool, next: nat)
    requires p < |s|
    ensures p < next <= |s| && s[next..] == Rest(s[p..])
    ensures text == FirstSpelling(s[p..]) && isMod == StartsWithMod(s[p..])
  {
    var t := s[p..];
    var end := Plus(t);
    var size := end;
    // nothing stands before this '+', so it is a piece of its own
    if size == 0 {
      size, end := 1, 1;
    }
    var piece := t[..size];
    isMod := end < |t| && IsMod(piece);
    text := if isMod then ModSpelling(piece) else KeySpelling(piece);
    next := p + end + if end < |t| && t[end] == '+' then 1 else 0;
  }

  lemma Regroup(a: string, b: string, c: string)
    ensures a + (b + c) == a + b + c
  {
  }

  /** `done` is the translation of `s` up to `p`, with a key in it or not. */
  predicate Written(s: string, p: nat, done: string, key: bool) {
    p <= |s| && done + Translate(s[p..]).0 == Translate(s).0 && (key || Translate(s[p..]).1) == Translate(s).1
  }

  lemma NothingWritten(s: string)
    ensures Written(s, 0, "", false)
  {
    assert s[0..] == s && "" + Translate(s).0 == Translate(s).0;
  }

  lemma OneMoreWritten(s: string, p: nat, next: nat, done: string, key: bool)
    requires Written(s, p, done, key) && p < |s| && next <= |s| && s[next..] == Rest(s[p..])
    ensures Written(s, next, done + FirstSpelling(s[p..]), key || !StartsWithMod(s[p..]))
    ensures |done| + |FirstSpelling(s[p..])| <= |Translate(s).0|
  {
    var text, later := FirstSpelling(s[p..]), Translate(s[next..]).0;
    assert Translate(s[p..]) == (text + later, Translate(s[next..]).1 || !StartsWithMod(s[p..]));
    Regroup(done, text, later);
  }

  lemma AllWritten(s: string, done: string, key: bool)
    requires Written(s, |s|, done, key)
    ensures Translate(s) == (done, key)
  {
    assert s[|s|..] == "" && done + "" == done;
  }

  /** `quaero_menu_accel_gtk`; None is NULL, and the buffer's length its capacity.  Nothing is written past it. */
  method AccelGtk(accel: Option<string>, buf: array<char>) returns (n: nat)
    modifies buf
    ensures var (out, key) := Translate(if accel.Some? then accel.value else "");
            if key && |out| < buf.Length then n == |out| && buf[..n] == out && buf[n] == '\0' else n == 0
  {
    if accel.None? || accel.value == "" || buf.Length == 0 {
      return 0;
    }
    var s := accel.value;
    buf[0] := '\0';
    var len: nat, p: nat, haveKey := 0, 0, false;
    assert buf[..0] == "";
    NothingWritten(s);
    while p < |s|
      invariant len < buf.Length && buf[len] == '\0'
      invariant Written(s, p, buf[..len], haveKey)
      decreases |s| - p
    {
      var text, isMod, next := NextPiece(s, p);
      OneMoreWritten(s, p, next, buf[..len], haveKey);
      haveKey := haveKey || !isMod;
      var ok;
      ok, len := Append(buf, len, text);
      if !ok {
        return 0;
      }
      p := next;
    }
    AllWritten(s, buf[..len], haveKey);
    if !haveKey {
      buf[0] := '\0';
      return 0;
    }
    return len;
  }

  // ---------------------------------------------------------------- what it means

  /** The text the UI writes: modifiers, then the key. */
  function Spelled(mods: seq<string>, key: string): string {
    if mods == [] then key else mods[0] + "+" + Spelled(mods[1..], key)
  }

  function ModsSpelling(mods: seq<string>): string {
    if mods == [] then "" else ModSpelling(mods[0]) + ModsSpelling(mods[1..])
  }

  predicate AllMods(mods: seq<string>) {
    forall k | 0 <= k < |mods| :: IsMod(mods[k])
  }

  /** A key: any text without '+', or "+" itself. */
  predicate IsKey(key: string) {
    key != "" && ('+' !in key || key == "+")
  }

  predicate NoPlus(piece: string) {
    forall k | 0 <= k < |piece| :: piece[k] != '+'
  }

  lemma FrontPiece(piece: string, rest: string)
    requires piece != "" && NoPlus(piece)
    ensures var s := piece + "+" + rest;
            s[..|piece|] == piece && PieceLen(s) == |piece| < |s| && Rest(s) == rest
  {
    var s := piece + "+" + rest;
    assert forall k | 0 <= k < |piece| :: s[k] == piece[k];
    assert s[|piece|] == '+' && s[|piece| + 1..] == rest && s[..|piece|] == piece;
    assert Plus(s) == |piece|;
  }

  lemma ModHasNoPlus(m: string)
    requires IsMod(m)
    ensures m != "" && NoPlus(m)
  {
  }

  lemma ModFront(m: string, rest: string)
    requires IsMod(m)
    ensures var s := m + "+" + rest; s != "" && StartsWithMod(s) && s[..PieceLen(s)] == m && Rest(s) == rest
  {
    ModHasNoPlus(m);
    FrontPiece(m, rest);
  }

  lemma WholeKey(key: string)
    requires IsKey(key)
    ensures PieceLen(key) == |key| && Rest(key) == "" && !StartsWithMod(key) && FirstSpelling(key) == KeySpelling(key)
  {
    assert key != "+" ==> NoPlus(key) by {
      assert forall k | 0 <= k < |key| :: key[k] in key;
    }
    assert key[..|key|] == key;
  }

  lemma ModTranslates(m: string, rest: string)
    requires IsMod(m)
    ensures Translate(m + "+" + rest) == (ModSpelling(m) + Translate(rest).0, Translate(rest).1)
  {
    ModFront(m, rest);
  }

  /** Modifiers and a key come out as GTK spells each of them, in order; "+" is a key like any other. */
  lemma {:induction false} SpelledTranslates(mods: seq<string>, key: string)
    requires AllMods(mods) && IsKey(key)
    ensures Translate(Spelled(mods, key)) == (ModsSpelling(mods) + KeySpelling(key), true)
    decreases |mods|
  {
    if mods == [] {
      WholeKey(key);
      assert Translate(key) == (KeySpelling(key) + "", true);
      assert KeySpelling(key) + "" == KeySpelling(key) == "" + KeySpelling(key);
    } else {
      var m, rest := mods[0], Spelled(mods[1..], key);
      ModFront(m, rest);
      SpelledTranslates(mods[1..], key);
      ModTranslates(m, rest);
      Regroup(ModSpelling(m), ModsSpelling(mods[1..]), KeySpelling(key));
    }
  }

  lemma {:induction false} OnlyModifiersHaveNoKey(mods: seq<string>)
    requires AllMods(mods)
    ensures !Translate(Spelled(mods, "")).1
    decreases |mods|
  {
    if mods != [] {
      ModTranslates(mods[0], Spelled(mods[1..], ""));
      OnlyModifiersHaveNoKey(mods[1..]);
    }
  }

  lemma {:induction false} WithoutKeyOnlyModifiers(s: string) returns (mods: seq<string>)
    requires !Translate(s).1
    ensures AllMods(mods) && s == Spelled(mods, "")
    decreases |s|
  {
    mods := [];
    if s != "" {
      var n := PieceLen(s);
      var rest := WithoutKeyOnlyModifiers(Rest(s));
      mods := [s[..n]] + rest;
      assert s[n] == '+' && s == s[..n] + "+" + Rest(s);
      assert mods[1..] == rest;
    }
  }

  /** A text has no key exactly when it is modifiers each followed by a '+' and nothing more: so a '+' at
      the end of "Ctrl+" is not a key, while the one at the end of "Ctrl++" is. */
  lemma NoKeyIffOnlyModifiers(s: string)
    ensures !Translate(s).1 <==> exists mods :: AllMods(mods) && s == Spelled(mods, "")
  {
    if !Translate(s).1 {
      var mods := WithoutKeyOnlyModifiers(s);
    }
    if mods :| AllMods(mods) && s == Spelled(mods, "") {
      OnlyModifiersHaveNoKey(mods);
    }
  }

  lemma PlusIsAKey()
    ensures Translate("+") == ("+", true)
  {
    WholeKey("+");
    assert KeySpelling("+") == "+" && "+" + "" == "+";
    assert Translate(Rest("+")) == ("", false);
  }

  /** A modifier and a '+' have no key; with one more '+' that one is the key. */
  lemma TrailingPlus(m: string)
    requires IsMod(m)
    ensures !Translate(m + "+").1
    ensures Translate(m + "+" + "+") == (ModSpelling(m) + "+", true)
  {
    ModTranslates(m, "");
    assert m + "+" + "" == m + "+";
    ModTranslates(m, "+");
    PlusIsAKey();
  }

  /** A key comes out as itself but for the six that GDK spells its own way, and a single capital, which comes out
      small; so a key that GDK does not rename and that is no capital is left alone. */
  lemma KeySpellings(key: string)
    requires key != ""
    ensures KeySpelling("Enter") == "Return" && KeySpelling("Esc") == "Escape" && KeySpelling("Space") == "space"
    ensures KeySpelling("PageUp") == "Page_Up" && KeySpelling("PageDown") == "Page_Down"
    ensures KeySpelling("Backspace") == "BackSpace"
    ensures KeySpelling(key) != key ==>
              key in {"Enter", "Esc", "Space", "PageUp", "PageDown", "Backspace"}
              || (|key| == 1 && 'A' <= key[0] <= 'Z' && KeySpelling(key) == [key[0] - 'A' + 'a'])
  {
    if |key| == 1 {
      assert key == [key[0]];
    }
  }

  /** A modifier is spelled in angle brackets. */
  lemma ModSpellings(m: string)
    requires IsMod(m)
    ensures ModSpelling(m) == if m == "Ctrl" then "<Control>" else "<" + m + ">"
  {
    assert "<" + "Shift" + ">" == "<Shift>" && "<" + "Alt" + ">" == "<Alt>";
  }
}
