/** Characters and decimal text as the C library reads and writes them.  Texts are read from a position on. */
module Text {
  predicate IsSpace(c: char) {
    c == ' ' || c == '\t' || c == '\n' || c == '\U{000B}' || c == '\U{000C}' || c == '\r'
  }

  predicate IsDigit(c: char) {
    '0' <= c <= '9'
  }

  function Digit(c: char): (d: nat)
    ensures d <= 9
  {
    if IsDigit(c) then c as int - '0' as int else 0
  }

  /** `tolower` in the C locale. */
  function Lower(c: char): char {
    if 'A' <= c <= 'Z' then c - 'A' + 'a' else c
  }

  predicate DigitsIn(s: string, i: nat, j: nat) {
    i <= j <= |s| && forall k | i <= k < j :: IsDigit(s[k])
  }

  /** Where the white space at i ends. */
  function PastSpaces(s: string, i: nat): (j: nat)
    requires i <= |s|
    ensures i <= j <= |s|
    decreases |s| - i
  {
    if i < |s| && IsSpace(s[i]) then PastSpaces(s, i + 1) else i
  }

  /** Where the digits at i end. */
  function PastDigits(s: string, i: nat): (j: nat)
    requires i <= |s|
    ensures i <= j <= |s|
    decreases |s| - i
  {
    if i < |s| && IsDigit(s[i]) then PastDigits(s, i + 1) else i
  }

  /** The number that the digits from i up to j stand for. */
  function Number(s: string, i: nat, j: nat): nat
    requires j <= |s|
  {
    if j <= i then 0 else Number(s, i, j - 1) * 10 + Digit(s[j - 1])
  }

  /** `strtol` in base 10, at i: the value, and where it ends; there is no number if it ends where it began. */
  function Strtol(s: string, i: nat): (r: (int, nat))
    requires i <= |s|
    ensures i <= r.1 <= |s|
  {
    var w := PastSpaces(s, i);
    var start := if w < |s| && (s[w] == '-' || s[w] == '+') then w + 1 else w;
    var end := PastDigits(s, start);
    var v: int := Number(s, start, end);
    if end == start then (0, i) else (if s[w] == '-' then -v else v, end)
  }

  lemma {:induction false} DigitsEnd(s: string, i: nat, j: nat)
    requires DigitsIn(s, i, j) && (j == |s| || !IsDigit(s[j]))
    ensures PastDigits(s, i) == j
    decreases j - i
  {
    if i < j {
      DigitsEnd(s, i + 1, j);
    }
  }

  /** `piece` stands in `s` at i. */
  predicate Holds(s: string, i: nat, piece: string) {
    i + |piece| <= |s| && forall k {:trigger piece[k]} | 0 <= k < |piece| :: s[i + k] == piece[k]
  }

  lemma HoldsBoth(s: string, i: nat, a: string, b: string)
    requires Holds(s, i, a + b)
    ensures Holds(s, i, a) && Holds(s, i + |a|, b)
  {
    assert forall k | 0 <= k < |a| :: (a + b)[k] == a[k];
    assert forall k | 0 <= k < |b| :: s[i + |a| + k] == (a + b)[|a| + k] == b[k];
  }

  lemma {:induction false} SameNumber(s: string, i: nat, piece: string, j: nat)
    requires Holds(s, i, piece) && j <= |piece|
    ensures Number(s, i, i + j) == Number(piece, 0, j)
    decreases j
  {
    if j > 0 {
      SameNumber(s, i, piece, j - 1);
      assert s[i + (j - 1)] == piece[j - 1];
    }
  }

  /** `strtol` behind at most one space and perhaps a minus sign, where the digits of a number follow. */
  lemma StrtolReads(text: string, p: nat, w: nat, start: nat, d: string)
    requires p <= w <= p + 1 && w <= start <= w + 1 && d != "" && Holds(text, start, d) && DigitsIn(d, 0, |d|)
    requires (w > p ==> text[p] == ' ') && (start > w ==> text[w] == '-')
    requires start + |d| == |text| || !IsDigit(text[start + |d|])
    ensures Strtol(text, p)
         == (if start > w then -(Number(d, 0, |d|) as int) else Number(d, 0, |d|) as int, start + |d|)
  {
    var end := start + |d|;
    assert forall k | start <= k < end :: text[k] == d[k - start];
    DigitsEnd(text, start, end);
    SameNumber(text, start, d, |d|);
    assert text[start] == d[0] && IsDigit(d[0]);
    assert PastSpaces(text, w) == w;
  }

  /** `%d` for a number that is not negative. */
  function Decimal(n: nat): (s: string)
    ensures s != ""
  {
    (if n < 10 then "" else Decimal(n / 10)) + ['0' + (n % 10) as char]
  }

  lemma {:induction false} DecimalReads(n: nat)
    ensures var s := Decimal(n); DigitsIn(s, 0, |s|) && Number(s, 0, |s|) == n
  {
    var front, last := if n < 10 then "" else Decimal(n / 10), '0' + (n % 10) as char;
    var s := front + [last];
    assert Decimal(n) == s && Digit(last) == n % 10 && IsDigit(last);
    if n >= 10 {
      DecimalReads(n / 10);
    }
    assert Holds(s, 0, front);
    SameNumber(s, 0, front, |front|);
    assert s[|s| - 1] == last;
  }

  /** `%d`. */
  function FormatInt(n: int): string {
    if n < 0 then "-" + Decimal(-n) else Decimal(n)
  }

  /** Decimal text is read back whole. */
  lemma StrtolOfDecimal(n: nat)
    ensures Strtol(Decimal(n), 0) == (n, |Decimal(n)|)
  {
    DecimalReads(n);
    StrtolReads(Decimal(n), 0, 0, 0, Decimal(n));
  }
}
