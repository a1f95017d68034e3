/** Connection ids as text: core/src/ipc/conn_methods.c, "c" and a decimal number. */
module ConnId {
  import opened Prelude
  import opened Text

  /** The id a text names: "c" and digits whose value is a positive int. */
  function Named(s: string): Option<int> {
    if |s| > 1 && s[0] == 'c' && DigitsIn(s, 1, |s|) && 1 <= Number(s, 1, |s|) <= INT_MAX then
      Some(Number(s, 1, |s|))
    else None
  }

  lemma {:induction false} NumberGrows(s: string, i: nat, k: nat, j: nat)
    requires k <= j <= |s|
    ensures Number(s, i, k) <= Number(s, i, j)
    decreases j
  {
    if k < j {
      NumberGrows(s, i, k, j - 1);
    }
  }

  /** `ipc_conn_id_parse`; None is NULL.  Its overflow test is exact: only what exceeds INT_MAX is refused. */
  method Parse(text: Option<string>) returns (id: Option<int>)
    ensures id == if text.Some? then Named(text.value) else None
  {
    if text.None? || |text.value| < 2 || text.value[0] != 'c' {
      return None;
    }
    var s := text.value;
    var value: int, p := 0, 1;
    while p < |s|
      invariant 1 <= p <= |s| && DigitsIn(s, 1, p) && value == Number(s, 1, p) && 0 <= value <= INT_MAX
    {
      if s[p] < '0' || s[p] > '9' {
        return None;
      }
      var digit := s[p] as int - '0' as int;
      if value > (INT_MAX - digit) / 10 {
        assert Number(s, 1, p + 1) > INT_MAX;
        NumberGrows(s, 1, p + 1, |s|);
        return None;
      }
      value := value * 10 + digit;
      p := p + 1;
    }
    return if value < 1 then None else Some(value);
  }

  /** `ipc_conn_id_format`. */
  function Format(id: nat): string {
    "c" + Decimal(id)
  }

  /** Every id handed out is read back as itself. */
  lemma FormatRoundTrips(id: nat)
    requires 1 <= id <= INT_MAX
    ensures Named(Format(id)) == Some(id)
  {
    var s, d := Format(id), Decimal(id);
    DecimalReads(id);
    assert Holds(s, 1, d);
    SameNumber(s, 1, d, |d|);
    assert forall k | 1 <= k < |s| :: s[k] == d[k - 1];
  }

  lemma SameEnd(a: string, b: string, last: char)
    ensures a + [last] == b + [last] <==> a == b
  {
    assert (a + [last])[..|a|] == a && (b + [last])[..|b|] == b;
  }

  /** The digits of `s` from 1 up to j are those of the decimal number they stand for exactly when they do not
      start with a zero, unless it is the only one. */
  lemma {:induction false} ShortestIff(s: string, j: nat)
    requires 1 < j && DigitsIn(s, 1, j)
    ensures Decimal(Number(s, 1, j)) == s[1..j] <==> s[1] != '0' || j == 2
    ensures s[1] != '0' ==> Number(s, 1, j) > 0
    ensures Number(s, 1, j) == 0 ==> s[1] == '0'
    decreases j
  {
    var n, front := Number(s, 1, j), Number(s, 1, j - 1);
    var last := s[j - 1];
    assert n == front * 10 + Digit(last) && '0' + Digit(last) as char == last;
    assert s[1..j] == s[1..j - 1] + [last];
    if j == 2 {
      assert s[1..j - 1] == "" && Decimal(n) == "" + [last];
    } else {
      ShortestIff(s, j - 1);
      if front == 0 {
        assert |Decimal(n)| == 1;
      } else {
        assert n / 10 == front && n % 10 == Digit(last) && Decimal(n) == Decimal(front) + [last];
        SameEnd(Decimal(front), s[1..j - 1], last);
        if front < 10 && j > 3 {
          assert |Decimal(front)| == 1;
        }
      }
    }
  }

  /** Texts other than the one handed out can name an id too: exactly those with leading zeros. */
  lemma NamesAreCanonicalIff(s: string)
    requires Named(s).Some?
    ensures Format(Named(s).value) == s <==> s[1] != '0'
  {
    ShortestIff(s, |s|);
    assert s == "c" + s[1..|s|];
    var d := Decimal(Named(s).value);
    assert ("c" + d)[1..] == d;
  }
}
