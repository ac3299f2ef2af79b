/** Unsigned decimal numbers as text: printing, zero padding and parsing with a range check. */
module Decimal {
  import opened Wrappers

  const INT_MAX: nat := 0x7fff_ffff
  const UINT64_MAX: nat := 0xffff_ffff_ffff_ffff

  predicate IsDigit(c: char) {
    '0' <= c <= '9'
  }

  predicate AllDigits(s: string) {
    forall i :: 0 <= i < |s| ==> IsDigit(s[i])
  }

  function Digit(n: nat): (c: char)
    requires n < 10
    ensures IsDigit(c)
  {
    '0' + n as char
  }

  function Print(n: nat): (s: string)
    ensures s != [] && AllDigits(s)
  {
    if n < 10 then [Digit(n)] else Print(n / 10) + [Digit(n % 10)]
  }

  function Value(s: string): nat
    requires AllDigits(s)
  {
    if s == [] then 0 else 10 * Value(s[..|s| - 1]) + (s[|s| - 1] - '0') as nat
  }

  /** Conversion to an unsigned type: a non-empty run of digits whose value is in range. */
  function Parse(s: string, max: nat): Option<nat> {
    if s != [] && AllDigits(s) && Value(s) <= max then Some(Value(s)) else None
  }

  /** Zero padding on the left, as in `%05d`. */
  function Pad(s: string, width: nat): (r: string)
    ensures |r| == if |s| < width then width else |s|
    ensures AllDigits(s) ==> AllDigits(r)
    decreases width - |s|
  {
    if |s| >= width then s else Pad("0" + s, width)
  }

  /** The longest run of digits at the end of a text. */
  function TrailingDigits(s: string): (r: string)
    ensures AllDigits(r) && |r| <= |s| && r == s[|s| - |r|..]
  {
    if s != "" && IsDigit(s[|s| - 1]) then TrailingDigits(s[..|s| - 1]) + [s[|s| - 1]] else ""
  }

  lemma DigitExtendsRun(s: string, c: char)
    requires IsDigit(c)
    ensures TrailingDigits(s + [c]) == TrailingDigits(s) + [c]
  {
    assert (s + [c])[..|s|] == s;
  }

  lemma {:induction false} TrailingDigitsAfter(a: string, d: string)
    requires AllDigits(d) && (a == "" || !IsDigit(a[|a| - 1]))
    ensures TrailingDigits(a + d) == d
    decreases |d|
  {
    if d == "" {
      assert a + d == a;
    } else {
      hide TrailingDigits;
      var n := |d| - 1;
      TrailingDigitsAfter(a, d[..n]);
      DigitExtendsRun(a + d[..n], d[n]);
      LastDigit(a, d);
    }
  }

  lemma LastDigit(a: string, d: string)
    requires d != ""
    ensures a + d == (a + d[..|d| - 1]) + [d[|d| - 1]] && d == d[..|d| - 1] + [d[|d| - 1]]
  {
  }

  function Pow10(k: nat): (p: nat)
    ensures p > 0
  {
    if k == 0 then 1 else 10 * Pow10(k - 1)
  }

  lemma ValueAppend(s: string, c: char)
    requires AllDigits(s) && IsDigit(c)
    ensures AllDigits(s + [c]) && Value(s + [c]) == 10 * Value(s) + (c - '0') as nat
  {
    assert (s + [c])[..|s|] == s;
  }

  lemma {:induction false} ValueConcat(s: string, t: string)
    requires AllDigits(s) && AllDigits(t)
    ensures AllDigits(s + t) && Value(s + t) == Value(s) * Pow10(|t|) + Value(t)
    decreases |t|
  {
    if t == [] {
      assert s + t == s;
    } else {
      var u, c := t[..|t| - 1], t[|t| - 1];
      ValueConcat(s, u);
      ValueAppend(s + u, c);
      assert s + t == (s + u) + [c];
      TimesTen(Value(s), Pow10(|u|));
    }
  }

  lemma TimesTen(a: nat, b: nat)
    ensures a * (10 * b) == 10 * (a * b)
  {
  }

  lemma {:induction false} ValueOfPrint(n: nat)
    ensures Value(Print(n)) == n
  {
    if n < 10 {
      assert [Digit(n)][..0] == [];
    } else {
      ValueOfPrint(n / 10);
      ValueAppend(Print(n / 10), Digit(n % 10));
    }
  }

  lemma ParsePrint(n: nat, max: nat)
    ensures Parse(Print(n), max) == if n <= max then Some(n) else None
  {
    ValueOfPrint(n);
  }

  lemma PrintInjective(a: nat, b: nat)
    requires Print(a) == Print(b)
    ensures a == b
  {
    ValueOfPrint(a);
    ValueOfPrint(b);
  }

  lemma {:induction false} ValuePad(s: string, width: nat)
    requires AllDigits(s)
    ensures Value(Pad(s, width)) == Value(s)
    decreases width - |s|
  {
    if |s| < width {
      ValueConcat("0", s);
      assert "0"[..0] == [];
      assert Value("0") == 0;
      ValuePad("0" + s, width);
    }
  }

  lemma {:induction false} PrintLength(n: nat, k: nat)
    requires k > 0 && n < Pow10(k)
    ensures |Print(n)| <= k
    decreases k
  {
    if n >= 10 {
      PrintLength(n / 10, k - 1);
    }
  }

  lemma Print64Length(n: nat)
    requires n <= UINT64_MAX
    ensures |Print(n)| <= 20
  {
    assert Pow10(5) == 100_000;
    assert Pow10(10) == 10_000_000_000;
    assert Pow10(15) == 1_000_000_000_000_000;
    assert Pow10(20) == 100_000_000_000_000_000_000;
    PrintLength(n, 20);
  }
}
