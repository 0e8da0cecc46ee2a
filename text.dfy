/** The string formatting the library relies on: Int32.ToString, the "N0"
    format of the elapsed-milliseconds counter, string.Join and
    String.StartsWith. */
module Text {
  import opened Metadata

  function DigitChar(d: nat): (c: char)
    requires d < 10
    ensures '0' <= c <= '9'
  {
    "0123456789"[d]
  }

  /** The decimal digits of n, most significant first, without separators. */
  function Digits(n: nat): (s: string)
    ensures |s| > 0
    ensures forall i :: 0 <= i < |s| ==> '0' <= s[i] <= '9'
    decreases n
  {
    if n < 10 then [DigitChar(n)] else Digits(n / 10) + [DigitChar(n % 10)]
  }

  /** The value of a string of decimal digits; the inverse of Digits. */
  function DigitsValue(s: string): nat
  {
    if s == [] then 0
    else
      var c := s[|s| - 1];
      DigitsValue(s[..|s| - 1]) * 10 + (if '0' <= c <= '9' then (c - '0') as nat else 0)
  }

  lemma {:induction false} DigitsRoundTrip(n: nat)
    ensures DigitsValue(Digits(n)) == n
    decreases n
  {
    var s := Digits(n);
    if n >= 10 {
      DigitsRoundTrip(n / 10);
      assert s[..|s| - 1] == Digits(n / 10);
    }
  }

  /** Digits is injective: different counts never render alike. */
  lemma DigitsInjective(m: nat, n: nat)
    requires Digits(m) == Digits(n)
    ensures m == n
  {
    DigitsRoundTrip(m);
    DigitsRoundTrip(n);
  }

  /** Int32.ToString() */
  function IntText(i: int): string
  {
    if i < 0 then "-" + Digits(-i) else Digits(i)
  }

  /** The three digits of n < 1000, zero-padded. */
  function Pad3(n: nat): (s: string)
    requires n < 1000
    ensures |s| == 3
  {
    [DigitChar(n / 100), DigitChar(n / 10 % 10), DigitChar(n % 10)]
  }

  /** The "N0" format of a count: digits grouped by three with ','. */
  function Grouped(n: nat): string
    decreases n
  {
    if n < 1000 then Digits(n) else Grouped(n / 1000) + "," + Pad3(n % 1000)
  }

  /** The string with every ',' removed. */
  function WithoutCommas(s: string): string
  {
    if s == [] then []
    else WithoutCommas(s[..|s| - 1]) + (if s[|s| - 1] == ',' then [] else [s[|s| - 1]])
  }

  lemma {:induction false} WithoutCommasAppend(a: string, b: string)
    ensures WithoutCommas(a + b) == WithoutCommas(a) + WithoutCommas(b)
    decreases |b|
  {
    if b == [] {
      assert a + b == a;
    } else {
      var b' := b[..|b| - 1];
      assert (a + b)[..|a + b| - 1] == a + b';
      WithoutCommasAppend(a, b');
    }
  }

  /** A string without ',' is left as it is. */
  lemma {:induction false} WithoutCommasNone(s: string)
    requires forall i :: 0 <= i < |s| ==> s[i] != ','
    ensures WithoutCommas(s) == s
  {
    if s != [] {
      var init := s[..|s| - 1];
      WithoutCommasNone(init);
      assert init + [s[|s| - 1]] == s;
    }
  }

  /** Dividing 1000 * c + r (r < 1000) by ten keeps c in the upper part. */
  lemma DivideByTen(c: nat, r: nat)
    requires r < 1000
    ensures (1000 * c + r) / 10 == 100 * c + r / 10
    ensures (1000 * c + r) % 10 == r % 10
  {
    var n := 1000 * c + r;
    assert n == 10 * (100 * c + r / 10) + r % 10;
  }

  /** For n >= 1000 the last three digits of n are Pad3(n % 1000). */
  lemma DigitsSplit(n: nat)
    requires n >= 1000
    ensures Digits(n) == Digits(n / 1000) + Pad3(n % 1000)
  {
    var c, r := n / 1000, n % 1000;
    var d0, d1, d2 := r % 10, r / 10 % 10, r / 100;
    ThreeDigits(r);
    var b := 10 * c + d2;
    var a := 10 * b + d1;
    Positional(n, c, r, d0, d1, d2);
    DigitsSnoc(a, d0);
    DigitsSnoc(b, d1);
    DigitsSnoc(c, d2);
    var x, y, z := DigitChar(d2), DigitChar(d1), DigitChar(d0);
    assert Digits(n) == Digits(c) + [x] + [y] + [z];
    assert Pad3(r) == [x, y, z];
    AppendThree(Digits(c), x, y, z);
  }

  lemma AppendThree(s: string, x: char, y: char, z: char)
    ensures s + [x] + [y] + [z] == s + [x, y, z]
  {
  }

  lemma Positional(n: int, c: int, r: int, d0: int, d1: int, d2: int)
    requires n == 1000 * c + r && r == 100 * d2 + 10 * d1 + d0
    ensures n == 10 * (10 * (10 * c + d2) + d1) + d0
  {
  }

  /** The three decimal digits of r < 1000. */
  lemma ThreeDigits(r: nat)
    requires r < 1000
    ensures r == 100 * (r / 100) + 10 * (r / 10 % 10) + r % 10 && r / 100 < 10
  {
  }

  /** Appending a digit d to q renders as q's digits followed by d. */
  lemma DigitsSnoc(q: nat, d: nat)
    requires d < 10 && q >= 1
    ensures Digits(10 * q + d) == Digits(q) + [DigitChar(d)]
  {
    ShiftDigit(q, d);
  }

  lemma ShiftDigit(q: nat, d: nat)
    requires d < 10
    ensures (10 * q + d) / 10 == q && (10 * q + d) % 10 == d
  {
  }

  /** Dropping the group separators of the "N0" text gives the plain digits,
      so the grouped form loses nothing. */
  lemma {:induction false} GroupedIsDigits(n: nat)
    ensures WithoutCommas(Grouped(n)) == Digits(n)
    decreases n
  {
    if n < 1000 {
      WithoutCommasNone(Digits(n));
    } else {
      var p := Pad3(n % 1000);
      GroupedIsDigits(n / 1000);
      WithoutCommasAppend(Grouped(n / 1000) + ",", p);
      WithoutCommasAppend(Grouped(n / 1000), ",");
      assert WithoutCommas(",") == [] by {
        assert ","[..0] == [];
      }
      WithoutCommasNone(p);
      DigitsSplit(n);
    }
  }

  /** object.ToString() of a value as string.Join renders it: null is the
      empty string. */
  function Render(v: Value): string
  {
    match v
    case Null => ""
    case Int(i) => IntText(i)
    case Str(s) => s
  }

  /** string.Join(sep, parts) */
  function Join(sep: string, parts: seq<string>): (r: string)
    ensures parts == [] ==> r == ""
    ensures |parts| == 1 ==> r == parts[0]
  {
    if parts == [] then ""
    else if |parts| == 1 then parts[0]
    else Join(sep, parts[..|parts| - 1]) + sep + parts[|parts| - 1]
  }

  /** The arguments of a call rendered and joined with ",". */
  function RenderAll(vs: seq<Value>): (r: seq<string>)
    ensures |r| == |vs|
    ensures forall i :: 0 <= i < |vs| ==> r[i] == Render(vs[i])
  {
    if vs == [] then [] else RenderAll(vs[..|vs| - 1]) + [Render(vs[|vs| - 1])]
  }

  /** String.StartsWith(prefix) */
  predicate StartsWith(s: string, prefix: string)
  {
    |prefix| <= |s| && s[..|prefix|] == prefix
  }
}
