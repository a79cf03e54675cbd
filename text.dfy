/**
 * The pieces of Python's string formatting that the analysis report uses:
 * decimal rendering of integers, the `,` thousands separator, `<` / `>`
 * minimum-width padding, the `.0f` rounding of a quotient, and `str.join`.
 * `Split`, `StripCommas` and `ParseDecimal` are the inverses used to state
 * what the renderings mean.
 */
module Text {

  predicate IsDigit(c: char) {
    '0' <= c <= '9'
  }

  predicate AllDigits(s: string) {
    forall i :: 0 <= i < |s| ==> IsDigit(s[i])
  }

  function DigitChar(d: nat): (c: char)
    requires d < 10
    ensures IsDigit(c)
  {
    (48 + d) as char
  }

  function DigitValue(c: char): (d: nat)
    requires IsDigit(c)
    ensures d < 10 && DigitChar(d) == c
  {
    (c as int) - 48
  }

  /** The plain decimal form of a natural number, without leading zeros. */
  function Decimal(n: nat): (s: string)
    ensures |s| >= 1
    decreases n
  {
    if n < 10 then [DigitChar(n)] else Decimal(n / 10) + [DigitChar(n % 10)]
  }

  /** `Decimal(n)` is made of digits and starts with `0` only for zero itself. */
  lemma {:induction false} DecimalDigits(n: nat)
    ensures AllDigits(Decimal(n))
    ensures Decimal(n)[0] == '0' ==> n == 0
    decreases n
  {
    if n >= 10 {
      DecimalDigits(n / 10);
    }
  }

  /** Reads a string of digits back as a number. */
  function ParseDecimal(s: string): nat
    requires AllDigits(s)
    decreases |s|
  {
    if s == [] then 0 else 10 * ParseDecimal(s[..|s| - 1]) + DigitValue(s[|s| - 1])
  }

  lemma {:induction false} ParseDecimalOfDecimal(n: nat)
    ensures AllDigits(Decimal(n)) && ParseDecimal(Decimal(n)) == n
    decreases n
  {
    DecimalDigits(n);
    if n >= 10 {
      var s := Decimal(n);
      assert s[..|s| - 1] == Decimal(n / 10);
      ParseDecimalOfDecimal(n / 10);
    }
  }

  /** Python's `str(n)` for an integer. */
  function PlainInt(n: int): string {
    if n < 0 then "-" + Decimal(-n) else Decimal(n)
  }

  /** Reads `PlainInt` back. */
  function ParseInt(s: string): int
    requires IsPlainInt(s)
  {
    if |s| > 0 && s[0] == '-' then -(ParseDecimal(s[1..]) as int) else ParseDecimal(s)
  }

  predicate IsPlainInt(s: string) {
    (|s| > 0 && s[0] == '-' && AllDigits(s[1..])) || AllDigits(s)
  }

  lemma ParseIntOfPlainInt(n: int)
    ensures IsPlainInt(PlainInt(n)) && ParseInt(PlainInt(n)) == n
  {
    if n < 0 {
      var s := PlainInt(n);
      assert s[0] == '-' && s[1..] == Decimal(-n);
      ParseDecimalOfDecimal(-n);
    } else {
      ParseDecimalOfDecimal(n);
      assert PlainInt(n) == Decimal(n);
      assert IsDigit(PlainInt(n)[0]);
    }
  }

  /** Inserts a comma before every group of three digits counted from the right. */
  function Group(d: string): string
    decreases |d|
  {
    if |d| <= 3 then d else Group(d[..|d| - 3]) + "," + d[|d| - 3..]
  }

  /** Python's `format(n, ",")` for an integer `n`. */
  function Thousands(n: int): string {
    if n < 0 then "-" + Group(Decimal(-n)) else Group(Decimal(n))
  }

  /** `c` does not occur in `s`. */
  predicate Lacks(s: string, c: char) {
    forall i :: 0 <= i < |s| ==> s[i] != c
  }

  /** `str.split(sep)`: the pieces between the occurrences of `sep`. */
  function Split(s: string, sep: char): (parts: seq<string>)
    ensures |parts| >= 1
    decreases |s|
  {
    if s == [] then [""]
    else
      var rest := Split(s[1..], sep);
      if s[0] == sep then [""] + rest else [[s[0]] + rest[0]] + rest[1..]
  }

  lemma {:induction false} SplitWithout(s: string, sep: char)
    requires Lacks(s, sep)
    ensures Split(s, sep) == [s]
    decreases |s|
  {
    if s != [] {
      SplitWithout(s[1..], sep);
      assert [s[0]] + s[1..] == s;
    }
  }

  lemma {:induction false} SplitAround(x: string, sep: char, y: string)
    ensures Split(x + [sep] + y, sep) == Split(x, sep) + Split(y, sep)
    decreases |x|
  {
    if x == [] {
      assert x + [sep] + y == [sep] + y;
      assert ([sep] + y)[1..] == y;
    } else {
      var s := x + [sep] + y;
      assert s[1..] == x[1..] + [sep] + y;
      SplitAround(x[1..], sep, y);
    }
  }

  /** `"".join(parts)`. */
  function Concat(parts: seq<string>): string
    decreases |parts|
  {
    if parts == [] then "" else parts[0] + Concat(parts[1..])
  }

  lemma {:induction false} ConcatAppend(a: seq<string>, b: seq<string>)
    ensures Concat(a + b) == Concat(a) + Concat(b)
    decreases |a|
  {
    if a == [] {
      assert a + b == b;
    } else {
      assert (a + b)[1..] == a[1..] + b;
      ConcatAppend(a[1..], b);
    }
  }

  /** `s.replace(",", "")`, written as `"".join(s.split(","))`. */
  function StripCommas(s: string): string {
    Concat(Split(s, ','))
  }

  /**
   * The digit groups of `format(n, ",")` for a digit string `d`: a leading group of one
   * to three digits, then groups of exactly three, which put together give `d` back.
   */
  lemma {:induction false} GroupShape(d: string)
    requires |d| >= 1 && Lacks(d, ',')
    ensures var g := Split(Group(d), ',');
      Concat(g) == d && 1 <= |g[0]| <= 3 && forall i :: 1 <= i < |g| ==> |g[i]| == 3
    decreases |d|
  {
    if |d| <= 3 {
      SplitWithout(d, ',');
    } else {
      var k := |d| - 3;
      var head, tail := d[..k], d[k..];
      assert head + tail == d;
      assert Lacks(head, ',') by {
        forall i | 0 <= i < |head|
          ensures head[i] != ','
        {
          assert head[i] == d[i];
        }
      }
      assert Lacks(tail, ',') by {
        forall i | 0 <= i < |tail|
          ensures tail[i] != ','
        {
          assert tail[i] == d[k + i];
        }
      }
      GroupShape(head);
      var gh := Split(Group(head), ',');
      assert Group(d) == Group(head) + [','] + tail;
      SplitAround(Group(head), ',', tail);
      SplitWithout(tail, ',');
      var g := gh + [tail];
      assert Split(Group(d), ',') == g;
      ConcatAppend(gh, [tail]);
      assert Concat([tail]) == tail;
      assert g[0] == gh[0];
      forall i | 1 <= i < |g|
        ensures |g[i]| == 3
      {
        if i < |gh| {
          assert g[i] == gh[i];
        }
      }
    }
  }

  lemma SplitAfterOther(c: char, s: string, sep: char)
    requires c != sep
    ensures Concat(Split([c] + s, sep)) == [c] + Concat(Split(s, sep))
  {
    assert ([c] + s)[1..] == s;
  }

  /** Removing the separators from `format(n, ",")` gives `str(n)`, which reads back as `n`. */
  lemma ThousandsStripsToPlain(n: int)
    ensures StripCommas(Thousands(n)) == PlainInt(n)
    ensures IsPlainInt(StripCommas(Thousands(n))) && ParseInt(StripCommas(Thousands(n))) == n
  {
    var m := if n < 0 then -n else n;
    var d := Decimal(m);
    DecimalDigits(m);
    assert Lacks(d, ',');
    GroupShape(d);
    assert StripCommas(Group(d)) == d;
    if n < 0 {
      SplitAfterOther('-', Group(d), ',');
      assert Thousands(n) == [ '-' ] + Group(d);
    } else {
      assert Thousands(n) == Group(d);
    }
    ParseIntOfPlainInt(n);
  }

  /** Every group of `format(n, ",")` after the first has exactly three digits. */
  lemma ThousandsGroups(n: int)
    ensures var body := if n < 0 then Thousands(n)[1..] else Thousands(n);
      var g := Split(body, ',');
      1 <= |g[0]| <= 3 && forall i :: 1 <= i < |g| ==> |g[i]| == 3
  {
    var m := if n < 0 then -n else n;
    DecimalDigits(m);
    GroupShape(Decimal(m));
    if n < 0 {
      assert Thousands(n)[1..] == Group(Decimal(m));
    }
  }

  /** `"sep".join(lines)`. */
  function Join(lines: seq<string>, sep: char): string
    decreases |lines|
  {
    if |lines| == 0 then ""
    else if |lines| == 1 then lines[0]
    else lines[0] + [sep] + Join(lines[1..], sep)
  }

  /** Splitting a joined list at the separator gives the list back when no item holds the separator. */
  lemma {:induction false} SplitJoin(lines: seq<string>, sep: char)
    requires |lines| >= 1
    requires forall i :: 0 <= i < |lines| ==> Lacks(lines[i], sep)
    ensures Split(Join(lines, sep), sep) == lines
    decreases |lines|
  {
    var head := lines[0];
    assert Lacks(head, sep);
    SplitWithout(head, sep);
    if |lines| > 1 {
      var rest := lines[1..];
      forall i | 0 <= i < |rest|
        ensures Lacks(rest[i], sep)
      {
        assert rest[i] == lines[i + 1];
      }
      SplitJoin(rest, sep);
      assert Join(lines, sep) == head + [sep] + Join(rest, sep);
      SplitAround(head, sep, Join(rest, sep));
      assert [head] + rest == lines;
    }
  }

  function Repeat(c: char, n: int): (r: string)
    ensures |r| == (if n > 0 then n else 0)
  {
    seq(if n > 0 then n else 0, _ => c)
  }

  /** Python's `f"{s:<width}"`: pads on the right to at least `width`, never truncates. */
  function LJust(s: string, width: nat): (r: string)
    ensures |r| == (if |s| < width then width else |s|)
  {
    s + Repeat(' ', width - |s|)
  }

  /** Python's `f"{s:>width}"`: pads on the left to at least `width`, never truncates. */
  function RJust(s: string, width: nat): (r: string)
    ensures |r| == (if |s| < width then width else |s|)
  {
    Repeat(' ', width - |s|) + s
  }

  /** Left justification keeps `s` whole at the front and fills the rest with spaces. */
  lemma LJustShape(s: string, width: nat)
    ensures var r := LJust(s, width);
      r[..|s|] == s && forall i :: |s| <= i < |r| ==> r[i] == ' '
  {
    var r := LJust(s, width);
    assert r == s + Repeat(' ', width - |s|);
  }

  /** Right justification keeps `s` whole at the end and fills the front with spaces. */
  lemma RJustShape(s: string, width: nat)
    ensures var r := RJust(s, width);
      r[|r| - |s|..] == s && forall i :: 0 <= i < |r| - |s| ==> r[i] == ' '
  {
    var r := RJust(s, width);
    assert r == Repeat(' ', width - |s|) + s;
  }

  lemma LacksConcat(a: string, b: string, c: char)
    requires Lacks(a, c) && Lacks(b, c)
    ensures Lacks(a + b, c)
  {
    forall i | 0 <= i < |a + b|
      ensures (a + b)[i] != c
    {
      if i >= |a| {
        assert (a + b)[i] == b[i - |a|];
      }
    }
  }

  lemma LacksPadding(s: string, width: nat, c: char)
    requires Lacks(s, c) && c != ' '
    ensures Lacks(LJust(s, width), c) && Lacks(RJust(s, width), c)
  {
    LacksConcat(s, Repeat(' ', width - |s|), c);
    LacksConcat(Repeat(' ', width - |s|), s, c);
  }

  lemma LacksSuffix(s: string, i: nat, c: char)
    requires Lacks(s, c) && i <= |s|
    ensures Lacks(s[i..], c)
  {
    forall k | 0 <= k < |s| - i
      ensures s[i..][k] != c
    {
      assert s[i..][k] == s[i + k];
    }
  }

  /** `str(n)` of a natural number holds nothing but digits. */
  lemma DecimalLacks(n: nat, c: char)
    requires !IsDigit(c)
    ensures Lacks(Decimal(n), c)
  {
    DecimalDigits(n);
  }

  /** Grouping adds nothing but commas. */
  lemma {:induction false} GroupLacks(d: string, c: char)
    requires Lacks(d, c) && c != ','
    ensures Lacks(Group(d), c)
    decreases |d|
  {
    if |d| > 3 {
      var k := |d| - 3;
      assert Lacks(d[..k], c) by {
        forall i | 0 <= i < k
          ensures d[..k][i] != c
        {
          assert d[..k][i] == d[i];
        }
      }
      assert Lacks(d[k..], c) by {
        forall i | 0 <= i < 3
          ensures d[k..][i] != c
        {
          assert d[k..][i] == d[k + i];
        }
      }
      GroupLacks(d[..k], c);
      LacksConcat(Group(d[..k]), ",", c);
      LacksConcat(Group(d[..k]) + ",", d[k..], c);
    }
  }

  /** `format(n, ",")` holds only digits, commas and a leading minus sign. */
  lemma ThousandsLacks(n: int, c: char)
    requires !IsDigit(c) && c != ',' && c != '-'
    ensures Lacks(Thousands(n), c)
  {
    var m := if n < 0 then -n else n;
    DecimalDigits(m);
    GroupLacks(Decimal(m), c);
    if n < 0 {
      LacksConcat("-", Group(Decimal(m)), c);
    }
  }

  /** Removing the separators from `"-" + format(m, ",")` gives `"-"` and the digits of `m`. */
  lemma NegatedStripsToPlain(m: nat)
    ensures StripCommas("-" + Thousands(m)) == "-" + Decimal(m)
    ensures IsPlainInt("-" + Decimal(m)) && ParseInt("-" + Decimal(m)) == -(m as int)
  {
    ThousandsStripsToPlain(m);
    SplitAfterOther('-', Thousands(m), ',');
    assert ['-'] + Thousands(m) == "-" + Thousands(m);
    ParseDecimalOfDecimal(m);
    var s := "-" + Decimal(m);
    assert s[1..] == Decimal(m);
  }

  /** `a / b` rounded to the nearest integer, ties to the even one (the rounding of `.0f`). */
  function RoundHalfEven(a: nat, b: nat): nat
    requires b > 0
  {
    var q, r := a / b, a % b;
    if 2 * r < b then q
    else if 2 * r > b then q + 1
    else if q % 2 == 0 then q
    else q + 1
  }

  /** `RoundHalfEven` is a nearest integer to `a / b`, and the even one of two equally near. */
  lemma RoundHalfEvenNearest(a: nat, b: nat)
    requires b > 0
    ensures var q := RoundHalfEven(a, b);
      && 2 * (a - q * b) <= b && 2 * (q * b - a) <= b
      && (2 * (a - q * b) == b || 2 * (q * b - a) == b ==> q % 2 == 0)
  {
    var q0, r := a / b, a % b;
    assert a == q0 * b + r;
    assert (q0 + 1) * b == q0 * b + b;
  }

  /** Python's `format(num / den, ",.0f")` for a positive denominator, on exact rationals. */
  function FormatQuotient(num: int, den: nat): string
    requires den > 0
  {
    if num < 0 then "-" + Thousands(RoundHalfEven(-num, den)) else Thousands(RoundHalfEven(num, den))
  }
}
