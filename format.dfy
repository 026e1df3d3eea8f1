/**
 * `formatNumberCommas` (src/utils/format.ts): `value.toString()` followed by a
 * global replace of the regular expression `\B(?=(\d{3})+(?!\d))` with `","`,
 * modelled over integer values.
 *
 * `FormatNumberCommas` follows the regular expression literally: it scans the
 * string and inserts a comma at each position where the pattern matches the
 * empty string. `Grouped` is an independent reference definition (split off the
 * last three digits, group the rest), and the lemmas prove that the two agree
 * and state the grouping properties.
 */
module Format {

  predicate IsDigit(c: char)
  {
    '0' <= c <= '9'
  }

  /** Characters of the class `\w`: letters, digits and underscore. */
  predicate IsWordChar(c: char)
  {
    IsDigit(c) || 'a' <= c <= 'z' || 'A' <= c <= 'Z' || c == '_'
  }

  predicate AllDigits(s: string)
  {
    forall i :: 0 <= i < |s| ==> IsDigit(s[i])
  }

  function DigitChar(d: nat): (c: char)
    requires d < 10
    ensures IsDigit(c)
  {
    ('0' as int + d) as char
  }

  /** The decimal digits of `n`, most significant first. */
  function Digits(n: nat): (r: string)
    ensures 1 <= |r| && AllDigits(r)
    decreases n
  {
    if n < 10 then [DigitChar(n)] else Digits(n / 10) + [DigitChar(n % 10)]
  }

  /** `value.toString()` for an integer value: an optional `-`, then the digits of its magnitude. */
  function IntToString(v: int): string
  {
    if v < 0 then "-" + Digits(-v) else Digits(v)
  }

  // ---------------------------------------------------------------------------
  // The regular expression, position by position
  // ---------------------------------------------------------------------------

  /** `s[p]` exists and is a word character (positions outside the string are not). */
  predicate WordAt(s: string, p: int)
  {
    0 <= p < |s| && IsWordChar(s[p])
  }

  /** `\b` holds at position `p`, between `s[p-1]` and `s[p]`; `\B` is its negation. */
  predicate WordBoundary(s: string, p: int)
  {
    WordAt(s, p - 1) != WordAt(s, p)
  }

  /** The length of the run of digits that starts at position `p`. */
  function DigitRun(s: string, p: nat): nat
    decreases |s| - p
  {
    if p < |s| && IsDigit(s[p]) then 1 + DigitRun(s, p + 1) else 0
  }

  /**
   * The pattern matches the empty string at `p`: `\B` holds there, and
   * `(\d{3})+(?!\d)` can match from `p`, that is, the digit run starting at `p`
   * is non-empty and a multiple of three long. (A match at the very end is
   * impossible: the lookahead needs a digit.)
   */
  predicate CommaAt(s: string, p: nat)
  {
    !WordBoundary(s, p) && DigitRun(s, p) > 0 && DigitRun(s, p) % 3 == 0
  }

  /** The output of the global replace for the first `j` characters of `s`. */
  function Replaced(s: string, j: nat): string
    requires j <= |s|
  {
    if j == 0 then []
    else Replaced(s, j - 1) + (if CommaAt(s, j - 1) then "," else "") + [s[j - 1]]
  }

  /**
   * `formatNumberCommas(value)` for an integer value: the global replace over
   * `value.toString()`. It is the sign followed by the magnitude's digits
   * grouped in threes from the right.
   */
  function FormatNumberCommas(value: int): (r: string)
    ensures value >= 0 ==> r == Grouped(Digits(value))
    ensures value < 0 ==> r == "-" + Grouped(Digits(-value))
  {
    var s := IntToString(value);
    if value < 0 then
      var d := Digits(-value);
      ReplacedNegative(d, |d|);
      ReplacedDigits(d);
      Replaced(s, |s|)
    else
      ReplacedDigits(Digits(value));
      Replaced(s, |s|)
  }

  // ---------------------------------------------------------------------------
  // Reference definition and string helpers
  // ---------------------------------------------------------------------------

  /** Digit groups of three counted from the right, separated by commas. */
  function Grouped(d: string): string
    decreases |d|
  {
    if |d| <= 3 then d else Grouped(d[..|d| - 3]) + "," + d[|d| - 3..]
  }

  /** `s` with every comma deleted. */
  function StripCommas(s: string): string
    decreases |s|
  {
    if s == [] then [] else (if s[0] == ',' then [] else [s[0]]) + StripCommas(s[1..])
  }

  function CountCommas(s: string): nat
    decreases |s|
  {
    if s == [] then 0 else (if s[0] == ',' then 1 else 0) + CountCommas(s[1..])
  }

  /** `s.split(',')`: the comma-separated pieces of `s`. */
  function SplitCommas(s: string): (groups: seq<string>)
    ensures |groups| >= 1
    decreases |s|
  {
    if s == [] then [[]]
    else
      var rest := SplitCommas(s[1..]);
      if s[0] == ',' then [[]] + rest else [[s[0]] + rest[0]] + rest[1..]
  }

  /** No comma at either end, no two commas next to each other. */
  predicate CommasSeparate(r: string)
  {
    && |r| >= 1
    && r[0] != ','
    && r[|r| - 1] != ','
    && forall i :: 0 <= i < |r| - 1 && r[i] == ',' ==> r[i + 1] != ','
  }

  predicate DigitsAndCommas(r: string)
  {
    forall i :: 0 <= i < |r| ==> IsDigit(r[i]) || r[i] == ','
  }

  // ---------------------------------------------------------------------------
  // The regular expression computes the reference grouping
  // ---------------------------------------------------------------------------

  lemma {:induction false} DigitRunOfDigits(s: string, p: nat)
    requires p <= |s|
    requires forall k :: p <= k < |s| ==> IsDigit(s[k])
    ensures DigitRun(s, p) == |s| - p
    decreases |s| - p
  {
    if p < |s| {
      DigitRunOfDigits(s, p + 1);
    }
  }

  /** A digit string of at most three digits: no position matches. */
  lemma {:induction false} ReplacedShort(d: string, j: nat)
    requires AllDigits(d) && |d| <= 3 && j <= |d|
    ensures Replaced(d, j) == d[..j]
  {
    if j > 0 {
      ReplacedShort(d, j - 1);
      DigitRunOfDigits(d, j - 1);
      assert !CommaAt(d, j - 1) by {
        if j - 1 == 0 {
          assert WordBoundary(d, 0);
        }
      }
      assert d[..j] == d[..j - 1] + [d[j - 1]];
    }
  }

  /** Two strings whose first `j` characters and match positions agree have the same output there. */
  lemma {:induction false} ReplacedAgree(s: string, t: string, j: nat)
    requires j <= |s| && j <= |t|
    requires forall k :: 0 <= k < j ==> s[k] == t[k] && CommaAt(s, k) == CommaAt(t, k)
    ensures Replaced(s, j) == Replaced(t, j)
  {
    if j > 0 {
      ReplacedAgree(s, t, j - 1);
    }
  }

  /** On a digit string, the regular expression inserts exactly the reference grouping's commas. */
  lemma {:induction false} ReplacedDigits(d: string)
    requires AllDigits(d) && |d| >= 1
    ensures Replaced(d, |d|) == Grouped(d)
    decreases |d|
  {
    var n := |d|;
    if n <= 3 {
      ReplacedShort(d, n);
      assert d[..n] == d;
    } else {
      var t := d[..n - 3];
      forall k | 0 <= k < n - 3
        ensures d[k] == t[k] && CommaAt(d, k) == CommaAt(t, k)
      {
        DigitRunOfDigits(d, k);
        DigitRunOfDigits(t, k);
        if k == 0 {
          assert WordBoundary(d, 0) && WordBoundary(t, 0);
        } else {
          assert !WordBoundary(d, k) && !WordBoundary(t, k);
        }
      }
      ReplacedAgree(d, t, n - 3);
      ReplacedDigits(t);
      DigitRunOfDigits(d, n - 3);
      DigitRunOfDigits(d, n - 2);
      DigitRunOfDigits(d, n - 1);
      assert !WordBoundary(d, n - 3);
      assert CommaAt(d, n - 3) && !CommaAt(d, n - 2) && !CommaAt(d, n - 1);
      assert d[n - 3..] == [d[n - 3]] + [d[n - 2]] + [d[n - 1]];
      calc {
        Replaced(d, n);
        Replaced(d, n - 1) + [d[n - 1]];
        Replaced(d, n - 2) + [d[n - 2]] + [d[n - 1]];
        Replaced(d, n - 3) + "," + [d[n - 3]] + [d[n - 2]] + [d[n - 1]];
        Grouped(t) + "," + d[n - 3..];
      }
    }
  }

  /** A leading `-` is never followed by a comma, and the digits after it are grouped as without it. */
  lemma {:induction false} ReplacedNegative(d: string, j: nat)
    requires AllDigits(d) && j <= |d|
    ensures Replaced("-" + d, j + 1) == "-" + Replaced(d, j)
  {
    var s := "-" + d;
    if j == 0 {
      assert DigitRun(s, 0) == 0;
      assert Replaced(s, 1) == Replaced(s, 0) + [s[0]];
    } else {
      ReplacedNegative(d, j - 1);
      DigitRunOfDigits(s, j);
      DigitRunOfDigits(d, j - 1);
      assert WordAt(s, j - 1) == WordAt(d, j - 2);
      assert WordAt(s, j) == WordAt(d, j - 1);
      assert CommaAt(s, j) == CommaAt(d, j - 1);
      assert s[j] == d[j - 1];
    }
  }

  // ---------------------------------------------------------------------------
  // Properties of the grouping
  // ---------------------------------------------------------------------------

  lemma {:induction false} StripAppend(a: string, b: string)
    ensures StripCommas(a + b) == StripCommas(a) + StripCommas(b)
    decreases |a|
  {
    if a == [] {
      assert a + b == b;
    } else {
      assert (a + b)[1..] == a[1..] + b;
      StripAppend(a[1..], b);
    }
  }

  lemma {:induction false} CountAppend(a: string, b: string)
    ensures CountCommas(a + b) == CountCommas(a) + CountCommas(b)
    decreases |a|
  {
    if a == [] {
      assert a + b == b;
    } else {
      assert (a + b)[1..] == a[1..] + b;
      CountAppend(a[1..], b);
    }
  }

  lemma {:induction false} SplitAppend(a: string, b: string)
    ensures SplitCommas(a + "," + b) == SplitCommas(a) + SplitCommas(b)
    decreases |a|
  {
    if a == [] {
      assert a + "," + b == [','] + b;
      assert ([','] + b)[1..] == b;
    } else {
      assert (a + "," + b)[1..] == a[1..] + "," + b;
      SplitAppend(a[1..], b);
    }
  }

  lemma {:induction false} DigitsHaveNoCommas(d: string)
    requires AllDigits(d)
    ensures StripCommas(d) == d && CountCommas(d) == 0 && SplitCommas(d) == [d]
    decreases |d|
  {
    if d != [] {
      DigitsHaveNoCommas(d[1..]);
      assert [d[0]] + d[1..] == d;
    }
  }

  /** Deleting the commas around a separating comma. */
  lemma {:induction false} StripAroundComma(g: string, t: string)
    ensures StripCommas(g + "," + t) == StripCommas(g) + StripCommas(t)
  {
    StripAppend(g + ",", t);
    StripAppend(g, ",");
    assert StripCommas(",") == [];
  }

  /** Deleting the commas of the grouping gives back the digits. */
  lemma {:induction false} GroupedStrips(d: string)
    requires AllDigits(d)
    ensures StripCommas(Grouped(d)) == d
    decreases |d|
  {
    if |d| <= 3 {
      DigitsHaveNoCommas(d);
    } else {
      var n := |d|;
      var g := Grouped(d[..n - 3]);
      var t := d[n - 3..];
      assert Grouped(d) == g + "," + t;
      GroupedStrips(d[..n - 3]);
      DigitsHaveNoCommas(t);
      StripAroundComma(g, t);
      assert d[..n - 3] + t == d;
    }
  }

  /** A grouping of `n` digits holds `(n - 1) / 3` commas. */
  lemma {:induction false} GroupedCommaCount(d: string)
    requires AllDigits(d) && |d| >= 1
    ensures CountCommas(Grouped(d)) == (|d| - 1) / 3
    decreases |d|
  {
    if |d| <= 3 {
      DigitsHaveNoCommas(d);
    } else {
      var n := |d|;
      GroupedCommaCount(d[..n - 3]);
      DigitsHaveNoCommas(d[n - 3..]);
      CountAppend(Grouped(d[..n - 3]) + ",", d[n - 3..]);
      CountAppend(Grouped(d[..n - 3]), ",");
      assert CountCommas(",") == 1;
    }
  }

  /** The grouping holds only digits and commas, and its commas only ever separate digits. */
  lemma {:induction false} GroupedShape(d: string)
    requires AllDigits(d) && |d| >= 1
    ensures CommasSeparate(Grouped(d)) && DigitsAndCommas(Grouped(d))
    ensures Grouped(d)[0] == d[0]
    decreases |d|
  {
    if |d| > 3 {
      var n := |d|;
      var g := Grouped(d[..n - 3]);
      var t := d[n - 3..];
      GroupedShape(d[..n - 3]);
      var r := g + "," + t;
      assert |r| == |g| + 4;
      forall i | 0 <= i < |r|
        ensures IsDigit(r[i]) || r[i] == ','
        ensures i < |g| ==> r[i] == g[i]
        ensures i == |g| ==> r[i] == ','
        ensures i > |g| ==> IsDigit(r[i])
      {
        if i > |g| {
          assert r[i] == t[i - |g| - 1];
        }
      }
      forall i | 0 <= i < |r| - 1 && r[i] == ','
        ensures r[i + 1] != ','
      {
        if i < |g| - 1 {
          assert r[i] == g[i] && r[i + 1] == g[i + 1];
        }
      }
    }
  }

  /** Every group after the first has exactly three digits; the first has one to three. */
  lemma {:induction false} GroupedSizes(d: string)
    requires AllDigits(d) && |d| >= 1
    ensures var g := SplitCommas(Grouped(d));
      && |g| == (|d| - 1) / 3 + 1
      && 1 <= |g[0]| <= 3
      && (forall i :: 1 <= i < |g| ==> |g[i]| == 3)
      && (forall i :: 0 <= i < |g| ==> AllDigits(g[i]))
    decreases |d|
  {
    if |d| <= 3 {
      DigitsHaveNoCommas(d);
    } else {
      var n := |d|;
      var t := d[n - 3..];
      GroupedSizes(d[..n - 3]);
      DigitsHaveNoCommas(t);
      SplitAppend(Grouped(d[..n - 3]), t);
      var g' := SplitCommas(Grouped(d[..n - 3]));
      assert SplitCommas(Grouped(d)) == g' + [t];
    }
  }

  // ---------------------------------------------------------------------------
  // What formatNumberCommas promises
  // ---------------------------------------------------------------------------

  /** Deleting all commas from the output gives back `value.toString()`. */
  lemma FormatStripsToString(v: int)
    ensures StripCommas(FormatNumberCommas(v)) == IntToString(v)
  {
    if v < 0 {
      GroupedStrips(Digits(-v));
      StripAppend("-", Grouped(Digits(-v)));
    } else {
      GroupedStrips(Digits(v));
    }
  }

  /**
   * The output never starts or ends with a comma and never holds two adjacent
   * commas; a `-` sign is never followed by a comma.
   */
  lemma FormatCommasSeparate(v: int)
    ensures v >= 0 ==> CommasSeparate(FormatNumberCommas(v))
    ensures v < 0 ==> FormatNumberCommas(v)[0] == '-' && CommasSeparate(FormatNumberCommas(v)[1..])
    ensures v < 0 ==> FormatNumberCommas(v)[1] != ','
  {
    if v < 0 {
      var g := Grouped(Digits(-v));
      GroupedShape(Digits(-v));
      assert ("-" + g)[1..] == g;
    } else {
      GroupedShape(Digits(v));
    }
  }

  /**
   * An integer whose magnitude has `n` digits gets `(n - 1) / 3` commas, and
   * its comma-separated groups after the first have three digits each, the
   * first one to three (after the sign, for a negative value).
   */
  lemma FormatGroups(v: int)
    ensures var d := Digits(if v < 0 then -v else v);
      var body := if v < 0 then FormatNumberCommas(v)[1..] else FormatNumberCommas(v);
      var g := SplitCommas(body);
      && CountCommas(FormatNumberCommas(v)) == (|d| - 1) / 3
      && |g| == (|d| - 1) / 3 + 1
      && 1 <= |g[0]| <= 3
      && (forall i :: 1 <= i < |g| ==> |g[i]| == 3)
      && (forall i :: 0 <= i < |g| ==> AllDigits(g[i]))
  {
    var d := Digits(if v < 0 then -v else v);
    GroupedCommaCount(d);
    GroupedSizes(d);
    if v < 0 {
      assert ("-" + Grouped(d))[1..] == Grouped(d);
      CountAppend("-", Grouped(d));
    }
  }

  /** Integers with at most three digits come back unchanged. */
  lemma FormatShortUnchanged(v: int)
    requires -1000 < v < 1000
    ensures FormatNumberCommas(v) == IntToString(v)
  {
    var m := if v < 0 then -v else v;
    assert |Digits(m)| <= 3 by {
      if m >= 100 {
        assert 10 <= m / 10 < 100 && m / 10 / 10 < 10;
        assert |Digits(m / 10 / 10)| == 1;
        assert |Digits(m / 10)| == 2;
      } else if m >= 10 {
        assert m / 10 < 10;
        assert |Digits(m / 10)| == 1;
      }
    }
  }

  /** A negative integer is `-` followed by the formatting of its absolute value. */
  lemma FormatNegative(v: int)
    requires v < 0
    ensures FormatNumberCommas(v) == "-" + FormatNumberCommas(-v)
  {
    var g := Grouped(Digits(-v));
    assert FormatNumberCommas(v) == "-" + g;
    assert FormatNumberCommas(-v) == g;
  }
}
