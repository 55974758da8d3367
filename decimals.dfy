/** Numbers as the totals handle them: `parseFloat` of a stripped amount text, read as an exact
    decimal (or NaN), `toFixed(2)`, and the thousands separators of ContractService.ts written
    by `replace(/\B(?=(\d{3})+(?!\d))/g, ',')`. */
module Decimals {
  import opened Options
  import opened Strings
  import opened Patterns
  import opened Numerals

  /** A JavaScript number as the totals use it: an exact decimal, or NaN. */
  datatype Num = Finite(value: real) | NaN

  /** The value of fraction digits read after a dot. */
  function FractionValue(f: seq<Digit>): (r: real)
    ensures 0.0 <= r < 1.0
  {
    if f == [] then 0.0 else (f[0] as real + FractionValue(f[1..])) / 10.0
  }

  function ValueOf(a: Amount): real
  {
    a.whole as real + FractionValue(a.fraction)
  }

  /** `parseFloat` of a text left with digits, dots and minus signs (or percent signs): an
      optional leading minus, then the unsigned number; NaN when no number starts there. */
  function ParseNumber(t: string): (r: Num)
    ensures r.Finite? && (t == [] || t[0] != '-') ==> r.value >= 0.0
  {
    if |t| > 0 && t[0] == '-' then
      match ParseFloat(t[1..])
      case Some(a) => Finite(-ValueOf(a))
      case None => NaN
    else
      match ParseFloat(t)
      case Some(a) => Finite(ValueOf(a))
      case None => NaN
  }

  // ---------------------------------------------------------------- toFixed(2)

  /** The number of hundredths nearest to `x`, the larger one on a tie. */
  function Hundredths(x: real): (n: nat)
    requires x >= 0.0
    ensures n as real - 0.5 <= x * 100.0 < n as real + 0.5
  {
    (x * 100.0 + 0.5).Floor
  }

  /** `n` hundredths printed with two decimals. */
  function FixedDigits(n: nat): (r: string)
    ensures |r| >= 4
  {
    NatToString(n / 100) + "." + [DigitChar(n / 10 % 10), DigitChar(n % 10)]
  }

  /** `x.toFixed(2)`: a minus sign for a negative number, NaN printed as such. */
  function ToFixed(x: Num): string
  {
    match x
    case NaN => "NaN"
    case Finite(v) => if v < 0.0 then "-" + FixedDigits(Hundredths(-v)) else FixedDigits(Hundredths(v))
  }

  // ---------------------------------------------------------------- thousands separators

  /** `\w`. */
  predicate WordChar(c: char)
  {
    IsDigit(c) || 'a' <= c <= 'z' || 'A' <= c <= 'Z' || c == '_'
  }

  /** Whether `\B(?=(\d{3})+(?!\d))` matches at position `p`: the character before is a word
      character, as the digit after it is, and the digits from `p` on come in a positive number
      of complete threes. */
  predicate CommaAt(s: string, p: nat)
    requires p <= |s|
  {
    0 < p < |s| && WordChar(s[p - 1]) && RunEnd(s, p, IsDigit) > p && (RunEnd(s, p, IsDigit) - p) % 3 == 0
  }

  /** The text from position `p` on, a comma put before every position where the pattern
      matches in `s`. */
  function ThousandsFrom(s: string, p: nat): string
    requires p <= |s|
    decreases |s| - p
  {
    if p == |s| then "" else (if CommaAt(s, p) then "," else "") + [s[p]] + ThousandsFrom(s, p + 1)
  }

  function Thousands(s: string): string
  {
    ThousandsFrom(s, 0)
  }

  /** Deleting the commas from a comma-free text with separators gives the text back. */
  lemma {:induction false} ThousandsFromRemove(s: string, p: nat)
    requires p <= |s|
    requires NoChar(s, ',')
    ensures RemoveChar(ThousandsFrom(s, p), ',') == s[p..]
    decreases |s| - p
  {
    if p < |s| {
      ThousandsFromRemove(s, p + 1);
      var rest := ThousandsFrom(s, p + 1);
      assert s[p] != ',';
      assert RemoveChar([s[p]] + rest, ',') == [s[p]] + RemoveChar(rest, ',') by {
        assert ([s[p]] + rest)[1..] == rest;
      }
      if CommaAt(s, p) {
        assert ([','] + [s[p]] + rest)[1..] == [s[p]] + rest;
      } else {
        assert "" + [s[p]] + rest == [s[p]] + rest;
      }
      assert s[p..] == [s[p]] + s[p + 1..];
    }
  }

  lemma ThousandsRemove(s: string)
    requires NoChar(s, ',')
    ensures RemoveChar(Thousands(s), ',') == s
  {
    ThousandsFromRemove(s, 0);
    assert s[0..] == s;
  }

  lemma {:induction false} KeepNumericAppend(a: string, b: string)
    ensures KeepNumeric(a + b) == KeepNumeric(a) + KeepNumeric(b)
    decreases |b|
  {
    if b == [] {
      assert a + b == a;
    } else {
      assert (a + b)[..|a + b| - 1] == a + b[..|b| - 1];
      KeepNumericAppend(a, b[..|b| - 1]);
    }
  }

  lemma {:induction false} KeepNumericThousandsFrom(s: string, p: nat)
    requires p <= |s|
    ensures KeepNumeric(ThousandsFrom(s, p)) == KeepNumeric(s[p..])
    decreases |s| - p
  {
    if p < |s| {
      KeepNumericThousandsFrom(s, p + 1);
      var rest := ThousandsFrom(s, p + 1);
      var comma := if CommaAt(s, p) then "," else "";
      assert KeepNumeric(comma) == "" by {
        if comma != "" {
          assert comma[..0] == [];
        }
      }
      KeepNumericAppend(comma + [s[p]], rest);
      KeepNumericAppend(comma, [s[p]]);
      assert s[p..] == [s[p]] + s[p + 1..];
      KeepNumericAppend([s[p]], s[p + 1..]);
    }
  }

  /** The separators are not numeric, so stripping the text to digits and dots undoes them and
      the converter reads a formatted total as it reads the plain one. */
  lemma ThousandsInWords(s: string)
    ensures KeepNumeric(Thousands(s)) == KeepNumeric(s)
    ensures AmountInWords(Thousands(s)) == AmountInWords(s)
  {
    KeepNumericThousandsFrom(s, 0);
    assert s[0..] == s;
  }

  // ---------------------------------------------------------------- where the commas go

  lemma {:induction false} NatToStringDigits(m: nat)
    ensures AllDigits(NatToString(m))
    ensures DecimalValue(NatToString(m)) == m
    decreases m
  {
    var s := NatToString(m);
    DigitChars(m % 10);
    if m >= 10 {
      NatToStringDigits(m / 10);
      assert s[..|s| - 1] == NatToString(m / 10);
    } else {
      assert s[..|s| - 1] == [];
    }
  }

  lemma DigitChars(d: nat)
    requires d < 10
    ensures DigitValue(DigitChar(d)) == d
  {
  }

  /** The shape of a printed total: the integer digits, the dot, two digits. */
  lemma FixedShape(n: nat)
    ensures var w := NatToString(n / 100); var s := FixedDigits(n);
      |s| == |w| + 3 && s[..|w|] == w && s[|w|] == '.' &&
      (forall k :: 0 <= k < |w| ==> IsDigit(s[k])) &&
      IsDigit(s[|w| + 1]) && IsDigit(s[|w| + 2])
  {
    var w := NatToString(n / 100);
    var s := FixedDigits(n);
    NatToStringDigits(n / 100);
    assert s[..|w|] == w;
    assert forall k :: 0 <= k < |w| ==> s[k] == w[k];
  }

  /** A total printed with two decimals gets a comma before exactly those integer digits that
      have a positive multiple of three digits from them to the dot. */
  lemma ThousandsPlaces(n: nat, p: nat)
    requires p < |FixedDigits(n)|
    ensures CommaAt(FixedDigits(n), p) <==>
      0 < p < |NatToString(n / 100)| && (|NatToString(n / 100)| - p) % 3 == 0
  {
    FixedShape(n);
    var w := NatToString(n / 100);
    var s := FixedDigits(n);
    if p < |w| {
      RunEndAt(s, p, |w|, IsDigit);
    } else if p == |w| {
      RunEndAt(s, p, p, IsDigit);
    } else {
      RunEndAt(s, p, |s|, IsDigit);
    }
  }

  // ---------------------------------------------------------------- reading a total back

  lemma {:induction false} DigitsOfTwo(a: nat, b: nat)
    requires a < 10 && b < 10
    ensures AllDigits([DigitChar(a), DigitChar(b)])
    ensures DigitsOf([DigitChar(a), DigitChar(b)]) == [a as Digit, b as Digit]
  {
    DigitChars(a);
    DigitChars(b);
    var t := [DigitChar(a), DigitChar(b)];
    assert t[..1] == [DigitChar(a)];
    assert t[..1][..0] == [];
  }

  /** Reading a printed total back: stripped to digits and dots and parsed, it gives the whole
      part and the two decimals. */
  lemma FixedReadBack(n: nat)
    ensures ParseFloat(KeepNumeric(FixedDigits(n))) == Some(Amount(n / 100, [(n / 10 % 10) as Digit, (n % 10) as Digit]))
  {
    var w := NatToString(n / 100);
    var s := FixedDigits(n);
    FixedShape(n);
    NatToStringDigits(n / 100);
    KeepNumericAll(s);
    DigitsOfTwo(n / 10 % 10, n % 10);
    RunEndAt(s, 0, |w|, IsDigit);
    RunEndAt(s, |w| + 1, |s|, IsDigit);
    assert s[|w| + 1..|s|] == [DigitChar(n / 10 % 10), DigitChar(n % 10)];
  }

  /** The value read back is the number of hundredths over 100. */
  lemma FixedValue(n: nat)
    ensures ValueOf(Amount(n / 100, [(n / 10 % 10) as Digit, (n % 10) as Digit])) == n as real / 100.0
  {
    HundredthsSplit(n);
    TwoDecimals(n / 100, n / 10 % 10, n % 10);
  }

  /** A number is its hundreds, tens and units. */
  lemma HundredthsSplit(n: nat)
    ensures n == 100 * (n / 100) + 10 * (n / 10 % 10) + n % 10
  {
    var t := n / 10;
    assert n == 10 * t + n % 10;
    assert t == 10 * (t / 10) + t % 10;
    assert t / 10 == n / 100;
  }

  /** A whole part and two decimals are worth their hundredths over 100. */
  lemma TwoDecimals(q: nat, a: nat, b: nat)
    requires a < 10 && b < 10
    ensures ValueOf(Amount(q, [a as Digit, b as Digit])) == (100 * q + 10 * a + b) as real / 100.0
  {
    var f: seq<Digit> := [a as Digit, b as Digit];
    assert f[1..] == [b as Digit] && f[1..][1..] == [];
    assert FractionValue(f[1..]) == b as real / 10.0;
    assert FractionValue(f) == (a as real + b as real / 10.0) / 10.0;
  }

  lemma {:induction false} KeepNumericAll(s: string)
    requires forall k :: 0 <= k < |s| ==> Numeric(s[k])
    ensures KeepNumeric(s) == s
    decreases |s|
  {
    if s != [] {
      KeepNumericAll(s[..|s| - 1]);
    }
  }
}
