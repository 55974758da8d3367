/** The regular expressions InvoiceExtractor.ts applies to names and specs, each written out as
    the deterministic scan the JavaScript regex engine performs: the voltage-level pattern
    `\d+\.?\d*\/\d+\.?\d*[KV|kv|Kv|kV]+` (anchored, searched, and stripped from the end of a name),
    the `(\d+)\s*\*\s*(\d+)` tightening of specs, and the product-item test. */
module Patterns {
  import opened Options
  import opened Strings

  /** The end of the run of characters in class `cls` that starts at `i`. */
  function RunEnd(s: string, i: nat, cls: char -> bool): (e: nat)
    requires i <= |s|
    ensures i <= e <= |s|
    decreases |s| - i
  {
    if i < |s| && cls(s[i]) then RunEnd(s, i + 1, cls) else i
  }

  /** The run is all of class `cls` and stops at a character outside it. */
  lemma {:induction false} RunEndFacts(s: string, i: nat, cls: char -> bool)
    requires i <= |s|
    ensures forall k :: i <= k < RunEnd(s, i, cls) ==> cls(s[k])
    ensures RunEnd(s, i, cls) == |s| || !cls(s[RunEnd(s, i, cls)])
    decreases |s| - i
  {
    if i < |s| && cls(s[i]) {
      RunEndFacts(s, i + 1, cls);
    }
  }

  /** The start of the run of characters in class `cls` that ends at `i`. */
  function RunStart(s: string, i: nat, cls: char -> bool): (w: nat)
    requires i <= |s|
    ensures w <= i
  {
    if i > 0 && cls(s[i - 1]) then RunStart(s, i - 1, cls) else i
  }

  lemma {:induction false} RunStartFacts(s: string, i: nat, cls: char -> bool)
    requires i <= |s|
    ensures forall k :: RunStart(s, i, cls) <= k < i ==> cls(s[k])
    ensures RunStart(s, i, cls) == 0 || !cls(s[RunStart(s, i, cls) - 1])
  {
    if i > 0 && cls(s[i - 1]) {
      RunStartFacts(s, i - 1, cls);
    }
  }

  /** A run is determined by where it starts: any stretch of `cls` characters that ends at a
      character outside the class is the run. */
  lemma {:induction false} RunEndAt(s: string, i: nat, e: nat, cls: char -> bool)
    requires i <= e <= |s|
    requires forall k :: i <= k < e ==> cls(s[k])
    requires e == |s| || !cls(s[e])
    ensures RunEnd(s, i, cls) == e
    decreases e - i
  {
    if i < e {
      RunEndAt(s, i + 1, e, cls);
    }
  }

  lemma {:induction false} RunStartAt(s: string, w: nat, i: nat, cls: char -> bool)
    requires w <= i <= |s|
    requires forall k :: w <= k < i ==> cls(s[k])
    requires w == 0 || !cls(s[w - 1])
    ensures RunStart(s, i, cls) == w
    decreases i - w
  {
    if w < i {
      RunStartAt(s, w, i - 1, cls);
    }
  }

  /** Cutting the string around a run that ends inside the cut does not move the run's end. */
  lemma {:induction false} RunEndSlice(s: string, lo: nat, hi: nat, i: nat, cls: char -> bool)
    requires lo <= i <= hi <= |s| && RunEnd(s, i, cls) <= hi
    ensures RunEnd(s[lo..hi], i - lo, cls) == RunEnd(s, i, cls) - lo
    decreases hi - i
  {
    var t := s[lo..hi];
    if i < hi {
      assert t[i - lo] == s[i];
      if cls(s[i]) {
        RunEndSlice(s, lo, hi, i + 1, cls);
      }
    }
  }

  predicate IsUnitChar(c: char)
  {
    c == 'K' || c == 'V' || c == 'k' || c == 'v' || c == '|'
  }

  predicate NotSpace(c: char)
  {
    !IsSpace(c)
  }

  /** Where the greedy `\d+\.?\d*` that starts at `i` ends; `i` itself when no digit stands
      there. */
  function NumberEnd(s: string, i: nat): (e: nat)
    requires i <= |s|
    ensures i <= e <= |s|
  {
    var d := RunEnd(s, i, IsDigit);
    if d > i && d < |s| && s[d] == '.' then RunEnd(s, d + 1, IsDigit) else d
  }

  lemma NumberEndSlice(s: string, lo: nat, hi: nat, i: nat)
    requires lo <= i <= hi <= |s| && NumberEnd(s, i) <= hi
    ensures NumberEnd(s[lo..hi], i - lo) == NumberEnd(s, i) - lo
  {
    var t := s[lo..hi];
    var d := RunEnd(s, i, IsDigit);
    RunEndSlice(s, lo, hi, i, IsDigit);
    if d < hi {
      assert t[d - lo] == s[d];
      if d > i && s[d] == '.' {
        RunEndSlice(s, lo, hi, d + 1, IsDigit);
      }
    }
  }

  /** The end of the voltage match that starts at `p`, if one does: a number, `/`, a number and
      a non-empty run of the characters K, V, k, v and `|` (the class `[KV|kv|Kv|kV]`). */
  function MatchAt(s: string, p: nat): (r: Option<nat>)
    requires p <= |s|
    ensures r.Some? ==> p < r.value <= |s|
  {
    var a := NumberEnd(s, p);
    if a == p || a == |s| || s[a] != '/' then None
    else
      var b := NumberEnd(s, a + 1);
      if b == a + 1 then None
      else
        var c := RunEnd(s, b, IsUnitChar);
        if c == b then None else Some(c)
  }

  /** `/^\d+\.?\d*\/\d+\.?\d*[KV|kv|Kv|kV]+$/.test(s)`. */
  predicate IsVoltage(s: string)
  {
    MatchAt(s, 0) == Some(|s|)
  }

  /** The leftmost voltage match at or after `p`, as a start and an end. */
  function FirstMatch(s: string, p: nat): (r: Option<(nat, nat)>)
    requires p <= |s|
    ensures r.Some? ==> p <= r.value.0 < r.value.1 <= |s| && MatchAt(s, r.value.0) == Some(r.value.1)
    ensures r.Some? ==> forall k :: p <= k < r.value.0 ==> MatchAt(s, k).None?
    ensures r.None? ==> forall k :: p <= k <= |s| ==> MatchAt(s, k).None?
    decreases |s| - p
  {
    var m := MatchAt(s, p);
    if m.Some? then Some((p, m.value))
    else if p == |s| then None
    else FirstMatch(s, p + 1)
  }

  /** The unanchored pattern's `.test(s)`. */
  predicate HasVoltage(s: string)
  {
    FirstMatch(s, 0).Some?
  }

  /** `s.match(/(\d+\.?\d*\/\d+\.?\d*[KV|kv|Kv|kV]+)/)[1]`: the leftmost voltage in `s`. */
  function FindVoltage(s: string): (r: Option<string>)
    ensures r.Some? <==> HasVoltage(s)
  {
    match FirstMatch(s, 0)
    case None => None
    case Some((p, e)) => Some(s[p..e])
  }

  /** A match, cut out of its string, is a voltage on its own. */
  lemma MatchIsVoltage(s: string, p: nat, e: nat)
    requires p <= |s| && MatchAt(s, p) == Some(e)
    ensures IsVoltage(s[p..e])
  {
    var a := NumberEnd(s, p);
    var b := NumberEnd(s, a + 1);
    NumberEndSlice(s, p, e, p);
    assert s[p..e][a - p] == s[a];
    NumberEndSlice(s, p, e, a + 1);
    RunEndSlice(s, p, e, b, IsUnitChar);
  }

  /** What the search finds is a voltage, and it occurs in the searched string. */
  lemma FindVoltageSound(s: string)
    requires FindVoltage(s).Some?
    ensures IsVoltage(FindVoltage(s).value) && Contains(s, FindVoltage(s).value)
  {
    var (p, e) := FirstMatch(s, 0).value;
    MatchIsVoltage(s, p, e);
    ContainsAt(s, s[p..e], p);
  }

  predicate IsVoltageChar(c: char)
  {
    IsDigit(c) || c == '.' || c == '/' || IsUnitChar(c)
  }

  lemma NumberChars(s: string, i: nat)
    requires i <= |s|
    ensures forall k :: i <= k < NumberEnd(s, i) ==> IsDigit(s[k]) || s[k] == '.'
  {
    var d := RunEnd(s, i, IsDigit);
    RunEndFacts(s, i, IsDigit);
    if d > i && d < |s| && s[d] == '.' {
      RunEndFacts(s, d + 1, IsDigit);
    }
  }

  /** A voltage is made of digits, dots, the slash and unit letters only; in particular it holds
      no white space and is never empty. */
  lemma VoltageChars(v: string)
    requires IsVoltage(v)
    ensures |v| > 0 && forall k :: 0 <= k < |v| ==> IsVoltageChar(v[k]) && NotSpace(v[k])
  {
    var a := NumberEnd(v, 0);
    var b := NumberEnd(v, a + 1);
    NumberChars(v, 0);
    NumberChars(v, a + 1);
    RunEndFacts(v, b, IsUnitChar);
    forall k | 0 <= k < |v| ensures IsVoltageChar(v[k]) && NotSpace(v[k]) {
    }
  }

  /** A number as the pattern spells it: digits, then optionally a dot and more digits. */
  function Numeral(whole: string, dot: bool, fraction: string): string
  {
    if dot then whole + "." + fraction else whole
  }

  predicate AllUnits(u: string)
  {
    forall k :: 0 <= k < |u| ==> IsUnitChar(u[k])
  }

  lemma NumeralEnd(s: string, i: nat, whole: string, dot: bool, fraction: string)
    requires |whole| > 0 && AllDigits(whole) && AllDigits(fraction) && (!dot ==> fraction == "")
    requires i + |Numeral(whole, dot, fraction)| <= |s| && s[i..i + |Numeral(whole, dot, fraction)|] == Numeral(whole, dot, fraction)
    requires i + |Numeral(whole, dot, fraction)| == |s| || !(IsDigit(s[i + |Numeral(whole, dot, fraction)|]) || s[i + |Numeral(whole, dot, fraction)|] == '.')
    ensures NumberEnd(s, i) == i + |Numeral(whole, dot, fraction)|
  {
    var n := Numeral(whole, dot, fraction);
    var w := i + |whole|;
    assert forall k :: i <= k < w ==> s[k] == n[k - i];
    if dot {
      assert s[w] == n[|whole|] == '.';
      RunEndAt(s, i, w, IsDigit);
      assert forall k :: w + 1 <= k < i + |n| ==> s[k] == n[k - i] == fraction[k - w - 1];
      RunEndAt(s, w + 1, i + |n|, IsDigit);
    } else {
      RunEndAt(s, i, w, IsDigit);
    }
  }

  /** The match at `p` read off from where its three parts end. */
  lemma MatchAtParts(s: string, p: nat, a: nat, b: nat, c: nat)
    requires p < a < |s| && NumberEnd(s, p) == a && s[a] == '/'
    requires a + 1 < b <= |s| && NumberEnd(s, a + 1) == b
    requires b < c && RunEnd(s, b, IsUnitChar) == c
    ensures MatchAt(s, p) == Some(c)
  {
  }

  /** Every string the pattern describes is recognised: two numbers around a slash, followed by
      unit letters. */
  lemma VoltageGrammar(a: string, dotA: bool, f: string, b: string, dotB: bool, g: string, u: string)
    requires |a| > 0 && AllDigits(a) && AllDigits(f) && (!dotA ==> f == "")
    requires |b| > 0 && AllDigits(b) && AllDigits(g) && (!dotB ==> g == "")
    requires |u| > 0 && AllUnits(u)
    ensures IsVoltage(Numeral(a, dotA, f) + "/" + Numeral(b, dotB, g) + u)
  {
    var x, y := Numeral(a, dotA, f), Numeral(b, dotB, g);
    var s := x + "/" + y + u;
    var j := |x| + 1;
    var e := j + |y|;
    assert s[|x|] == '/';
    assert NumberEnd(s, 0) == |x| by {
      assert s[0..|x|] == x;
      NumeralEnd(s, 0, a, dotA, f);
    }
    assert NumberEnd(s, j) == e by {
      assert s[j..e] == y;
      assert s[e] == u[0];
      assert IsUnitChar(u[0]);
      NumeralEnd(s, j, b, dotB, g);
    }
    assert RunEnd(s, e, IsUnitChar) == |s| by {
      forall k | e <= k < |s| ensures IsUnitChar(s[k]) { assert s[k] == u[k - e]; }
      RunEndAt(s, e, |s|, IsUnitChar);
    }
    MatchAtParts(s, 0, |x|, e, |s|);
  }

  /** Where the last word of `s` starts: the position after its last white space. */
  function TailStart(s: string): nat
    ensures TailStart(s) <= |s|
  {
    RunStart(s, |s|, NotSpace)
  }

  /** `s.replace(/\s+VOLTAGE$/, '')`: a voltage that ends the string, together with the white
      space before it, is cut off; otherwise the string is left alone. */
  function StripVoltage(s: string): (r: string)
    ensures |r| <= |s| && r == s[..|r|]
  {
    var w := TailStart(s);
    if w > 0 && IsVoltage(s[w..]) then s[..RunStart(s, w, IsSpace)] else s
  }

  /** What the strip removes is white space followed by a voltage that ends the string, and the
      voltage is the whole last word. */
  lemma StripVoltageShape(s: string)
    ensures var r := StripVoltage(s); var w := TailStart(s);
      r != s ==> |r| < w && AllSpace(s[|r|..w]) && IsVoltage(s[w..]) && forall k :: w <= k < |s| ==> NotSpace(s[k])
  {
    var w := TailStart(s);
    RunStartFacts(s, |s|, NotSpace);
    if w > 0 && IsVoltage(s[w..]) {
      RunStartFacts(s, w, IsSpace);
      assert IsSpace(s[w - 1]);
    }
  }

  /** The name of an item without its voltage: what items are grouped by. */
  function BasicName(name: string): string
  {
    Trim(StripVoltage(name))
  }

  /** Appending a voltage after a blank does not change the basic name. */
  lemma StripAppended(b: string, v: string)
    requires IsVoltage(v)
    ensures BasicName(b + " " + v) == Trim(b)
  {
    var s := b + " " + v;
    VoltageChars(v);
    var w := |b| + 1;
    assert s[w..] == v;
    assert forall k :: w <= k < |s| ==> NotSpace(s[k]) by {
      forall k | w <= k < |s| ensures NotSpace(s[k]) { assert s[k] == v[k - w]; }
    }
    assert s[w - 1] == ' ';
    RunStartAt(s, w, |s|, NotSpace);
    var q := RunStart(s, w, IsSpace);
    RunStartFacts(s, w, IsSpace);
    assert s[..q] == b[..q];
    assert AllSpace(b[q..]) by {
      forall k | q <= k < |b| ensures IsSpace(b[k]) { assert s[k] == b[k]; }
    }
    TrimPrefix(b, q);
  }

  /** Re-attaching a voltage to a basic name keeps the basic name, so the item stays in its
      group. */
  lemma BasicNameStable(name: string, v: string)
    requires IsVoltage(v)
    ensures BasicName(BasicName(name) + " " + v) == BasicName(name)
  {
    StripAppended(BasicName(name), v);
    TrimTwice(StripVoltage(name));
  }

  /** After a digit run ending at `q`: when `\s*\*\s*\d+` follows, the start and end of the
      digits after the star. */
  function StarAfter(s: string, q: nat): (r: Option<(nat, nat)>)
    requires q <= |s|
    ensures r.Some? ==> q < r.value.0 < r.value.1 <= |s|
  {
    var r := RunEnd(s, q, IsSpace);
    if r < |s| && s[r] == '*' then
      var u := RunEnd(s, r + 1, IsSpace);
      if u < |s| && IsDigit(s[u]) then Some((u, RunEnd(s, u, IsDigit))) else None
    else None
  }

  /** `s.replace(/(\d+)\s*\*\s*(\d+)/g, '$1*$2')`: in every "digits, white space, star, white
      space, digits" the white space is dropped; the scan resumes after each match. */
  function TightenTimes(s: string): (r: string)
    ensures |r| <= |s|
    decreases |s|
  {
    if |s| == 0 then ""
    else if !IsDigit(s[0]) then [s[0]] + TightenTimes(s[1..])
    else
      var q := RunEnd(s, 0, IsDigit);
      match StarAfter(s, q)
      case Some((u, v)) => s[..q] + "*" + s[u..v] + TightenTimes(s[v..])
      case None => s[..q] + TightenTimes(s[q..])
  }

  /** The string without any of its white space. */
  function Unspaced(s: string): string
  {
    if |s| == 0 then "" else (if IsSpace(s[0]) then "" else [s[0]]) + Unspaced(s[1..])
  }

  lemma {:induction false} UnspacedConcat(a: string, b: string)
    ensures Unspaced(a + b) == Unspaced(a) + Unspaced(b)
  {
    if |a| == 0 {
      assert a + b == b;
    } else {
      assert (a + b)[1..] == a[1..] + b;
      UnspacedConcat(a[1..], b);
    }
  }

  lemma {:induction false} UnspacedBlank(a: string)
    requires AllSpace(a)
    ensures Unspaced(a) == ""
  {
    if |a| > 0 {
      assert IsSpace(a[0]);
      UnspacedBlank(a[1..]);
    }
  }

  lemma UnspacedFour(a: string, b: string, c: string, d: string)
    ensures Unspaced(a + b + c + d) == Unspaced(a) + Unspaced(b) + Unspaced(c) + Unspaced(d)
  {
    UnspacedConcat(a + b + c, d);
    UnspacedConcat(a + b, c);
    UnspacedConcat(a, b);
  }

  /** Between the digits, a match holds only white space and the star. */
  lemma StarAfterText(s: string, q: nat)
    requires q <= |s| && StarAfter(s, q).Some?
    ensures Unspaced(s[q..StarAfter(s, q).value.0]) == "*"
  {
    var r := RunEnd(s, q, IsSpace);
    var u := RunEnd(s, r + 1, IsSpace);
    assert StarAfter(s, q).value.0 == u && s[r] == '*';
    SpaceRun(s, q);
    SpaceRun(s, r + 1);
    assert s[q..u] == s[q..r] + "*" + s[r + 1..u];
    BlankStar(s[q..r], s[r + 1..u]);
  }

  /** The run of white space from `i` is all white space. */
  lemma SpaceRun(s: string, i: nat)
    requires i <= |s|
    ensures AllSpace(s[i..RunEnd(s, i, IsSpace)])
  {
    RunEndFacts(s, i, IsSpace);
  }

  /** A star between white space is, without the white space, the star alone. */
  lemma BlankStar(a: string, b: string)
    requires AllSpace(a) && AllSpace(b)
    ensures Unspaced(a + "*" + b) == "*"
  {
    UnspacedBlank(a);
    UnspacedBlank(b);
    UnspacedConcat(a + "*", b);
    UnspacedConcat(a, "*");
  }

  lemma TightenTimesOther(s: string)
    requires |s| > 0 && !IsDigit(s[0])
    ensures TightenTimes(s) == [s[0]] + TightenTimes(s[1..])
  {
  }

  /** A text made of a prefix of `s` and a text as unspaced as the rest of `s`. */
  lemma PrefixJoin(s: string, q: nat, t: string, rest: string)
    requires q <= |s| && t == s[..q] + rest && Unspaced(rest) == Unspaced(s[q..])
    ensures Unspaced(t) == Unspaced(s)
  {
    UnspacedConcat(s[..q], rest);
    assert s == s[..q] + s[q..];
    UnspacedConcat(s[..q], s[q..]);
  }

  lemma TightenTimesMatch(s: string, q: nat, u: nat, v: nat)
    requires |s| > 0 && IsDigit(s[0]) && q == RunEnd(s, 0, IsDigit) && StarAfter(s, q) == Some((u, v))
    ensures TightenTimes(s) == s[..q] + "*" + s[u..v] + TightenTimes(s[v..])
  {
  }

  lemma TightenMatchStep(s: string, q: nat, u: nat, v: nat)
    requires |s| > 0 && IsDigit(s[0]) && q == RunEnd(s, 0, IsDigit) && StarAfter(s, q) == Some((u, v))
    requires Unspaced(TightenTimes(s[v..])) == Unspaced(s[v..])
    ensures Unspaced(TightenTimes(s)) == Unspaced(s)
  {
    var a, m, b, c := s[..q], s[q..u], s[u..v], s[v..];
    TightenTimesMatch(s, q, u, v);
    StarAfterText(s, q);
    SplitFour(s, q, u, v);
    SameUnspaced(a, m, b, c, TightenTimes(c));
  }

  lemma SplitFour(s: string, q: nat, u: nat, v: nat)
    requires q <= u <= v <= |s|
    ensures s == s[..q] + s[q..u] + s[u..v] + s[v..]
  {
  }

  lemma SameUnspaced(a: string, m: string, b: string, c: string, t: string)
    requires Unspaced(m) == "*" && Unspaced(t) == Unspaced(c)
    ensures Unspaced(a + "*" + b + t) == Unspaced(a + m + b + c)
  {
    UnspacedFour(a, m, b, c);
    assert Unspaced("*") == "*";
    UnspacedFour(a, "*", b, t);
  }

  lemma TightenTimesPlain(s: string, q: nat)
    requires |s| > 0 && IsDigit(s[0]) && q == RunEnd(s, 0, IsDigit) && StarAfter(s, q).None?
    ensures TightenTimes(s) == s[..q] + TightenTimes(s[q..])
  {
  }

  /** The tightening removes white space and nothing else. */
  lemma {:induction false} TightenTimesOnlyDropsSpace(s: string)
    ensures Unspaced(TightenTimes(s)) == Unspaced(s)
    decreases |s|
  {
    if |s| == 0 {
    } else if !IsDigit(s[0]) {
      TightenTimesOnlyDropsSpace(s[1..]);
      TightenTimesOther(s);
      assert [s[0]] == s[..1];
      PrefixJoin(s, 1, TightenTimes(s), TightenTimes(s[1..]));
    } else {
      var q := RunEnd(s, 0, IsDigit);
      match StarAfter(s, q)
      case Some((u, v)) =>
        TightenTimesOnlyDropsSpace(s[v..]);
        TightenMatchStep(s, q, u, v);
      case None =>
        TightenTimesOnlyDropsSpace(s[q..]);
        TightenTimesPlain(s, q);
        PrefixJoin(s, q, TightenTimes(s), TightenTimes(s[q..]));
    }
  }

  /** The words that mark a line as a total, remark or header rather than a goods item. */
  const NonProductKeywords: seq<string> := ["合计", "价税", "备注", "工程", "开票"]

  /** `isProductItem`: neither a keyword line nor a bare voltage. */
  predicate IsProductItem(text: string)
  {
    !ContainsAny(text, NonProductKeywords) && !IsVoltage(text)
  }
}
