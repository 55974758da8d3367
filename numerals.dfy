/** The amount-in-words converter, `convertToChineseAmount`, of which ContractGenerator.tsx,
    ContractService.ts and InvoiceToContract.tsx each hold an identical copy: the amount text is
    stripped to its digits and dots, read as a decimal number (an integer part and the fraction
    digits `toString` prints), and spelled with the capital digit glyphs, the place units
    拾/佰/仟 inside a 4-digit group and the group units 元/万/亿. */
module Numerals {
  import opened Options
  import opened Strings
  import opened Patterns

  type Digit = d: nat | d < 10

  /** A parsed amount: `Math.floor(num)` and the digits after the dot of `num.toString()`. */
  datatype Amount = Amount(whole: nat, fraction: seq<Digit>)

  function Glyph(d: Digit): char
  {
    "零壹贰叁肆伍陆柒捌玖"[d]
  }

  /** `unit[1][j]`: the unit of the j-th digit of a group. */
  function PlaceUnit(j: nat): string
    requires j < 4
  {
    ["", "拾", "佰", "仟"][j]
  }

  /** `unit[0][i]`: the unit of the i-th group; past the third group the array read is
      `undefined`, which string concatenation spells out. */
  function GroupUnit(i: nat): string
  {
    if i < 3 then ["元", "万", "亿"][i] else "undefined"
  }

  /** `fraction[i]`. */
  function FractionUnit(i: nat): string
    requires i < 2
  {
    ["角", "分"][i]
  }

  /** The characters a group's text is made of. */
  predicate GroupChar(c: char)
  {
    c in "零壹贰叁肆伍陆柒捌玖拾佰仟"
  }

  /** No two 零 side by side. */
  predicate NoDoubleZero(s: string)
  {
    forall k :: 0 < k < |s| ==> !(s[k - 1] == '零' && s[k] == '零')
  }

  /** Number of characters of `s` that lie in `cs`. */
  function CountOf(s: string, cs: set<char>): nat
  {
    if s == [] then 0 else CountOf(s[..|s| - 1], cs) + (if s[|s| - 1] in cs then 1 else 0)
  }

  lemma {:induction false} CountOfAppend(a: string, b: string, cs: set<char>)
    ensures CountOf(a + b, cs) == CountOf(a, cs) + CountOf(b, cs)
    decreases |b|
  {
    if b == [] {
      assert a + b == a;
    } else {
      assert (a + b)[..|a + b| - 1] == a + b[..|b| - 1];
      CountOfAppend(a, b[..|b| - 1], cs);
    }
  }

  lemma {:induction false} CountOfNone(s: string, cs: set<char>)
    requires forall k :: 0 <= k < |s| ==> s[k] !in cs
    ensures CountOf(s, cs) == 0
    decreases |s|
  {
    if s != [] {
      CountOfNone(s[..|s| - 1], cs);
    }
  }

  // ---------------------------------------------------------------- the integer part

  /** One pass of the inner loop: digit `d` at position `j` of the group, prepended to `p`. A
      zero is dropped in the units position and otherwise becomes a 零 unless `p` already
      starts with one (`p.charAt(0)` of an empty `p` is not 零). */
  function Place(p: string, d: Digit, j: nat): string
    requires j < 4
  {
    if d != 0 then [Glyph(d)] + PlaceUnit(j) + p
    else if j == 0 then p
    else if p != "" && p[0] == '零' then p
    else "零" + p
  }

  /** `head` after `j` divisions by ten. */
  function Shifted(head: nat, j: nat): (r: nat)
    ensures r <= head
    ensures j > 0 && head > 0 ==> r < head
  {
    if j == 0 then head else Shifted(head, j - 1) / 10
  }

  /** The inner loop from position `j` on, `head` already shifted `j` times, `p` built so far. */
  function GroupFrom(head: nat, j: nat, p: string): string
    requires j <= 4
    decreases 4 - j
  {
    if j == 4 then p else GroupFrom(head / 10, j + 1, Place(p, head % 10, j))
  }

  /** The text of the lowest group of `head`. */
  function GroupText(head: nat): string
  {
    GroupFrom(head, 0, "")
  }

  /** The text of the integer part from group `i` on, `head` holding the groups not yet done;
      each pass puts the group's text and unit in front of the text so far. */
  function HeadText(head: nat, i: nat): string
    decreases head
  {
    if head == 0 then ""
    else
      var p := GroupText(head);
      HeadText(Shifted(head, 4), i + 1) + (if p != "" then p + GroupUnit(i) else "")
  }

  /** Number of 4-digit groups of `head`. */
  function GroupCount(head: nat): nat
    decreases head
  {
    if head == 0 then 0 else 1 + GroupCount(Shifted(head, 4))
  }

  // ---------------------------------------------------------------- the fraction

  /** The text of fraction digit `i` (`i` < 2): its glyph and 角 or 分, nothing for a zero or
      a missing digit. */
  function FractionPiece(f: seq<Digit>, i: nat): string
    requires i < 2
  {
    if i < |f| && f[i] != 0 then [Glyph(f[i])] + FractionUnit(i) else ""
  }

  /** The tail built from the first two fraction digits. */
  function TailText(f: seq<Digit>): string
  {
    FractionPiece(f, 0) + FractionPiece(f, 1)
  }

  // ---------------------------------------------------------------- the whole conversion

  /** `num === 0`. */
  predicate IsZero(a: Amount)
  {
    a.whole == 0 && forall k :: 0 <= k < |a.fraction| ==> a.fraction[k] == 0
  }

  /** The words for a parsed amount; `None` is `NaN`. */
  function Words(a: Option<Amount>): (r: string)
    ensures a.None? || IsZero(a.value) ==> r == "零元整"
  {
    if a.None? || IsZero(a.value) then "零元整"
    else
      var h := HeadText(a.value.whole, 0);
      var t := TailText(a.value.fraction);
      (if h == "" then "零元" else h) + (if t == "" then "整" else t)
  }

  // ---------------------------------------------------------------- reading the amount text

  predicate Numeric(c: char)
  {
    IsDigit(c) || c == '.'
  }

  /** `amount.replace(/[^\d.]/g, '')`. */
  function KeepNumeric(s: string): (r: string)
    ensures forall k :: 0 <= k < |r| ==> Numeric(r[k])
    ensures |r| <= |s|
  {
    if s == [] then []
    else KeepNumeric(s[..|s| - 1]) + (if Numeric(s[|s| - 1]) then [s[|s| - 1]] else [])
  }

  /** The value of a run of decimal digits. */
  function DecimalValue(s: string): nat
    requires AllDigits(s)
  {
    if s == [] then 0 else 10 * DecimalValue(s[..|s| - 1]) + DigitValue(s[|s| - 1])
  }

  function DigitsOf(s: string): (r: seq<Digit>)
    requires AllDigits(s)
    ensures |r| == |s|
    ensures forall k :: 0 <= k < |s| ==> DigitChar(r[k]) == s[k]
  {
    if s == [] then [] else DigitsOf(s[..|s| - 1]) + [DigitValue(s[|s| - 1]) as Digit]
  }

  /** `parseFloat` of a text of digits and dots: the leading digits, then, after one dot, the
      digits up to the next non-digit; `NaN` when neither part has a digit. */
  function ParseFloat(t: string): (r: Option<Amount>)
    ensures r.None? <==>
      (RunEnd(t, 0, IsDigit) == 0 && (t == [] || t[0] != '.' || RunEnd(t, 1, IsDigit) == 1))
  {
    var k := RunEnd(t, 0, IsDigit);
    RunEndFacts(t, 0, IsDigit);
    var dot := k < |t| && t[k] == '.';
    var s := if dot then k + 1 else k;
    RunEndFacts(t, s, IsDigit);
    var f := if dot then t[s..RunEnd(t, s, IsDigit)] else [];
    if k == 0 && f == [] then None
    else Some(Amount(DecimalValue(t[..k]), DigitsOf(f)))
  }

  /** A text of digits, a dot and at least one more digit parses to those two runs. */
  lemma ParseFloatDot(t: string, k: nat, e: nat)
    requires k < |t| && t[k] == '.' && RunEnd(t, 0, IsDigit) == k
    requires k + 1 < e <= |t| && RunEnd(t, k + 1, IsDigit) == e
    requires AllDigits(t[..k]) && AllDigits(t[k + 1..e])
    ensures ParseFloat(t) == Some(Amount(DecimalValue(t[..k]), DigitsOf(t[k + 1..e])))
  {
  }

  /** The converter as a function of the amount text. */
  function AmountInWords(amount: string): string
  {
    Words(ParseFloat(KeepNumeric(amount)))
  }

  // ---------------------------------------------------------------- properties of a group

  predicate GroupChars(s: string)
  {
    forall k :: 0 <= k < |s| ==> GroupChar(s[k])
  }

  lemma NoDoubleZeroPrepend(c: char, p: string)
    requires NoDoubleZero(p)
    requires c != '零' || p == [] || p[0] != '零'
    ensures NoDoubleZero([c] + p)
  {
    forall k | 0 < k < |[c] + p|
      ensures !(([c] + p)[k - 1] == '零' && ([c] + p)[k] == '零')
    {
      if k > 1 {
        assert ([c] + p)[k - 1] == p[k - 2] && ([c] + p)[k] == p[k - 1];
      }
    }
  }

  /** One digit keeps the group text free of 零零 and made of glyphs and place units, never
      shortens it, and from the tens position on leaves it non-empty. */
  lemma PlaceFacts(p: string, d: Digit, j: nat)
    requires j < 4
    requires NoDoubleZero(p) && GroupChars(p)
    ensures NoDoubleZero(Place(p, d, j)) && GroupChars(Place(p, d, j))
    ensures |Place(p, d, j)| >= |p|
    ensures j > 0 ==> Place(p, d, j) != ""
  {
    var g := "零壹贰叁肆伍陆柒捌玖拾佰仟";
    assert Glyph(d) == g[d];
    if d != 0 {
      assert Glyph(d) != '零';
      var u := PlaceUnit(j);
      if j == 0 {
        assert u == "";
        assert [Glyph(d)] + u + p == [Glyph(d)] + p;
        NoDoubleZeroPrepend(Glyph(d), p);
      } else {
        assert u == [g[9 + j]];
        assert [Glyph(d)] + u + p == [Glyph(d)] + ([g[9 + j]] + p);
        NoDoubleZeroPrepend(g[9 + j], p);
        NoDoubleZeroPrepend(Glyph(d), [g[9 + j]] + p);
      }
    } else if j != 0 && !(p != "" && p[0] == '零') {
      assert '零' == g[0];
      NoDoubleZeroPrepend('零', p);
    }
  }

  lemma {:induction false} GroupFromFacts(head: nat, j: nat, p: string)
    requires j <= 4
    requires NoDoubleZero(p) && GroupChars(p)
    ensures NoDoubleZero(GroupFrom(head, j, p)) && GroupChars(GroupFrom(head, j, p))
    ensures j <= 1 || p != "" ==> GroupFrom(head, j, p) != ""
    decreases 4 - j
  {
    if j < 4 {
      PlaceFacts(p, head % 10, j);
      GroupFromFacts(head / 10, j + 1, Place(p, head % 10, j));
    }
  }

  /** A group's text is never empty, has no 零零, and holds only digit glyphs and 拾/佰/仟. */
  lemma GroupTextFacts(head: nat)
    ensures GroupText(head) != ""
    ensures NoDoubleZero(GroupText(head))
    ensures GroupChars(GroupText(head))
  {
    GroupFromFacts(head, 0, "");
  }

  /** Every pass of the group loop adds the group's text followed by exactly one group unit,
      the unit of its position: the `p !== ''` guard never fails. */
  lemma HeadTextStep(head: nat, i: nat)
    requires head > 0
    ensures HeadText(head, i) == HeadText(Shifted(head, 4), i + 1) + GroupText(head) + GroupUnit(i)
    ensures GroupText(head) != ""
  {
    GroupTextFacts(head);
  }

  lemma GroupCharsNoUnit(s: string, cs: set<char>)
    requires GroupChars(s)
    requires forall c :: c in cs ==> !GroupChar(c)
    ensures CountOf(s, cs) == 0
  {
    CountOfNone(s, cs);
  }

  /** The count over one pass's pieces: the later groups' text, the group's text, its unit. */
  lemma CountOfPass(rest: string, p: string, u: string, cs: set<char>)
    requires GroupChars(p)
    requires forall c :: c in cs ==> !GroupChar(c)
    ensures CountOf(rest + p + u, cs) == CountOf(rest, cs) + CountOf(u, cs)
  {
    GroupCharsNoUnit(p, cs);
    CountOfAppend(rest + p, u, cs);
    CountOfAppend(rest, p, cs);
  }

  lemma UnitYuan(i: nat)
    ensures CountOf(GroupUnit(i), {'元'}) == if i == 0 then 1 else 0
  {
    var u := GroupUnit(i);
    if i == 0 {
      assert u[..0] == [];
    } else {
      CountOfNone(u, {'元'});
    }
  }

  /** 元 occurs once in the integer text when there is a first group, and not in the text of
      the later groups. */
  lemma {:induction false} HeadTextYuan(head: nat, i: nat)
    ensures CountOf(HeadText(head, i), {'元'}) == if head > 0 && i == 0 then 1 else 0
    decreases head
  {
    if head > 0 {
      HeadTextStep(head, i);
      HeadTextYuan(Shifted(head, 4), i + 1);
      GroupTextFacts(head);
      CountOfPass(HeadText(Shifted(head, 4), i + 1), GroupText(head), GroupUnit(i), {'元'});
      UnitYuan(i);
    }
  }

  /** With at most three groups in all, the integer text holds exactly one of 元/万/亿 per
      group. */
  lemma {:induction false} HeadTextUnits(head: nat, i: nat)
    requires i + GroupCount(head) <= 3
    ensures CountOf(HeadText(head, i), {'元', '万', '亿'}) == GroupCount(head)
    decreases head
  {
    if head > 0 {
      HeadTextStep(head, i);
      HeadTextUnits(Shifted(head, 4), i + 1);
      GroupTextFacts(head);
      UnitsApart();
      CountOfPass(HeadText(Shifted(head, 4), i + 1), GroupText(head), GroupUnit(i), {'元', '万', '亿'});
      UnitOfGroup(i);
    }
  }

  /** None of 元, 万 and 亿 is a character of a group's text. */
  lemma UnitsApart()
    ensures forall c :: c in {'元', '万', '亿'} ==> !GroupChar(c)
  {
    forall c | c in {'元', '万', '亿'} ensures !GroupChar(c) {
      var g := "零壹贰叁肆伍陆柒捌玖拾佰仟";
      assert forall k :: 0 <= k < |g| ==> g[k] != '元' && g[k] != '万' && g[k] != '亿';
    }
  }

  lemma UnitOfGroup(i: nat)
    requires i < 3
    ensures CountOf(GroupUnit(i), {'元', '万', '亿'}) == 1
  {
    assert GroupUnit(i)[..0] == [];
  }

  // ---------------------------------------------------------------- properties of the words

  lemma TailTextFacts(f: seq<Digit>)
    ensures CountOf(TailText(f), {'元'}) == 0
    ensures TailText(f) == "" || TailText(f)[|TailText(f)| - 1] in {'角', '分'}
  {
    var g := "零壹贰叁肆伍陆柒捌玖";
    forall k | 0 <= k < |TailText(f)|
      ensures TailText(f)[k] !in {'元'}
    {
      assert TailText(f)[k] in g || TailText(f)[k] in {'角', '分'};
    }
    CountOfNone(TailText(f), {'元'});
  }

  /** The words are the integer text, or 零元 for an integer part 0, followed by the fraction
      text, or 整 exactly when there is no fraction text. */
  lemma WordsShape(a: Amount)
    ensures a.whole == 0 ==> Words(Some(a)) == "零元" + (if TailText(a.fraction) == "" then "整" else TailText(a.fraction))
    ensures a.whole > 0 ==> (HeadText(a.whole, 0) != "" &&
      Words(Some(a)) == HeadText(a.whole, 0) + (if TailText(a.fraction) == "" then "整" else TailText(a.fraction)))
    ensures Words(Some(a))[|Words(Some(a))| - 1] == '整' <==> TailText(a.fraction) == ""
  {
    TailTextFacts(a.fraction);
    if a.whole > 0 {
      HeadTextStep(a.whole, 0);
    }
    if IsZero(a) {
      assert TailText(a.fraction) == "";
    }
  }

  /** 元 occurs exactly once in every result. */
  lemma YuanOnce(a: Option<Amount>)
    ensures CountOf(Words(a), {'元'}) == 1
  {
    var cs := {'元'};
    var zheng := "整";
    CountOfNone(zheng, cs);
    var lingYuan := "零元";
    assert CountOf(lingYuan, cs) == 1 by { assert lingYuan[..1] == "零"; assert lingYuan[..0] == []; }
    if a.None? || IsZero(a.value) {
      CountOfAppend(lingYuan, zheng, cs);
      assert lingYuan + zheng == "零元整";
    } else {
      var h := HeadText(a.value.whole, 0);
      var t := TailText(a.value.fraction);
      HeadTextYuan(a.value.whole, 0);
      TailTextFacts(a.value.fraction);
      WordsShape(a.value);
      CountOfAppend(if h == "" then lingYuan else h, if t == "" then zheng else t, cs);
    }
  }

  /** Only the first two fraction digits count. */
  lemma TwoFractionDigits(whole: nat, f: seq<Digit>)
    requires |f| > 2
    ensures Words(Some(Amount(whole, f))) == Words(Some(Amount(whole, f[..2])))
  {
    assert TailText(f) == TailText(f[..2]);
  }

  /** A trailing zero digit changes nothing, so the fraction `toString` prints without its
      trailing zeros gives the same words. */
  lemma TrailingZero(whole: nat, f: seq<Digit>)
    ensures Words(Some(Amount(whole, f + [0]))) == Words(Some(Amount(whole, f)))
  {
    assert TailText(f + [0]) == TailText(f);
    assert IsZero(Amount(whole, f + [0])) <==> IsZero(Amount(whole, f)) by {
      assert forall k :: 0 <= k < |f| ==> (f + [0])[k] == f[k];
    }
  }

  /** 5 → 零伍元整: the zero rule fires on the padding positions above the top digit. */
  lemma ExampleFive()
    ensures Words(Some(Amount(5, []))) == "零伍元整"
  {
    assert GroupText(5) == "零伍";
    assert HeadText(5, 0) == "零伍元";
  }

  /** 100 → 零壹佰零元整. */
  lemma ExampleHundred()
    ensures Words(Some(Amount(100, []))) == "零壹佰零元整"
  {
    assert GroupText(100) == "零壹佰零";
    assert HeadText(100, 0) == "零壹佰零元";
  }

  /** 100000 → 零壹拾万零元整: the all-zero lowest group still gives 零元. */
  lemma ExampleHundredThousand()
    ensures Words(Some(Amount(100000, []))) == "零壹拾万零元整"
  {
    GroupOf100000();
    GroupOf10();
    assert Shifted(100000, 4) == 10;
    assert HeadText(10, 1) == "零壹拾万";
    assert HeadText(100000, 0) == "零壹拾万零元";
  }

  /** The lowest group of 100000 is all zeros: one 零. */
  lemma GroupOf100000()
    ensures GroupText(100000) == "零"
  {
    assert Place("", 0, 1) == "零";
    assert GroupFrom(100000, 0, "") == GroupFrom(10, 4, "零");
  }

  /** The group 10 above it. */
  lemma GroupOf10()
    ensures GroupText(10) == "零壹拾"
  {
    assert Place("", 1, 1) == "壹拾";
    assert Place("壹拾", 0, 2) == "零壹拾";
  }

  /** The group 1024: the zero in the hundreds gives one 零. */
  lemma GroupOf1024()
    ensures GroupText(1024) == "壹仟零贰拾肆"
  {
    assert GroupFrom(10, 2, "贰拾肆") == "壹仟零贰拾肆" by {
      assert Place("贰拾肆", 0, 2) == "零贰拾肆";
      assert Place("零贰拾肆", 1, 3) == "壹仟零贰拾肆";
    }
    assert GroupFrom(102, 1, "肆") == GroupFrom(10, 2, "贰拾肆") by {
      assert Place("肆", 2, 1) == "贰拾肆";
    }
    assert Place("", 4, 0) == "肆";
  }

  /** 1024.5 → 壹仟零贰拾肆元伍角. */
  lemma ExampleWithFraction()
    ensures Words(Some(Amount(1024, [5]))) == "壹仟零贰拾肆元伍角"
  {
    HeadOf1024();
    assert TailText([5]) == "伍角";
  }

  lemma HeadOf1024()
    ensures HeadText(1024, 0) == "壹仟零贰拾肆元"
  {
    GroupOf1024();
    assert Shifted(1024, 4) == 0;
  }

  /** 0.5 → 零元伍角. */
  lemma ExampleFractionOnly()
    ensures Words(Some(Amount(0, [5]))) == "零元伍角"
  {
    assert TailText([5]) == "伍角";
  }

  // ---------------------------------------------------------------- the loops

  /** The fraction loop over the first two digits after the dot. */
  method FractionLoop(f: seq<Digit>) returns (tail: string)
    ensures tail == TailText(f)
  {
    tail := "";
    var n := if |f| < 2 then |f| else 2;
    for i := 0 to n
      invariant tail == (if i >= 1 then FractionPiece(f, 0) else "")
        + (if i >= 2 then FractionPiece(f, 1) else "")
    {
      if f[i] != 0 {
        tail := tail + [Glyph(f[i])] + FractionUnit(i);
      }
    }
  }

  /** The digit loop over one group: four digits taken off `head`. */
  method GroupLoop(head0: nat) returns (p: string, head: nat)
    ensures p == GroupText(head0)
    ensures head == Shifted(head0, 4)
  {
    p := "";
    head := head0;
    for j := 0 to 4
      invariant head == Shifted(head0, j)
      invariant GroupText(head0) == GroupFrom(head, j, p)
    {
      var d := head % 10;
      head := head / 10;
      p := Place(p, d, j);
    }
  }

  /** The group loop in the shape it runs: the text built so far in `acc`. */
  function HeadLoop(head: nat, i: nat, acc: string): string
    decreases head
  {
    if head == 0 then acc
    else
      var p := GroupText(head);
      HeadLoop(Shifted(head, 4), i + 1, if p != "" then p + GroupUnit(i) + acc else acc)
  }

  lemma {:induction false} HeadLoopText(head: nat, i: nat, acc: string)
    ensures HeadLoop(head, i, acc) == HeadText(head, i) + acc
    decreases head
  {
    if head > 0 {
      var p := GroupText(head);
      var rest := HeadText(Shifted(head, 4), i + 1);
      var acc' := if p != "" then p + GroupUnit(i) + acc else acc;
      HeadLoopText(Shifted(head, 4), i + 1, acc');
      if p != "" {
        assert rest + (p + GroupUnit(i)) + acc == rest + (p + GroupUnit(i) + acc);
      }
    } else {
      assert "" + acc == acc;
    }
  }

  /** The group loop: `head` loses a group per pass, whose text and unit go in front. */
  method IntegerLoop(whole: nat) returns (headText: string)
    ensures headText == HeadText(whole, 0)
  {
    var head := whole;
    headText := "";
    var i := 0;
    while head > 0
      invariant HeadLoop(whole, 0, "") == HeadLoop(head, i, headText)
      decreases head
    {
      var p;
      p, head := GroupLoop(head);
      if p != "" {
        headText := p + GroupUnit(i) + headText;
      }
      i := i + 1;
    }
    HeadLoopText(whole, 0, "");
    assert HeadText(whole, 0) + "" == HeadText(whole, 0);
  }

  /** `convertToChineseAmount` on the amount text: the fraction loop, then the group loop with
      its digit loop, `head`, `p` and `headText` updated as they go. */
  method ConvertToChineseAmount(amount: string) returns (r: string)
    ensures r == AmountInWords(amount)
  {
    var parsed := ParseFloat(KeepNumeric(amount));
    if parsed.None? || IsZero(parsed.value) {
      return "零元整";
    }
    var tail := FractionLoop(parsed.value.fraction);
    var headText := IntegerLoop(parsed.value.whole);
    if headText == "" {
      headText := "零元";
    }
    if tail == "" {
      tail := "整";
    }
    r := headText + tail;
  }
}
