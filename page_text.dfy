/** The page text of ContractGenerator.tsx: the page's rows (grouped with tolerance 5) are
    walked in order; rows outside the goods section are written as their space-joined text,
    the header row opens the section, the `合 计 ¥` row closes it, and every row inside it is
    rebuilt — the tokens of the name, spec and unit bands collapsed into one token each — and,
    when the next row holds one to four tokens, that row is merged into it and emptied. The
    document text is the pages' texts with blank lines dropped. */
module PageText {
  import opened Options
  import opened Strings
  import opened Tokens
  import opened RowGrouping

  // ---------------------------------------------------------------- bands

  /** The x bands of the goods section: name below 100, spec in [100, 160), unit in [160, 220). */
  datatype Band = NameBand | SpecBand | UnitBand | Other

  function BandOf(x: int): Band
  {
    if x < 100 then NameBand else if x < 160 then SpecBand else if x < 220 then UnitBand else Other
  }

  /** The tokens of `ts` in band `b`, in order. */
  function InBand(ts: seq<Token>, b: Band): (r: seq<Token>)
    ensures |r| <= |ts|
  {
    if |ts| == 0 then []
    else InBand(ts[..|ts| - 1], b) + (if BandOf(ts[|ts| - 1].x) == b then [ts[|ts| - 1]] else [])
  }

  /** The texts of a band joined without separator. */
  function BandText(row: seq<Token>, b: Band): string
  {
    Join(Texts(InBand(row, b)), "")
  }

  /** The rebuilt row over the first `n` tokens: the first token of each of the three bands
      stands for its band and carries the band's text, later ones are dropped, other tokens
      are kept. */
  function CollapsedUpTo(row: seq<Token>, n: nat): seq<Token>
    requires n <= |row|
  {
    if n == 0 then []
    else
      var prev := CollapsedUpTo(row, n - 1);
      var t := row[n - 1];
      var b := BandOf(t.x);
      if b == Other then prev + [t]
      else if |InBand(row[..n - 1], b)| > 0 then prev
      else prev + [t.(text := BandText(row, b))]
  }

  function Collapsed(row: seq<Token>): seq<Token>
  {
    CollapsedUpTo(row, |row|)
  }

  lemma InBandSnoc(ts: seq<Token>, n: nat, b: Band)
    requires 0 < n <= |ts|
    ensures InBand(ts[..n], b) == InBand(ts[..n - 1], b) + (if BandOf(ts[n - 1].x) == b then [ts[n - 1]] else [])
  {
    assert ts[..n][..n - 1] == ts[..n - 1];
  }

  /** The rebuilt row holds, for each of the three bands, at most one token: the band's first
      token with the band's whole text; the tokens outside the bands keep their order. */
  lemma CollapsedBands(row: seq<Token>, n: nat, b: Band)
    requires n <= |row|
    ensures b == Other ==> InBand(CollapsedUpTo(row, n), b) == InBand(row[..n], b)
    ensures b != Other ==> (InBand(CollapsedUpTo(row, n), b) ==
      (if |InBand(row[..n], b)| == 0 then [] else [InBand(row[..n], b)[0].(text := BandText(row, b))]))
  {
    if b == Other {
      CollapsedOther(row, n);
    } else {
      CollapsedBand(row, n, b);
    }
  }

  /** The tokens outside the bands are kept, in order. */
  lemma {:induction false} CollapsedOther(row: seq<Token>, n: nat)
    requires n <= |row|
    ensures InBand(CollapsedUpTo(row, n), Other) == InBand(row[..n], Other)
  {
    if n > 0 {
      CollapsedOther(row, n - 1);
      InBandSnoc(row, n, Other);
      var prev := CollapsedUpTo(row, n - 1);
      var t := row[n - 1];
      var c := BandOf(t.x);
      if c == Other {
        InBandAppend(prev, t, Other);
      } else if |InBand(row[..n - 1], c)| == 0 {
        InBandAppend(prev, t.(text := BandText(row, c)), Other);
      }
    } else {
      assert row[..0] == [];
    }
  }

  /** A band keeps at most its first token, carrying the band's text. */
  lemma {:induction false} CollapsedBand(row: seq<Token>, n: nat, b: Band)
    requires n <= |row| && b != Other
    ensures InBand(CollapsedUpTo(row, n), b) ==
      (if |InBand(row[..n], b)| == 0 then [] else [InBand(row[..n], b)[0].(text := BandText(row, b))])
  {
    if n > 0 {
      CollapsedBand(row, n - 1, b);
      InBandSnoc(row, n, b);
      var prev := CollapsedUpTo(row, n - 1);
      var t := row[n - 1];
      var c := BandOf(t.x);
      if c == Other {
        InBandAppend(prev, t, b);
      } else if |InBand(row[..n - 1], c)| == 0 {
        InBandAppend(prev, t.(text := BandText(row, c)), b);
      }
    } else {
      assert row[..0] == [];
    }
  }

  lemma InBandAppend(ts: seq<Token>, t: Token, b: Band)
    ensures InBand(ts + [t], b) == InBand(ts, b) + (if BandOf(t.x) == b then [t] else [])
  {
    assert (ts + [t])[..|ts|] == ts;
  }

  lemma CollapsedUpToStep(row: seq<Token>, k: nat)
    requires k < |row|
    ensures InBand(row[..k + 1], BandOf(row[k].x)) == InBand(row[..k], BandOf(row[k].x)) + [row[k]]
    ensures forall b :: b != BandOf(row[k].x) ==> InBand(row[..k + 1], b) == InBand(row[..k], b)
  {
    forall b ensures InBand(row[..k + 1], b) == InBand(row[..k], b) + (if BandOf(row[k].x) == b then [row[k]] else []) {
      InBandSnoc(row, k + 1, b);
    }
  }

  /** The rebuild loop with its three "already added" flags. */
  method CollapseRow(row: seq<Token>) returns (newRow: seq<Token>)
    ensures newRow == Collapsed(row)
  {
    var projectName := BandText(row, NameBand);
    var specification := BandText(row, SpecBand);
    var unit := BandText(row, UnitBand);
    newRow := [];
    var hasAddedProjectName, hasAddedSpecification, hasAddedUnit := false, false, false;
    for k := 0 to |row|
      invariant newRow == CollapsedUpTo(row, k)
      invariant hasAddedProjectName == (|InBand(row[..k], NameBand)| > 0)
      invariant hasAddedSpecification == (|InBand(row[..k], SpecBand)| > 0)
      invariant hasAddedUnit == (|InBand(row[..k], UnitBand)| > 0)
    {
      var item := row[k];
      CollapsedUpToStep(row, k);
      if item.x < 100 {
        if !hasAddedProjectName {
          newRow := newRow + [item.(text := projectName)];
          hasAddedProjectName := true;
        }
      } else if item.x >= 100 && item.x < 160 {
        if !hasAddedSpecification {
          newRow := newRow + [item.(text := specification)];
          hasAddedSpecification := true;
        }
      } else if item.x >= 160 && item.x < 220 {
        if !hasAddedUnit {
          newRow := newRow + [item.(text := unit)];
          hasAddedUnit := true;
        }
      } else {
        newRow := newRow + [item];
      }
    }
    assert row[..|row|] == row;
  }

  // ---------------------------------------------------------------- merging the next row

  /** `row.find(t => Math.abs(t.x - x) < 5)`, as an index, searching from position `i`. */
  function NearFrom(row: seq<Token>, x: int, i: nat): (r: Option<nat>)
    requires i <= |row|
    ensures r.Some? ==> i <= r.value < |row| && Abs(row[r.value].x - x) < 5
    decreases |row| - i
  {
    if i == |row| then None
    else if Abs(row[i].x - x) < 5 then Some(i)
    else NearFrom(row, x, i + 1)
  }

  lemma {:induction false} NearFromFirst(row: seq<Token>, x: int, i: nat)
    requires i <= |row|
    ensures NearFrom(row, x, i).Some? ==> forall k :: i <= k < NearFrom(row, x, i).value ==> Abs(row[k].x - x) >= 5
    ensures NearFrom(row, x, i).None? ==> forall k :: i <= k < |row| ==> Abs(row[k].x - x) >= 5
    decreases |row| - i
  {
    if i < |row| && Abs(row[i].x - x) >= 5 {
      NearFromFirst(row, x, i + 1);
    }
  }

  /** One token of the next row: its text goes onto the first token of the row within 5 in
      x, or the token is appended. */
  function MergeOne(row: seq<Token>, t: Token): (r: seq<Token>)
  {
    match NearFrom(row, t.x, 0)
    case Some(i) => row[i := row[i].(text := row[i].text + t.text)]
    case None => row + [t]
  }

  /** The next row's tokens merged in order. */
  function Merged(row: seq<Token>, next: seq<Token>): seq<Token>
  {
    if |next| == 0 then row else MergeOne(Merged(row, next[..|next| - 1]), next[|next| - 1])
  }

  /** Total length of the texts of `ts`. */
  function TextSize(ts: seq<Token>): nat
  {
    if |ts| == 0 then 0 else TextSize(ts[..|ts| - 1]) + |ts[|ts| - 1].text|
  }

  lemma {:induction false} TextSizeUpdate(ts: seq<Token>, i: nat, t: Token)
    requires i < |ts|
    ensures TextSize(ts[i := t]) + |ts[i].text| == TextSize(ts) + |t.text|
    decreases |ts|
  {
    var u := ts[i := t];
    if i < |ts| - 1 {
      assert u[..|u| - 1] == ts[..|ts| - 1][i := t];
      TextSizeUpdate(ts[..|ts| - 1], i, t);
    } else {
      assert u[..|u| - 1] == ts[..|ts| - 1];
    }
  }

  lemma TextSizeSnoc(ts: seq<Token>, t: Token)
    ensures TextSize(ts + [t]) == TextSize(ts) + |t.text|
  {
    assert (ts + [t])[..|ts|] == ts;
  }

  /** Merging loses no text: the texts' total length grows by exactly the next row's; the
      row only grows, and each of its tokens keeps its place and x, its text extended. */
  lemma {:induction false} MergedFacts(row: seq<Token>, next: seq<Token>)
    ensures TextSize(Merged(row, next)) == TextSize(row) + TextSize(next)
    ensures |row| <= |Merged(row, next)| <= |row| + |next|
    ensures forall i :: 0 <= i < |row| ==>
      Merged(row, next)[i].x == row[i].x && row[i].text <= Merged(row, next)[i].text
    decreases |next|
  {
    if |next| > 0 {
      var prev := Merged(row, next[..|next| - 1]);
      var t := next[|next| - 1];
      MergedFacts(row, next[..|next| - 1]);
      match NearFrom(prev, t.x, 0)
      case Some(i) =>
        TextSizeUpdate(prev, i, prev[i].(text := prev[i].text + t.text));
      case None =>
        TextSizeSnoc(prev, t);
      assert TextSize(next) == TextSize(next[..|next| - 1]) + |t.text|;
    }
  }

  /** The `forEach` over the next row. */
  method MergeNext(row: seq<Token>, next: seq<Token>) returns (r: seq<Token>)
    ensures r == Merged(row, next)
  {
    r := row;
    for k := 0 to |next|
      invariant r == Merged(row, next[..k])
    {
      var nextRowItem := next[k];
      assert next[..k + 1][..k] == next[..k];
      var matching := NearFrom(r, nextRowItem.x, 0);
      if matching.Some? {
        var i := matching.value;
        r := r[i := r[i].(text := r[i].text + nextRowItem.text)];
      } else {
        r := r + [nextRowItem];
      }
    }
    assert next[..|next|] == next;
  }

  // ---------------------------------------------------------------- the walk over the rows

  /** Whether the goods section is open, the page text so far and the goods text so far. */
  datatype Walk = Walk(inItems: bool, fullText: string, itemsText: string)

  function RowText(row: seq<Token>): string
  {
    Join(Texts(row), " ")
  }

  predicate IsHeaderRow(text: string)
  {
    Contains(text, "项目名称") && Contains(text, "规格型号")
  }

  predicate IsEndRow(text: string)
  {
    Contains(text, "合 计 ¥")
  }

  /** The row after row `j`, or nothing after the last one. */
  function NextOf(rows: seq<seq<Token>>, j: nat): seq<Token>
  {
    if j + 1 < |rows| then rows[j + 1] else []
  }

  /** The walk from row `j`, whose current content is `cur` (it is `rows[j]` unless the row
      before emptied it). A goods row on the last row reads past the end of the rows, which
      throws: `None`. */
  function WalkFrom(rows: seq<seq<Token>>, j: nat, cur: seq<Token>, w: Walk): Option<Walk>
    requires j <= |rows|
    decreases |rows| - j
  {
    if j == |rows| then Some(w)
    else
      var text := RowText(cur);
      if IsHeaderRow(text) then
        WalkFrom(rows, j + 1, NextOf(rows, j), Walk(true, w.fullText, w.itemsText + "【商品明细开始】\n" + text + "\n"))
      else if w.inItems && IsEndRow(text) then
        WalkFrom(rows, j + 1, NextOf(rows, j), Walk(false, w.fullText, w.itemsText + text + "\n" + "【商品明细结束】\n"))
      else if w.inItems then
        if j + 1 == |rows| then None
        else
          var row := Collapsed(cur);
          var next := rows[j + 1];
          if 0 < |next| < 5 then
            WalkFrom(rows, j + 1, [], w.(itemsText := w.itemsText + Join(Texts(Merged(row, next)), "|") + "\n"))
          else
            WalkFrom(rows, j + 1, next, w.(itemsText := w.itemsText + Join(Texts(row), "|") + "\n"))
      else
        WalkFrom(rows, j + 1, NextOf(rows, j), w.(fullText := w.fullText + text + "\n"))
  }

  /** The text a page adds to the document: its plain rows, then its goods text, then a line
      break; `None` when the walk throws. */
  function PageOutput(rows: seq<seq<Token>>): Option<string>
  {
    match WalkFrom(rows, 0, if |rows| > 0 then rows[0] else [], Walk(false, "", ""))
    case Some(w) => Some(w.fullText + w.itemsText + "\n")
    case None => None
  }

  /** The plain rows from row `j` on, each as its text and a line break. */
  function PlainLines(cur: seq<Token>, rest: seq<seq<Token>>): string
    decreases |rest|
  {
    if |rest| == 0 then RowText(cur) + "\n" else RowText(cur) + "\n" + PlainLines(rest[0], rest[1..])
  }

  /** A page without a goods header row is written row by row as plain text, and nothing goes
      to the goods text. */
  lemma {:induction false} WalkPlain(rows: seq<seq<Token>>, j: nat, cur: seq<Token>, w: Walk)
    requires j < |rows| && !w.inItems
    requires !IsHeaderRow(RowText(cur))
    requires forall k :: j < k < |rows| ==> !IsHeaderRow(RowText(rows[k]))
    ensures WalkFrom(rows, j, cur, w) == Some(w.(fullText := w.fullText + PlainLines(cur, rows[j + 1..])))
    decreases |rows| - j
  {
    var w' := w.(fullText := w.fullText + RowText(cur) + "\n");
    if j + 1 < |rows| {
      WalkPlain(rows, j + 1, rows[j + 1], w');
      assert rows[j + 1..][0] == rows[j + 1] && rows[j + 1..][1..] == rows[j + 2..];
      assert w.fullText + RowText(cur) + "\n" + PlainLines(rows[j + 1], rows[j + 2..])
        == w.fullText + (RowText(cur) + "\n" + PlainLines(rows[j + 1], rows[j + 2..]));
    } else {
      assert rows[j + 1..] == [];
      assert w.fullText + RowText(cur) + "\n" == w.fullText + (RowText(cur) + "\n");
    }
  }

  /** A goods row (neither header nor end) that is the page's last row makes the walk throw. */
  lemma WalkThrowsOnLastGoodsRow(rows: seq<seq<Token>>, cur: seq<Token>, w: Walk)
    requires |rows| > 0 && w.inItems
    requires !IsHeaderRow(RowText(cur)) && !IsEndRow(RowText(cur))
    ensures WalkFrom(rows, |rows| - 1, cur, w) == None
  {
  }

  // ---------------------------------------------------------------- the walk as it runs

  /** One row of the walk over the rows array, returning the new state and whether the next
      row was emptied. */
  method WalkRow(rows: seq<seq<Token>>, j: nat, cur: seq<Token>, w: Walk) returns (ok: bool, w': Walk, cleared: bool)
    requires j < |rows|
    ensures ok ==> WalkFrom(rows, j, cur, w) == WalkFrom(rows, j + 1, if cleared then [] else NextOf(rows, j), w')
    ensures !ok ==> WalkFrom(rows, j, cur, w) == None
    ensures cleared ==> j + 1 < |rows|
  {
    var rowText := RowText(cur);
    cleared := false;
    ok := true;
    if IsHeaderRow(rowText) {
      w' := Walk(true, w.fullText, w.itemsText + "【商品明细开始】\n" + rowText + "\n");
    } else if w.inItems && IsEndRow(rowText) {
      w' := Walk(false, w.fullText, w.itemsText + rowText + "\n" + "【商品明细结束】\n");
    } else if w.inItems {
      if j + 1 == |rows| {
        ok := false;
        w' := w;
        return;
      }
      var row := CollapseRow(cur);
      var next := rows[j + 1];
      if 0 < |next| < 5 {
        row := MergeNext(row, next);
        cleared := true;
      }
      w' := w.(itemsText := w.itemsText + Join(Texts(row), "|") + "\n");
    } else {
      w' := w.(fullText := w.fullText + rowText + "\n");
    }
  }

  /** The loop over a page's rows, held in an array whose next row a goods row may empty. */
  method WalkRows(rows: seq<seq<Token>>) returns (r: Option<string>)
    ensures r == PageOutput(rows)
  {
    if |rows| == 0 {
      return Some("" + "" + "\n");
    }
    var rs := new seq<Token>[|rows|](k requires 0 <= k < |rows| => rows[k]);
    var w := Walk(false, "", "");
    ghost var cur := rows[0];
    for j := 0 to |rows|
      invariant forall k :: j < k < |rows| ==> rs[k] == rows[k]
      invariant j < |rows| ==> cur == rs[j]
      invariant PageOutput(rows) == Output(WalkFrom(rows, j, cur, w))
    {
      var ok, w', cleared := WalkRow(rows, j, rs[j], w);
      if !ok {
        return None;
      }
      if cleared {
        rs[j + 1] := [];
      }
      cur := if cleared then [] else NextOf(rows, j);
      w := w';
    }
    r := Some(w.fullText + w.itemsText + "\n");
  }

  /** The page text for a walk's outcome. */
  function Output(o: Option<Walk>): Option<string>
  {
    match o
    case Some(w) => Some(w.fullText + w.itemsText + "\n")
    case None => None
  }

  // ---------------------------------------------------------------- the document

  /** The pages' texts one after the other; `None` when a page throws. */
  function DocumentText(pages: seq<seq<Token>>): Option<string>
  {
    if |pages| == 0 then Some("")
    else
      match DocumentText(pages[..|pages| - 1])
      case None => None
      case Some(t) =>
        match PageOutput(PageRows(pages[|pages| - 1]))
        case None => None
        case Some(p) => Some(t + p)
  }

  /** The lines that are not blank, in order. */
  function NonBlankLines(lines: seq<string>): (r: seq<string>)
    ensures forall k :: 0 <= k < |r| ==> Trim(r[k]) != "" && r[k] in lines
  {
    if |lines| == 0 then []
    else NonBlankLines(lines[..|lines| - 1]) + (if Trim(lines[|lines| - 1]) != "" then [lines[|lines| - 1]] else [])
  }

  /** The filter works line by line: the kept lines of a concatenation are the kept lines of
      each part, in order. */
  lemma {:induction false} NonBlankLinesAppend(a: seq<string>, b: seq<string>)
    ensures NonBlankLines(a + b) == NonBlankLines(a) + NonBlankLines(b)
    decreases |b|
  {
    if b == [] {
      assert a + b == a;
    } else {
      assert (a + b)[..|a + b| - 1] == a + b[..|b| - 1];
      NonBlankLinesAppend(a, b[..|b| - 1]);
    }
  }

  /** A single line is kept exactly when it is not blank. */
  lemma NonBlankLinesOne(l: string)
    ensures NonBlankLines([l]) == if Trim(l) != "" then [l] else []
  {
    assert [l][..0] == [];
  }

  /** The blank-line filter and the final trim. */
  function Cleaned(text: string): string
  {
    Trim(Join(NonBlankLines(Split(text, '\n')), "\n"))
  }

  /** After the filter, before the final trim, every line is non-blank (or there is no text). */
  lemma CleanedLines(text: string)
    ensures var joined := Join(NonBlankLines(Split(text, '\n')), "\n");
      joined == "" || forall l :: l in Split(joined, '\n') ==> Trim(l) != ""
  {
    var lines := NonBlankLines(Split(text, '\n'));
    if |lines| > 0 {
      forall k | 0 <= k < |lines| ensures NoChar(lines[k], '\n') {
        assert lines[k] in Split(text, '\n');
      }
      SplitJoin(lines, '\n');
    }
  }

  /** The text of the document: the cleaned page texts, or the unreadable-file text when a
      page throws. */
  function ExtractedText(pages: seq<seq<Token>>, fileName: string): string
  {
    match DocumentText(pages)
    case Some(t) => Cleaned(t)
    case None => "[无法读取PDF内容: " + fileName + "]"
  }

  /** The page loop: each page's tokens grouped into rows and walked. */
  method ExtractTextFromPages(pages: seq<seq<Token>>, fileName: string) returns (text: string)
    ensures text == ExtractedText(pages, fileName)
  {
    var fullText := "";
    for i := 0 to |pages|
      invariant DocumentText(pages[..i]) == Some(fullText)
    {
      assert pages[..i + 1][..i] == pages[..i];
      var rows := GroupPageRows(pages[i]);
      var page := WalkRows(rows);
      if page.None? {
        assert pages[..i + 1][i] == pages[i];
        NoneStays(pages, i + 1);
        return "[无法读取PDF内容: " + fileName + "]";
      }
      fullText := fullText + page.value;
    }
    assert pages[..|pages|] == pages;
    text := Cleaned(fullText);
  }

  /** Once a page throws, the document throws. */
  lemma {:induction false} NoneStays(pages: seq<seq<Token>>, n: nat)
    requires 0 < n <= |pages|
    requires DocumentText(pages[..n]) == None
    ensures DocumentText(pages) == None
    decreases |pages| - n
  {
    if n < |pages| {
      assert pages[..n + 1][..n] == pages[..n];
      NoneStays(pages, n + 1);
    } else {
      assert pages[..n] == pages;
    }
  }
}
