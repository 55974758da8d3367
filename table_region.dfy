/** Locating the goods table of an invoice (InvoiceExtractor.ts): the header line and the
    total line in the extracted text, then the tokens lying between the two by y. */
module TableRegion {
  import opened Strings
  import opened Tokens

  /** A trimmed line naming every column of the goods table. */
  predicate IsHeaderLine(line: string)
  {
    var t := Trim(line);
    Contains(t, "项目名称") && (Contains(t, "规格") || Contains(t, "型号"))
    && Contains(t, "单位") && Contains(t, "数量")
    && Contains(t, "金额") && (Contains(t, "税率") || Contains(t, "税额"))
  }

  /** A trimmed line carrying the 合计 marker, with or without the inner blank. */
  predicate IsTotalLine(line: string)
  {
    var t := Trim(line);
    Contains(t, "合计") || Contains(t, "合 计")
  }

  /** The first scan: the index of the first header line, or -1. */
  method FindHeaderLine(lines: seq<string>) returns (header: int)
    ensures -1 <= header < |lines|
    ensures header == -1 ==> forall i :: 0 <= i < |lines| ==> !IsHeaderLine(lines[i])
    ensures header >= 0 ==> IsHeaderLine(lines[header]) && forall i :: 0 <= i < header ==> !IsHeaderLine(lines[i])
  {
    header := -1;
    var i := 0;
    while i < |lines|
      invariant 0 <= i <= |lines|
      invariant forall j :: 0 <= j < i ==> !IsHeaderLine(lines[j])
    {
      if IsHeaderLine(lines[i]) {
        return i;
      }
      i := i + 1;
    }
  }

  /** The second scan: the index of the first total line after `header`, or -1. */
  method FindTotalLine(lines: seq<string>, header: nat) returns (total: int)
    ensures total == -1 || header < total < |lines|
    ensures total == -1 ==> forall i :: header < i < |lines| ==> !IsTotalLine(lines[i])
    ensures total >= 0 ==> IsTotalLine(lines[total]) && forall i :: header < i < total ==> !IsTotalLine(lines[i])
  {
    total := -1;
    var j := header + 1;
    while j < |lines|
      invariant header < j
      invariant forall k :: header < k < j && k < |lines| ==> !IsTotalLine(lines[k])
    {
      if IsTotalLine(lines[j]) {
        return j;
      }
      j := j + 1;
    }
  }

  /** Both scans: the total line is looked for only after a header line was found, so without a
      header both indices are -1. */
  method LocateTable(lines: seq<string>) returns (header: int, total: int)
    ensures -1 <= header < |lines| && -1 <= total < |lines|
    ensures header == -1 <==> forall i :: 0 <= i < |lines| ==> !IsHeaderLine(lines[i])
    ensures header >= 0 ==> IsHeaderLine(lines[header]) && forall i :: 0 <= i < header ==> !IsHeaderLine(lines[i])
    ensures header == -1 ==> total == -1
    ensures header >= 0 && total == -1 ==> forall i :: header < i < |lines| ==> !IsTotalLine(lines[i])
    ensures total >= 0 ==> header < total && IsTotalLine(lines[total])
    ensures total >= 0 ==> forall i :: header < i < total ==> !IsTotalLine(lines[i])
  {
    header := FindHeaderLine(lines);
    total := -1;
    if header >= 0 {
      total := FindTotalLine(lines, header);
    }
  }

  /** What the two scans establish about the indices they return. */
  predicate Located(lines: seq<string>, header: int, total: int)
  {
    -1 <= header < |lines| && -1 <= total < |lines|
    && (header == -1 <==> forall i :: 0 <= i < |lines| ==> !IsHeaderLine(lines[i]))
    && (header >= 0 ==> IsHeaderLine(lines[header]) && forall i :: 0 <= i < header ==> !IsHeaderLine(lines[i]))
    && (header == -1 ==> total == -1)
    && (header >= 0 && total == -1 ==> forall i :: header < i < |lines| ==> !IsTotalLine(lines[i]))
    && (total >= 0 ==> header < total && IsTotalLine(lines[total]))
    && (total >= 0 ==> forall i :: header < i < total ==> !IsTotalLine(lines[i]))
  }

  /** The scans' results are determined by the lines: two index pairs both located agree. */
  lemma LocatedUnique(lines: seq<string>, h: int, t: int, h': int, t': int)
    requires Located(lines, h, t) && Located(lines, h', t')
    ensures h == h' && t == t'
  {
  }

  /** The table is read from the tokens only when both lines were found in this order and
      there are tokens at all. */
  predicate TableFound(header: int, total: int, items: seq<Token>)
  {
    header >= 0 && total > header && |items| > 0
  }

  /** A token carrying one of the eight column labels. */
  predicate IsHeaderLabel(t: Token)
  {
    Contains(t.text, "项目名称") || Contains(t.text, "规格型号") || Contains(t.text, "单位")
    || Contains(t.text, "数量") || Contains(t.text, "单价") || Contains(t.text, "金额")
    || Contains(t.text, "税率") || Contains(t.text, "税额")
  }

  predicate IsTotalLabel(t: Token)
  {
    Contains(t.text, "合计") || Contains(t.text, "合 计")
  }

  predicate HasItemNameLabel(t: Token)
  {
    Contains(t.text, "项目名称")
  }

  /** `Math.min(...ts.map(t => t.y))` over a non-empty list. */
  function MinY(ts: seq<Token>): (m: int)
    requires |ts| > 0
    ensures exists t :: t in ts && t.y == m
    ensures forall t :: t in ts ==> m <= t.y
  {
    if |ts| == 1 then ts[0].y
    else
      var rest := MinY(ts[1..]);
      assert forall t :: t in ts[1..] ==> t in ts;
      if ts[0].y <= rest then ts[0].y else rest
  }

  function HeaderLabels(items: seq<Token>): seq<Token>
  {
    Filter(items, IsHeaderLabel)
  }

  /** The header tokens the region is measured from: the column labels, or failing those the
      tokens naming 项目名称. */
  function HeaderTokens(items: seq<Token>): seq<Token>
  {
    var labels := HeaderLabels(items);
    if |labels| > 0 then labels else Filter(items, HasItemNameLabel)
  }

  /** The fallback to the 项目名称 tokens never changes anything: such a token is itself a
      column label, so when there are no labels there are no such tokens either. */
  lemma HeaderFallbackIsDead(items: seq<Token>)
    ensures HeaderTokens(items) == HeaderLabels(items)
  {
    FilterMonotone(items, HasItemNameLabel, IsHeaderLabel);
  }

  /** The tokens strictly between the highest header label and the highest total marker, in
      their original order; none when either group is empty. */
  function TableTokens(items: seq<Token>): (r: seq<Token>)
    ensures |HeaderTokens(items)| == 0 || |Filter(items, IsTotalLabel)| == 0 ==> r == []
    ensures |HeaderTokens(items)| > 0 && |Filter(items, IsTotalLabel)| > 0 ==>
      forall t :: t in r <==> t in items && MinY(HeaderTokens(items)) < t.y < MinY(Filter(items, IsTotalLabel))
    ensures multiset(r) <= multiset(items)
  {
    var headers := HeaderTokens(items);
    var totals := Filter(items, IsTotalLabel);
    if |headers| == 0 || |totals| == 0 then []
    else
      var headerY, totalY := MinY(headers), MinY(totals);
      Filter(items, (t: Token) => headerY < t.y < totalY)
  }

  /** Keeping the tokens of the region keeps their relative order: a y-sorted token list gives a
      y-sorted region. */
  lemma TableTokensSorted(items: seq<Token>)
    requires SortedBy(items, ByY)
    ensures SortedBy(TableTokens(items), ByY)
  {
    var headers := HeaderTokens(items);
    var totals := Filter(items, IsTotalLabel);
    if |headers| > 0 && |totals| > 0 {
      var headerY, totalY := MinY(headers), MinY(totals);
      FilterSorted(items, (t: Token) => headerY < t.y < totalY, ByY);
    }
  }
}
