/** Grouping tokens into visual rows by y. Two loops of the source do this: the
    table-body grouper (tolerance 8, with -1 as "no row yet") in InvoiceExtractor.ts
    and the page grouper (tolerance 5) in ContractGenerator.tsx. In both the reference
    y of a row is the y of its first token, never a running average. */
module RowGrouping {
  import opened Tokens

  const TableTolerance: int := 8
  const PageTolerance: int := 5

  function Abs(n: int): int
  {
    if n < 0 then -n else n
  }

  function Min(a: int, b: int): int
  {
    if a <= b then a else b
  }

  /** Every token of `row` lies in [ref, ref + tol] and one of them lies at `ref`. */
  ghost predicate Band(row: seq<Token>, ref: int, tol: int)
  {
    (forall t :: t in row ==> ref <= t.y <= ref + tol)
    && (exists t :: t in row && t.y == ref)
  }

  /** Each row starts more than `tol` below the previous row's reference. */
  ghost predicate Chained(refs: seq<int>, tol: int)
  {
    forall i :: 0 <= i < |refs| - 1 ==> refs[i] + tol < refs[i + 1]
  }

  /** The table grouper uses -1 for "no row started"; a token at y = -1 would be confused with it. */
  predicate NoSentinel(ts: seq<Token>)
  {
    forall t :: t in ts ==> t.y != -1
  }

  lemma FlattenSnoc(rows: seq<seq<Token>>, r: seq<Token>)
    ensures Flatten(rows + [r]) == Flatten(rows) + r
  {
    assert (rows + [r])[..|rows|] == rows;
  }

  lemma SortedRowKeepsTokens(row: seq<Token>)
    ensures forall t :: t in SortBy(row, ByX) <==> t in row
  {
    var s := SortBy(row, ByX);
    forall t ensures t in s <==> t in row {
      assert t in s <==> t in multiset(s);
      assert t in row <==> t in multiset(row);
    }
  }

  /** Rows built in bands whose references are chained are ordered: every token of an
      earlier row lies strictly above every token of a later one. */
  lemma {:induction false} RowsOrdered(rows: seq<seq<Token>>, refs: seq<int>, tol: int, i: int, j: int, a: Token, b: Token)
    requires |refs| == |rows| && tol >= 0
    requires forall k :: 0 <= k < |rows| ==> Band(rows[k], refs[k], tol)
    requires Chained(refs, tol)
    requires 0 <= i < j < |rows| && a in rows[i] && b in rows[j]
    ensures a.y < b.y
    decreases j - i
  {
    if j == i + 1 {
      assert a.y <= refs[i] + tol < refs[j] <= b.y;
    } else {
      var c :| c in rows[i + 1] && c.y == refs[i + 1];
      assert a.y <= refs[i] + tol < refs[i + 1] == c.y;
      RowsOrdered(rows, refs, tol, i + 1, j, c, b);
    }
  }

  /** The tokens of `done` are exactly those of the finished rows and the open row, and
      every finished row is non-empty and sorted by x. */
  ghost predicate Partitioned(rows: seq<seq<Token>>, current: seq<Token>, done: seq<Token>)
  {
    multiset(Flatten(rows) + current) == multiset(done)
    && forall i :: 0 <= i < |rows| ==> |rows[i]| > 0 && SortedBy(rows[i], ByX)
  }

  /** The finished rows are chained bands and the open row is a band below the last of them. */
  ghost predicate Banded(rows: seq<seq<Token>>, refs: seq<int>, current: seq<Token>, currentY: int, tol: int)
  {
    |refs| == |rows|
    && (forall i :: 0 <= i < |rows| ==> Band(rows[i], refs[i], tol))
    && Chained(refs, tol)
    && (|current| > 0 ==>
          current[0].y == currentY
          && (forall t :: t in current ==> currentY <= t.y <= currentY + tol)
          && (|rows| > 0 ==> refs[|rows| - 1] + tol < currentY))
  }

  /** Closing the open row: it is sorted by x and appended, unless it is empty. */
  function Close(rows: seq<seq<Token>>, current: seq<Token>): seq<seq<Token>>
  {
    if |current| > 0 then rows + [SortBy(current, ByX)] else rows
  }

  function CloseRefs(refs: seq<int>, current: seq<Token>, currentY: int): seq<int>
  {
    if |current| > 0 then refs + [currentY] else refs
  }

  lemma JoinPartitioned(rows: seq<seq<Token>>, current: seq<Token>, done: seq<Token>, item: Token)
    requires Partitioned(rows, current, done)
    ensures Partitioned(rows, current + [item], done + [item])
  {
    assert Flatten(rows) + (current + [item]) == (Flatten(rows) + current) + [item];
  }

  lemma ClosePartitioned(rows: seq<seq<Token>>, current: seq<Token>, done: seq<Token>)
    requires Partitioned(rows, current, done)
    ensures Partitioned(Close(rows, current), [], done)
  {
    if |current| > 0 {
      FlattenSnoc(rows, SortBy(current, ByX));
    }
  }

  lemma StartPartitioned(rows: seq<seq<Token>>, current: seq<Token>, done: seq<Token>, item: Token)
    requires Partitioned(rows, current, done)
    ensures Partitioned(Close(rows, current), [item], done + [item])
  {
    ClosePartitioned(rows, current, done);
    JoinPartitioned(Close(rows, current), [], done, item);
    assert [] + [item] == [item];
  }

  lemma JoinBanded(rows: seq<seq<Token>>, refs: seq<int>, current: seq<Token>, currentY: int, tol: int, item: Token)
    requires Banded(rows, refs, current, currentY, tol) && |current| > 0
    requires currentY <= item.y <= currentY + tol
    ensures Banded(rows, refs, current + [item], currentY, tol)
  {
  }

  lemma CloseBanded(rows: seq<seq<Token>>, refs: seq<int>, current: seq<Token>, currentY: int, tol: int)
    requires Banded(rows, refs, current, currentY, tol)
    ensures Banded(Close(rows, current), CloseRefs(refs, current, currentY), [], currentY, tol)
  {
    if |current| > 0 {
      var row := SortBy(current, ByX);
      SortedRowKeepsTokens(current);
      var rows2, refs2 := rows + [row], refs + [currentY];
      assert Band(row, currentY, tol) by {
        assert current[0] in row;
      }
      forall i | 0 <= i < |rows2| ensures Band(rows2[i], refs2[i], tol) {
        if i < |rows| {
          assert rows2[i] == rows[i] && refs2[i] == refs[i];
        }
      }
      assert Chained(refs2, tol) by {
        forall i | 0 <= i < |refs2| - 1 ensures refs2[i] + tol < refs2[i + 1] {
          if i + 1 < |refs| {
            assert refs2[i] == refs[i] && refs2[i + 1] == refs[i + 1];
          }
        }
      }
    }
  }

  lemma StartBanded(rows: seq<seq<Token>>, refs: seq<int>, current: seq<Token>, currentY: int, tol: int, item: Token)
    requires Banded(rows, refs, current, currentY, tol) && tol >= 0
    requires |current| > 0 ==> currentY + tol < item.y
    requires |current| == 0 ==> |rows| == 0
    ensures Banded(Close(rows, current), CloseRefs(refs, current, currentY), [item], item.y, tol)
  {
    CloseBanded(rows, refs, current, currentY, tol);
  }

  /** `rows` splits `items` into non-empty rows, each sorted by x, losing and adding nothing. */
  ghost predicate Partition(rows: seq<seq<Token>>, items: seq<Token>)
  {
    multiset(Flatten(rows)) == multiset(items)
    && (forall i :: 0 <= i < |rows| ==> |rows[i]| > 0 && SortedBy(rows[i], ByX))
    && (|rows| == 0 <==> |items| == 0)
  }

  /** Row i is a band of height `tol` starting at refs[i], and the bands are chained. */
  ghost predicate Layered(rows: seq<seq<Token>>, refs: seq<int>, tol: int)
  {
    |refs| == |rows|
    && (forall i :: 0 <= i < |rows| ==> Band(rows[i], refs[i], tol))
    && Chained(refs, tol)
  }

  /** The state of a row scan: finished rows with their reference ys, the open row and its reference. */
  datatype Scan = Scan(rows: seq<seq<Token>>, refs: seq<int>, current: seq<Token>, currentY: int)

  /** What a scan hands back once the tokens run out: the open row is closed too. */
  function Rows(s: Scan): seq<seq<Token>>
  {
    Close(s.rows, s.current)
  }

  function Refs(s: Scan): seq<int>
  {
    CloseRefs(s.refs, s.current, s.currentY)
  }

  /** One token of the table-body scan: -1 means no row is open yet. */
  function TableStep(s: Scan, item: Token): Scan
  {
    if s.currentY == -1 || Abs(item.y - s.currentY) <= TableTolerance then
      Scan(s.rows, s.refs, s.current + [item], if s.currentY == -1 then item.y else Min(s.currentY, item.y))
    else
      Scan(Close(s.rows, s.current), CloseRefs(s.refs, s.current, s.currentY), [item], item.y)
  }

  /** The table-body scan over tokens already sorted by y. */
  function TableScan(ts: seq<Token>): Scan
  {
    if |ts| == 0 then Scan([], [], [], -1) else TableStep(TableScan(ts[..|ts| - 1]), ts[|ts| - 1])
  }

  /** The rows the table-body grouper of InvoiceExtractor.ts produces. */
  function TableRows(items: seq<Token>): seq<seq<Token>>
  {
    Rows(TableScan(SortBy(items, ByY)))
  }

  ghost function TableRefs(items: seq<Token>): seq<int>
  {
    Refs(TableScan(SortBy(items, ByY)))
  }

  /** One token of the page scan: a new row opens when the token is more than 5 from the open row's reference. */
  function PageStep(s: Scan, item: Token): Scan
  {
    if Abs(item.y - s.currentY) > PageTolerance then
      Scan(Close(s.rows, s.current), CloseRefs(s.refs, s.current, s.currentY), [item], item.y)
    else
      Scan(s.rows, s.refs, s.current + [item], s.currentY)
  }

  /** The page scan over tokens sorted by y, starting from reference `y0`. */
  function PageScan(ts: seq<Token>, y0: int): Scan
  {
    if |ts| == 0 then Scan([], [], [], y0) else PageStep(PageScan(ts[..|ts| - 1], y0), ts[|ts| - 1])
  }

  /** The rows the page grouper of ContractGenerator.tsx produces. */
  function PageRows(items: seq<Token>): seq<seq<Token>>
  {
    var sorted := SortBy(items, ByY);
    Rows(PageScan(sorted, if |sorted| > 0 then sorted[0].y else 0))
  }

  ghost function PageRefs(items: seq<Token>): seq<int>
  {
    var sorted := SortBy(items, ByY);
    Refs(PageScan(sorted, if |sorted| > 0 then sorted[0].y else 0))
  }

  lemma SortedPrefix(ts: seq<Token>, n: nat, a: Axis)
    requires SortedBy(ts, a) && n <= |ts|
    ensures SortedBy(ts[..n], a)
  {
    var p := ts[..n];
    forall i, j | 0 <= i < j < |p| ensures Key(p[i], a) <= Key(p[j], a) {
      assert p[i] == ts[i] && p[j] == ts[j];
      assert Key(ts[i], a) <= Key(ts[j], a);
    }
  }

  lemma SameTokens(ts: seq<Token>, us: seq<Token>)
    requires multiset(ts) == multiset(us)
    ensures forall t :: t in ts <==> t in us
  {
    forall t ensures t in ts <==> t in us {
      assert t in ts <==> t in multiset(ts);
      assert t in us <==> t in multiset(us);
    }
  }

  /** What the table scan keeps true after the tokens `ts`: they are split between the
      finished rows and the open row and, when no token sits at the sentinel -1, the rows are
      chained bands of height 8 and the open row lies below them. */
  ghost predicate TableScanned(s: Scan, ts: seq<Token>)
  {
    TableParts(s, ts) && TableBands(s, ts)
  }

  /** The split of the tokens between the rows. */
  ghost predicate TableParts(s: Scan, ts: seq<Token>)
  {
    Partitioned(s.rows, s.current, ts)
    && |s.refs| == |s.rows|
    && (|ts| == 0 ==> |s.rows| == 0 && |s.current| == 0)
    && (|ts| > 0 ==> |s.current| > 0)
  }

  /** The bands, when no token sits at the sentinel. */
  ghost predicate TableBands(s: Scan, ts: seq<Token>)
  {
    (NoSentinel(ts) ==> (|ts| == 0 <==> s.currentY == -1))
    && (NoSentinel(ts) && |ts| > 0 ==> s.currentY <= ts[|ts| - 1].y)
    && (NoSentinel(ts) ==> Banded(s.rows, s.refs, s.current, s.currentY, TableTolerance))
  }

  lemma NoSentinelSnoc(p: seq<Token>, item: Token)
    ensures NoSentinel(p + [item]) <==> NoSentinel(p) && item.y != -1
  {
    var ts := p + [item];
    assert item in ts;
    assert forall t :: t in ts <==> t in p || t == item;
  }

  lemma TableStepParts(s: Scan, p: seq<Token>, item: Token)
    requires TableParts(s, p)
    ensures TableParts(TableStep(s, item), p + [item])
  {
    if s.currentY == -1 || Abs(item.y - s.currentY) <= TableTolerance {
      JoinPartitioned(s.rows, s.current, p, item);
    } else {
      StartPartitioned(s.rows, s.current, p, item);
    }
  }

  lemma TableJoinBands(s: Scan, p: seq<Token>, item: Token)
    requires TableScanned(s, p)
    requires |p| > 0 ==> p[|p| - 1].y <= item.y
    requires s.currentY == -1 || Abs(item.y - s.currentY) <= TableTolerance
    ensures TableBands(TableStep(s, item), p + [item])
  {
    NoSentinelSnoc(p, item);
    if NoSentinel(p + [item]) && |p| > 0 {
      JoinBanded(s.rows, s.refs, s.current, s.currentY, TableTolerance, item);
    }
  }

  lemma TableStartBands(s: Scan, p: seq<Token>, item: Token)
    requires TableScanned(s, p)
    requires |p| > 0 ==> p[|p| - 1].y <= item.y
    requires !(s.currentY == -1 || Abs(item.y - s.currentY) <= TableTolerance)
    ensures TableBands(TableStep(s, item), p + [item])
  {
    NoSentinelSnoc(p, item);
    if NoSentinel(p + [item]) {
      StartBanded(s.rows, s.refs, s.current, s.currentY, TableTolerance, item);
    }
  }

  lemma TableStepKeeps(s: Scan, p: seq<Token>, item: Token)
    requires TableScanned(s, p)
    requires |p| > 0 ==> p[|p| - 1].y <= item.y
    ensures TableScanned(TableStep(s, item), p + [item])
  {
    TableStepParts(s, p, item);
    if s.currentY == -1 || Abs(item.y - s.currentY) <= TableTolerance {
      TableJoinBands(s, p, item);
    } else {
      TableStartBands(s, p, item);
    }
  }

  lemma {:induction false} TableScanInvariant(ts: seq<Token>)
    requires SortedBy(ts, ByY)
    ensures TableScanned(TableScan(ts), ts)
  {
    if |ts| > 0 {
      var p, item := ts[..|ts| - 1], ts[|ts| - 1];
      assert ts == p + [item];
      SortedPrefix(ts, |ts| - 1, ByY);
      TableScanInvariant(p);
      if |p| > 0 {
        assert Key(ts[|p| - 1], ByY) <= Key(ts[|ts| - 1], ByY);
      }
      TableStepKeeps(TableScan(p), p, item);
    }
  }

  /** The table rows split the tokens into non-empty x-sorted rows; when no token sits at
      y = -1 each row spans at most 8 from its first token and the next row starts more
      than 8 below it. */
  lemma TableRowsShape(items: seq<Token>)
    ensures Partition(TableRows(items), items)
    ensures NoSentinel(items) ==> Layered(TableRows(items), TableRefs(items), TableTolerance)
  {
    var sorted := SortBy(items, ByY);
    SameTokens(sorted, items);
    TableScanInvariant(sorted);
    var s := TableScan(sorted);
    ClosePartitioned(s.rows, s.current, sorted);
    if NoSentinel(items) {
      CloseBanded(s.rows, s.refs, s.current, s.currentY, TableTolerance);
    }
  }

  /** The page scan's counterpart of TableScanned, for a scan started at the first token's y. */
  ghost predicate PageScanned(s: Scan, ts: seq<Token>, y0: int)
  {
    PageParts(s, ts, y0) && Banded(s.rows, s.refs, s.current, s.currentY, PageTolerance)
  }

  /** The split of the tokens between the rows, and the open row's reference. */
  ghost predicate PageParts(s: Scan, ts: seq<Token>, y0: int)
  {
    Partitioned(s.rows, s.current, ts)
    && |s.refs| == |s.rows|
    && (|ts| == 0 ==> |s.rows| == 0 && |s.current| == 0 && s.currentY == y0)
    && (|ts| > 0 ==> |s.current| > 0 && s.currentY <= ts[|ts| - 1].y)
  }

  lemma PageStartParts(s: Scan, p: seq<Token>, y0: int, item: Token)
    requires PageParts(s, p, y0)
    requires Abs(item.y - s.currentY) > PageTolerance
    ensures PageParts(PageStep(s, item), p + [item], y0)
  {
    assert PageStep(s, item) == Scan(Close(s.rows, s.current), CloseRefs(s.refs, s.current, s.currentY), [item], item.y);
    assert (p + [item])[|p|] == item;
    StartPartitioned(s.rows, s.current, p, item);
  }

  lemma PageJoinParts(s: Scan, p: seq<Token>, y0: int, item: Token)
    requires PageParts(s, p, y0)
    requires |p| == 0 ==> y0 == item.y
    requires |p| > 0 ==> p[|p| - 1].y <= item.y
    requires Abs(item.y - s.currentY) <= PageTolerance
    ensures PageParts(PageStep(s, item), p + [item], y0)
  {
    JoinPartitioned(s.rows, s.current, p, item);
  }

  lemma PageStepBands(s: Scan, p: seq<Token>, y0: int, item: Token)
    requires PageScanned(s, p, y0)
    requires |p| == 0 ==> y0 == item.y
    requires |p| > 0 ==> p[|p| - 1].y <= item.y
    ensures Banded(PageStep(s, item).rows, PageStep(s, item).refs, PageStep(s, item).current, PageStep(s, item).currentY, PageTolerance)
  {
    if Abs(item.y - s.currentY) > PageTolerance {
      StartBanded(s.rows, s.refs, s.current, s.currentY, PageTolerance, item);
    } else if |p| > 0 {
      JoinBanded(s.rows, s.refs, s.current, s.currentY, PageTolerance, item);
    }
  }

  lemma PageStepKeeps(s: Scan, p: seq<Token>, y0: int, item: Token)
    requires PageScanned(s, p, y0)
    requires |p| == 0 ==> y0 == item.y
    requires |p| > 0 ==> p[|p| - 1].y <= item.y
    ensures PageScanned(PageStep(s, item), p + [item], y0)
  {
    if Abs(item.y - s.currentY) > PageTolerance {
      PageStartParts(s, p, y0, item);
    } else {
      PageJoinParts(s, p, y0, item);
    }
    PageStepBands(s, p, y0, item);
  }

  lemma {:induction false} PageScanInvariant(ts: seq<Token>, y0: int)
    requires SortedBy(ts, ByY)
    requires |ts| > 0 ==> y0 == ts[0].y
    ensures PageScanned(PageScan(ts, y0), ts, y0)
  {
    if |ts| > 0 {
      var p, item := ts[..|ts| - 1], ts[|ts| - 1];
      assert ts == p + [item];
      SortedPrefix(ts, |ts| - 1, ByY);
      if |p| > 0 {
        assert p[0] == ts[0];
        assert Key(ts[|p| - 1], ByY) <= Key(ts[|ts| - 1], ByY);
      }
      PageScanInvariant(p, y0);
      PageStepKeeps(PageScan(p, y0), p, y0, item);
    }
  }

  /** The page rows split the tokens into non-empty x-sorted rows, each spanning at most 5
      from its first token, the next row starting more than 5 below it. */
  lemma PageRowsShape(items: seq<Token>)
    ensures Partition(PageRows(items), items)
    ensures Layered(PageRows(items), PageRefs(items), PageTolerance)
  {
    var sorted := SortBy(items, ByY);
    var y0 := if |sorted| > 0 then sorted[0].y else 0;
    PageScanInvariant(sorted, y0);
    var s := PageScan(sorted, y0);
    ClosePartitioned(s.rows, s.current, sorted);
    CloseBanded(s.rows, s.refs, s.current, s.currentY, PageTolerance);
  }

  /** The table-body grouper (InvoiceExtractor.ts): tokens sorted by y join the open row while
      within 8 of its reference, and each finished row is sorted by x. */
  method GroupTableRows(items: seq<Token>) returns (rows: seq<seq<Token>>)
    ensures rows == TableRows(items)
  {
    var sorted := SortBy(items, ByY);
    rows := [];
    ghost var refs: seq<int> := [];
    var current: seq<Token> := [];
    var currentY := -1;
    for k := 0 to |sorted|
      invariant Scan(rows, refs, current, currentY) == TableScan(sorted[..k])
    {
      assert sorted[..k + 1][..k] == sorted[..k];
      rows, refs, current, currentY := TableAdvance(rows, refs, current, currentY, sorted[k]);
    }
    assert sorted[..|sorted|] == sorted;
    if |current| > 0 {
      rows := rows + [SortBy(current, ByX)];
    }
  }

  /** One token of the table-body grouper. */
  method TableAdvance(rows: seq<seq<Token>>, ghost refs: seq<int>, current: seq<Token>, currentY: int, item: Token)
    returns (rows': seq<seq<Token>>, ghost refs': seq<int>, current': seq<Token>, currentY': int)
    ensures Scan(rows', refs', current', currentY') == TableStep(Scan(rows, refs, current, currentY), item)
  {
    rows', refs' := rows, refs;
    if currentY == -1 || Abs(item.y - currentY) <= TableTolerance {
      current' := current + [item];
      currentY' := if currentY == -1 then item.y else Min(currentY, item.y);
    } else {
      if |current| > 0 {
        rows' := rows + [SortBy(current, ByX)];
        refs' := refs + [currentY];
      }
      current' := [item];
      currentY' := item.y;
    }
  }

  /** The page grouper of ContractGenerator.tsx: the same loop with tolerance 5, the first
      token's y as the initial reference and no sentinel. */
  method GroupPageRows(items: seq<Token>) returns (rows: seq<seq<Token>>)
    ensures rows == PageRows(items)
  {
    var sorted := SortBy(items, ByY);
    var y0 := if |sorted| > 0 then sorted[0].y else 0;
    rows := [];
    ghost var refs: seq<int> := [];
    var current: seq<Token> := [];
    var currentY := y0;
    for k := 0 to |sorted|
      invariant Scan(rows, refs, current, currentY) == PageScan(sorted[..k], y0)
    {
      assert sorted[..k + 1][..k] == sorted[..k];
      rows, refs, current, currentY := PageAdvance(rows, refs, current, currentY, sorted[k]);
    }
    assert sorted[..|sorted|] == sorted;
    if |current| > 0 {
      rows := rows + [SortBy(current, ByX)];
    }
  }

  /** One token of the page grouper. */
  method PageAdvance(rows: seq<seq<Token>>, ghost refs: seq<int>, current: seq<Token>, currentY: int, item: Token)
    returns (rows': seq<seq<Token>>, ghost refs': seq<int>, current': seq<Token>, currentY': int)
    ensures Scan(rows', refs', current', currentY') == PageStep(Scan(rows, refs, current, currentY), item)
  {
    rows', refs' := rows, refs;
    if Abs(item.y - currentY) > PageTolerance {
      if |current| > 0 {
        rows' := rows + [SortBy(current, ByX)];
        refs' := refs + [currentY];
      }
      current' := [item];
      currentY' := item.y;
    } else {
      current' := current + [item];
      currentY' := currentY;
    }
  }
}
