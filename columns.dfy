/** The goods-table columns of InvoiceExtractor.ts: one column per recognised header label,
    sorted by left edge and then tiled so that each column ends where the next one starts. */
module Columns {
  import opened Strings
  import opened Tokens

  datatype ColumnKey = Name | Spec | Unit | Quantity | Price | Amount | TaxRate | Tax

  /** The column definitions in the order they are tried, each with its header variants. */
  const Definitions: seq<ColumnKey> := [Name, Spec, Unit, Quantity, Price, Amount, TaxRate, Tax]

  function Variants(k: ColumnKey): seq<string>
  {
    match k
    case Name => ["项目名称", "货物名称"]
    case Spec => ["规格型号", "规格", "型号"]
    case Unit => ["单位", "单 位"]
    case Quantity => ["数量", "数 量"]
    case Price => ["单价", "单 价"]
    case Amount => ["金额"]
    case TaxRate => ["税率", "税率/征收率"]
    case Tax => ["税额", "税 额"]
  }

  /** A header token names column `k` when its text contains one of the column's variants. */
  predicate Names(k: ColumnKey, t: Token)
  {
    ContainsAny(t.text, Variants(k))
  }

  /** A column spans [minX, maxX) once tiled. */
  datatype Column = Column(key: ColumnKey, minX: int, maxX: int)

  function MinX(ts: seq<Token>): (m: int)
    requires |ts| > 0
    ensures exists t :: t in ts && t.x == m
    ensures forall t :: t in ts ==> m <= t.x
  {
    if |ts| == 1 then ts[0].x
    else
      var rest := MinX(ts[1..]);
      assert forall t :: t in ts[1..] ==> t in ts;
      if ts[0].x <= rest then ts[0].x else rest
  }

  /** The right edge of the rightmost token, `Math.max(...ts.map(t => t.x + t.width))`. */
  function MaxRight(ts: seq<Token>): (m: int)
    requires |ts| > 0
    ensures exists t :: t in ts && t.x + t.width == m
    ensures forall t :: t in ts ==> t.x + t.width <= m
  {
    if |ts| == 1 then ts[0].x + ts[0].width
    else
      var rest := MaxRight(ts[1..]);
      assert forall t :: t in ts[1..] ==> t in ts;
      if ts[0].x + ts[0].width >= rest then ts[0].x + ts[0].width else rest
  }

  /** The keys the columns carry. */
  function KeySet(cs: seq<Column>): set<ColumnKey>
  {
    if |cs| == 0 then {} else {cs[0].key} + KeySet(cs[1..])
  }

  /** No key is carried by two columns. */
  predicate DistinctKeys(cs: seq<Column>)
  {
    |cs| == 0 || (cs[0].key !in KeySet(cs[1..]) && DistinctKeys(cs[1..]))
  }

  /** The columns found among the header tokens, one per definition in `defs` that some header
      token names, in definition order. */
  function BuildColumns(defs: seq<ColumnKey>, headers: seq<Token>): (cs: seq<Column>)
    ensures |cs| <= |defs|
    ensures KeySet(cs) <= set k | k in defs
  {
    if |defs| == 0 then []
    else
      var k := defs[0];
      var matching := Filter(headers, (t: Token) => Names(k, t));
      var rest := BuildColumns(defs[1..], headers);
      if |matching| > 0 then [Column(k, MinX(matching), MaxRight(matching))] + rest
      else rest
  }

  /** Each column spans the header tokens that name it: its left edge is the leftmost of them
      and every one of them ends at or before its right edge. */
  lemma {:induction false} BuildColumnsSpan(defs: seq<ColumnKey>, headers: seq<Token>, i: int, t: Token)
    requires 0 <= i < |BuildColumns(defs, headers)|
    ensures var c := BuildColumns(defs, headers)[i];
      (exists h :: h in headers && Names(c.key, h) && h.x == c.minX)
      && (t in headers && Names(c.key, t) ==> c.minX <= t.x && t.x + t.width <= c.maxX)
  {
    var k := defs[0];
    var matching := Filter(headers, (h: Token) => Names(k, h));
    var rest := BuildColumns(defs[1..], headers);
    if |matching| > 0 && i == 0 {
      HeadColumnSpan(k, headers, matching, t);
    } else {
      var j := if |matching| > 0 then i - 1 else i;
      assert BuildColumns(defs, headers)[i] == rest[j];
      BuildColumnsSpan(defs[1..], headers, j, t);
    }
  }

  /** The column built from the header tokens naming `k` spans them. */
  lemma HeadColumnSpan(k: ColumnKey, headers: seq<Token>, matching: seq<Token>, t: Token)
    requires |matching| > 0 && forall h :: h in matching <==> h in headers && Names(k, h)
    ensures var c := Column(k, MinX(matching), MaxRight(matching));
      (exists h :: h in headers && Names(c.key, h) && h.x == c.minX)
      && (t in headers && Names(c.key, t) ==> c.minX <= t.x && t.x + t.width <= c.maxX)
  {
    var m := MinX(matching);
    var h :| h in matching && h.x == m;
  }

  /** A definition that some header token names always yields a column. */
  lemma {:induction false} BuildColumnsComplete(defs: seq<ColumnKey>, headers: seq<Token>, k: ColumnKey, t: Token)
    requires k in defs && t in headers && Names(k, t)
    ensures k in KeySet(BuildColumns(defs, headers))
  {
    var matching := Filter(headers, (h: Token) => Names(defs[0], h));
    if defs[0] == k {
      assert t in matching;
    } else {
      BuildColumnsComplete(defs[1..], headers, k, t);
    }
  }

  /** Distinct definitions give distinct column keys. */
  lemma {:induction false} BuildColumnsDistinct(defs: seq<ColumnKey>, headers: seq<Token>)
    requires forall i, j :: 0 <= i < j < |defs| ==> defs[i] != defs[j]
    ensures DistinctKeys(BuildColumns(defs, headers))
  {
    if |defs| > 0 {
      BuildColumnsDistinct(defs[1..], headers);
      assert defs[0] !in defs[1..] by {
        forall m | 0 <= m < |defs| - 1 ensures defs[1..][m] != defs[0] {
          assert defs[m + 1] != defs[0];
        }
      }
    }
  }

  predicate SortedByMinX(cs: seq<Column>)
  {
    forall i, j :: 0 <= i < j < |cs| ==> cs[i].minX <= cs[j].minX
  }

  /** Puts `c` in front of the first column whose minX is not smaller. */
  function InsertColumn(c: Column, cs: seq<Column>): (r: seq<Column>)
    ensures multiset(r) == multiset(cs) + multiset{c}
    ensures |r| == |cs| + 1
    ensures KeySet(r) == KeySet(cs) + {c.key}
  {
    if |cs| == 0 || c.minX <= cs[0].minX then [c] + cs
    else
      assert cs == [cs[0]] + cs[1..];
      [cs[0]] + InsertColumn(c, cs[1..])
  }

  lemma {:induction false} InsertColumnSorted(c: Column, cs: seq<Column>)
    requires SortedByMinX(cs)
    ensures SortedByMinX(InsertColumn(c, cs))
  {
    if |cs| > 0 && c.minX > cs[0].minX {
      InsertColumnSorted(c, cs[1..]);
      var rest := InsertColumn(c, cs[1..]);
      forall k | 0 <= k < |rest| ensures cs[0].minX <= rest[k].minX {
        assert rest[k] in multiset(rest);
        if rest[k] != c {
          assert rest[k] in cs[1..];
        }
      }
    }
  }

  lemma {:induction false} InsertColumnDistinct(c: Column, cs: seq<Column>)
    requires DistinctKeys(cs) && c.key !in KeySet(cs)
    ensures DistinctKeys(InsertColumn(c, cs))
  {
    if |cs| > 0 && c.minX > cs[0].minX {
      InsertColumnDistinct(c, cs[1..]);
    }
  }

  /** `columns.sort((a, b) => a.minX - b.minX)`, stable. */
  function SortColumns(cs: seq<Column>): (r: seq<Column>)
    ensures SortedByMinX(r)
    ensures multiset(r) == multiset(cs)
    ensures KeySet(r) == KeySet(cs)
  {
    if |cs| == 0 then []
    else
      assert cs == [cs[0]] + cs[1..];
      InsertColumnSorted(cs[0], SortColumns(cs[1..]));
      InsertColumn(cs[0], SortColumns(cs[1..]))
  }

  /** Sorting keeps every key at most once. */
  lemma {:induction false} SortColumnsDistinct(cs: seq<Column>)
    requires DistinctKeys(cs)
    ensures DistinctKeys(SortColumns(cs))
  {
    if |cs| > 0 {
      SortColumnsDistinct(cs[1..]);
      InsertColumnDistinct(cs[0], SortColumns(cs[1..]));
    }
  }

  /** The adjusted columns: every column but the last ends where the next one begins. */
  function Tiled(cs: seq<Column>): (r: seq<Column>)
    ensures |r| == |cs|
  {
    seq(|cs|, i requires 0 <= i < |cs| => if i + 1 < |cs| then cs[i].(maxX := cs[i + 1].minX) else cs[i])
  }

  /** The loop `columns[i].maxX = columns[i+1].minX` over the sorted column array. */
  method TileColumns(cols: array<Column>)
    modifies cols
    ensures cols[..] == Tiled(old(cols[..]))
  {
    ghost var orig := cols[..];
    for i := 0 to if cols.Length > 0 then cols.Length - 1 else 0
      invariant forall k :: 0 <= k < i ==> cols[k] == Tiled(orig)[k]
      invariant forall k :: i <= k < cols.Length ==> cols[k] == orig[k]
    {
      cols[i] := cols[i].(maxX := cols[i + 1].minX);
    }
  }

  /** The tiling loop run over a fresh array holding the sorted columns. */
  method TileSorted(sorted: seq<Column>) returns (cs: seq<Column>)
    ensures cs == Tiled(sorted)
  {
    var cols := new Column[|sorted|](j requires 0 <= j < |sorted| => sorted[j]);
    assert cols[..] == sorted;
    TileColumns(cols);
    cs := cols[..];
  }

  /** The column a token at `x` goes to: the first whose span holds x, or -1. */
  function FindColumn(cs: seq<Column>, x: int): (r: int)
    ensures -1 <= r < |cs|
    ensures r >= 0 ==> cs[r].minX <= x < cs[r].maxX && forall i :: 0 <= i < r ==> !(cs[i].minX <= x < cs[i].maxX)
    ensures r == -1 ==> forall i :: 0 <= i < |cs| ==> !(cs[i].minX <= x < cs[i].maxX)
  {
    if |cs| == 0 then -1
    else if cs[0].minX <= x < cs[0].maxX then 0
    else
      var r := FindColumn(cs[1..], x);
      if r == -1 then -1 else r + 1
  }

  predicate StrictlyIncreasing(cs: seq<Column>)
  {
    forall i, j :: 0 <= i < j < |cs| ==> cs[i].minX < cs[j].minX
  }

  /** With strictly increasing left edges the tiled columns cover [first.minX, last.maxX)
      without overlap: every x in that range lies in exactly one column, the one FindColumn
      returns. */
  lemma TiledCover(cs: seq<Column>, x: int)
    requires |cs| > 0 && StrictlyIncreasing(cs)
    requires cs[0].minX <= x < cs[|cs| - 1].maxX
    ensures var t := Tiled(cs); var r := FindColumn(t, x);
      r >= 0 && forall i :: 0 <= i < |t| && t[i].minX <= x < t[i].maxX ==> i == r
  {
    var t := Tiled(cs);
    var n := |cs|;
    // the last column whose left edge is at or before x
    var k := 0;
    while k + 1 < n && cs[k + 1].minX <= x
      invariant 0 <= k < n && cs[k].minX <= x
    {
      k := k + 1;
    }
    assert t[k].minX <= x < t[k].maxX;
    forall i | 0 <= i < n && i != k ensures !(t[i].minX <= x < t[i].maxX) {
      if i < k {
        assert t[i].maxX == cs[i + 1].minX <= cs[k].minX;
      } else {
        assert cs[k + 1].minX <= cs[i].minX;
      }
    }
  }

  /** The tokens to the left of the first column or right of the last one find no column. */
  lemma OutsideFindsNothing(cs: seq<Column>, x: int)
    requires |cs| > 0 && StrictlyIncreasing(cs)
    requires x < cs[0].minX || (forall i :: 0 <= i < |cs| ==> cs[i].maxX <= x)
    ensures FindColumn(cs, x) == -1
  {
    forall i | 0 <= i < |cs| ensures !(cs[i].minX <= x < cs[i].maxX) {
      if x < cs[0].minX && i > 0 {
        assert cs[0].minX < cs[i].minX;
      }
    }
  }
}
