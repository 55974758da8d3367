/** Turning the grouped table rows into goods items (InvoiceExtractor.ts): every token of a row
    goes to the column its x falls in, and a row that only continues the name or spec of the
    previous item is folded into that item. */
module Items {
  import opened Strings
  import opened Tokens
  import opened Columns

  /** One goods line of the invoice, every field as text. */
  datatype Item = Item(name: string, spec: string, unit: string, quantity: string,
                       price: string, amount: string, taxRate: string, tax: string)

  const Blank := Item("", "", "", "", "", "", "", "")

  /** Writing a token's text into column `k`: name and spec accumulate, the other columns keep
      the latest text. */
  function Place(item: Item, k: ColumnKey, text: string): (r: Item)
  {
    match k
    case Name => item.(name := item.name + text)
    case Spec => item.(spec := item.spec + text)
    case Unit => item.(unit := text)
    case Quantity => item.(quantity := text)
    case Price => item.(price := text)
    case Amount => item.(amount := text)
    case TaxRate => item.(taxRate := text)
    case Tax => item.(tax := text)
  }

  /** Placing one token: it goes to the first column holding its x, or nowhere. */
  function PlaceToken(item: Item, cs: seq<Column>, t: Token): Item
  {
    var c := FindColumn(cs, t.x);
    if c == -1 then item else Place(item, cs[c].key, t.text)
  }

  /** The item a row of tokens describes, its tokens placed left to right. */
  function RowItem(row: seq<Token>, cs: seq<Column>): Item
  {
    if |row| == 0 then Blank else PlaceToken(RowItem(row[..|row| - 1], cs), cs, row[|row| - 1])
  }

  /** The texts of the row's tokens that land in a column with key `k`, in row order. */
  function ColumnTexts(row: seq<Token>, cs: seq<Column>, k: ColumnKey): seq<string>
  {
    if |row| == 0 then []
    else
      var t := row[|row| - 1];
      var c := FindColumn(cs, t.x);
      ColumnTexts(row[..|row| - 1], cs, k) + (if c >= 0 && cs[c].key == k then [t.text] else [])
  }

  function Concat(parts: seq<string>): string
  {
    if |parts| == 0 then "" else Concat(parts[..|parts| - 1]) + parts[|parts| - 1]
  }

  function LastOr(parts: seq<string>, default: string): string
  {
    if |parts| == 0 then default else parts[|parts| - 1]
  }

  lemma ColumnTextsSnoc(row: seq<Token>, cs: seq<Column>, k: ColumnKey)
    requires |row| > 0
    ensures var t := row[|row| - 1]; var c := FindColumn(cs, t.x);
      ColumnTexts(row, cs, k) == ColumnTexts(row[..|row| - 1], cs, k) + (if c >= 0 && cs[c].key == k then [t.text] else [])
  {
  }

  lemma ConcatSnoc(parts: seq<string>, s: string)
    ensures Concat(parts + [s]) == Concat(parts) + s
  {
    assert (parts + [s])[..|parts|] == parts;
  }

  /** Name and spec are the concatenation of every text placed in their column. */
  lemma {:induction false} RowItemAccumulates(row: seq<Token>, cs: seq<Column>)
    ensures RowItem(row, cs).name == Concat(ColumnTexts(row, cs, Name))
    ensures RowItem(row, cs).spec == Concat(ColumnTexts(row, cs, Spec))
  {
    if |row| > 0 {
      var p, t := row[..|row| - 1], row[|row| - 1];
      RowItemAccumulates(p, cs);
      ColumnTextsSnoc(row, cs, Name);
      ColumnTextsSnoc(row, cs, Spec);
      var c := FindColumn(cs, t.x);
      assert RowItem(row, cs) == PlaceToken(RowItem(p, cs), cs, t);
      if c >= 0 && cs[c].key == Name {
        ConcatSnoc(ColumnTexts(p, cs, Name), t.text);
        assert ColumnTexts(row, cs, Spec) == ColumnTexts(p, cs, Spec);
        assert RowItem(row, cs).spec == RowItem(p, cs).spec;
      } else if c >= 0 && cs[c].key == Spec {
        ConcatSnoc(ColumnTexts(p, cs, Spec), t.text);
        assert ColumnTexts(row, cs, Name) == ColumnTexts(p, cs, Name);
        assert RowItem(row, cs).name == RowItem(p, cs).name;
      } else {
        assert ColumnTexts(row, cs, Name) == ColumnTexts(p, cs, Name);
        assert ColumnTexts(row, cs, Spec) == ColumnTexts(p, cs, Spec);
        assert RowItem(row, cs).name == RowItem(p, cs).name && RowItem(row, cs).spec == RowItem(p, cs).spec;
      }
    }
  }

  /** Every other field is the last text placed in its column, or empty. */
  lemma RowItemKeepsLast(row: seq<Token>, cs: seq<Column>)
    ensures RowItem(row, cs).unit == LastOr(ColumnTexts(row, cs, Unit), "")
    ensures RowItem(row, cs).quantity == LastOr(ColumnTexts(row, cs, Quantity), "")
    ensures RowItem(row, cs).price == LastOr(ColumnTexts(row, cs, Price), "")
    ensures RowItem(row, cs).amount == LastOr(ColumnTexts(row, cs, Amount), "")
    ensures RowItem(row, cs).taxRate == LastOr(ColumnTexts(row, cs, TaxRate), "")
    ensures RowItem(row, cs).tax == LastOr(ColumnTexts(row, cs, Tax), "")
  {
    KeepsLast(row, cs, Unit);
    KeepsLast(row, cs, Quantity);
    KeepsLast(row, cs, Price);
    KeepsLast(row, cs, Amount);
    KeepsLast(row, cs, TaxRate);
    KeepsLast(row, cs, Tax);
  }

  /** The field of column `k`. */
  function FieldOf(it: Item, k: ColumnKey): string
  {
    match k
    case Name => it.name
    case Spec => it.spec
    case Unit => it.unit
    case Quantity => it.quantity
    case Price => it.price
    case Amount => it.amount
    case TaxRate => it.taxRate
    case Tax => it.tax
  }

  /** A column other than name and spec holds the last text placed in it. */
  lemma {:induction false} KeepsLast(row: seq<Token>, cs: seq<Column>, k: ColumnKey)
    requires k != Name && k != Spec
    ensures FieldOf(RowItem(row, cs), k) == LastOr(ColumnTexts(row, cs, k), "")
  {
    if |row| > 0 {
      KeepsLast(row[..|row| - 1], cs, k);
      ColumnTextsSnoc(row, cs, k);
    }
  }

  /** A row continues the previous item when it has a name or spec but no unit, quantity or price. */
  predicate IsContinuation(it: Item)
  {
    it.unit == "" && it.quantity == "" && it.price == ""
  }

  /** Folding a continuation row into the item before it: a blank and the text are appended. */
  function AppendTo(last: Item, it: Item): Item
  {
    last.(name := if it.name != "" then last.name + " " + it.name else last.name,
          spec := if it.spec != "" then last.spec + " " + it.spec else last.spec)
  }

  /** One row of the assembly loop. */
  function AssembleStep(items: seq<Item>, it: Item): seq<Item>
  {
    if it.name == "" && it.spec == "" then items
    else if IsContinuation(it) && |items| > 0 then items[..|items| - 1] + [AppendTo(items[|items| - 1], it)]
    else items + [it]
  }

  function Assembled(rows: seq<seq<Token>>, cs: seq<Column>): seq<Item>
  {
    if |rows| == 0 then [] else AssembleStep(Assembled(rows[..|rows| - 1], cs), RowItem(rows[|rows| - 1], cs))
  }

  /** What one row does to the item list: nothing for a row without name and spec; for a
      continuation row, the count stays, the earlier items stay and the last item's name and
      spec only grow at the end; otherwise exactly the row's item is pushed. */
  lemma AssembleStepEffect(items: seq<Item>, it: Item)
    ensures it.name == "" && it.spec == "" ==> AssembleStep(items, it) == items
    ensures (it.name != "" || it.spec != "") && IsContinuation(it) && |items| > 0 ==>
      var r := AssembleStep(items, it);
      |r| == |items| && r[..|r| - 1] == items[..|items| - 1]
      && items[|items| - 1].name <= r[|r| - 1].name && items[|items| - 1].spec <= r[|r| - 1].spec
      && (it.name != "" ==> r[|r| - 1].name == items[|items| - 1].name + " " + it.name)
    ensures (it.name != "" || it.spec != "") && !(IsContinuation(it) && |items| > 0) ==>
      AssembleStep(items, it) == items + [it]
  {
  }

  predicate NonBlank(it: Item)
  {
    it.name != "" || it.spec != ""
  }

  /** Every assembled item has a name or a spec, and there are never more items than rows. */
  lemma {:induction false} AssembledNonBlank(rows: seq<seq<Token>>, cs: seq<Column>)
    ensures |Assembled(rows, cs)| <= |rows|
    ensures forall i :: 0 <= i < |Assembled(rows, cs)| ==> NonBlank(Assembled(rows, cs)[i])
  {
    if |rows| > 0 {
      var p := rows[..|rows| - 1];
      AssembledNonBlank(p, cs);
      var items := Assembled(p, cs);
      var it := RowItem(rows[|rows| - 1], cs);
      if NonBlank(it) && IsContinuation(it) && |items| > 0 {
        var r := AssembleStep(items, it);
        assert NonBlank(items[|items| - 1]);
        forall i | 0 <= i < |r| ensures NonBlank(r[i]) {
          if i < |r| - 1 {
            assert r[i] == items[i];
          }
        }
      }
    }
  }

  /** The column search of the assembly loop: the first column whose span holds x, or -1. */
  method ColumnOf(cs: seq<Column>, x: int) returns (c: int)
    ensures c == FindColumn(cs, x)
  {
    c := -1;
    var j := 0;
    while j < |cs|
      invariant 0 <= j <= |cs|
      invariant forall i :: 0 <= i < j ==> !(cs[i].minX <= x < cs[i].maxX)
    {
      if cs[j].minX <= x && x < cs[j].maxX {
        c := j;
        break;
      }
      j := j + 1;
    }
  }

  /** The assembly loop over the table rows. */
  method AssembleItems(rows: seq<seq<Token>>, cs: seq<Column>) returns (items: seq<Item>)
    ensures items == Assembled(rows, cs)
  {
    items := [];
    for r := 0 to |rows|
      invariant items == Assembled(rows[..r], cs)
    {
      var item := BuildRowItem(rows[r], cs);
      assert rows[..r + 1][..r] == rows[..r];
      items := AddRowItem(items, item);
    }
    assert rows[..|rows|] == rows;
  }

  /** The inner loop: each token's text placed in the column its x falls in. */
  method BuildRowItem(row: seq<Token>, cs: seq<Column>) returns (item: Item)
    ensures item == RowItem(row, cs)
  {
    item := Blank;
    for m := 0 to |row|
      invariant item == RowItem(row[..m], cs)
    {
      var t := row[m];
      assert row[..m + 1][..m] == row[..m];
      var c := ColumnOf(cs, t.x);
      if c >= 0 {
        item := Place(item, cs[c].key, t.text);
      }
    }
    assert row[..|row|] == row;
  }

  /** The end of the loop body: a blank row is skipped, a continuation row is folded into the
      last item, any other row's item is pushed. */
  method AddRowItem(items: seq<Item>, item: Item) returns (items': seq<Item>)
    ensures items' == AssembleStep(items, item)
  {
    items' := items;
    if item.name != "" || item.spec != "" {
      if item.unit == "" && item.quantity == "" && item.price == "" && |items| > 0 {
        var last := items[|items| - 1];
        if item.name != "" {
          last := last.(name := last.name + " " + item.name);
        }
        if item.spec != "" {
          last := last.(spec := last.spec + " " + item.spec);
        }
        items' := items[..|items| - 1] + [last];
      } else {
        items' := items + [item];
      }
    }
  }
}
