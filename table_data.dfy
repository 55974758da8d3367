/** The `tableData` rows of InvoiceToContract.tsx: one row per goods item, numbered from 1, with
    every `*` taken out of the name (the classification marks such as `*电线电缆*`) and the
    tax fields dropped. */
module TableData {
  import opened Strings
  import opened Items

  datatype TableRow = TableRow(index: nat, name: string, spec: string, quantity: string, unit: string,
                               price: string, amount: string)

  /** `items.map((item, index) => ({ index: index + 1, name: item.name.replace(/\*\/g, ""), ... }))`. */
  function TableData(items: seq<Item>): (r: seq<TableRow>)
    ensures |r| == |items|
  {
    seq(|items|, i requires 0 <= i < |items| =>
      var it := items[i];
      TableRow(i + 1, RemoveChar(it.name, '*'), it.spec, it.quantity, it.unit, it.price, it.amount))
  }

  /** Row `i` is item `i`, numbered `i + 1`, its name free of `*` and its other columns as they
      were. */
  lemma TableRows(items: seq<Item>, i: nat)
    requires i < |items|
    ensures var row := TableData(items)[i];
      row.index == i + 1 && NoChar(row.name, '*') &&
      row.spec == items[i].spec && row.quantity == items[i].quantity && row.unit == items[i].unit &&
      row.price == items[i].price && row.amount == items[i].amount
  {
  }

  /** Taking out `*` changes a name exactly when it holds one; when it does, the name gets
      shorter. */
  lemma {:induction false} RemoveStars(s: string)
    ensures NoChar(s, '*') ==> RemoveChar(s, '*') == s
    ensures !NoChar(s, '*') ==> |RemoveChar(s, '*')| < |s|
  {
    if |s| > 0 {
      RemoveStars(s[1..]);
      if NoChar(s, '*') {
        assert NoChar(s[1..], '*');
        assert s == [s[0]] + s[1..];
      }
    }
  }

  /** Taking out `*` a second time changes nothing. */
  lemma RemoveStarsTwice(s: string)
    ensures RemoveChar(RemoveChar(s, '*'), '*') == RemoveChar(s, '*')
  {
    RemoveStars(RemoveChar(s, '*'));
  }

  /** The rows of a concatenation are the rows of the first part followed by those of the
      second, renumbered after it. */
  lemma TableDataAppend(a: seq<Item>, b: seq<Item>)
    ensures TableData(a + b) == TableData(a) + seq(|b|, j requires 0 <= j < |b| => TableData(b)[j].(index := |a| + j + 1))
  {
  }
}
