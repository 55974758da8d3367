/** The fallback of InvoiceExtractor.ts for invoices whose goods table cannot be located: goods
    names are the tokens at the left edge below the 项目名称 header, and every other field of a
    name's line is read from a fixed x-range. */
module Fallback {
  import opened Options
  import opened Strings
  import opened Tokens
  import opened Columns
  import opened Items
  import opened Patterns
  import opened RowGrouping
  import opened ItemsTable
  import Continuation

  /** The fixed x-range a field is read from, both bounds exclusive; the name has no range. */
  function Bucket(x: int): (r: Option<ColumnKey>)
    ensures r != Some(Name)
    ensures r.None? <==> x <= 100 || 150 <= x <= 180 || 220 <= x <= 250 || x == 290 || x == 380 || x == 450 || x == 530
  {
    if 100 < x < 150 then Some(Spec)
    else if 180 < x < 220 then Some(Unit)
    else if 250 < x < 290 then Some(Quantity)
    else if 290 < x < 380 then Some(Price)
    else if 380 < x < 450 then Some(Amount)
    else if 450 < x < 530 then Some(TaxRate)
    else if x > 530 then Some(Tax)
    else None
  }

  function Field(it: Item, k: ColumnKey): string
  {
    match k
    case Name => it.name
    case Spec => it.spec
    case Unit => it.unit
    case Quantity => it.quantity
    case Price => it.price
    case Amount => it.amount
    case TaxRate => it.taxRate
    case Tax => it.tax
  }

  /** Overwriting one field. */
  function SetField(it: Item, k: ColumnKey, text: string): (r: Item)
    ensures Field(r, k) == text
    ensures forall k' :: k' != k ==> Field(r, k') == Field(it, k')
  {
    match k
    case Name => it.(name := text)
    case Spec => it.(spec := text)
    case Unit => it.(unit := text)
    case Quantity => it.(quantity := text)
    case Price => it.(price := text)
    case Amount => it.(amount := text)
    case TaxRate => it.(taxRate := text)
    case Tax => it.(tax := text)
  }

  /** The item `identifyColumnByX` builds from a name token and the tokens of its line, taken
      left to right: the name token itself is skipped, any other token overwrites the field
      whose range holds its x. */
  function Identified(name: Token, row: seq<Token>): Item
  {
    if |row| == 0 then Blank.(name := name.text)
    else
      var it := Identified(name, row[..|row| - 1]);
      var t := row[|row| - 1];
      if t == name then it
      else match Bucket(t.x)
        case None => it
        case Some(k) => SetField(it, k, t.text)
  }

  method IdentifyColumnByX(name: Token, row: seq<Token>) returns (it: Item)
    ensures it == Identified(name, row)
  {
    it := Blank.(name := name.text);
    for i := 0 to |row|
      invariant it == Identified(name, row[..i])
    {
      var t := row[i];
      assert row[..i + 1][..i] == row[..i];
      if t != name {
        if 100 < t.x < 150 {
          it := it.(spec := t.text);
        } else if 180 < t.x < 220 {
          it := it.(unit := t.text);
        } else if 250 < t.x < 290 {
          it := it.(quantity := t.text);
        } else if 290 < t.x < 380 {
          it := it.(price := t.text);
        } else if 380 < t.x < 450 {
          it := it.(amount := t.text);
        } else if 450 < t.x < 530 {
          it := it.(taxRate := t.text);
        } else if t.x > 530 {
          it := it.(tax := t.text);
        }
      }
    }
    assert row[..|row|] == row;
  }

  /** The texts of the line's tokens, other than the name token, whose x lies in the range of
      field `k`, in line order. */
  function BucketTexts(name: Token, row: seq<Token>, k: ColumnKey): seq<string>
  {
    if |row| == 0 then []
    else
      var t := row[|row| - 1];
      BucketTexts(name, row[..|row| - 1], k) + (if t != name && Bucket(t.x) == Some(k) then [t.text] else [])
  }

  /** The name is always the name token's text, and every other field is the text of the last
      token in its range, or empty. */
  lemma {:induction false} IdentifiedFields(name: Token, row: seq<Token>)
    ensures Identified(name, row).name == name.text
    ensures forall k :: k != Name ==> Field(Identified(name, row), k) == LastOr(BucketTexts(name, row, k), "")
  {
    if |row| > 0 {
      IdentifiedFields(name, row[..|row| - 1]);
    }
  }

  /** `findSameRowItems`: the tokens within 5 of `y`, sorted by x. */
  function SameRow(all: seq<Token>, y: int): (r: seq<Token>)
    ensures SortedBy(r, ByX)
    ensures |r| <= |all|
  {
    SortBy(Filter(all, (t: Token) => Abs(t.y - y) <= 5), ByX)
  }

  /** The line of `y` holds exactly the tokens within 5 of it. */
  lemma SameRowMembers(all: seq<Token>, y: int)
    ensures forall t :: t in SameRow(all, y) <==> t in all && Abs(t.y - y) <= 5
  {
    NearFilter(all, y);
    SortByMembers(Filter(all, (t: Token) => Abs(t.y - y) <= 5), ByX);
  }

  lemma NearFilter(all: seq<Token>, y: int)
    ensures forall t :: t in Filter(all, (t: Token) => Abs(t.y - y) <= 5) <==> t in all && Abs(t.y - y) <= 5
  {
  }

  /** An item is kept when it has a name and at least one of spec, unit, quantity, price and
      amount. */
  predicate Accepted(it: Item)
  {
    it.name != "" && (it.spec != "" || it.unit != "" || it.quantity != "" || it.price != "" || it.amount != "")
  }

  /** The raw text of a line: its tokens' texts separated by blanks. */
  function RawLine(row: seq<Token>): string
  {
    Join(Texts(row), " ")
  }

  /** The accepted items of the product name tokens among `names`, in order. */
  function Recognized(names: seq<Token>, all: seq<Token>): seq<Item>
  {
    if |names| == 0 then []
    else
      var t := names[|names| - 1];
      var it := Identified(t, SameRow(all, t.y));
      Recognized(names[..|names| - 1], all) + (if IsProductItem(t.text) && Accepted(it) then [it] else [])
  }

  /** The non-blank raw lines of the product name tokens among `names`, in order. */
  function RawLines(names: seq<Token>, all: seq<Token>): seq<string>
  {
    if |names| == 0 then []
    else
      var t := names[|names| - 1];
      var line := RawLine(SameRow(all, t.y));
      RawLines(names[..|names| - 1], all) + (if IsProductItem(t.text) && Trim(line) != "" then [line] else [])
  }

  /** At most one item per name token; every item is accepted and named by a product name
      token. */
  lemma {:induction false} RecognizedFacts(names: seq<Token>, all: seq<Token>)
    ensures |Recognized(names, all)| <= |names|
    ensures forall it :: it in Recognized(names, all) ==>
      Accepted(it) && exists t :: t in names && IsProductItem(t.text) && it.name == t.text
  {
    if |names| > 0 {
      var p := names[..|names| - 1];
      var t := names[|names| - 1];
      RecognizedFacts(p, all);
      IdentifiedFields(t, SameRow(all, t.y));
      forall it | it in Recognized(names, all)
        ensures Accepted(it) && exists u :: u in names && IsProductItem(u.text) && it.name == u.text
      {
        if it in Recognized(p, all) {
          var u :| u in p && IsProductItem(u.text) && it.name == u.text;
          assert u in names;
        } else {
          assert t in names;
        }
      }
    }
  }

  /** At most one raw line per name token, none of them blank. */
  lemma {:induction false} RawLinesFacts(names: seq<Token>, all: seq<Token>)
    ensures |RawLines(names, all)| <= |names|
    ensures forall l :: l in RawLines(names, all) ==> Trim(l) != ""
  {
    if |names| > 0 {
      RawLinesFacts(names[..|names| - 1], all);
    }
  }

  lemma RecognizedSnoc(names: seq<Token>, all: seq<Token>, i: nat)
    requires i < |names|
    ensures var t := names[i]; var it := Identified(t, SameRow(all, t.y));
      Recognized(names[..i + 1], all) == Recognized(names[..i], all) + (if IsProductItem(t.text) && Accepted(it) then [it] else [])
  {
    assert names[..i + 1][..i] == names[..i];
  }

  lemma RawLinesSnoc(names: seq<Token>, all: seq<Token>, i: nat)
    requires i < |names|
    ensures var t := names[i]; var line := RawLine(SameRow(all, t.y));
      RawLines(names[..i + 1], all) == RawLines(names[..i], all) + (if IsProductItem(t.text) && Trim(line) != "" then [line] else [])
  {
    assert names[..i + 1][..i] == names[..i];
  }

  /** The loop of `extractItemsFromTextItems` over the name tokens. */
  method ScanNames(names: seq<Token>, all: seq<Token>) returns (recognized: seq<Item>, rawLines: seq<string>)
    ensures recognized == Recognized(names, all)
    ensures rawLines == RawLines(names, all)
  {
    recognized, rawLines := [], [];
    for i := 0 to |names|
      invariant recognized == Recognized(names[..i], all)
      invariant rawLines == RawLines(names[..i], all)
    {
      var t := names[i];
      RecognizedSnoc(names, all, i);
      RawLinesSnoc(names, all, i);
      if IsProductItem(t.text) {
        var row := SameRow(all, t.y);
        var it := IdentifyColumnByX(t, row);
        if it.name != "" && (it.spec != "" || it.unit != "" || it.quantity != "" || it.price != "" || it.amount != "") {
          recognized := recognized + [it];
        }
        var line := Join(Texts(row), " ");
        if |Trim(line)| > 0 {
          rawLines := rawLines + [line];
        }
      }
    }
    assert names[..|names|] == names;
  }

  /** `extractItemsFromTextItems`: the accepted items of the product name tokens, then the
      continuation passes over them, and the raw lines. */
  method ExtractItemsFromTextItems(names: seq<Token>, all: seq<Token>) returns (items: seq<Item>, rawLines: seq<string>)
    ensures items == Continuation.Processed(all, Recognized(names, all))
    ensures rawLines == RawLines(names, all)
  {
    var recognized;
    recognized, rawLines := ScanNames(names, all);
    items := Continuation.ProcessItems(all, recognized);
  }

  /** The first token whose text contains `key` (`Array.prototype.find`). */
  function FirstContaining(ts: seq<Token>, key: string): (r: Option<nat>)
    ensures r.Some? ==> (r.value < |ts| && Contains(ts[r.value].text, key)
      && forall j :: 0 <= j < r.value ==> !Contains(ts[j].text, key))
    ensures r.None? ==> forall j :: 0 <= j < |ts| ==> !Contains(ts[j].text, key)
  {
    if |ts| == 0 then None
    else if Contains(ts[0].text, key) then Some(0)
    else match FirstContaining(ts[1..], key)
      case None => None
      case Some(j) => Some(j + 1)
  }

  /** The header tokens the fallback looks for. */
  predicate IsHeaderItem(t: Token)
  {
    Contains(t.text, "项目名称") || Contains(t.text, "规格型号") || Contains(t.text, "单位") || Contains(t.text, "数量")
  }

  /** `findPotentialItemNameItems`: with a header token naming 项目名称, the tokens left of
      x = 100 and below the first such header; without one, none. */
  function PotentialNames(tokens: seq<Token>, headers: seq<Token>): (r: seq<Token>)
    ensures FirstContaining(headers, "项目名称").None? ==> r == []
    ensures FirstContaining(headers, "项目名称").Some? ==>
      var h := headers[FirstContaining(headers, "项目名称").value];
      forall t :: t in r <==> t in tokens && t.x < 100 && t.y > h.y
    ensures |r| <= |tokens|
  {
    match FirstContaining(headers, "项目名称")
    case None => []
    case Some(j) => Filter(tokens, (t: Token) => t.x < 100 && t.y > headers[j].y)
  }

  /** The outcome of the fallback on the page's tokens: nothing when no name token or no item
      is found, otherwise the details of the polished items. */
  function FallbackDetails(tokens: seq<Token>): Option<TableDetails>
  {
    var names := PotentialNames(tokens, Filter(tokens, IsHeaderItem));
    var items := Continuation.Processed(tokens, Recognized(names, tokens));
    if |names| == 0 || |items| == 0 then None
    else Some(TableDetails(Join(RawLines(names, tokens), "\n"), TableText(Polished(items))))
  }

  /** `tryExtractItemsByDifferentMethods`: header tokens, then name tokens, then items; the
      details are set only when some item is found. */
  method TryExtractItemsByDifferentMethods(tokens: seq<Token>) returns (found: bool, details: Option<TableDetails>)
    ensures details == FallbackDetails(tokens)
    ensures found <==> details.Some?
  {
    var headers := Filter(tokens, IsHeaderItem);
    var names := PotentialNames(tokens, headers);
    if |names| == 0 {
      return false, None;
    }
    var items, lines := ExtractItemsFromTextItems(names, tokens);
    if |items| == 0 {
      return false, None;
    }
    details := SetDetails(items, lines);
    found := true;
  }

  /** The details of a nonempty item list, through an array as `generateTableAndSetDetails`
      works in place. */
  method SetDetails(items: seq<Item>, lines: seq<string>) returns (details: Option<TableDetails>)
    requires |items| > 0
    ensures details == Some(TableDetails(Join(lines, "\n"), TableText(Polished(items))))
  {
    var rows := new Item[|items|](j requires 0 <= j < |items| => items[j]);
    assert rows[..] == items;
    details := GenerateTableAndSetDetails(rows, lines);
  }

  /** The fallback keeps every recognized item: the continuation passes neither drop nor add
      one, so details are set exactly when some name token gives an accepted item. */
  lemma FallbackFound(tokens: seq<Token>)
    ensures var names := PotentialNames(tokens, Filter(tokens, IsHeaderItem));
      FallbackDetails(tokens).Some? <==> |Recognized(names, tokens)| > 0
  {
    var names := PotentialNames(tokens, Filter(tokens, IsHeaderItem));
    var rec := Recognized(names, tokens);
    assert Continuation.Framed(rec, Continuation.Processed(tokens, rec));
    RecognizedFacts(names, tokens);
  }
}
