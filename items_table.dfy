/** The tab-separated goods table: the text InvoiceExtractor.ts writes into `itemsTable` and the
    parser of ContractService.ts that reads it back into one record per goods line. */
module ItemsTable {
  import opened Options
  import opened Strings
  import opened Patterns
  import opened Items

  /** The column labels of the header row, in column order. */
  const Labels: seq<string> := ["项目名称", "规格型号", "单位", "数量", "单价", "金额", "税率", "税额"]

  /** The header row as written, the labels separated by tabs. */
  const HeaderText: string := Line(Labels)

  /** The record keys the parser stores those columns under. */
  const Keys: seq<string> := ["name", "spec", "unit", "quantity", "price", "amount", "taxRate", "tax"]

  /** The cells of an item's row, in column order. */
  function Fields(it: Item): (r: seq<string>)
    ensures |r| == 8
  {
    [it.name, it.spec, it.unit, it.quantity, it.price, it.amount, it.taxRate, it.tax]
  }

  /** The clean-up done on every item before it is written: `d * d` tightened to `d*d` and the
      spec trimmed, when there is a spec; the name trimmed, when there is one. */
  function Polish(it: Item): Item
  {
    it.(spec := if it.spec != "" then Trim(TightenTimes(it.spec)) else it.spec,
        name := if it.name != "" then Trim(it.name) else it.name)
  }

  function Polished(items: seq<Item>): (r: seq<Item>)
    ensures |r| == |items|
  {
    seq(|items|, i requires 0 <= i < |items| => Polish(items[i]))
  }

  /** One row of the table: the cells separated by tabs. */
  function Line(cells: seq<string>): string
  {
    Join(cells, "\t")
  }

  /** One data row and its newline. */
  function Row(it: Item): string
  {
    Line(Fields(it)) + "\n"
  }

  /** The data rows, each followed by a newline. */
  function Body(items: seq<Item>): string
  {
    if |items| == 0 then "" else Body(items[..|items| - 1]) + Row(items[|items| - 1])
  }

  lemma BodyStep(items: seq<Item>, i: nat)
    requires i < |items|
    ensures Body(items[..i + 1]) == Body(items[..i]) + Row(items[i])
  {
    assert items[..i + 1][..i] == items[..i];
  }

  /** A header line, a newline and the data rows. */
  function Written(head: string, items: seq<Item>): string
  {
    head + "\n" + Body(items)
  }

  /** The `itemsTable` text written for `items` (already polished): nothing when there are no
      items, otherwise the header row and a row per item, the whole text trimmed. */
  function TableText(items: seq<Item>): string
  {
    if |items| == 0 then "" else Trim(Written(HeaderText, items))
  }

  /** What the serialiser stores in the invoice details: the raw item lines joined by newlines
      and the table text. */
  datatype TableDetails = TableDetails(items: string, itemsTable: string)

  /** `generateTableAndSetDetails`: nothing for no items; otherwise the items are polished in
      place and the table text is built row by row from the polished items. */
  method GenerateTableAndSetDetails(items: array<Item>, rawLines: seq<string>) returns (r: Option<TableDetails>)
    modifies items
    ensures items.Length == 0 ==> r == None && items[..] == old(items[..])
    ensures items.Length > 0 ==> (items[..] == Polished(old(items[..]))
      && r == Some(TableDetails(Join(rawLines, "\n"), TableText(items[..]))))
  {
    if items.Length == 0 {
      return None;
    }
    PolishItems(items);
    var table := BuildTable(items[..]);
    r := Some(TableDetails(Join(rawLines, "\n"), table));
  }

  /** The text built from the polished items: the header row, then a row per item. */
  method BuildTable(items: seq<Item>) returns (table: string)
    ensures table == TableText(items)
  {
    if |items| == 0 {
      return "";
    }
    var body := "";
    for i := 0 to |items|
      invariant body == Body(items[..i])
    {
      BodyStep(items, i);
      body := body + Row(items[i]);
    }
    assert items[..|items|] == items;
    table := Trim(HeaderText + "\n" + body);
  }

  /** The clean-up loop over the items. */
  method PolishItems(items: array<Item>)
    modifies items
    ensures items[..] == Polished(old(items[..]))
  {
    ghost var orig := items[..];
    for i := 0 to items.Length
      invariant items[..] == Polished(orig[..i]) + orig[i..]
    {
      PolishAt(items, i, orig);
    }
    assert orig[..items.Length] == orig;
  }

  /** The clean-up of item `i`, the items before it done and those after it untouched. */
  method PolishAt(items: array<Item>, i: nat, ghost orig: seq<Item>)
    requires i < items.Length == |orig| && items[..] == Polished(orig[..i]) + orig[i..]
    modifies items
    ensures items[..] == Polished(orig[..i + 1]) + orig[i + 1..]
  {
    items[i] := Polish(items[i]);
    assert orig[..i + 1] == orig[..i] + [orig[i]];
  }

  /** A parsed goods line: field or header text to cell text. */
  type Record = map<string, string>

  /** The key a header cell is stored under: a known label's field name, any other text itself. */
  function KeyOf(header: string): string
  {
    if header == "项目名称" then "name"
    else if header == "规格型号" then "spec"
    else if header == "单位" then "unit"
    else if header == "数量" then "quantity"
    else if header == "单价" then "price"
    else if header == "金额" then "amount"
    else if header == "税率" then "taxRate"
    else if header == "税额" then "tax"
    else header
  }

  /** Each label is stored under its field name. */
  lemma KeyOfLabel(j: nat)
    requires j < |Labels|
    ensures KeyOf(Labels[j]) == Keys[j]
  {
  }

  /** Any text that is not a label is stored under itself. */
  lemma KeyOfOther(header: string)
    requires header !in Labels
    ensures KeyOf(header) == header
  {
  }

  /** The keys the headers of a table are stored under, each header trimmed first. */
  function HeaderKeys(headers: seq<string>): (r: seq<string>)
    ensures |r| == |headers|
  {
    seq(|headers|, j requires 0 <= j < |headers| => KeyOf(Trim(headers[j])))
  }

  /** The cells of a row, each trimmed. */
  function TrimAll(cells: seq<string>): (r: seq<string>)
    ensures |r| == |cells|
  {
    seq(|cells|, j requires 0 <= j < |cells| => Trim(cells[j]))
  }

  /** The record built from the first `n` key/value pairs; a later pair with the same key
      overwrites an earlier one. */
  function Fill(keys: seq<string>, values: seq<string>, n: nat): Record
    requires n <= |keys| && n <= |values|
  {
    if n == 0 then map[] else Fill(keys, values, n - 1)[keys[n - 1] := values[n - 1]]
  }

  /** A row whose first cell names a total. */
  predicate IsTotalRow(cells: seq<string>)
    requires |cells| > 0
  {
    Contains(cells[0], "合计") || Contains(cells[0], "价税合计")
  }

  /** One data row: total rows and rows without a name give nothing; cells beyond the headers
      are ignored. */
  function ParseRow(headers: seq<string>, line: string): Option<Record>
  {
    var cells := Split(line, '\t');
    if IsTotalRow(cells) then None
    else
      var r := Fill(HeaderKeys(headers), TrimAll(cells), if |headers| <= |cells| then |headers| else |cells|);
      if "name" in r && r["name"] != "" then Some(r) else None
  }

  function ParseRows(headers: seq<string>, lines: seq<string>): seq<Record>
  {
    if |lines| == 0 then []
    else
      ParseRows(headers, lines[..|lines| - 1])
      + match ParseRow(headers, lines[|lines| - 1]) case Some(r) => [r] case None => []
  }

  /** `parseItemsTable`: the trimmed text split into lines; the first line holds the headers,
      every later line is a data row; fewer than two lines give no records. */
  function ParsedTable(table: string): seq<Record>
  {
    var rows := Split(Trim(table), '\n');
    if |rows| < 2 then [] else ParseRows(Split(rows[0], '\t'), rows[1..])
  }

  method ParseItemsTable(table: string) returns (items: seq<Record>)
    ensures items == ParsedTable(table)
  {
    var rows := Split(Trim(table), '\n');
    if |rows| < 2 {
      return [];
    }
    var headers := Split(rows[0], '\t');
    items := ParseDataRows(headers, rows[1..]);
  }

  /** The loop over the data rows. */
  method ParseDataRows(headers: seq<string>, lines: seq<string>) returns (items: seq<Record>)
    ensures items == ParseRows(headers, lines)
  {
    items := [];
    for i := 0 to |lines|
      invariant items == ParseRows(headers, lines[..i])
    {
      assert lines[..i + 1][..i] == lines[..i];
      var r := ParseLine(headers, lines[i]);
      if r.Some? {
        items := items + [r.value];
      }
    }
    assert lines[..|lines|] == lines;
  }

  /** One pass of that loop: a total row is skipped, then every header that has a cell stores
      the trimmed cell, and the record is kept only with a non-empty name. */
  method ParseLine(headers: seq<string>, line: string) returns (r: Option<Record>)
    ensures r == ParseRow(headers, line)
  {
    var cells := Split(line, '\t');
    if IsTotalRow(cells) {
      return None;
    }
    var item := FillCells(headers, cells);
    r := if "name" in item && item["name"] != "" then Some(item) else None;
  }

  /** The inner loop of that pass: header `j` keys the trimmed cell `j`, for every header that
      has a cell. */
  method FillCells(headers: seq<string>, cells: seq<string>) returns (item: Record)
    ensures item == Fill(HeaderKeys(headers), TrimAll(cells), if |headers| <= |cells| then |headers| else |cells|)
  {
    ghost var keys, values := HeaderKeys(headers), TrimAll(cells);
    item := map[];
    for j := 0 to |headers|
      invariant item == Fill(keys, values, if j <= |cells| then j else |cells|)
    {
      if j < |cells| {
        var header := Trim(headers[j]);
        var value := Trim(cells[j]);
        assert KeyOf(header) == keys[j] && value == values[j];
        item := item[KeyOf(header) := value];
      }
    }
  }

  /** Every key of a filled record is one of the first `n` keys. */
  lemma {:induction false} FillKeys(keys: seq<string>, values: seq<string>, n: nat, k: string)
    requires n <= |keys| && n <= |values| && k in Fill(keys, values, n)
    ensures exists j :: 0 <= j < n && k == keys[j]
  {
    if k != keys[n - 1] {
      FillKeys(keys, values, n - 1, k);
    }
  }

  /** A parsed record has a non-empty name, its row's first cell names no total, and it holds
      only keys of headers that have a cell in the row. */
  lemma ParseRowFacts(headers: seq<string>, line: string)
    ensures var cells := Split(line, '\t');
      ParseRow(headers, line).Some? ==>
        var r := ParseRow(headers, line).value;
        "name" in r && r["name"] != "" && !Contains(cells[0], "合计")
        && forall k :: k in r ==> exists j :: 0 <= j < |headers| && j < |cells| && k == KeyOf(Trim(headers[j]))
  {
    var cells := Split(line, '\t');
    if ParseRow(headers, line).Some? {
      var n := if |headers| <= |cells| then |headers| else |cells|;
      forall k | k in ParseRow(headers, line).value
        ensures exists j :: 0 <= j < |headers| && j < |cells| && k == KeyOf(Trim(headers[j]))
      {
        FillKeys(HeaderKeys(headers), TrimAll(cells), n, k);
      }
    }
  }

  /** Every record of a parsed table has a non-empty name, and there is at most one record per
      data line. */
  lemma {:induction false} ParseRowsNamed(headers: seq<string>, lines: seq<string>)
    ensures |ParseRows(headers, lines)| <= |lines|
    ensures forall r :: r in ParseRows(headers, lines) ==> "name" in r && r["name"] != ""
  {
    if |lines| > 0 {
      ParseRowsNamed(headers, lines[..|lines| - 1]);
      ParseRowFacts(headers, lines[|lines| - 1]);
    }
  }

  // ---------------------------------------------------------------------------------------
  // Writing a table and reading it back.

  /** A cell that survives the trip: trimmed and free of tabs and newlines. */
  predicate Cell(s: string)
  {
    Trimmed(s) && NoChar(s, '\t') && NoChar(s, '\n')
  }

  /** An item whose row reads back: every cell survives, and the name is present and names no
      total. */
  predicate Writable(it: Item)
  {
    (forall j :: 0 <= j < 8 ==> Cell(Fields(it)[j])) && it.name != "" && !Contains(it.name, "合计")
  }

  /** The record the parser gives for the first `n` cells of an item's row. */
  function RecordOf(it: Item, n: nat): Record
    requires n <= 8
  {
    Fill(Keys, Fields(it), n)
  }

  /** How many cells of the item's row remain once empty cells at its end are cut off. */
  function Filled(it: Item): (n: nat)
    requires it.name != ""
    ensures 1 <= n <= 8 && Fields(it)[n - 1] != ""
    ensures forall j :: n <= j < 8 ==> Fields(it)[j] == ""
  {
    LastFilled(Fields(it), 8)
  }

  function LastFilled(cells: seq<string>, n: nat): (m: nat)
    requires 1 <= n <= |cells| && cells[0] != ""
    ensures 1 <= m <= n && cells[m - 1] != ""
    ensures forall j :: m <= j < n ==> cells[j] == ""
  {
    if cells[n - 1] != "" then n else LastFilled(cells, n - 1)
  }

  /** The records of full rows, one per item. */
  function FullRecords(items: seq<Item>): (r: seq<Record>)
    ensures |r| == |items|
  {
    if |items| == 0 then [] else FullRecords(items[..|items| - 1]) + [RecordOf(items[|items| - 1], 8)]
  }

  /** What the parser returns for a written table: a full record per item, except that the last
      row loses its empty cells at the end to the trim of the whole text, so those keys are
      absent rather than empty. */
  function ReadBack(items: seq<Item>): (r: seq<Record>)
    requires |items| > 0 ==> items[|items| - 1].name != ""
    ensures |r| == |items|
  {
    if |items| == 0 then []
    else
      var last := items[|items| - 1];
      FullRecords(items[..|items| - 1]) + [RecordOf(last, Filled(last))]
  }

  lemma {:induction false} JoinSnoc(parts: seq<string>, sep: string, x: string)
    requires |parts| >= 1
    ensures Join(parts + [x], sep) == Join(parts, sep) + sep + x
  {
    if |parts| > 1 {
      assert (parts + [x])[1..] == parts[1..] + [x];
      JoinSnoc(parts[1..], sep, x);
    }
  }

  lemma {:induction false} JoinNoChar(parts: seq<string>, sep: string, c: char)
    requires NoChar(sep, c) && forall k :: 0 <= k < |parts| ==> NoChar(parts[k], c)
    ensures NoChar(Join(parts, sep), c)
  {
    if |parts| > 1 {
      JoinNoChar(parts[1..], sep, c);
    }
  }

  /** The text of the body rows as the lines of a newline-joined text. */
  function RowLines(items: seq<Item>): (r: seq<string>)
    ensures |r| == |items|
  {
    if |items| == 0 then [] else RowLines(items[..|items| - 1]) + [Line(Fields(items[|items| - 1]))]
  }

  /** The body is the row lines joined by newlines, with a newline after the last. */
  lemma {:induction false} BodyLines(items: seq<Item>)
    requires |items| > 0
    ensures Body(items) == Join(RowLines(items), "\n") + "\n"
  {
    var n := |items|;
    var p := items[..n - 1];
    var x := Line(Fields(items[n - 1]));
    if n > 1 {
      BodyLines(p);
      JoinSnoc(RowLines(p), "\n", x);
    } else {
      assert RowLines(items) == [x];
    }
  }

  lemma JoinCons(head: string, parts: seq<string>, sep: string)
    requires |parts| > 0
    ensures Join([head] + parts, sep) == head + sep + Join(parts, sep)
  {
    assert ([head] + parts)[1..] == parts;
  }

  /** Text appended to the last part is appended to the joined text. */
  lemma {:induction false} JoinLastExtend(parts: seq<string>, a: string, w: string, sep: string)
    ensures Join(parts + [a + w], sep) == Join(parts + [a], sep) + w
  {
    if |parts| > 0 {
      assert (parts + [a + w])[1..] == parts[1..] + [a + w];
      assert (parts + [a])[1..] == parts[1..] + [a];
      JoinLastExtend(parts[1..], a, w, sep);
    } else {
      assert parts + [a + w] == [a + w] && parts + [a] == [a];
    }
  }

  /** A joined text ends with the last part's last character. */
  lemma JoinLast(parts: seq<string>, c: string, sep: string)
    requires |c| > 0
    ensures var j := Join(parts + [c], sep); |j| > 0 && j[|j| - 1] == c[|c| - 1]
  {
    if |parts| > 0 {
      JoinSnoc(parts, sep, c);
    } else {
      assert parts + [c] == [c];
    }
  }

  /** Empty cells at the end of a row are only tabs at the end of its line. */
  lemma {:induction false} LineTail(cells: seq<string>, m: nat)
    requires 1 <= m <= |cells| && forall j :: m <= j < |cells| ==> cells[j] == ""
    ensures exists w :: AllSpace(w) && Line(cells) == Line(cells[..m]) + w
  {
    if m < |cells| {
      var p := cells[..|cells| - 1];
      LineTail(p, m);
      var w :| AllSpace(w) && Line(p) == Line(p[..m]) + w;
      assert cells == p + [""];
      JoinSnoc(p, "\t", "");
      assert p[..m] == cells[..m];
      assert Line(cells) == Line(cells[..m]) + (w + "\t");
      assert AllSpace(w + "\t");
    } else {
      assert cells[..m] == cells;
      assert Line(cells) == Line(cells[..m]) + "";
    }
  }

  /** The body lines with the last one cut after its last filled cell. */
  function CutLines(items: seq<Item>): (r: seq<string>)
    requires |items| > 0 && items[|items| - 1].name != ""
    ensures |r| == |items|
  {
    var last := items[|items| - 1];
    RowLines(items[..|items| - 1]) + [Line(Fields(last)[..Filled(last)])]
  }

  /** A joined text starts with the first part's first character. */
  lemma JoinHead(parts: seq<string>, sep: string)
    requires |parts| > 0 && |parts[0]| > 0
    ensures |Join(parts, sep)| > 0 && Join(parts, sep)[0] == parts[0][0]
  {
  }

  /** The written text is the header line and the cut body lines joined by newlines, followed
      only by white space. */
  lemma CutTail(head: string, items: seq<Item>)
    requires |items| > 0 && items[|items| - 1].name != ""
    ensures exists w :: AllSpace(w) && head + "\n" + Body(items) == Join([head] + CutLines(items), "\n") + w
  {
    var n := |items|;
    var last := items[n - 1];
    var m := Filled(last);
    var p := items[..n - 1];
    var c := Line(Fields(last)[..m]);
    LineTail(Fields(last), m);
    var w :| AllSpace(w) && Line(Fields(last)) == c + w;
    assert RowLines(items) == RowLines(p) + [c + w];
    BodyLines(items);
    JoinedTail(head, RowLines(p), c, w);
  }

  /** Joining lines whose last one carries trailing white space, then appending a newline. */
  lemma JoinedTail(head: string, pre: seq<string>, c: string, w: string)
    requires AllSpace(w)
    ensures head + "\n" + (Join(pre + [c + w], "\n") + "\n") == Join([head] + (pre + [c]), "\n") + (w + "\n")
    ensures AllSpace(w + "\n")
  {
    JoinLastExtend(pre, c, w, "\n");
    JoinCons(head, pre + [c], "\n");
    Regroup(head + "\n", Join(pre + [c], "\n"), w, "\n");
    assert AllSpace("\n") by { assert IsSpace("\n"[0]); }
    AllSpaceAppend(w, "\n");
  }

  lemma Regroup(x: string, y: string, z: string, u: string)
    ensures x + ((y + z) + u) == (x + y) + (z + u)
  {
  }

  /** Trimming the written text leaves exactly the header line and the cut body lines joined by
      newlines, for any header line that starts with text. */
  lemma TrimmedLines(head: string, items: seq<Item>)
    requires |head| > 0 && !IsSpace(head[0])
    requires |items| > 0 && Writable(items[|items| - 1])
    ensures Trim(Written(head, items)) == Join([head] + CutLines(items), "\n")
  {
    var n := |items|;
    var last := items[n - 1];
    var m := Filled(last);
    var c := Line(Fields(last)[..m]);
    var cut := Join([head] + CutLines(items), "\n");
    var full := head + "\n" + Body(items);
    CutTail(head, items);
    var w :| AllSpace(w) && full == cut + w;
    assert full[..|cut|] == cut && full[|cut|..] == w;
    TrimPrefix(full, |cut|);
    CutEndsFilled(last, m);
    JoinLast(RowLines(items[..n - 1]), c, "\n");
    JoinCons(head, CutLines(items), "\n");
    TrimOfTrimmed(cut);
  }

  /** The table text for writable items is the header line and the cut body lines joined by
      newlines. */
  lemma TrimmedTable(items: seq<Item>)
    requires |items| > 0 && Writable(items[|items| - 1])
    ensures TableText(items) == Join([HeaderText] + CutLines(items), "\n")
  {
    HeaderShape();
    TrimmedLines(HeaderText, items);
  }

  /** The cut last line ends in a filled cell, so it ends in a character that is not white space. */
  lemma CutEndsFilled(it: Item, m: nat)
    requires Writable(it) && m == Filled(it)
    ensures |Line(Fields(it)[..m])| > 0 && !IsSpace(Line(Fields(it)[..m])[|Line(Fields(it)[..m])| - 1])
  {
    var cells := Fields(it)[..m];
    var c := cells[m - 1];
    assert Cell(Fields(it)[m - 1]);
    if m == 1 {
      assert Line(cells) == c;
    } else {
      assert cells == cells[..m - 1] + [c];
      JoinSnoc(cells[..m - 1], "\t", c);
    }
  }

  /** A line of cells free of `c` holds no `c`, the tab separators aside. */
  lemma CellsNoChar(it: Item, m: nat, c: char)
    requires Writable(it) && m <= 8 && (c == '\t' || c == '\n')
    ensures forall j :: 0 <= j < m ==> NoChar(Fields(it)[..m][j], c)
  {
    forall j | 0 <= j < m ensures NoChar(Fields(it)[..m][j], c) {
      assert Cell(Fields(it)[j]);
    }
  }

  /** The line of a writable item's first `m` cells holds no newline. */
  lemma LineNoNewline(it: Item, m: nat)
    requires Writable(it) && m <= 8
    ensures NoChar(Line(Fields(it)[..m]), '\n')
  {
    CellsNoChar(it, m, '\n');
    JoinNoChar(Fields(it)[..m], "\t", '\n');
  }

  /** The body lines of writable items hold no newline. */
  lemma {:induction false} RowLinesNoNewline(items: seq<Item>)
    requires forall i :: 0 <= i < |items| ==> Writable(items[i])
    ensures forall k :: 0 <= k < |items| ==> NoChar(RowLines(items)[k], '\n')
  {
    if |items| > 0 {
      var n := |items|;
      RowLinesNoNewline(items[..n - 1]);
      LineNoNewline(items[n - 1], 8);
      assert Fields(items[n - 1])[..8] == Fields(items[n - 1]);
    }
  }

  /** The cut body lines of writable items hold no newline. */
  lemma CutLinesNoNewline(items: seq<Item>)
    requires |items| > 0 && Writable(items[|items| - 1]) && forall i :: 0 <= i < |items| ==> Writable(items[i])
    ensures forall k :: 0 <= k < |items| ==> NoChar(CutLines(items)[k], '\n')
  {
    var n := |items|;
    RowLinesNoNewline(items[..n - 1]);
    LineNoNewline(items[n - 1], Filled(items[n - 1]));
    forall k | 0 <= k < n - 1 ensures NoChar(CutLines(items)[k], '\n') {
      assert CutLines(items)[k] == RowLines(items[..n - 1])[k];
    }
  }

  /** A line that names no total is not read as a total row. */
  lemma NoTotalInName(s: string)
    requires !Contains(s, "合计")
    ensures !Contains(s, "价税合计")
  {
    if Contains(s, "价税合计") {
      var i := IndexFrom(s, "价税合计", 0);
      assert s[i..i + 4] == "价税合计";
      assert s[i + 2] == '合' && s[i + 3] == '计';
      assert s[i + 2..i + 4] == "合计";
      ContainsAt(s, "合计", i + 2);
      assert false;
    }
  }

  /** The header row holds no newline and starts with text. */
  lemma HeaderShape()
    ensures NoChar(HeaderText, '\n') && |HeaderText| > 0 && HeaderText[0] == '项'
  {
    forall k | 0 <= k < |Labels| ensures NoChar(Labels[k], '\n') {
      var l := Labels[k];
      assert forall i :: 0 <= i < |l| ==> l[i] != '\n';
    }
    JoinNoChar(Labels, "\t", '\n');
    assert Join(Labels, "\t") == Labels[0] + "\t" + Join(Labels[1..], "\t");
  }

  /** The header row splits into the labels. */
  lemma HeaderSplit()
    ensures Split(HeaderText, '\t') == Labels
  {
    forall k | 0 <= k < |Labels| ensures NoChar(Labels[k], '\t') {
      var l := Labels[k];
      assert forall i :: 0 <= i < |l| ==> l[i] != '\t';
    }
    SplitJoin(Labels, '\t');
  }

  /** The labels' keys are the field names. */
  lemma LabelKeys(j: nat)
    requires j < 8
    ensures HeaderKeys(Labels)[j] == Keys[j]
  {
    TrimOfTrimmed(Labels[j]);
    KeyOfLabel(j);
  }

  /** The cut cells of a writable item's row are already trimmed. */
  lemma TrimmedCells(it: Item, m: nat, j: nat)
    requires Writable(it) && j < m <= 8
    ensures TrimAll(Fields(it)[..m])[j] == Fields(it)[j]
  {
    assert Cell(Fields(it)[j]);
    TrimOfTrimmed(Fields(it)[j]);
  }

  /** Filling agrees wherever the first `n` keys and values agree. */
  lemma {:induction false} FillSame(keys: seq<string>, values: seq<string>, keys': seq<string>, values': seq<string>, n: nat)
    requires n <= |keys| && n <= |values| && n <= |keys'| && n <= |values'|
    requires forall j :: 0 <= j < n ==> keys[j] == keys'[j] && values[j] == values'[j]
    ensures Fill(keys, values, n) == Fill(keys', values', n)
  {
    if n > 0 {
      FillSame(keys, values, keys', values', n - 1);
    }
  }

  /** The record of an item's row carries its name. */
  lemma {:induction false} RecordName(it: Item, n: nat)
    requires 1 <= n <= 8
    ensures "name" in RecordOf(it, n) && RecordOf(it, n)["name"] == it.name
  {
    if n > 1 {
      RecordName(it, n - 1);
    }
  }

  /** Headers that the parser stores under the field names, in column order. */
  predicate FieldHeaders(headers: seq<string>)
  {
    |headers| == 8 && forall j :: 0 <= j < 8 ==> HeaderKeys(headers)[j] == Keys[j]
  }

  /** Reading back the row written for a writable item. */
  lemma ReadRow(headers: seq<string>, it: Item, m: nat)
    requires FieldHeaders(headers) && Writable(it) && 1 <= m <= 8
    ensures ParseRow(headers, Line(Fields(it)[..m])) == Some(RecordOf(it, m))
  {
    var cells := Fields(it)[..m];
    CellsNoChar(it, m, '\t');
    SplitJoin(cells, '\t');
    assert cells[0] == it.name;
    NoTotalInName(it.name);
    forall j | 0 <= j < m ensures TrimAll(cells)[j] == Fields(it)[j] {
      TrimmedCells(it, m, j);
    }
    FillSame(HeaderKeys(headers), TrimAll(cells), Keys, Fields(it), m);
    RecordName(it, m);
  }

  /** Reading back a full row. */
  lemma ReadFullRow(headers: seq<string>, it: Item)
    requires FieldHeaders(headers) && Writable(it)
    ensures ParseRow(headers, Line(Fields(it))) == Some(RecordOf(it, 8))
  {
    ReadRow(headers, it, 8);
    assert Fields(it)[..8] == Fields(it);
  }

  lemma ParseRowsSnoc(headers: seq<string>, lines: seq<string>, x: string)
    ensures ParseRows(headers, lines + [x])
      == ParseRows(headers, lines) + match ParseRow(headers, x) case Some(r) => [r] case None => []
  {
    assert (lines + [x])[..|lines|] == lines;
  }

  /** Reading back full rows gives full records. */
  lemma {:induction false} ReadRows(headers: seq<string>, items: seq<Item>)
    requires FieldHeaders(headers) && forall i :: 0 <= i < |items| ==> Writable(items[i])
    ensures ParseRows(headers, RowLines(items)) == FullRecords(items)
  {
    if |items| > 0 {
      var n := |items|;
      ReadRows(headers, items[..n - 1]);
      ParseRowsSnoc(headers, RowLines(items[..n - 1]), Line(Fields(items[n - 1])));
      ReadFullRow(headers, items[n - 1]);
    }
  }

  /** The body lines read back as the full records and the last, cut record. */
  lemma ReadCut(headers: seq<string>, items: seq<Item>)
    requires FieldHeaders(headers)
    requires |items| > 0 && Writable(items[|items| - 1]) && forall i :: 0 <= i < |items| ==> Writable(items[i])
    ensures ParseRows(headers, CutLines(items)) == ReadBack(items)
  {
    var n := |items|;
    var last := items[n - 1];
    ReadRows(headers, items[..n - 1]);
    ParseRowsSnoc(headers, RowLines(items[..n - 1]), Line(Fields(last)[..Filled(last)]));
    ReadRow(headers, last, Filled(last));
  }

  /** The lines of the trimmed text are the header line and the cut body lines. */
  lemma TextLines(head: string, items: seq<Item>)
    requires |head| > 0 && !IsSpace(head[0]) && NoChar(head, '\n')
    requires |items| > 0 && Writable(items[|items| - 1]) && forall i :: 0 <= i < |items| ==> Writable(items[i])
    ensures Split(Trim(Written(head, items)), '\n') == [head] + CutLines(items)
  {
    var n := |items|;
    var lines := [head] + CutLines(items);
    TrimmedLines(head, items);
    CutLinesNoNewline(items);
    forall k | 0 <= k < |lines| ensures NoChar(lines[k], '\n') {
      if k > 0 {
        assert lines[k] == CutLines(items)[k - 1];
      }
    }
    SplitJoin(lines, '\n');
  }

  /** A text whose trimmed lines are a header line and data lines parses the header line as
      the headers and the rest as data rows. */
  lemma ParsedLines(text: string, head: string, body: seq<string>)
    requires Split(Trim(text), '\n') == [head] + body && |body| >= 1
    ensures ParsedTable(text) == ParseRows(Split(head, '\t'), body)
  {
    assert ([head] + body)[1..] == body;
  }

  /** The written text parses its header line as the headers and its cut body lines as the
      data rows. */
  lemma ParsedHead(head: string, items: seq<Item>)
    requires |head| > 0 && !IsSpace(head[0]) && NoChar(head, '\n')
    requires |items| > 0 && Writable(items[|items| - 1]) && forall i :: 0 <= i < |items| ==> Writable(items[i])
    ensures ParsedTable(Trim(Written(head, items))) == ParseRows(Split(head, '\t'), CutLines(items))
  {
    var text := Written(head, items);
    TrimTwice(text);
    TextLines(head, items);
    ParsedLines(Trim(text), head, CutLines(items));
  }

  /** The written header splits into headers stored under the field names. */
  lemma HeaderFields()
    ensures FieldHeaders(Split(HeaderText, '\t'))
  {
    HeaderSplit();
    forall j | 0 <= j < 8 ensures HeaderKeys(Labels)[j] == Keys[j] {
      LabelKeys(j);
    }
  }

  /** Everything the round trip needs of the written header line. */
  lemma HeaderGood()
    ensures |HeaderText| > 0 && !IsSpace(HeaderText[0]) && NoChar(HeaderText, '\n')
    ensures FieldHeaders(Split(HeaderText, '\t'))
  {
    HeaderShape();
    HeaderFields();
  }

  /** Round trip: parsing the table written for items whose cells are trimmed and free of tabs
      and newlines, and whose names are present and name no total, gives each item's cells back
      under their field names, in order; only the last row's empty cells at the end come back
      absent. No items give no table and no records. */
  lemma RoundTrip(items: seq<Item>)
    requires |items| > 0 ==> Writable(items[|items| - 1])
    requires forall i :: 0 <= i < |items| ==> Writable(items[i])
    ensures ParsedTable(TableText(items)) == ReadBack(items)
  {
    if |items| > 0 {
      HeaderGood();
      ParsedHead(HeaderText, items);
      ReadCut(Split(HeaderText, '\t'), items);
    }
  }
}
