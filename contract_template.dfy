/** The template side of ContractService.ts: the variables a template uses (`{{name}}`), the
    plain-text goods table, and the data a template is filled with, including its aliases
    (`buyer` for `buyerName`, `date` for `currentDate`, ...). */
module ContractTemplate {
  import opened Options
  import opened Strings
  import opened Patterns
  import opened Numerals
  import opened ItemsTable
  import opened ServiceData
  import ClientData
  import Decimals

  // ---------------------------------------------------------------- the template's variables

  predicate NotClosing(c: char)
  {
    c != '}'
  }

  /** The end of the name of a `{{name}}` that starts at `p`: two opening braces, at least one
      character other than `}`, two closing braces. Since the name cannot hold `}`, the
      pattern `\{\{([^}]+)\}\}` matches at `p` exactly when this finds an end. */
  function VariableAt(s: string, p: nat): (r: Option<nat>)
    requires p <= |s|
    ensures r.Some? ==> p + 2 < r.value && r.value + 2 <= |s|
  {
    if p + 1 < |s| && s[p] == '{' && s[p + 1] == '{' then
      var e := RunEnd(s, p + 2, NotClosing);
      if e > p + 2 && e + 1 < |s| && s[e] == '}' && s[e + 1] == '}' then Some(e) else None
    else None
  }

  /** The names the global `exec` loop collects from position `p` on: a match is recorded and
      the search goes on after it; elsewhere it moves one character on. */
  function Scan(s: string, p: nat): seq<string>
    requires p <= |s|
    decreases |s| - p
  {
    if p == |s| then []
    else match VariableAt(s, p)
      case Some(e) => [s[p + 2..e]] + Scan(s, e + 2)
      case None => Scan(s, p + 1)
  }

  /** `Array.from(new Set(names))`: each name once, where it first occurs. */
  function Dedup(names: seq<string>): seq<string>
  {
    if |names| == 0 then []
    else
      var d := Dedup(names[..|names| - 1]);
      if names[|names| - 1] in d then d else d + [names[|names| - 1]]
  }

  method AnalyzeVariables(content: string) returns (variables: seq<string>)
    ensures variables == Dedup(Scan(content, 0))
  {
    var found: seq<string> := [];
    var p := 0;
    while p < |content|
      invariant p <= |content|
      invariant found + Scan(content, p) == Scan(content, 0)
      decreases |content| - p
    {
      var m := VariableAt(content, p);
      if m.Some? {
        found := found + [content[p + 2..m.value]];
        p := m.value + 2;
      } else {
        p := p + 1;
      }
    }
    assert found + [] == found;
    variables := Unique(found);
  }

  /** Building the set and listing it. */
  method Unique(names: seq<string>) returns (r: seq<string>)
    ensures r == Dedup(names)
  {
    r := [];
    var seen: set<string> := {};
    for i := 0 to |names|
      invariant r == Dedup(names[..i])
      invariant seen == set x | x in r
    {
      assert names[..i + 1][..i] == names[..i];
      if names[i] !in seen {
        seen := seen + {names[i]};
        r := r + [names[i]];
      }
    }
    assert names[..|names|] == names;
  }

  /** Every collected name is non-empty, holds no `}` and occurs in braces in the text. */
  lemma {:induction false} ScanSound(s: string, p: nat)
    requires p <= |s|
    ensures forall v :: v in Scan(s, p) ==> v != "" && NoChar(v, '}') && Contains(s, "{{" + v + "}}")
    decreases |s| - p
  {
    if p < |s| {
      match VariableAt(s, p)
      case Some(e) =>
        ScanSound(s, e + 2);
        MatchSound(s, p, e);
      case None =>
        ScanSound(s, p + 1);
    }
  }

  /** The name of one match is non-empty, holds no `}` and occurs in braces in the text. */
  lemma MatchSound(s: string, p: nat, e: nat)
    requires p <= |s| && VariableAt(s, p) == Some(e)
    ensures s[p + 2..e] != "" && NoChar(s[p + 2..e], '}') && Contains(s, "{{" + s[p + 2..e] + "}}")
  {
    var v := s[p + 2..e];
    RunEndFacts(s, p + 2, NotClosing);
    assert NoChar(v, '}') by {
      forall k | 0 <= k < |v| ensures v[k] != '}' {
        assert v[k] == s[p + 2 + k];
      }
    }
    assert s[p..p + |"{{" + v + "}}"|] == "{{" + v + "}}";
    ContainsAt(s, "{{" + v + "}}", p);
  }

  /** A template holding one variable gives that variable. */
  lemma ScanOne(v: string)
    requires v != "" && NoChar(v, '}')
    ensures Scan("{{" + v + "}}", 0) == [v]
  {
    var s := "{{" + v + "}}";
    RunEndAt(s, 2, |v| + 2, NotClosing);
    assert s[2..|v| + 2] == v;
    assert Scan(s, |s|) == [];
  }

  /** A stretch of literal text followed by a `{{name}}` placeholder. */
  datatype Piece = Piece(text: string, name: string)

  /** A template made of pieces and a closing literal text. */
  function Render(pieces: seq<Piece>, tail: string): string
  {
    if |pieces| == 0 then tail
    else pieces[0].text + "{{" + pieces[0].name + "}}" + Render(pieces[1..], tail)
  }

  /** The placeholder names of the pieces, in order. */
  function Names(pieces: seq<Piece>): (r: seq<string>)
  {
    if |pieces| == 0 then [] else [pieces[0].name] + Names(pieces[1..])
  }

  lemma {:induction false} NamesMembers(pieces: seq<Piece>, v: string)
    ensures v in Names(pieces) <==> exists i :: 0 <= i < |pieces| && pieces[i].name == v
  {
    if |pieces| > 0 {
      NamesMembers(pieces[1..], v);
      if exists i :: 0 <= i < |pieces[1..]| && pieces[1..][i].name == v {
        var i :| 0 <= i < |pieces[1..]| && pieces[1..][i].name == v;
        assert pieces[i + 1].name == v;
      }
      if exists i :: 0 <= i < |pieces| && pieces[i].name == v {
        var i :| 0 <= i < |pieces| && pieces[i].name == v;
        if i > 0 {
          assert pieces[1..][i - 1].name == v;
        }
      }
    }
  }

  /** The literal text holds no `{` and every name is non-empty and holds no `}`. */
  predicate Plain(pieces: seq<Piece>, tail: string)
  {
    NoChar(tail, '{') &&
    forall i :: 0 <= i < |pieces| ==>
      NoChar(pieces[i].text, '{') && pieces[i].name != "" && NoChar(pieces[i].name, '}')
  }

  /** No match starts inside text without `{`. */
  lemma {:induction false} ScanSkip(s: string, p: nat, q: nat)
    requires p <= q <= |s|
    requires forall k :: p <= k < q ==> s[k] != '{'
    ensures Scan(s, p) == Scan(s, q)
    decreases q - p
  {
    if p < q {
      assert VariableAt(s, p).None?;
      ScanSkip(s, p + 1, q);
    }
  }

  /** A placeholder at `q` is recorded and the scan resumes after it. */
  lemma ScanPlaceholder(s: string, q: nat, v: string)
    requires v != "" && NoChar(v, '}')
    requires q + |v| + 4 <= |s| && s[q..q + |v| + 4] == "{{" + v + "}}"
    ensures Scan(s, q) == [v] + Scan(s, q + |v| + 4)
  {
    var e := q + 2 + |v|;
    PlaceholderChars(s, q, v);
    RunEndAt(s, q + 2, e, NotClosing);
    assert VariableAt(s, q) == Some(e);
    assert s[q + 2..e] == v;
  }

  /** The characters of a placeholder written at `q`. */
  lemma PlaceholderChars(s: string, q: nat, v: string)
    requires NoChar(v, '}')
    requires q + |v| + 4 <= |s| && s[q..q + |v| + 4] == "{{" + v + "}}"
    ensures s[q] == '{' && s[q + 1] == '{' && s[q + 2 + |v|] == '}' && s[q + 3 + |v|] == '}'
    ensures forall k :: q + 2 <= k < q + 2 + |v| ==> s[k] == v[k - q - 2] && NotClosing(s[k])
  {
    var t := "{{" + v + "}}";
    assert forall k :: 0 <= k < |t| ==> s[q + k] == t[k] by {
      forall k | 0 <= k < |t| ensures s[q + k] == t[k] {
        assert s[q + k] == s[q..q + |v| + 4][k];
      }
    }
    assert s[q] == t[0] && s[q + 1] == t[1] && s[q + 2 + |v|] == t[|v| + 2] && s[q + 3 + |v|] == t[|v| + 3];
    forall k | q + 2 <= k < q + 2 + |v| ensures s[k] == v[k - q - 2] && NotClosing(s[k]) {
      assert s[k] == t[k - q];
    }
  }

  /** A suffix made of literal text without `{`, a placeholder and the rest. */
  lemma SuffixParts(s: string, p: nat, a: string, v: string, rest: string)
    requires p <= |s| && s[p..] == a + "{{" + v + "}}" + rest && NoChar(a, '{')
    ensures p + |a| + |v| + 4 <= |s|
    ensures forall k :: p <= k < p + |a| ==> s[k] != '{'
    ensures s[p + |a|..p + |a| + |v| + 4] == "{{" + v + "}}" && s[p + |a| + |v| + 4..] == rest
  {
    forall k | p <= k < p + |a| ensures s[k] != '{' {
      assert s[k] == s[p..][k - p] == a[k - p];
    }
  }

  lemma {:induction false} ScanFrom(s: string, p: nat, pieces: seq<Piece>, tail: string)
    requires p <= |s| && s[p..] == Render(pieces, tail) && Plain(pieces, tail)
    ensures Scan(s, p) == Names(pieces)
    decreases |pieces|
  {
    if |pieces| == 0 {
      ScanTail(s, p, tail);
    } else {
      var a, v := pieces[0].text, pieces[0].name;
      PlainRest(pieces, tail);
      SuffixParts(s, p, a, v, Render(pieces[1..], tail));
      PieceStep(s, p, p + |a|, v);
      ScanFrom(s, p + |a| + |v| + 4, pieces[1..], tail);
    }
  }

  /** Over text without `{` up to a placeholder at `q`, the scan records the placeholder's
      name and resumes after it. */
  lemma PieceStep(s: string, p: nat, q: nat, v: string)
    requires p <= q && q + |v| + 4 <= |s| && forall k :: p <= k < q ==> s[k] != '{'
    requires v != "" && NoChar(v, '}') && s[q..q + |v| + 4] == "{{" + v + "}}"
    ensures Scan(s, p) == [v] + Scan(s, q + |v| + 4)
  {
    ScanSkip(s, p, q);
    ScanPlaceholder(s, q, v);
  }

  lemma ScanTail(s: string, p: nat, tail: string)
    requires p <= |s| && s[p..] == tail && NoChar(tail, '{')
    ensures Scan(s, p) == []
  {
    forall k | p <= k < |s| ensures s[k] != '{' {
      assert s[k] == tail[k - p];
    }
    ScanSkip(s, p, |s|);
  }

  /** The first piece is plain, the rest are, and the names are the first name and theirs. */
  lemma PlainRest(pieces: seq<Piece>, tail: string)
    requires |pieces| > 0 && Plain(pieces, tail)
    ensures NoChar(pieces[0].text, '{') && pieces[0].name != "" && NoChar(pieces[0].name, '}')
    ensures Plain(pieces[1..], tail)
    ensures Names(pieces) == [pieces[0].name] + Names(pieces[1..])
    ensures Render(pieces, tail) == pieces[0].text + "{{" + pieces[0].name + "}}" + Render(pieces[1..], tail)
  {
    forall i | 0 <= i < |pieces[1..]|
      ensures NoChar(pieces[1..][i].text, '{') && pieces[1..][i].name != "" && NoChar(pieces[1..][i].name, '}')
    {
      assert pieces[1..][i] == pieces[i + 1];
    }
  }

  /** The scan finds every placeholder of a template whose literal text holds no `{`, in
      order, and nothing else. */
  lemma ScanComplete(pieces: seq<Piece>, tail: string)
    requires Plain(pieces, tail)
    ensures Scan(Render(pieces, tail), 0) == Names(pieces)
  {
    var s := Render(pieces, tail);
    assert s[0..] == s;
    ScanFrom(s, 0, pieces, tail);
  }

  /** `analyzeTemplateVariables` of such a template lists exactly its placeholder names, each
      once. */
  lemma TemplateVariables(pieces: seq<Piece>, tail: string)
    requires Plain(pieces, tail)
    ensures forall v :: v in Dedup(Scan(Render(pieces, tail), 0)) <==> exists i :: 0 <= i < |pieces| && pieces[i].name == v
  {
    ScanComplete(pieces, tail);
    DedupFacts(Names(pieces));
    forall v ensures v in Names(pieces) <==> exists i :: 0 <= i < |pieces| && pieces[i].name == v {
      NamesMembers(pieces, v);
    }
  }

  /** The listed names are distinct and are exactly the names found. */
  lemma {:induction false} DedupFacts(names: seq<string>)
    ensures forall x :: x in Dedup(names) <==> x in names
    ensures forall i, j :: 0 <= i < j < |Dedup(names)| ==> Dedup(names)[i] != Dedup(names)[j]
  {
    if |names| > 0 {
      DedupFacts(names[..|names| - 1]);
      assert names == names[..|names| - 1] + [names[|names| - 1]];
    }
  }

  // ---------------------------------------------------------------- the goods table

  /** The columns of a goods line, in order. */
  const TableColumns: seq<string> := ["name", "spec", "quantity", "unit", "price", "amount"]

  /** The cells of a goods line: each column's field, empty when the record lacks it. */
  function Cells(item: Record): (r: seq<string>)
    ensures |r| == |TableColumns|
  {
    seq(|TableColumns|, i requires 0 <= i < |TableColumns| => FieldOf(item, TableColumns[i]))
  }

  /** One line of the goods table, without its newline: the number, a dot, and the cells
      separated by blanks. */
  function ProductLine(index: nat, item: Record): string
  {
    NatToString(index) + ". " + Join(Cells(item), " ")
  }

  /** The lines of the goods table, numbered from 1. */
  function ProductLines(items: seq<Record>): (r: seq<string>)
    ensures |r| == |items|
  {
    seq(|items|, i requires 0 <= i < |items| => ProductLine(i + 1, items[i]))
  }

  /** Lines, each followed by a newline. */
  function Terminated(lines: seq<string>): string
  {
    if |lines| == 0 then "" else Terminated(lines[..|lines| - 1]) + lines[|lines| - 1] + "\n"
  }

  /** `formatProductTable`: one numbered line per item, each ended by a newline; nothing for no
      items. */
  function ProductTable(items: seq<Record>): string
  {
    Terminated(ProductLines(items))
  }

  method FormatProductTable(items: seq<Record>) returns (table: string)
    ensures table == ProductTable(items)
  {
    if |items| == 0 {
      return "";
    }
    ghost var lines := ProductLines(items);
    table := "";
    for index := 0 to |items|
      invariant table == Terminated(lines[..index])
    {
      assert lines[..index + 1][..index] == lines[..index];
      table := table + ProductLine(index + 1, items[index]) + "\n";
    }
    assert lines[..|items|] == lines;
  }

  /** No field of the record holds a line break. */
  predicate OneLine(item: Record)
  {
    forall k :: k in item ==> NoChar(item[k], '\n')
  }

  /** Lines each followed by a newline are the lines joined by newlines, with one after the
      last. */
  lemma {:induction false} TerminatedJoin(lines: seq<string>)
    ensures Terminated(lines) == Join(lines + [""], "\n")
  {
    if |lines| > 0 {
      var n := |lines| - 1;
      var x := lines[n];
      TerminatedJoin(lines[..n]);
      assert lines == lines[..n] + [x];
      JoinLastExtend(lines[..n], "", x, "\n");
      assert "" + x == x;
      JoinSnoc(lines[..n] + [x], "\n", "");
    }
  }

  /** A goods line of a record without line breaks holds none. */
  lemma ProductLineOneLine(index: nat, item: Record)
    requires OneLine(item)
    ensures NoChar(ProductLine(index, item), '\n')
  {
    var cells := Cells(item);
    forall j | 0 <= j < |cells| ensures NoChar(cells[j], '\n') {
      assert cells[j] == FieldOf(item, TableColumns[j]);
    }
    JoinNoChar(cells, " ", '\n');
    assert NoChar(NatToString(index), '\n');
  }

  /** Splitting the goods table at its line breaks gives one line per item, in order, and an
      empty last piece. */
  lemma ProductTableSplit(items: seq<Record>)
    requires forall i :: 0 <= i < |items| ==> OneLine(items[i])
    ensures Split(ProductTable(items), '\n') == ProductLines(items) + [""]
  {
    var lines := ProductLines(items);
    TerminatedJoin(lines);
    var parts := lines + [""];
    forall k | 0 <= k < |parts| ensures NoChar(parts[k], '\n') {
      if k < |items| {
        ProductLineOneLine(k + 1, items[k]);
      }
    }
    SplitJoin(parts, '\n');
  }

  // ---------------------------------------------------------------- the template data

  /** Today's date as the clock gives it: `getMonth() + 1` and `getDate()`. */
  datatype Today = Today(year: nat, month: nat, day: nat)

  /** The data a template is filled with: one text per key of `templateData`, in the order the
      keys are added. */
  datatype TemplateData = TemplateData(
    buyerName: string, buyerTaxID: string, sellerName: string, sellerTaxID: string,
    sellerBank: string, sellerBankAccount: string, projectName: string, projectAddress: string,
    contractNo: string, contractDate: string, deliveryDate: string,
    contractYear: string, contractMonth: string, contractDay: string,
    totalAmount: string, year: string, month: string, day: string, currentDate: string,
    productTable: string,
    buyer: string, seller: string, project: string, amount: string, amountInWords: string,
    date: string, itemsJson: string)

  /** `n.toString().padStart(2, '0')`. */
  function Pad2(n: nat): string
  {
    if n < 10 then "0" + NatToString(n) else NatToString(n)
  }

  /** `n.toString().padStart(3, '0')`. */
  function Pad3(n: nat): string
  {
    if n < 10 then "00" + NatToString(n) else if n < 100 then "0" + NatToString(n) else NatToString(n)
  }

  function ChineseDate(year: string, month: string, day: string): string
  {
    year + "年" + month + "月" + day + "日"
  }

  /** The delivery month: the next month, December followed by `01`. */
  function NextMonth(month: nat): string
  {
    if month + 1 > 12 then "01" else Pad2(month + 1)
  }

  /** `year + month + day` and three random digits. */
  function ContractNo(today: Today, random: nat): string
  {
    NatToString(today.year) + Pad2(today.month) + Pad2(today.day) + Pad3(random)
  }

  /** `prepareContractData`: the contract's fields (an empty total shown as `0.00`), the date in
      several spellings, a contract number of the date and three random digits (`random` stands
      for `Math.floor(Math.random() * 1000)`), the goods table, then the aliases; `itemsJson`
      stands for `JSON.stringify` of the goods records. */
  function PrepareContractData(data: ServiceContract, today: Today, random: nat, itemsJson: string): TemplateData
  {
    var year, month, day := NatToString(today.year), Pad2(today.month), Pad2(today.day);
    var h := data.header;
    var total := ClientData.Or(data.totalAmount, "0.00");
    TemplateData(
      h.buyerName, h.buyerTaxID, h.sellerName, h.sellerTaxID,
      h.sellerBank, h.sellerBankAccount, h.projectName, h.projectAddress,
      ContractNo(today, random), ChineseDate(year, month, day),
      ChineseDate(year, NextMonth(today.month), day),
      year, month, day,
      total, year, month, day, ChineseDate(year, month, day),
      ProductTable(data.invoiceItems),
      h.buyerName, h.sellerName, h.projectName, total,
      AmountInWords(ClientData.Or(data.totalAmount, "0")),
      ChineseDate(year, month, day), itemsJson)
  }

  /** Every alias holds what the field it stands for holds, the parties and the project come
      from the contract data, the three dates agree, and the delivery date and the contract
      number are made of the same year, month and day. */
  lemma Aliases(data: ServiceContract, today: Today, random: nat, itemsJson: string)
    ensures var d := PrepareContractData(data, today, random, itemsJson);
      d.buyer == d.buyerName == data.header.buyerName &&
      d.seller == d.sellerName == data.header.sellerName &&
      d.project == d.projectName == data.header.projectName &&
      d.amount == d.totalAmount == (if data.totalAmount == "" then "0.00" else data.totalAmount) &&
      d.date == d.currentDate == d.contractDate == ChineseDate(d.year, d.month, d.day) &&
      d.year == d.contractYear && d.month == d.contractMonth && d.day == d.contractDay &&
      d.deliveryDate == ChineseDate(d.year, NextMonth(today.month), d.day) &&
      d.contractNo == ContractNo(today, random) &&
      d.year == NatToString(today.year) && d.month == Pad2(today.month) && d.day == Pad2(today.day)
  {
  }

  /** The amount in words spells the amount the template shows: an empty total shows as 0.00
      and is spelled 零元整. */
  lemma AmountWordsAgree(data: ServiceContract, today: Today, random: nat, itemsJson: string)
    ensures var d := PrepareContractData(data, today, random, itemsJson);
      d.amountInWords == AmountInWords(d.amount)
    ensures data.totalAmount == "" ==> PrepareContractData(data, today, random, itemsJson).amountInWords == "零元整"
  {
    if data.totalAmount == "" {
      ZeroWords();
    }
  }

  /** Both `0` and `0.00` are spelled 零元整. */
  lemma ZeroWords()
    ensures AmountInWords("0") == "零元整"
    ensures AmountInWords("0.00") == "零元整"
  {
    KeepNumericZeros("0");
    ZeroBare("0");
    KeepNumericZeros("0.00");
    ZeroFixed("0.00");
  }

  /** `0` parses as zero. */
  lemma ZeroBare(z: string)
    requires |z| == 1 && z[0] == '0'
    ensures ParseFloat(z).Some? && IsZero(ParseFloat(z).value)
  {
    RunEndAt(z, 0, 1, IsDigit);
    assert z[..1] == z;
    ZerosValue(z);
  }

  /** `0.00` parses as zero. */
  lemma ZeroFixed(t: string)
    requires |t| == 4 && t[0] == '0' && t[1] == '.' && t[2] == '0' && t[3] == '0'
    ensures ParseFloat(t).Some? && IsZero(ParseFloat(t).value)
  {
    RunEndAt(t, 0, 1, IsDigit);
    RunEndAt(t, 2, 4, IsDigit);
    var a := ParseFloat(t);
    assert a.Some?;
    assert a.value.whole == 0 by {
      ZerosValue(t[..1]);
    }
    assert a.value.fraction == DigitsOf(t[2..4]);
    forall j | 0 <= j < |a.value.fraction| ensures a.value.fraction[j] == 0 {
      assert DigitChar(a.value.fraction[j]) == t[2 + j] == '0';
    }
  }

  lemma {:induction false} KeepNumericZeros(t: string)
    requires forall k :: 0 <= k < |t| ==> t[k] == '0' || t[k] == '.'
    ensures KeepNumeric(t) == t
  {
    if t != [] {
      KeepNumericZeros(t[..|t| - 1]);
    }
  }

  lemma {:induction false} ZerosValue(w: string)
    requires forall k :: 0 <= k < |w| ==> w[k] == '0'
    ensures AllDigits(w) && DecimalValue(w) == 0
  {
    if w != [] {
      ZerosValue(w[..|w| - 1]);
    }
  }

  /** The delivery month is the next month in two digits; after December it is January (of the
      same year, since the year is not touched). */
  lemma NextMonthReadBack(month: nat)
    requires 1 <= month <= 12
    ensures |NextMonth(month)| == 2 && AllDigits(NextMonth(month))
    ensures DecimalValue(NextMonth(month)) == if month == 12 then 1 else month + 1
  {
    if month < 12 {
      Pad2ReadBack(month + 1);
    } else {
      LeadingZero("0", "1");
    }
  }

  /** The contract number is the year, the month and the day, followed by the random number in
      three digits, and reads back as those numbers. */
  lemma ContractNumber(today: Today, random: nat)
    requires today.month < 100 && today.day < 100 && random < 1000
    ensures var no, y := ContractNo(today, random), |NatToString(today.year)|;
      |no| == y + 7 && AllDigits(no) &&
      no[..y] == NatToString(today.year) && no[y..y + 2] == Pad2(today.month) &&
      no[y + 2..y + 4] == Pad2(today.day) &&
      DecimalValue(no[..y]) == today.year && DecimalValue(no[y..y + 2]) == today.month &&
      DecimalValue(no[y + 2..y + 4]) == today.day && DecimalValue(no[y + 4..]) == random
  {
    var year, month, day, r := NatToString(today.year), Pad2(today.month), Pad2(today.day), Pad3(random);
    Decimals.NatToStringDigits(today.year);
    Pad2ReadBack(today.month);
    Pad2ReadBack(today.day);
    Pad3ReadBack(random);
    FourParts(year, month, day, r);
  }

  /** The four parts of a concatenation are found back by slicing at their lengths. */
  lemma FourParts(a: string, b: string, c: string, d: string)
    ensures var s, i, j, k := a + b + c + d, |a|, |a| + |b|, |a| + |b| + |c|;
      s[..i] == a && s[i..j] == b && s[j..k] == c && s[k..] == d
      && (AllDigits(a) && AllDigits(b) && AllDigits(c) && AllDigits(d) ==> AllDigits(s))
  {
  }

  /** Numbers below 10, 100 and 1000 are written with one, two and three digits. */
  lemma {:induction false} DigitCount(n: nat)
    ensures n < 10 ==> |NatToString(n)| == 1
    ensures 10 <= n < 100 ==> |NatToString(n)| == 2
    ensures 100 <= n < 1000 ==> |NatToString(n)| == 3
  {
    if n >= 10 {
      DigitCount(n / 10);
    }
  }

  /** A number below 100 is padded to exactly two digits that read back as it. */
  lemma Pad2ReadBack(n: nat)
    requires n < 100
    ensures |Pad2(n)| == 2 && AllDigits(Pad2(n)) && DecimalValue(Pad2(n)) == n
  {
    Decimals.NatToStringDigits(n);
    DigitCount(n);
    if n < 10 {
      LeadingZero("0", NatToString(n));
    }
  }

  /** A number below 1000 is padded to exactly three digits that read back as it. */
  lemma Pad3ReadBack(n: nat)
    requires n < 1000
    ensures |Pad3(n)| == 3 && AllDigits(Pad3(n)) && DecimalValue(Pad3(n)) == n
  {
    Decimals.NatToStringDigits(n);
    DigitCount(n);
    if n < 10 {
      LeadingZero("00", NatToString(n));
    } else if n < 100 {
      LeadingZero("0", NatToString(n));
    }
  }

  /** Zeros in front of digits do not change their value. */
  lemma {:induction false} LeadingZero(z: string, w: string)
    requires forall k :: 0 <= k < |z| ==> z[k] == '0'
    requires AllDigits(w)
    ensures AllDigits(z + w) && DecimalValue(z + w) == DecimalValue(w)
    decreases |w|
  {
    if w == [] {
      assert z + w == z;
      ZerosValue(z);
    } else {
      var v := w[..|w| - 1];
      assert (z + w)[..|z + w| - 1] == z + v;
      LeadingZero(z, v);
    }
  }
}
