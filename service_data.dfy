/** `extractContractDataFromInvoices` of ContractService.ts: the header fields read from the first
    invoice's full text only, the goods records of every invoice's items table concatenated, the
    amount and tax columns summed after stripping everything but digits and dots (a text that
    does not parse adds nothing), and the totals printed with two decimals and thousands
    separators. */
module ServiceData {
  import opened Options
  import opened Strings
  import opened Numerals
  import opened Decimals
  import opened Invoices
  import opened ItemsTable
  import ClientData

  /** `item[key]`, a missing field read as "". */
  function FieldOf(rec: Record, key: string): string
  {
    if key in rec then rec[key] else ""
  }

  /** What a field adds to its total: nothing when it is empty or `parseFloat` of its digits
      and dots is NaN, the value read otherwise. A minus sign is stripped like any other
      character, so nothing counted is negative. */
  function Counted(text: string): (r: real)
    ensures r >= 0.0
  {
    if text == "" then 0.0
    else match ParseFloat(KeepNumeric(text))
      case Some(a) => ValueOf(a)
      case None => 0.0
  }

  /** The running totals and the records collected so far. */
  datatype Sums = Sums(amount: real, tax: real, items: seq<Record>)

  const NoSums := Sums(0.0, 0.0, [])

  /** One record: pushed, its amount and its tax added. */
  function AddRecord(s: Sums, rec: Record): Sums
  {
    Sums(s.amount + Counted(FieldOf(rec, "amount")), s.tax + Counted(FieldOf(rec, "tax")), s.items + [rec])
  }

  function AddRecords(s: Sums, recs: seq<Record>): Sums
  {
    if |recs| == 0 then s else AddRecord(AddRecords(s, recs[..|recs| - 1]), recs[|recs| - 1])
  }

  /** The records of an invoice: none for an empty items table, the parsed table otherwise. */
  function RecordsOf(inv: ServiceInvoice): seq<Record>
  {
    if inv.itemsTable == "" then [] else ParsedTable(inv.itemsTable)
  }

  /** The records of each invoice. */
  function Tables(invoices: seq<ServiceInvoice>): (r: seq<seq<Record>>)
    ensures |r| == |invoices|
  {
    seq(|invoices|, i requires 0 <= i < |invoices| => RecordsOf(invoices[i]))
  }

  function AddTables(s: Sums, tables: seq<seq<Record>>): Sums
  {
    if |tables| == 0 then s else AddRecords(AddTables(s, tables[..|tables| - 1]), tables[|tables| - 1])
  }

  /** The totals over all invoices, in order. */
  function AddAll(invoices: seq<ServiceInvoice>): Sums
  {
    AddTables(NoSums, Tables(invoices))
  }

  /** `x.toFixed(2)` with a comma before every third integer digit from the dot. */
  function Money(x: real): string
    requires x >= 0.0
  {
    Thousands(ToFixed(Finite(x)))
  }

  /** The contract data the service fills the template with; `date` is today's date as the
      caller formats it. */
  datatype ServiceContract = ServiceContract(header: ClientData.Header, invoiceItems: seq<Record>,
                                             totalAmount: string, totalTax: string, totalWithTax: string,
                                             date: string)

  /** The header fields the patterns find in a full text (given here as `headerOf`); all empty
      when the first invoice has no full text. */
  function HeaderOf(first: ServiceInvoice, headerOf: string -> ClientData.Header): ClientData.Header
  {
    if first.fullText == "" then ClientData.NoHeader else headerOf(first.fullText)
  }

  function ContractDataOf(invoices: seq<ServiceInvoice>, headerOf: string -> ClientData.Header, date: string): (r: Option<ServiceContract>)
    ensures r.None? <==> |invoices| == 0
  {
    if |invoices| == 0 then None
    else
      AddAllNonNegative(invoices);
      Some(Filled(HeaderOf(invoices[0], headerOf), AddAll(invoices), date))
  }

  /** The contract data from the header fields and the totals. */
  function Filled(header: ClientData.Header, s: Sums, date: string): ServiceContract
    requires s.amount >= 0.0 && s.tax >= 0.0
  {
    ServiceContract(header, s.items, Money(s.amount), Money(s.tax), Money(s.amount + s.tax), date)
  }

  // ---------------------------------------------------------------- the loops

  method ExtractContractDataFromInvoices(invoices: seq<ServiceInvoice>, headerOf: string -> ClientData.Header, date: string)
    returns (r: Option<ServiceContract>)
    ensures r == ContractDataOf(invoices, headerOf, date)
  {
    if |invoices| == 0 {
      return None;
    }
    var header := ClientData.NoHeader;
    if invoices[0].fullText != "" {
      header := headerOf(invoices[0].fullText);
    }
    var sums := SumInvoices(invoices);
    AddAllNonNegative(invoices);
    r := Some(Filled(header, sums, date));
  }

  /** The loop over the invoices; an invoice without an items table is passed over. */
  method SumInvoices(invoices: seq<ServiceInvoice>) returns (sums: Sums)
    ensures sums == AddAll(invoices)
  {
    ghost var tables := Tables(invoices);
    sums := NoSums;
    for i := 0 to |invoices|
      invariant sums == AddTables(NoSums, tables[..i])
    {
      assert tables[..i + 1][..i] == tables[..i];
      assert tables[i] == RecordsOf(invoices[i]);
      if invoices[i].itemsTable != "" {
        var items := ParseItemsTable(invoices[i].itemsTable);
        sums := AddParsed(sums, items);
      }
    }
    assert tables[..|invoices|] == tables;
  }

  /** The loop over the records of one invoice. */
  method AddParsed(s: Sums, items: seq<Record>) returns (r: Sums)
    ensures r == AddRecords(s, items)
  {
    var allItems, totalAmount, totalTax := s.items, s.amount, s.tax;
    for k := 0 to |items|
      invariant Sums(totalAmount, totalTax, allItems) == AddRecords(s, items[..k])
    {
      assert items[..k + 1][..k] == items[..k];
      var item := items[k];
      allItems := allItems + [item];
      totalAmount := AddField(totalAmount, item, "amount");
      totalTax := AddField(totalTax, item, "tax");
    }
    assert items[..|items|] == items;
    r := Sums(totalAmount, totalTax, allItems);
  }

  /** `if (item[key]) { const v = parseFloat(...); if (!isNaN(v)) total += v; }` */
  method AddField(total: real, item: Record, key: string) returns (r: real)
    ensures r == total + Counted(FieldOf(item, key))
  {
    r := total;
    if key in item && item[key] != "" {
      var v := ParseFloat(KeepNumeric(item[key]));
      if v.Some? {
        r := r + ValueOf(v.value);
      }
    }
  }

  // ---------------------------------------------------------------- properties

  /** The totals only grow. */
  lemma {:induction false} AddRecordsGrow(s: Sums, recs: seq<Record>)
    ensures AddRecords(s, recs).amount >= s.amount && AddRecords(s, recs).tax >= s.tax
  {
    if |recs| > 0 {
      AddRecordsGrow(s, recs[..|recs| - 1]);
    }
  }

  lemma {:induction false} AddTablesGrow(s: Sums, tables: seq<seq<Record>>)
    ensures AddTables(s, tables).amount >= s.amount && AddTables(s, tables).tax >= s.tax
  {
    if |tables| > 0 {
      var n := |tables| - 1;
      AddTablesGrow(s, tables[..n]);
      AddRecordsGrow(AddTables(s, tables[..n]), tables[n]);
    }
  }

  /** No total is negative. */
  lemma AddAllNonNegative(invoices: seq<ServiceInvoice>)
    ensures AddAll(invoices).amount >= 0.0 && AddAll(invoices).tax >= 0.0
  {
    AddTablesGrow(NoSums, Tables(invoices));
  }

  /** The records of every invoice, one invoice after another. */
  function AllRecords(invoices: seq<ServiceInvoice>): seq<Record>
  {
    Concat(Tables(invoices))
  }

  function Concat(tables: seq<seq<Record>>): seq<Record>
  {
    if |tables| == 0 then [] else Concat(tables[..|tables| - 1]) + tables[|tables| - 1]
  }

  /** The sum of one column over records. */
  function ColumnSum(recs: seq<Record>, key: string): (r: real)
    ensures r >= 0.0
  {
    if |recs| == 0 then 0.0 else Counted(FieldOf(recs[0], key)) + ColumnSum(recs[1..], key)
  }

  lemma {:induction false} ColumnSumAppend(a: seq<Record>, b: seq<Record>, key: string)
    ensures ColumnSum(a + b, key) == ColumnSum(a, key) + ColumnSum(b, key)
  {
    if |a| > 0 {
      assert (a + b)[1..] == a[1..] + b;
      ColumnSumAppend(a[1..], b, key);
    } else {
      assert a + b == b;
    }
  }

  /** Adding records appends them and adds their column sums. */
  lemma {:induction false} AddRecordsSums(s: Sums, recs: seq<Record>)
    ensures AddRecords(s, recs).items == s.items + recs
    ensures AddRecords(s, recs).amount == s.amount + ColumnSum(recs, "amount")
    ensures AddRecords(s, recs).tax == s.tax + ColumnSum(recs, "tax")
  {
    if |recs| > 0 {
      var n := |recs| - 1;
      AddRecordsSums(s, recs[..n]);
      ColumnSumAppend(recs[..n], [recs[n]], "amount");
      ColumnSumAppend(recs[..n], [recs[n]], "tax");
      assert [recs[n]][1..] == [];
      assert recs[..n] + [recs[n]] == recs;
    }
  }

  /** Adding tables appends their records in order and adds their column sums. */
  lemma AddTablesSums(s: Sums, tables: seq<seq<Record>>)
    ensures AddTables(s, tables).items == s.items + Concat(tables)
    ensures AddTables(s, tables).amount == s.amount + ColumnSum(Concat(tables), "amount")
    ensures AddTables(s, tables).tax == s.tax + ColumnSum(Concat(tables), "tax")
  {
    AddTablesItems(s, tables);
    AddTablesTotals(s, tables);
  }

  lemma {:induction false} AddTablesItems(s: Sums, tables: seq<seq<Record>>)
    ensures AddTables(s, tables).items == s.items + Concat(tables)
  {
    if |tables| > 0 {
      var n := |tables| - 1;
      AddTablesItems(s, tables[..n]);
      AddRecordsSums(AddTables(s, tables[..n]), tables[n]);
    } else {
      assert s.items + [] == s.items;
    }
  }

  lemma {:induction false} AddTablesTotals(s: Sums, tables: seq<seq<Record>>)
    ensures AddTables(s, tables).amount == s.amount + ColumnSum(Concat(tables), "amount")
    ensures AddTables(s, tables).tax == s.tax + ColumnSum(Concat(tables), "tax")
  {
    if |tables| > 0 {
      var n := |tables| - 1;
      var c := Concat(tables[..n]);
      AddTablesTotals(s, tables[..n]);
      AddRecordsSums(AddTables(s, tables[..n]), tables[n]);
      ColumnSumAppend(c, tables[n], "amount");
      ColumnSumAppend(c, tables[n], "tax");
    }
  }

  /** The contract's goods records are every invoice's records, one invoice after another, and
      its totals are the column sums over them. */
  lemma AddAllIsConcatenation(invoices: seq<ServiceInvoice>)
    ensures AddAll(invoices).items == AllRecords(invoices)
    ensures AddAll(invoices).amount == ColumnSum(AllRecords(invoices), "amount")
    ensures AddAll(invoices).tax == ColumnSum(AllRecords(invoices), "tax")
  {
    AddTablesSums(NoSums, Tables(invoices));
  }

  /** An invoice's records come after those of the invoices before it. */
  lemma AllRecordsSnoc(invoices: seq<ServiceInvoice>, inv: ServiceInvoice)
    ensures AllRecords(invoices + [inv]) == AllRecords(invoices) + RecordsOf(inv)
  {
    var t := Tables(invoices + [inv]);
    assert t[..|invoices|] == Tables(invoices);
    assert t[|invoices|] == RecordsOf(inv);
  }

  /** The header depends on the first invoice's full text alone. */
  lemma HeaderFromFirst(invoices: seq<ServiceInvoice>, others: seq<ServiceInvoice>, headerOf: string -> ClientData.Header, date: string)
    requires |invoices| > 0 && |others| > 0 && invoices[0].fullText == others[0].fullText
    ensures ContractDataOf(invoices, headerOf, date).value.header == ContractDataOf(others, headerOf, date).value.header
    ensures invoices[0].fullText == "" ==> ContractDataOf(invoices, headerOf, date).value.header == ClientData.NoHeader
  {
  }

  /** A minus sign in an amount text is ignored. */
  lemma MinusIgnored(t: string)
    ensures Counted("-" + t) == Counted(t)
  {
    KeepNumericAppend("-", t);
    assert KeepNumeric("-") == "" by {
      assert "-"[..0] == "";
    }
    assert "" + KeepNumeric(t) == KeepNumeric(t);
  }

  /** A printed total without its commas is the plain two-decimal text. */
  lemma MoneyPlain(x: real)
    requires x >= 0.0
    ensures RemoveChar(Money(x), ',') == ToFixed(Finite(x))
  {
    var n := Hundredths(x);
    FixedShape(n);
    var s := FixedDigits(n);
    var w := NatToString(n / 100);
    assert NoChar(s, ',') by {
      forall k | 0 <= k < |s| ensures s[k] != ',' {
        if k < |w| {
          assert IsDigit(s[k]);
        }
      }
    }
    ThousandsRemove(s);
  }

  /** The converter reads a printed total, commas and all, as the total rounded to hundredths. */
  lemma MoneyInWords(x: real)
    requires x >= 0.0
    ensures var n := Hundredths(x);
      AmountInWords(Money(x)) == Words(Some(Amount(n / 100, [(n / 10 % 10) as Digit, (n % 10) as Digit])))
    ensures var n := Hundredths(x);
      ValueOf(Amount(n / 100, [(n / 10 % 10) as Digit, (n % 10) as Digit])) == n as real / 100.0
  {
    var n := Hundredths(x);
    ThousandsInWords(FixedDigits(n));
    FixedReadBack(n);
    FixedValue(n);
  }
}
