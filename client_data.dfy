/** `extractDataFromInvoices` of ContractGenerator.tsx: the contract's header fields taken from
    the first invoice that has them, the goods lines of all invoices with the summary lines
    skipped, a tax computed from the rate where the tax column is empty (and written back into
    the line), and the totals printed with two decimals. */
module ClientData {
  import opened Options
  import opened Strings
  import opened Patterns
  import opened Numerals
  import opened Decimals
  import opened Items
  import opened Invoices
  import Labels

  // ---------------------------------------------------------------- numbers

  predicate SignedNumeric(c: char)
  {
    IsDigit(c) || c == '.' || c == '-'
  }

  /** `s.replace(/[^\d.-]/g, '')`. */
  function KeepSigned(s: string): (r: string)
    ensures forall k :: 0 <= k < |r| ==> SignedNumeric(r[k])
  {
    if s == [] then []
    else KeepSigned(s[..|s| - 1]) + (if SignedNumeric(s[|s| - 1]) then [s[|s| - 1]] else [])
  }

  /** Text made only of digits, dots and minus signs is kept as it is. */
  lemma {:induction false} KeepSignedAll(s: string)
    requires forall k :: 0 <= k < |s| ==> SignedNumeric(s[k])
    ensures KeepSigned(s) == s
  {
    if s != [] {
      KeepSignedAll(s[..|s| - 1]);
    }
  }

  /** The removal works character by character: the kept text of a concatenation is the kept
      text of each part, in order, and a single other character is dropped. */
  lemma {:induction false} KeepSignedAppend(a: string, b: string)
    ensures KeepSigned(a + b) == KeepSigned(a) + KeepSigned(b)
    decreases |b|
  {
    if b == [] {
      assert a + b == a;
    } else {
      assert (a + b)[..|a + b| - 1] == a + b[..|b| - 1];
      KeepSignedAppend(a, b[..|b| - 1]);
    }
  }

  lemma KeepSignedDrop(c: char)
    requires !SignedNumeric(c)
    ensures KeepSigned([c]) == []
  {
    assert [c][..0] == [];
  }

  predicate RateChar(c: char)
  {
    IsDigit(c) || c == '.' || c == '%'
  }

  /** `s.replace(/[^\d.%]/g, '')`. */
  function KeepRate(s: string): (r: string)
    ensures forall k :: 0 <= k < |r| ==> RateChar(r[k])
  {
    if s == [] then []
    else KeepRate(s[..|s| - 1]) + (if RateChar(s[|s| - 1]) then [s[|s| - 1]] else [])
  }

  /** `parseFloat(text.replace(/[^\d.-]/g, '')) || 0`: NaN counts as 0. */
  function AmountOf(text: string): real
  {
    match ParseNumber(KeepSigned(text))
    case Finite(v) => v
    case NaN => 0.0
  }

  function Plus(a: Num, b: Num): (r: Num)
    ensures r.NaN? <==> a.NaN? || b.NaN?
  {
    if a.Finite? && b.Finite? then Finite(a.value + b.value) else NaN
  }

  function Times(a: real, b: Num): (r: Num)
    ensures r.NaN? <==> b.NaN?
  {
    if b.Finite? then Finite(a * b.value) else NaN
  }

  /** The tax rate: a rate written with `%` is divided by 100, a bare rate above 1 too, any
      other bare rate is used as it is; NaN when no number can be read. `includes('%')` of a
      single character is membership of that character. */
  function TaxRate(text: string): (r: Num)
    ensures r.Finite? ==> r.value >= 0.0
  {
    var s := KeepRate(text);
    var p := ParseNumber(s);
    if '%' in s then (if p.Finite? then Finite(p.value / 100.0) else NaN)
    else if p.Finite? && p.value > 1.0 then Finite(p.value / 100.0)
    else p
  }

  // ---------------------------------------------------------------- one goods line

  /** A summary line (or a line without a name), which the totals skip. */
  predicate IsSummary(item: Item)
  {
    item.name == "" || Contains(item.name, "合计") || Contains(item.name, "价税合计") ||
    Contains(item.name, "不含税金额") || Contains(item.name, "价税合")
  }

  /** The tax computed from the amount and the rate. */
  function RateTax(item: Item): Num
  {
    Times(AmountOf(item.amount), TaxRate(item.taxRate))
  }

  /** Whether the line's tax is computed from its rate: it has an amount and a rate but no tax. */
  predicate TaxFromRate(item: Item)
  {
    item.amount != "" && item.tax == "" && item.taxRate != ""
  }

  /** The line as it is pushed: the computed tax written back as `toFixed(2)`. */
  function Pushed(item: Item): (r: Item)
    ensures r.(tax := item.tax) == item
    ensures r.tax != item.tax ==> TaxFromRate(item)
  {
    if TaxFromRate(item) then item.(tax := ToFixed(RateTax(item))) else item
  }

  /** What the line adds to the amount total. */
  function AmountAdded(item: Item): real
  {
    if item.amount == "" then 0.0 else AmountOf(item.amount)
  }

  /** What the line adds to the tax total: the tax column when it is filled, the computed tax
      otherwise, nothing without an amount. */
  function TaxAdded(item: Item): Num
  {
    if item.amount == "" then Finite(0.0)
    else if item.tax != "" then Finite(AmountOf(item.tax))
    else if item.taxRate != "" then RateTax(item)
    else Finite(0.0)
  }

  /** The running totals and the goods lines kept so far. */
  datatype Totals = Totals(amount: real, tax: Num, items: seq<Item>)

  function AddItem(t: Totals, item: Item): Totals
  {
    if IsSummary(item) then t
    else Totals(t.amount + AmountAdded(item), Plus(t.tax, TaxAdded(item)), t.items + [Pushed(item)])
  }

  function AddItems(t: Totals, items: seq<Item>): Totals
  {
    if |items| == 0 then t else AddItem(AddItems(t, items[..|items| - 1]), items[|items| - 1])
  }

  // ---------------------------------------------------------------- the header fields

  datatype Field = BuyerName | BuyerTaxID | SellerName | SellerTaxID | SellerBank | SellerBankAccount
                 | ProjectName | ProjectAddress

  datatype Header = Header(buyerName: string, buyerTaxID: string, sellerName: string, sellerTaxID: string,
                           sellerBank: string, sellerBankAccount: string, projectName: string, projectAddress: string)

  const NoHeader := Header("", "", "", "", "", "", "", "")

  function Get(h: Header, f: Field): string
  {
    match f
    case BuyerName => h.buyerName
    case BuyerTaxID => h.buyerTaxID
    case SellerName => h.sellerName
    case SellerTaxID => h.sellerTaxID
    case SellerBank => h.sellerBank
    case SellerBankAccount => h.sellerBankAccount
    case ProjectName => h.projectName
    case ProjectAddress => h.projectAddress
  }

  /** `a || b` on texts. */
  function Or(a: string, b: string): string
  {
    if a != "" then a else b
  }

  /** The label scan of the full text for a field (a regular expression in the source, given
      here as `fromText`); nothing without a text. */
  function FromText(fromText: (Field, string) -> string, f: Field, text: string): string
  {
    if text == "" then "" else fromText(f, text)
  }

  /** What an invoice offers for a field: its own value, else what its text gives; the project
      name falls back to `extractProjectName` of the content and the full text. */
  function Candidate(inv: Invoice, f: Field, fromText: (Field, string) -> string): string
  {
    match f
    case BuyerName => Or(inv.buyer, FromText(fromText, f, inv.fullText))
    case BuyerTaxID => Or(inv.buyerTaxID, FromText(fromText, f, inv.fullText))
    case SellerName => Or(inv.seller, FromText(fromText, f, inv.fullText))
    case SellerTaxID => Or(inv.sellerTaxID, FromText(fromText, f, inv.fullText))
    case SellerBank => Or(inv.sellerBank, FromText(fromText, f, inv.fullText))
    case SellerBankAccount => Or(inv.sellerBankAccount, FromText(fromText, f, inv.fullText))
    case ProjectName => if inv.project != "" then inv.project else Labels.ProjectName(inv.content, inv.fullText)
    case ProjectAddress => Or(inv.projectAddress, FromText(fromText, f, inv.fullText))
  }

  /** Every field still empty takes the invoice's candidate. */
  function HeaderStep(h: Header, inv: Invoice, fromText: (Field, string) -> string): Header
  {
    Header(Or(h.buyerName, Candidate(inv, BuyerName, fromText)),
           Or(h.buyerTaxID, Candidate(inv, BuyerTaxID, fromText)),
           Or(h.sellerName, Candidate(inv, SellerName, fromText)),
           Or(h.sellerTaxID, Candidate(inv, SellerTaxID, fromText)),
           Or(h.sellerBank, Candidate(inv, SellerBank, fromText)),
           Or(h.sellerBankAccount, Candidate(inv, SellerBankAccount, fromText)),
           Or(h.projectName, Candidate(inv, ProjectName, fromText)),
           Or(h.projectAddress, Candidate(inv, ProjectAddress, fromText)))
  }

  /** A field is filled by the first invoice offering it and then stays as it is. */
  lemma HeaderStepGet(h: Header, inv: Invoice, fromText: (Field, string) -> string, f: Field)
    ensures Get(HeaderStep(h, inv, fromText), f) == Or(Get(h, f), Candidate(inv, f, fromText))
    ensures Get(h, f) != "" ==> Get(HeaderStep(h, inv, fromText), f) == Get(h, f)
  {
  }

  // ---------------------------------------------------------------- all invoices

  datatype State = State(header: Header, totals: Totals)

  const Start := State(NoHeader, Totals(0.0, Finite(0.0), []))

  function AddInvoice(s: State, inv: Invoice, fromText: (Field, string) -> string): State
  {
    State(HeaderStep(s.header, inv, fromText), AddItems(s.totals, inv.itemsTable))
  }

  function AddInvoices(invoices: seq<Invoice>, fromText: (Field, string) -> string): State
  {
    if |invoices| == 0 then Start
    else AddInvoice(AddInvoices(invoices[..|invoices| - 1], fromText), invoices[|invoices| - 1], fromText)
  }

  /** The contract data the browser fills the template with. */
  datatype ContractData = ContractData(header: Header, invoiceItems: seq<Item>,
                                       totalAmount: string, totalTax: string, totalWithTax: string)

  function ExtractData(invoices: seq<Invoice>, fromText: (Field, string) -> string): (r: Option<ContractData>)
    ensures r.None? <==> |invoices| == 0
  {
    if |invoices| == 0 then None
    else
      var t := AddInvoices(invoices, fromText).totals;
      Some(ContractData(AddInvoices(invoices, fromText).header, t.items,
                        ToFixed(Finite(t.amount)), ToFixed(t.tax), ToFixed(Plus(Finite(t.amount), t.tax))))
  }

  // ---------------------------------------------------------------- the loops

  /** The field-by-field updates for one invoice: the two parties first, then the rest. */
  method UpdateHeader(h: Header, inv: Invoice, fromText: (Field, string) -> string) returns (r: Header)
    ensures r == HeaderStep(h, inv, fromText)
  {
    r := UpdateParties(h, inv, fromText);
    r := UpdateDetails(r, inv, fromText);
  }

  /** The buyer's and the seller's names and tax numbers; the other fields are left alone. */
  method UpdateParties(h: Header, inv: Invoice, fromText: (Field, string) -> string) returns (r: Header)
    ensures r == HeaderStep(h, inv, fromText).(sellerBank := h.sellerBank, sellerBankAccount := h.sellerBankAccount,
                                              projectName := h.projectName, projectAddress := h.projectAddress)
  {
    r := h;
    if r.buyerName == "" {
      r := r.(buyerName := Or(inv.buyer, FromText(fromText, BuyerName, inv.fullText)));
    }
    assert r.buyerName == Or(h.buyerName, Candidate(inv, BuyerName, fromText));
    if r.buyerTaxID == "" {
      r := r.(buyerTaxID := Or(inv.buyerTaxID, FromText(fromText, BuyerTaxID, inv.fullText)));
    }
    assert r.buyerTaxID == Or(h.buyerTaxID, Candidate(inv, BuyerTaxID, fromText));
    if r.sellerName == "" {
      r := r.(sellerName := Or(inv.seller, FromText(fromText, SellerName, inv.fullText)));
    }
    assert r.sellerName == Or(h.sellerName, Candidate(inv, SellerName, fromText));
    if r.sellerTaxID == "" {
      r := r.(sellerTaxID := Or(inv.sellerTaxID, FromText(fromText, SellerTaxID, inv.fullText)));
    }
  }

  /** The seller's bank and account, the project name and the project address; the parties are
      left alone. */
  method UpdateDetails(h: Header, inv: Invoice, fromText: (Field, string) -> string) returns (r: Header)
    ensures r == HeaderStep(h, inv, fromText).(buyerName := h.buyerName, buyerTaxID := h.buyerTaxID,
                                              sellerName := h.sellerName, sellerTaxID := h.sellerTaxID)
  {
    r := h;
    if r.sellerBank == "" {
      r := r.(sellerBank := Or(inv.sellerBank, FromText(fromText, SellerBank, inv.fullText)));
    }
    assert r.sellerBank == Or(h.sellerBank, Candidate(inv, SellerBank, fromText));
    if r.sellerBankAccount == "" {
      r := r.(sellerBankAccount := Or(inv.sellerBankAccount, FromText(fromText, SellerBankAccount, inv.fullText)));
    }
    assert r.sellerBankAccount == Or(h.sellerBankAccount, Candidate(inv, SellerBankAccount, fromText));
    if r.projectName == "" {
      if inv.project != "" {
        r := r.(projectName := inv.project);
      } else {
        r := r.(projectName := Labels.ProjectName(inv.content, inv.fullText));
      }
    }
    assert r.projectName == Or(h.projectName, Candidate(inv, ProjectName, fromText));
    if r.projectAddress == "" {
      r := r.(projectAddress := Or(inv.projectAddress, FromText(fromText, ProjectAddress, inv.fullText)));
    }
  }

  /** The rate parsing: with `%` divided by 100, a bare rate above 1 divided by 100. */
  method RateOf(text: string) returns (taxRate: Num)
    ensures taxRate == TaxRate(text)
  {
    var taxRateStr := KeepRate(text);
    if '%' in taxRateStr {
      var p := ParseNumber(taxRateStr);
      taxRate := if p.Finite? then Finite(p.value / 100.0) else NaN;
    } else {
      taxRate := ParseNumber(taxRateStr);
      if taxRate.Finite? && taxRate.value > 1.0 {
        taxRate := Finite(taxRate.value / 100.0);
      }
    }
  }

  /** One goods line, with the source's branches: skip a summary line; with an amount, add it
      and then the tax column, or else the tax computed from the rate, which is written back. */
  method AddLine(t: Totals, line: Item) returns (r: Totals)
    ensures r == AddItem(t, line)
  {
    if IsSummary(line) {
      return t;
    }
    var item := line;
    var totalAmount, totalTax := t.amount, t.tax;
    if item.amount != "" {
      var amount := AmountOf(item.amount);
      totalAmount := totalAmount + amount;
      if item.tax != "" {
        var tax := AmountOf(item.tax);
        totalTax := Plus(totalTax, Finite(tax));
      } else if item.taxRate != "" {
        var taxRate := RateOf(item.taxRate);
        var tax := Times(amount, taxRate);
        totalTax := Plus(totalTax, tax);
        item := item.(tax := ToFixed(tax));
      }
    }
    assert totalTax == Plus(t.tax, TaxAdded(line));
    assert item == Pushed(line);
    r := Totals(totalAmount, totalTax, t.items + [item]);
  }

  method AddLines(t: Totals, items: seq<Item>) returns (r: Totals)
    ensures r == AddItems(t, items)
  {
    r := t;
    for k := 0 to |items|
      invariant r == AddItems(t, items[..k])
    {
      assert items[..k + 1][..k] == items[..k];
      r := AddLine(r, items[k]);
    }
    assert items[..|items|] == items;
  }

  method ExtractDataFromInvoices(invoices: seq<Invoice>, fromText: (Field, string) -> string) returns (r: Option<ContractData>)
    ensures r == ExtractData(invoices, fromText)
  {
    if |invoices| == 0 {
      return None;
    }
    var header := NoHeader;
    var totals := Totals(0.0, Finite(0.0), []);
    for i := 0 to |invoices|
      invariant State(header, totals) == AddInvoices(invoices[..i], fromText)
    {
      assert invoices[..i + 1][..i] == invoices[..i];
      header := UpdateHeader(header, invoices[i], fromText);
      totals := AddLines(totals, invoices[i].itemsTable);
    }
    assert invoices[..|invoices|] == invoices;
    r := Some(ContractData(header, totals.items, ToFixed(Finite(totals.amount)), ToFixed(totals.tax),
                           ToFixed(Plus(Finite(totals.amount), totals.tax))));
  }

  // ---------------------------------------------------------------- properties

  /** The first non-empty text of a list, or "". */
  function FirstNonEmpty(cs: seq<string>): (r: string)
    ensures r != "" <==> exists k :: 0 <= k < |cs| && cs[k] != ""
  {
    if |cs| == 0 then "" else if cs[0] != "" then cs[0] else FirstNonEmpty(cs[1..])
  }

  /** The invoices' candidates for a field, in order. */
  function Candidates(invoices: seq<Invoice>, f: Field, fromText: (Field, string) -> string): (r: seq<string>)
    ensures |r| == |invoices|
    ensures forall k :: 0 <= k < |r| ==> r[k] == Candidate(invoices[k], f, fromText)
  {
    if |invoices| == 0 then [] else Candidates(invoices[..|invoices| - 1], f, fromText) + [Candidate(invoices[|invoices| - 1], f, fromText)]
  }

  lemma {:induction false} FirstNonEmptySnoc(cs: seq<string>, c: string)
    ensures FirstNonEmpty(cs + [c]) == Or(FirstNonEmpty(cs), c)
  {
    if |cs| > 0 {
      assert (cs + [c])[1..] == cs[1..] + [c];
      FirstNonEmptySnoc(cs[1..], c);
    }
  }

  /** Every header field holds the first non-empty candidate across the invoices. */
  lemma {:induction false} HeaderIsFirst(invoices: seq<Invoice>, f: Field, fromText: (Field, string) -> string)
    ensures Get(AddInvoices(invoices, fromText).header, f) == FirstNonEmpty(Candidates(invoices, f, fromText))
  {
    if |invoices| > 0 {
      var n := |invoices| - 1;
      var h := AddInvoices(invoices[..n], fromText).header;
      var c := Candidate(invoices[n], f, fromText);
      HeaderIsFirst(invoices[..n], f, fromText);
      LastHeaderStep(invoices, fromText);
      HeaderStepGet(h, invoices[n], fromText, f);
      assert Candidates(invoices, f, fromText) == Candidates(invoices[..n], f, fromText) + [c];
      FirstNonEmptySnoc(Candidates(invoices[..n], f, fromText), c);
    }
  }

  /** The header after the last invoice is one header step from the one before it. */
  lemma LastHeaderStep(invoices: seq<Invoice>, fromText: (Field, string) -> string)
    requires |invoices| > 0
    ensures AddInvoices(invoices, fromText).header ==
      HeaderStep(AddInvoices(invoices[..|invoices| - 1], fromText).header, invoices[|invoices| - 1], fromText)
  {
  }

  /** With at least one invoice the project name is never empty. */
  lemma ProjectNamed(invoices: seq<Invoice>, fromText: (Field, string) -> string)
    requires |invoices| > 0
    ensures AddInvoices(invoices, fromText).header.projectName != ""
  {
    var n := |invoices| - 1;
    HeaderStepGet(AddInvoices(invoices[..n], fromText).header, invoices[n], fromText, ProjectName);
  }

  /** The goods lines that are not summary lines, in order. */
  function Kept(items: seq<Item>): (r: seq<Item>)
    ensures forall k :: 0 <= k < |r| ==> !IsSummary(r[k])
  {
    if |items| == 0 then []
    else Kept(items[..|items| - 1]) + (if IsSummary(items[|items| - 1]) then [] else [items[|items| - 1]])
  }

  /** The lines pushed are the non-summary lines, in order, each as `Pushed` makes it. */
  lemma {:induction false} ItemsPushed(t: Totals, items: seq<Item>)
    ensures |AddItems(t, items).items| == |t.items| + |Kept(items)|
    ensures AddItems(t, items).items[..|t.items|] == t.items
    ensures forall k :: 0 <= k < |Kept(items)| ==> AddItems(t, items).items[|t.items| + k] == Pushed(Kept(items)[k])
  {
    if |items| > 0 {
      ItemsPushed(t, items[..|items| - 1]);
    }
  }

  /** The sum of the amounts of the non-summary lines. */
  function AmountSum(items: seq<Item>): real
  {
    if |items| == 0 then 0.0 else (if IsSummary(items[0]) then 0.0 else AmountAdded(items[0])) + AmountSum(items[1..])
  }

  lemma {:induction false} AmountSumSnoc(items: seq<Item>, it: Item)
    ensures AmountSum(items + [it]) == AmountSum(items) + (if IsSummary(it) then 0.0 else AmountAdded(it))
  {
    if |items| > 0 {
      assert (items + [it])[1..] == items[1..] + [it];
      AmountSumSnoc(items[1..], it);
    }
  }

  /** The amount total is the sum of the non-summary lines' amounts. */
  lemma {:induction false} AmountTotal(t: Totals, items: seq<Item>)
    ensures AddItems(t, items).amount == t.amount + AmountSum(items)
  {
    if |items| > 0 {
      var n := |items| - 1;
      AmountTotal(t, items[..n]);
      AmountSumSnoc(items[..n], items[n]);
      assert items[..n] + [items[n]] == items;
    }
  }

  /** The tax column wins over the rate; without an amount neither counts. */
  lemma TaxRules(item: Item, rate: string, tax: string)
    ensures item.tax != "" ==> TaxAdded(item.(taxRate := rate)) == TaxAdded(item) && Pushed(item) == item
    ensures item.amount == "" ==> TaxAdded(item.(taxRate := rate, tax := tax)) == Finite(0.0) && AmountAdded(item) == 0.0
    ensures TaxFromRate(item) ==> Pushed(item).tax == ToFixed(TaxAdded(item))
  {
  }

  /** Once the tax total is NaN it stays so. */
  lemma {:induction false} NaNStays(t: Totals, items: seq<Item>)
    requires t.tax.NaN?
    ensures AddItems(t, items).tax.NaN?
  {
    if |items| > 0 {
      NaNStays(t, items[..|items| - 1]);
    }
  }

  /** A rate text without any digit (such as 免税) on a line with an amount and no tax column
      makes the tax NaN, and the tax total and the total with tax print as "NaN". */
  lemma RateWithoutDigit(item: Item)
    requires TaxFromRate(item) && !IsSummary(item)
    requires forall k :: 0 <= k < |item.taxRate| ==> !IsDigit(item.taxRate[k])
    ensures TaxRate(item.taxRate) == NaN
    ensures AddItem(Start.totals, item).tax == NaN
    ensures Pushed(item).tax == "NaN"
  {
    var s := KeepRate(item.taxRate);
    KeepRateNoDigit(item.taxRate);
    RunEndFacts(s, 0, IsDigit);
    if |s| > 1 {
      RunEndFacts(s, 1, IsDigit);
    }
  }

  lemma {:induction false} KeepRateNoDigit(s: string)
    requires forall k :: 0 <= k < |s| ==> !IsDigit(s[k])
    ensures forall k :: 0 <= k < |KeepRate(s)| ==> !IsDigit(KeepRate(s)[k])
  {
    if s != [] {
      KeepRateNoDigit(s[..|s| - 1]);
    }
  }

  lemma {:induction false} KeepRateAll(s: string)
    requires forall k :: 0 <= k < |s| ==> RateChar(s[k])
    ensures KeepRate(s) == s
  {
    if s != [] {
      KeepRateAll(s[..|s| - 1]);
    }
  }

  /** The rate filter works character by character: the kept text of a concatenation is the
      kept text of each part, in order. */
  lemma {:induction false} KeepRateAppend(a: string, b: string)
    ensures KeepRate(a + b) == KeepRate(a) + KeepRate(b)
    decreases |b|
  {
    if b == [] {
      assert a + b == a;
    } else {
      assert (a + b)[..|a + b| - 1] == a + b[..|b| - 1];
      KeepRateAppend(a, b[..|b| - 1]);
    }
  }

  /** A single character other than a digit, `.` or `%` is dropped. */
  lemma KeepRateDrop(c: char)
    requires !RateChar(c)
    ensures KeepRate([c]) == []
  {
    assert [c][..0] == [];
  }

  /** A whole number of percent is divided by 100. */
  lemma RatePercent(w: string)
    requires |w| > 0 && AllDigits(w)
    ensures TaxRate(w + "%") == Finite(DecimalValue(w) as real / 100.0)
  {
    PercentText(w);
    PercentNumber(w);
    PercentRate(w + "%", DecimalValue(w) as real);
  }

  lemma PercentRate(t: string, v: real)
    requires KeepRate(t) == t && '%' in t && ParseNumber(t) == Finite(v)
    ensures TaxRate(t) == Finite(v / 100.0)
  {
  }

  lemma PercentText(w: string)
    requires AllDigits(w)
    ensures KeepRate(w + "%") == w + "%"
    ensures '%' in w + "%"
  {
    var t := w + "%";
    assert forall k :: 0 <= k < |t| ==> RateChar(t[k]) by {
      forall k | 0 <= k < |t| ensures RateChar(t[k]) {
        if k < |w| {
          assert t[k] == w[k];
        }
      }
    }
    KeepRateAll(t);
    assert t[|w|] == '%';
  }

  lemma PercentNumber(w: string)
    requires |w| > 0 && AllDigits(w)
    ensures ParseNumber(w + "%") == Finite(DecimalValue(w) as real)
  {
    var t := w + "%";
    assert forall k :: 0 <= k < |w| ==> IsDigit(t[k]) by {
      forall k | 0 <= k < |w| ensures IsDigit(t[k]) {
        assert t[k] == w[k];
      }
    }
    RunEndAt(t, 0, |w|, IsDigit);
    assert t[..|w|] == w;
    assert ParseFloat(t) == Some(Amount(DecimalValue(w), []));
    assert t[0] != '-' by {
      assert t[0] == w[0];
    }
    assert ValueOf(Amount(DecimalValue(w), [])) == DecimalValue(w) as real;
  }

  /** A bare whole number is a percentage when it is above 1, and a fraction otherwise. */
  lemma RateBare(w: string)
    requires |w| > 0 && AllDigits(w)
    ensures DecimalValue(w) > 1 ==> TaxRate(w) == Finite(DecimalValue(w) as real / 100.0)
    ensures DecimalValue(w) <= 1 ==> TaxRate(w) == Finite(DecimalValue(w) as real)
  {
    BareRateOf(w, DecimalValue(w));
  }

  lemma BareRateOf(w: string, n: nat)
    requires |w| > 0 && AllDigits(w) && DecimalValue(w) == n
    ensures n > 1 ==> TaxRate(w) == Finite(n as real / 100.0)
    ensures n <= 1 ==> TaxRate(w) == Finite(n as real)
  {
    BareText(w);
    BareNumber(w);
    BareRate(w, n);
  }

  lemma BareText(w: string)
    requires AllDigits(w)
    ensures KeepRate(w) == w && '%' !in w
  {
    KeepRateAll(w);
  }

  lemma BareRate(t: string, n: nat)
    requires KeepRate(t) == t && '%' !in t && ParseNumber(t) == Finite(n as real)
    ensures n > 1 ==> TaxRate(t) == Finite(n as real / 100.0)
    ensures n <= 1 ==> TaxRate(t) == Finite(n as real)
  {
    assert ParseNumber(KeepRate(t)) == Finite(n as real);
    assert n > 1 <==> n as real > 1.0;
  }

  lemma BareNumber(w: string)
    requires |w| > 0 && AllDigits(w)
    ensures ParseNumber(w) == Finite(DecimalValue(w) as real)
  {
    RunEndAt(w, 0, |w|, IsDigit);
    assert w[..|w|] == w;
    assert ParseFloat(w) == Some(Amount(DecimalValue(w), []));
    assert ValueOf(Amount(DecimalValue(w), [])) == DecimalValue(w) as real;
  }

  /** A rate written as a fraction `0.dd` is used as it is. */
  lemma RateFraction(w: string)
    requires |w| > 0 && AllDigits(w)
    ensures TaxRate("0." + w) == Finite(FractionValue(DigitsOf(w)))
  {
    FractionText(w);
    FractionNumber(w);
  }

  lemma FractionText(w: string)
    requires AllDigits(w)
    ensures KeepRate("0." + w) == "0." + w
    ensures '%' !in "0." + w
  {
    var t := "0." + w;
    assert forall k :: 0 <= k < |t| ==> RateChar(t[k]) && t[k] != '%' by {
      forall k | 0 <= k < |t| ensures RateChar(t[k]) && t[k] != '%' {
        if k >= 2 {
          assert t[k] == w[k - 2];
        }
      }
    }
    KeepRateAll(t);
  }

  lemma FractionNumber(w: string)
    requires |w| > 0 && AllDigits(w)
    ensures ParseNumber("0." + w) == Finite(FractionValue(DigitsOf(w)))
  {
    FractionParse("0.", w);
  }

  lemma FractionParse(z: string, w: string)
    requires |z| == 2 && z[0] == '0' && z[1] == '.' && |w| > 0 && AllDigits(w)
    ensures ParseNumber(z + w) == Finite(FractionValue(DigitsOf(w)))
  {
    var t := z + w;
    FractionRuns(z, w);
    ParseFloatDot(t, 1, |t|);
    assert ParseFloat(t) == Some(Amount(0, DigitsOf(w)));
    assert ValueOf(Amount(0, DigitsOf(w))) == FractionValue(DigitsOf(w));
  }

  /** In `0.` followed by digits, the integer run is the 0 and the fraction run is the rest. */
  lemma FractionRuns(z: string, w: string)
    requires |z| == 2 && z[0] == '0' && z[1] == '.' && |w| > 0 && AllDigits(w)
    ensures RunEnd(z + w, 0, IsDigit) == 1 && RunEnd(z + w, 2, IsDigit) == |z + w|
    ensures AllDigits((z + w)[..1]) && DecimalValue((z + w)[..1]) == 0 && (z + w)[2..|z + w|] == w
  {
    var t := z + w;
    RunEndAt(t, 0, 1, IsDigit);
    forall k | 2 <= k < |t| ensures IsDigit(t[k]) {
      assert t[k] == w[k - 2];
    }
    RunEndAt(t, 2, |t|, IsDigit);
    assert t[..1][..0] == [];
    assert t[2..|t|] == w;
  }

  /** Without any counted line every total prints as 0.00. */
  lemma ZeroTotals(invoices: seq<Invoice>, fromText: (Field, string) -> string)
    requires |invoices| > 0
    requires forall i, k :: 0 <= i < |invoices| && 0 <= k < |invoices[i].itemsTable| ==>
      IsSummary(invoices[i].itemsTable[k])
    ensures ExtractData(invoices, fromText).value.totalAmount == "0.00"
    ensures ExtractData(invoices, fromText).value.totalTax == "0.00"
    ensures ExtractData(invoices, fromText).value.totalWithTax == "0.00"
  {
    NothingCounted(invoices, fromText);
    assert ToFixed(Finite(0.0)) == "0.00" by {
      assert Hundredths(0.0) == 0;
      assert NatToString(0) == "0";
    }
  }

  lemma {:induction false} NothingCounted(invoices: seq<Invoice>, fromText: (Field, string) -> string)
    requires forall i, k :: 0 <= i < |invoices| && 0 <= k < |invoices[i].itemsTable| ==>
      IsSummary(invoices[i].itemsTable[k])
    ensures AddInvoices(invoices, fromText).totals == Totals(0.0, Finite(0.0), [])
  {
    if |invoices| > 0 {
      var n := |invoices| - 1;
      NothingCounted(invoices[..n], fromText);
      SummariesOnly(Start.totals, invoices[n].itemsTable);
    }
  }

  lemma {:induction false} SummariesOnly(t: Totals, items: seq<Item>)
    requires forall k :: 0 <= k < |items| ==> IsSummary(items[k])
    ensures AddItems(t, items) == t
  {
    if |items| > 0 {
      SummariesOnly(t, items[..|items| - 1]);
    }
  }
}
