# InvoiceToContract, modelled in Dafny

InvoiceToContract turns Chinese VAT invoices (PDF) into purchase contracts (DOCX). This project
models the deterministic work between the PDF library and the DOCX renderer and proves
properties of it. The PDF library hands over positioned text tokens `{text, x, y, width}`. The
renderer receives one flat data record. Everything between those two edges is modelled:

- **Goods-table reconstruction** (`InvoiceExtractor.ts`).
  - Locating the header and total lines, then choosing the table tokens by y.
  - Building, sorting and tiling the columns from the header tokens.
  - Grouping tokens into rows with tolerance 8.
  - Assembling one goods item per row and folding continuation rows into the last item.
  - The three continuation passes of `processContinuationLines`: merging name and spec lines,
    attaching voltage tokens, and unifying voltages across items with the same basic name.
  - The fixed x-range fallback.
  - The tab-separated goods table writer.
  - The `extractBetween` label scanner with its invoice-number and date clean-up.
- **Browser pipeline** (`ContractGenerator.tsx`).
  - The page text: rows grouped with tolerance 5, goods rows collapsed into name/spec/unit
    bands, short following rows merged, and blank lines dropped.
  - Grouping invoices by `project:buyer:seller`.
  - `extractDataFromInvoices`: header fields, goods lines, the tax from the rate, and the totals.
  - `extractProjectName` and the file-name sanitiser.
  - `ensureTemplateFields`.
- **Server service** (`ContractService.ts`).
  - `groupInvoicesByProject`.
  - `parseItemsTable`, the reader of the table the extractor writes.
  - The totals with thousands separators.
  - `cleanValue` and `extractField`.
  - `formatProductTable` and `prepareContractData`.
  - The `{{name}}` collector of `analyzeTemplate`.
- **The amount-in-words converter** `convertToChineseAmount`. Its three copies, in
  `ContractGenerator.tsx`, `ContractService.ts` and `InvoiceToContract.tsx`, are the same text,
  so it is modelled once (`Numerals`). The same goes for the `tableData` mapping of
  `InvoiceToContract.tsx`.
- **`normalizePath`** of the Cloudflare storage adapter, with the store as a map.

Code that works step by step is modelled as methods with loops, each proved equal to a
specification function; the properties are lemmas about those functions. Code that mutates
arrays in place is modelled on Dafny arrays:
- the column tiling loop;
- the three continuation passes;
- the polishing in `generateTableAndSetDetails`.

There is one module per concern. Each file is one module:

| file | module | models |
|---|---|---|
| strings.dfy | Strings | `trim`, `indexOf`, `split`/`join`, white-space collapsing, digit texts |
| options.dfy | Options | the optional value |
| tokens.dfy | Tokens | text tokens, sorting and filtering them |
| table_region.dfy | TableRegion | the header and total lines, the table tokens |
| columns.dfy | Columns | the columns and the column search |
| rows.dfy | RowGrouping | both row groupers |
| items.dfy | Items | goods items and the row-to-item assembly |
| patterns.dfy | Patterns | the voltage pattern, basic names, tightening around `*` |
| buckets.dfy | Buckets | grouping indices by key |
| continuation.dfy | Continuation | `processContinuationLines` |
| fallback.dfy | Fallback | the fixed x-range fallback |
| items_table.dfy | ItemsTable | the tab-separated goods table and its parser |
| extraction.dfy | Extraction | the goods step of `extractInvoiceDetails` |
| labels.dfy | Labels | labelled values and the project-name search |
| numerals.dfy | Numerals | `convertToChineseAmount` |
| decimals.dfy | Decimals | `parseFloat`, `toFixed(2)`, thousands separators |
| page_text.dfy | PageText | the page text of the browser's PDF reader |
| invoices.dfy | Invoices | the invoice records |
| grouping.dfy | Grouping | both invoice groupings |
| client_data.dfy | ClientData | `extractDataFromInvoices` |
| service_data.dfy | ServiceData | `extractContractDataFromInvoices` |
| contract_template.dfy | ContractTemplate | the template variables, the goods table text, the template data |
| template_fields.dfy | TemplateFields | `ensureTemplateFields` |
| file_name.dfy | FileName | the contract's file name |
| table_data.dfy | TableData | the `tableData` rows |
| storage.dfy | Storage | the storage key |

Where the code's output differs from what one would expect, the model follows the code:
- `convertToChineseAmount(100)` is 零壹佰零元整, where the usual written form is 壹佰元整. The zero placeholder is written for
  the empty places above the top digit too, so 5 is 零伍元整 (`Numerals.ExampleHundred`,
  `Numerals.ExampleFive`).
- A December contract's delivery date keeps the year and gets month 01
  (`ContractTemplate.NextMonthReadBack`).
- The fallback's x-ranges are exclusive at both ends, so x = 290, 380, 450 and 530 fill no field
  (`Fallback.Bucket`).

## Model

| member | source | states |
|---|---|---|
| `Strings.Trim` | src/services/ContractService.ts:220 | `trim()`: no white space at either end, never longer |
| `Strings.TrimTwice` | src/services/ContractService.ts:197 | trimming twice is trimming once |
| `Strings.IndexFrom` | src/components/InvoiceExtractor.ts:401-405 | `indexOf(key, from)`: the first occurrence at or after `from`, or -1 when there is none |
| `Strings.Split` | src/services/ContractService.ts:223 | `split(sep)`: at least one piece, none holding the separator |
| `Strings.SplitJoin` | src/services/ContractService.ts:220-226 | splitting pieces joined by a separator they lack gives the pieces back |
| `Strings.Normalize` | src/components/InvoiceExtractor.ts:150 | `replace(/\s+/g, ' ').trim()`: the result is trimmed and single-spaced, so a merged name or spec is too |
| `Strings.NormalizeKeepsLastWord` | src/components/InvoiceExtractor.ts:219-220 | a last word without white space survives the normalisation at the end |
| `Strings.ReplaceChar` | src/utils/storageAdapter.ts:107 | a global one-character replace keeps the length and changes exactly the matching characters |
| `Strings.RemoveChar` | src/components/InvoiceToContract.tsx:158 | a global removal leaves no such character and never lengthens |
| `Strings.RemoveCharAppend` | src/components/InvoiceToContract.tsx:158 | the removal works piece by piece: removing from `a + b` is removing from `a`, then from `b` |
| `Strings.RemoveCharOne` | src/components/InvoiceToContract.tsx:158 | a single character is dropped exactly when it is the one removed, and kept otherwise |
| `Strings.RemoveCharNone` | src/components/InvoiceToContract.tsx:158 | a text without the character is returned unchanged |
| `Tokens.InsertWithKey` | src/components/InvoiceExtractor.ts:660 | inserting into a sorted list puts the new token before every token with the same coordinate |
| `Tokens.SortByStable` | src/components/InvoiceExtractor.ts:660 | the sort is stable: tokens with equal coordinates keep their input order |
| `Tokens.SortBy` | src/components/InvoiceExtractor.ts:660 | the result is sorted by the chosen coordinate and is a permutation of the input |
| `Tokens.Filter` | src/components/InvoiceExtractor.ts:560-570 | a token is kept exactly when it is in the input and satisfies the predicate; nothing is added |
| `Tokens.FilterAppend` | src/components/InvoiceExtractor.ts:560-570 | filtering works token by token: a concatenation filters to the filtered parts, in order |
| `Tokens.FilterOne` | src/components/InvoiceExtractor.ts:560-570 | a single token is kept exactly when it satisfies the predicate |
| `Tokens.FilterSorted` | src/components/InvoiceExtractor.ts:576-590 | filtering a sorted token list leaves it sorted |
| `TableRegion.FindHeaderLine` | src/components/InvoiceExtractor.ts:530-539 | the index of the first trimmed line naming every column, or -1 when no line does |
| `TableRegion.FindTotalLine` | src/components/InvoiceExtractor.ts:541-550 | the index of the first line after the header carrying 合计 or 合 计, or -1 when none does |
| `TableRegion.LocateTable` | src/components/InvoiceExtractor.ts:526-550 | header is the first header line or -1; total is the first later total line; without a header the total stays -1; no line strictly between them is a total line |
| `TableRegion.LocatedUnique` | src/components/InvoiceExtractor.ts:526-550 | the two indices are determined by the lines alone |
| `TableRegion.MinY` | src/components/InvoiceExtractor.ts:585-586 | the smallest y of a non-empty token list: attained by a token and below every token |
| `TableRegion.HeaderFallbackIsDead` | src/components/InvoiceExtractor.ts:577-579 | the fallback to the 项目名称 tokens never changes the header tokens |
| `TableRegion.TableTokens` | src/components/InvoiceExtractor.ts:576-590 | no tokens when either group is empty; otherwise exactly the tokens strictly between the top header label and the top total marker, taken from the input |
| `TableRegion.TableTokensSorted` | src/components/InvoiceExtractor.ts:576-590 | the region keeps the tokens' order, so a y-sorted input gives a y-sorted region |
| `Columns.MinX` | src/components/InvoiceExtractor.ts:627 | the leftmost x of a non-empty list: attained and below every token |
| `Columns.MaxRight` | src/components/InvoiceExtractor.ts:628 | the largest right edge x + width: attained and above every token |
| `Columns.BuildColumns` | src/components/InvoiceExtractor.ts:604-640 | at most one column per definition, every column keyed by a definition |
| `Columns.BuildColumnsSpan` | src/components/InvoiceExtractor.ts:619-640 | a column starts at the x of a header token naming it, and every header token naming it lies inside its span |
| `Columns.BuildColumnsComplete` | src/components/InvoiceExtractor.ts:619-640 | a definition that some header token names always yields a column |
| `Columns.BuildColumnsDistinct` | src/components/InvoiceExtractor.ts:604-640 | distinct definitions give columns with distinct keys |
| `Columns.SortColumns` | src/components/InvoiceExtractor.ts:642 | the columns sorted by left edge, a permutation of the input |
| `Columns.SortColumnsDistinct` | src/components/InvoiceExtractor.ts:642 | sorting keeps every column key at most once |
| `Columns.TileColumns` | src/components/InvoiceExtractor.ts:646-649 | the loop rewrites the array in place: each column but the last ends where the next begins, nothing else changes |
| `Columns.TileSorted` | src/components/InvoiceExtractor.ts:642-649 | the tiling loop run over the sorted columns gives the tiled columns |
| `Columns.FindColumn` | src/components/InvoiceExtractor.ts:709-738 | the first column whose span holds x, or -1 when none does |
| `Columns.TiledCover` | src/components/InvoiceExtractor.ts:646-649 | with strictly increasing left edges, every x in [first.minX, last.maxX) lies in exactly one tiled column, the one found |
| `Columns.OutsideFindsNothing` | src/components/InvoiceExtractor.ts:709-738 | with strictly increasing columns, an x left of the first column or at or right of every right edge finds no column |
| `RowGrouping.RowsOrdered` | src/components/InvoiceExtractor.ts:663-685 | with chained bands every token of an earlier row lies strictly above every token of a later row |
| `RowGrouping.TableScanInvariant` | src/components/InvoiceExtractor.ts:663-678 | the table scan keeps its tokens split between finished rows and the open row and, without the -1 sentinel, the rows chained bands of height 8 |
| `RowGrouping.TableRowsShape` | src/components/InvoiceExtractor.ts:653-685 | the rows are a partition of the tokens into non-empty x-sorted rows; without a token at y = -1 each row spans at most 8 from its first token and the next starts more than 8 below |
| `RowGrouping.PageScanInvariant` | src/components/ContractGenerator.tsx:171-196 | the page scan keeps its tokens split between finished and open rows, and the rows chained bands of height 5 |
| `RowGrouping.PageRowsShape` | src/components/ContractGenerator.tsx:171-196 | the page rows are a partition of the tokens into non-empty x-sorted rows, each spanning at most 5, the next starting more than 5 below |
| `RowGrouping.GroupTableRows` | src/components/InvoiceExtractor.ts:653-685 | the loop returns the rows of the table scan |
| `RowGrouping.GroupPageRows` | src/components/ContractGenerator.tsx:171-196 | the loop returns the page rows |
| `Items.RowItemAccumulates` | src/components/InvoiceExtractor.ts:714-723 | name and spec are the concatenation of every text placed in their column, in row order |
| `Items.RowItemKeepsLast` | src/components/InvoiceExtractor.ts:724-735 | every other field is the last text placed in its column, or empty |
| `Items.AssembleStepEffect` | src/components/InvoiceExtractor.ts:742-756 | a row without name and spec adds nothing; a continuation row keeps the count and only extends the last name and spec at the end; otherwise exactly the row's item is pushed |
| `Items.AssembledNonBlank` | src/components/InvoiceExtractor.ts:691-757 | every assembled item has a name or a spec, and there are no more items than rows |
| `Items.ColumnOf` | src/components/InvoiceExtractor.ts:709-738 | the first column whose span holds x, or -1 |
| `Items.AssembleItems` | src/components/InvoiceExtractor.ts:691-757 | the loop returns the assembled items of the rows |
| `Continuation.FindText` | src/components/InvoiceExtractor.ts:118 | the first token carrying exactly the text, or none |
| `Continuation.SelectFacts` | src/components/InvoiceExtractor.ts:122-140 | exactly the positions satisfying the filter are selected, once each, in increasing order |
| `Continuation.NameLinesFacts` | src/components/InvoiceExtractor.ts:122-130 | the name continuations are the unused tokens below the name token by less than 25, left of x 100, non-empty, not product names and not an item's name |
| `Continuation.SpecLinesFacts` | src/components/InvoiceExtractor.ts:133-140 | the spec continuations are the unused tokens below the name token by less than 25, between x 100 and 180, non-empty and not an item's spec |
| `Continuation.MergeRowFrame` | src/components/InvoiceExtractor.ts:114-171 | one iteration changes only the name and spec of row i; the used set grows by exactly the tokens merged |
| `Continuation.PickedWindow` | src/components/InvoiceExtractor.ts:122-140 | every merged token was unused, lies below the name token by less than 25, left of x 180, and is non-empty |
| `Continuation.MergedOnce` | src/components/InvoiceExtractor.ts:114-171 | no token is merged into two items |
| `Continuation.MergeContinuations` | src/components/InvoiceExtractor.ts:114-172 | the first pass updates the item array in place to the merged items and returns the used tokens |
| `Continuation.MergeInto` | src/components/InvoiceExtractor.ts:115-171 | one iteration on row i as specified by the merge of that row |
| `Continuation.Nearest` | src/components/InvoiceExtractor.ts:198-209 | the anchor strictly above y with the greatest y, the first on a tie, or -1 when none is above |
| `Continuation.VoltageTokensFacts` | src/components/InvoiceExtractor.ts:178-181 | the voltage tokens are exactly the unused tokens whose whole text is a voltage, in y order |
| `Continuation.AttachOnlyNearest` | src/components/InvoiceExtractor.ts:196-226 | a voltage changes only the item nearest above it, and only when it is less than 30 away |
| `Continuation.AttachAppends` | src/components/InvoiceExtractor.ts:218-221 | when the nearest item lacks the voltage its name afterwards ends with it |
| `Continuation.VoltageEndsName` | src/components/InvoiceExtractor.ts:219-220 | a voltage appended after a blank ends the normalised name |
| `Continuation.AttachVoltages` | src/components/InvoiceExtractor.ts:196-226 | the second pass updates the item array in place to the attached items |
| `Continuation.GroupVoltageSound` | src/components/InvoiceExtractor.ts:249-259 | the group's voltage is a voltage and occurs in some member's name |
| `Continuation.UnifiedKeepsKey` | src/components/InvoiceExtractor.ts:262-268 | every item keeps its basic name through the third pass |
| `Continuation.UnifiedCarriesVoltage` | src/components/InvoiceExtractor.ts:243-270 | afterwards every member of a group of two or more with a voltage contains that voltage |
| `Continuation.UnifyVoltages` | src/components/InvoiceExtractor.ts:229-270 | the third pass updates the array in place to the unified items |
| `Continuation.UnifyGroup` | src/components/InvoiceExtractor.ts:243-270 | a group of two or more with a voltage is brought into line, any other left alone |
| `Continuation.UnifyMembers` | src/components/InvoiceExtractor.ts:262-268 | every member of the group gets the group's voltage, other items unchanged |
| `Continuation.Processed` | src/components/InvoiceExtractor.ts:106-273 | the same items in the same order come back, only names and specs changed |
| `Continuation.ProcessContinuationLines` | src/components/InvoiceExtractor.ts:106-273 | the three passes update the array in place to the processed items |
| `Continuation.ProcessItems` | src/components/InvoiceExtractor.ts:307 | the passes over a copy of the item list give the processed items |
| `Buckets.GroupFacts` | src/components/InvoiceExtractor.ts:229-240 | a group holds exactly the positions carrying its key, each once, in increasing order |
| `Buckets.CollectGroups` | src/components/InvoiceExtractor.ts:229-240 | every key is listed once, every index is filed under its own key, and each group holds exactly the positions carrying its key
| `Patterns.MatchIsVoltage` | src/components/InvoiceExtractor.ts:101 | a match of the voltage pattern, cut out, is a voltage on its own |
| `Patterns.FindVoltage` | src/components/InvoiceExtractor.ts:256 | the search finds something exactly when the text holds a match of the voltage pattern |
| `Patterns.FindVoltageSound` | src/components/InvoiceExtractor.ts:256-259 | what the search finds is a voltage occurring in the searched text |
| `Patterns.VoltageChars` | src/components/InvoiceExtractor.ts:179 | a voltage consists of digits, dots, the slash and unit letters only; it has no white space and is not empty |
| `Patterns.VoltageGrammar` | src/components/InvoiceExtractor.ts:179 | every text the pattern describes is recognised as a voltage |
| `Patterns.StripVoltageShape` | src/components/InvoiceExtractor.ts:234 | what the strip removes is white space followed by a voltage that is the whole last word |
| `Patterns.StripAppended` | src/components/InvoiceExtractor.ts:234 | appending a voltage after a blank does not change the basic name |
| `Patterns.BasicNameStable` | src/components/InvoiceExtractor.ts:265-266 | re-attaching a voltage to a basic name keeps the basic name |
| `Patterns.TightenTimesOnlyDropsSpace` | src/components/InvoiceExtractor.ts:166 | tightening around `*` removes white space and nothing else |
| `Fallback.Bucket` | src/components/InvoiceExtractor.ts:70-84 | never the name column; no column exactly for x ≤ 100, 150 ≤ x ≤ 180, 220 ≤ x ≤ 250 and x = 290, 380, 450 or 530, the gaps the exclusive bounds leave |
| `Fallback.IdentifyColumnByX` | src/components/InvoiceExtractor.ts:53-88 | the loop over the line returns the identified item that `Fallback.IdentifiedFields` describes |
| `Fallback.IdentifiedFields` | src/components/InvoiceExtractor.ts:53-88 | the name is the name token's text; every other field is the text of the last other token in its range, or empty |
| `Fallback.SameRow` | src/components/InvoiceExtractor.ts:91-95 | the line comes back sorted by x and is no longer than the token list |
| `Fallback.SameRowMembers` | src/components/InvoiceExtractor.ts:91-95 | the line holds exactly the tokens within 5 of y |
| `Fallback.RecognizedFacts` | src/components/InvoiceExtractor.ts:281-297 | at most one item per name token; every item is accepted and named by a product name token |
| `Fallback.RawLinesFacts` | src/components/InvoiceExtractor.ts:299-303 | at most one raw line per name token, none of them blank |
| `Fallback.ScanNames` | src/components/InvoiceExtractor.ts:281-304 | the loop returns the recognised items and the raw lines |
| `Fallback.ExtractItemsFromTextItems` | src/components/InvoiceExtractor.ts:276-310 | the recognised items after the continuation passes, and the raw lines |
| `Fallback.FirstContaining` | src/components/InvoiceExtractor.ts:348 | the first token whose text contains the key, or none |
| `Fallback.PotentialNames` | src/components/InvoiceExtractor.ts:344-358 | with a header naming 项目名称, the tokens left of x 100 below the first such header; otherwise none |
| `Fallback.TryExtractItemsByDifferentMethods` | src/components/InvoiceExtractor.ts:361-397 | reports success exactly when details are set, and the details are the fallback's |
| `Fallback.SetDetails` | src/components/InvoiceExtractor.ts:313-340 | the details of a non-empty item list, the items polished in place |
| `Fallback.FallbackFound` | src/components/InvoiceExtractor.ts:384-396 | details are set exactly when some name token gives an accepted item |
| `Extraction.ColumnsOf` | src/components/InvoiceExtractor.ts:604-649 | at most one column per column definition |
| `Extraction.LayOutColumns` | src/components/InvoiceExtractor.ts:642-649 | sorting and the tiling loop give the columns |
| `Extraction.TablePath` | src/components/InvoiceExtractor.ts:553-766 | with both lines found and tokens present, the details are the fallback's for an empty region, none for no items, and otherwise the raw lines and the table of the polished items |
| `Extraction.ReadTableItems` | src/components/InvoiceExtractor.ts:576-760 | the table path returns its assembled items after the continuation passes |
| `Extraction.AssembleTable` | src/components/InvoiceExtractor.ts:604-757 | columns, rows and the assembly loop give the assembled items |
| `Extraction.ExtractItemDetails` | src/components/InvoiceExtractor.ts:524-772 | the header and total indices meet the location conditions of `TableRegion.LocateTable`, and the details are those of the table path or of the fallback |
| `ItemsTable.Polished` | src/components/InvoiceExtractor.ts:316-327 | the clean-up keeps the number of items |
| `ItemsTable.PolishItems` | src/components/InvoiceExtractor.ts:316-327 | the loop rewrites every item in place into its polished form: spec tightened around `*` and trimmed, name trimmed |
| `ItemsTable.BuildTable` | src/components/InvoiceExtractor.ts:329-338 | the loop builds the table text: the header, one tab-separated line per item, trimmed |
| `ItemsTable.GenerateTableAndSetDetails` | src/components/InvoiceExtractor.ts:313-341 | an empty item list changes nothing and sets no details; otherwise the items are polished in place and the details hold the raw lines joined by newlines and the table of the polished items |
| `ItemsTable.ParseItemsTable` | src/services/ContractService.ts:219-282 | the loop returns the records of the parsed table |
| `ItemsTable.ParseDataRows` | src/services/ContractService.ts:227-279 | the loop over the data lines returns their records, in order |
| `ItemsTable.ParseLine` | src/services/ContractService.ts:228-278 | one line gives its record, or nothing for a total line or a line without a name |
| `ItemsTable.FillCells` | src/services/ContractService.ts:237-271 | header `j` keys the trimmed cell `j` for every header that has a cell, a later equal key overwriting an earlier one |
| `ItemsTable.KeyOfLabel` | src/services/ContractService.ts:244-268 | each of the eight column labels maps to its record key |
| `ItemsTable.KeyOfOther` | src/services/ContractService.ts:269-270 | any other header is kept as its own key |
| `ItemsTable.ParseRowFacts` | src/services/ContractService.ts:228-278 | a parsed record has a non-empty name, its line's first cell holds no 合计, and every key comes from a header that has a cell |
| `ItemsTable.ParseRowsNamed` | src/services/ContractService.ts:226-281 | no more records than lines, each with a non-empty name |
| `ItemsTable.NoTotalInName` | src/services/ContractService.ts:232 | a cell without 合计 has no 价税合计 either, so the second test never matters |
| `ItemsTable.HeaderSplit` | src/components/InvoiceExtractor.ts:330 | the written header splits at tabs into the eight labels |
| `ItemsTable.Filled` | src/components/InvoiceExtractor.ts:334-339 | the number of cells up to the last non-empty one, the rest empty |
| `ItemsTable.ReadRow` | src/services/ContractService.ts:228-278 | a written row with its trailing empty cells cut off reads back as the item's record of those cells |
| `ItemsTable.ReadRows` | src/services/ContractService.ts:226-281 | the written rows read back as the items' full records |
| `ItemsTable.TrimmedTable` | src/components/InvoiceExtractor.ts:338 | trimming the written table cuts only the empty cells of its last row |
| `ItemsTable.TextLines` | src/services/ContractService.ts:220 | the trimmed table splits at newlines into its header and its row lines |
| `ItemsTable.RoundTrip` | src/services/ContractService.ts:219-282 | parsing the table written for items that have names and no tabs or newlines gives back one record per item with its name, spec, unit, quantity, price, amount, tax rate and tax, the last item's trailing empty cells absent |
| `Labels.ValueAt` | src/components/InvoiceExtractor.ts:404-411 | the value read after a label carries no white space at either end |
| `Labels.ValueAtNoKey` | src/components/InvoiceExtractor.ts:404-411 | when the end key follows, the value does not contain it |
| `Labels.ValueAtRoundTrip` | src/components/InvoiceExtractor.ts:404-411 | a trimmed value written between a position and the first end key after it is read back exactly |
| `Labels.ExtractBetween` | src/components/InvoiceExtractor.ts:400-412 | empty when the start key is absent, and trimmed |
| `Labels.ExtractBetweenFollows` | src/components/InvoiceExtractor.ts:403-411 | with the end key after the start key, the value is read from the end of the start key up to that end key |
| `Labels.ExtractBetweenStops` | src/components/InvoiceExtractor.ts:403-411 | with the end key after the start key, the value does not contain the end key |
| `Labels.ExtractBetweenRoundTrip` | src/components/InvoiceExtractor.ts:400-412 | a trimmed value written between the first start key and the end key is extracted exactly |
| `Labels.FirstNumber` | src/components/InvoiceExtractor.ts:420 | a non-empty run of digits, found exactly when the text has a digit |
| `Labels.FirstNumberOf` | src/components/InvoiceExtractor.ts:420 | the first maximal digit run is the one found |
| `Labels.InvoiceNumber` | src/components/InvoiceExtractor.ts:417-422 | the invoice number, when found, is a non-empty run of digits |
| `Labels.InvoiceNumberRoundTrip` | src/components/InvoiceExtractor.ts:417-422 | a number written after 发票号码： and before 开票日期 is read back |
| `Labels.InvoiceDate` | src/components/InvoiceExtractor.ts:425-429 | the date, when found, is trimmed and free of both colons |
| `Labels.InvoiceDateRoundTrip` | src/components/InvoiceExtractor.ts:425-429 | a date written after the first 开票日期 and a full-width colon, and followed by 购, is read back exactly |
| `Labels.CleanValue` | src/services/ContractService.ts:194-199 | a missing or empty value gives ""; a result neither starts with a colon or white space nor ends with a colon, semicolon or white space |
| `Labels.CleanValueIdempotent` | src/services/ContractService.ts:194-199 | cleaning a cleaned value changes nothing |
| `Labels.CleanValueKeeps` | src/services/ContractService.ts:194-199 | a non-empty value with no colon or white space at its start and no colon, semicolon or white space at its end is returned unchanged |
| `Labels.ExtractField` | src/services/ContractService.ts:202-216 | nothing exactly when the text is empty or lacks the start key; a value found is trimmed |
| `Labels.ExtractFieldStops` | src/services/ContractService.ts:202-216 | with the end key after the start key, a value is found and does not contain the end key |
| `Labels.ExtractFieldRoundTrip` | src/services/ContractService.ts:202-216 | a trimmed value written between the first start key and the end key is extracted exactly |
| `Labels.SecondPart` | src/components/ContractGenerator.tsx:670-672 | a piece exists exactly when the line has a colon, and it holds no colon |
| `Labels.SecondPartRoundTrip` | src/components/ContractGenerator.tsx:670-672 | the piece is the text between the first colon (of either width) and the next colon or the end of the line |
| `Labels.LabelValue` | src/components/ContractGenerator.tsx:670-674 | a value read from a labelled line is non-empty and trimmed |
| `Labels.LabelValueRoundTrip` | src/components/ContractGenerator.tsx:670-674 | the value is the trimmed text between the first colon and the next, and there is none when that text is blank |
| `Labels.FirstLineWith` | src/components/ContractGenerator.tsx:668-669 | a line of the input containing the key; none exactly when no line contains it |
| `Labels.FirstLineWithPicks` | src/components/ContractGenerator.tsx:668-670 | the line taken is the first one containing the key |
| `Labels.FromContentLabels` | src/components/ContractGenerator.tsx:665-678 | a name from the content is non-empty and trimmed; there is none exactly when no key has a labelled line with a non-blank value |
| `Labels.FromContentLabelsPicks` | src/components/ContractGenerator.tsx:667-677 | the keys are tried in order, and the first key whose first line gives a non-blank value supplies the name |
| `Labels.RegexCapture` | src/components/ContractGenerator.tsx:683-685 | the capture is the rest of the line after the first position where the key and a colon stand and the line ends at a line feed or at the end of the text; there is none exactly when no position matches; the capture holds no line break |
| `Labels.FromTextLabels` | src/components/ContractGenerator.tsx:681-690 | a name from the full text is non-empty and trimmed; there is none exactly when every key's capture is missing or blank |
| `Labels.FromTextLabelsPicks` | src/components/ContractGenerator.tsx:682-690 | the keys are tried in order, and the first key whose capture is not blank supplies the trimmed capture |
| `Labels.FromProjectLines` | src/components/ContractGenerator.tsx:693-708 | a name from a 项目 or 工程 line is non-empty and trimmed; there is none exactly when no such line has a non-blank value after its colon |
| `Labels.FromProjectLinesPicks` | src/components/ContractGenerator.tsx:693-708 | the first line mentioning 项目 or 工程 with a non-blank value after its colon supplies that value |
| `Labels.TrimOfProjectLine` | src/components/ContractGenerator.tsx:715-719 | a line mentioning 项目 or 工程 is never blank after trimming |
| `Labels.FromMentions` | src/components/ContractGenerator.tsx:712-722 | a name from the mentions is non-empty and trimmed; there is none exactly when every line mentioning 项目 or 工程 is a 项目 label line |
| `Labels.FromMentionsPicks` | src/components/ContractGenerator.tsx:715-719 | the first line mentioning 项目 or 工程 that is not a 项目 label line is the name, trimmed |
| `Labels.ProjectName` | src/components/ContractGenerator.tsx:659-725 | the project name is never empty and always trimmed |
| `Labels.ProjectNameFromContent` | src/components/ContractGenerator.tsx:665-678 | a content line `项目名称：v`, with no line naming 项目/工程 and no earlier line naming 项目名称, gives `v` whatever the full text says |
| `Labels.ProjectNameUnknown` | src/components/ContractGenerator.tsx:724 | when neither the content nor the full text mentions 项目 or 工程, every search fails and the name is 未知项目 |
| `Numerals.KeepNumeric` | src/services/ContractService.ts:424 | only digits and dots remain, and the text does not grow |
| `Numerals.DigitsOf` | src/services/ContractService.ts:445-450 | one digit per character, each the value its glyph stands for |
| `Numerals.ParseFloat` | src/services/ContractService.ts:424 | NaN exactly when the text starts with neither a digit nor a dot followed by a digit |
| `Numerals.Words` | src/components/InvoiceToContract.tsx:266-268 | NaN and zero are spelled 零元整 |
| `Numerals.PlaceFacts` | src/services/ContractService.ts:471-480 | placing one digit of a group never writes two 零 side by side and uses only digit glyphs and 拾/佰/仟 |
| `Numerals.GroupTextFacts` | src/services/ContractService.ts:462-482 | a group's text is never empty, has no doubled 零 and holds only digit glyphs and place units |
| `Numerals.HeadTextUnits` | src/services/ContractService.ts:461-490 | below 10^12 the integer text carries exactly one group unit (元, 万 or 亿) per 4-digit group |
| `Numerals.HeadTextYuan` | src/services/ContractService.ts:485-487 | the integer text of a positive amount carries 元 exactly once |
| `Numerals.TailTextFacts` | src/services/ContractService.ts:444-454 | the fraction text has no 元 and, when not empty, ends in 角 or 分 |
| `Numerals.WordsShape` | src/services/ContractService.ts:492-502 | zero integer part gives 零元 before the tail; otherwise the integer text; the words end in 整 exactly when the fraction text is empty |
| `Numerals.YuanOnce` | src/components/InvoiceToContract.tsx:261-342 | the words of any input carry 元 exactly once |
| `Numerals.TwoFractionDigits` | src/services/ContractService.ts:448 | fraction digits past the second are ignored |
| `Numerals.TrailingZero` | src/services/ContractService.ts:449 | a trailing zero fraction digit changes nothing |
| `Numerals.ExampleFive` | src/services/ContractService.ts:464-482 | 5 is written 零伍元整, the zero placeholder being put in front of a lone units digit |
| `Numerals.ExampleHundred` | src/services/ContractService.ts:464-482 | 100 is written 零壹佰零元整 |
| `Numerals.ExampleHundredThousand` | src/services/ContractService.ts:461-490 | 100000 is written 零壹拾万零元整, an all-zero group still giving 零 and its 元 |
| `Numerals.GroupOf1024` | src/services/ContractService.ts:464-482 | the group 1024 is 壹仟零贰拾肆 |
| `Numerals.ExampleWithFraction` | src/services/ContractService.ts:421-503 | 1024.5 is written 壹仟零贰拾肆元伍角 |
| `Numerals.ExampleFractionOnly` | src/services/ContractService.ts:492-495 | 0.5 is written 零元伍角 |
| `Numerals.FractionLoop` | src/components/InvoiceToContract.tsx:284-293 | the fraction loop returns the fraction text |
| `Numerals.GroupLoop` | src/components/ContractGenerator.tsx:993-1013 | the inner loop returns the lowest group's text and the amount shifted by four digits |
| `Numerals.IntegerLoop` | src/components/ContractGenerator.tsx:988-1021 | the outer loop returns the integer text |
| `Numerals.ConvertToChineseAmount` | src/services/ContractService.ts:421-503 | the method returns the words of the amount text |
| `Decimals.FractionValue` | src/services/ContractService.ts:139 | the value of fraction digits lies in [0, 1) |
| `Decimals.ParseNumber` | src/components/ContractGenerator.tsx:882 | without a leading minus a parsed number is never negative |
| `Decimals.Hundredths` | src/services/ContractService.ts:160 | the amount in cents rounded to the nearest, within half a cent |
| `Decimals.ThousandsRemove` | src/services/ContractService.ts:160-162 | taking the commas out of a separated text gives the text back |
| `Decimals.ThousandsInWords` | src/services/ContractService.ts:160 | the separators do not change the digits the converter keeps, so not its words either |
| `Decimals.ThousandsPlaces` | src/services/ContractService.ts:160 | a comma goes before a digit of the integer part exactly when a positive multiple of three digits follows it |
| `Decimals.FixedShape` | src/services/ContractService.ts:160 | `toFixed(2)` gives the integer digits, a dot and two digits |
| `Decimals.FixedReadBack` | src/services/ContractService.ts:160 | the fixed text reads back as the cents it was written from |
| `Decimals.FixedValue` | src/services/ContractService.ts:160 | and that reading has the value cents / 100 |
| `Decimals.NatToStringDigits` | src/services/ContractService.ts:160 | the decimal text of a number is all digits and reads back as the number |
| `PageText.CollapsedBands` | src/components/ContractGenerator.tsx:234-280 | in the rebuilt row each of the name, spec and unit bands holds at most one token, the first of that band, carrying the band's texts joined in order; tokens outside the bands are kept as they were |
| `PageText.CollapseRow` | src/components/ContractGenerator.tsx:254-279 | the loop returns the collapsed row |
| `PageText.NearFromFirst` | src/components/ContractGenerator.tsx:287-289 | the token found is the first within 5 of x; none is found exactly when no token is |
| `PageText.MergedFacts` | src/components/ContractGenerator.tsx:286-295 | merging the next row keeps every text character, keeps the row's tokens in place with each text only extended, and adds at most the next row's tokens |
| `PageText.MergeNext` | src/components/ContractGenerator.tsx:286-295 | the loop returns the merged row |
| `PageText.WalkPlain` | src/components/ContractGenerator.tsx:204-305 | outside the goods section and with no header row ahead, every remaining row is written as its space-joined text |
| `PageText.WalkThrowsOnLastGoodsRow` | src/components/ContractGenerator.tsx:283 | a goods row that is the page's last row reads past the row list, and the whole extraction fails |
| `PageText.WalkRow` | src/components/ContractGenerator.tsx:204-305 | one pass of the row loop continues the walk with the possibly emptied next row, or fails exactly when the walk fails |
| `PageText.WalkRows` | src/components/ContractGenerator.tsx:199-309 | the loop returns the page's text, or failure |
| `PageText.NonBlankLines` | src/components/ContractGenerator.tsx:317 | every line kept is one of the input lines and is not blank |
| `PageText.NonBlankLinesAppend` | src/components/ContractGenerator.tsx:317 | the filter works line by line: a concatenation filters to the filtered parts, in order |
| `PageText.NonBlankLinesOne` | src/components/ContractGenerator.tsx:317 | a single line is kept exactly when it is not blank |
| `PageText.CleanedLines` | src/components/ContractGenerator.tsx:317 | the joined text is empty or has no blank line |
| `PageText.ExtractTextFromPages` | src/components/ContractGenerator.tsx:116-326 | the document's text with blank lines dropped and trimmed, or the error text naming the file when a page fails |
| `PageText.NoneStays` | src/components/ContractGenerator.tsx:322-325 | once a page fails the whole document fails |
| `Grouping.GroupBy` | src/services/ContractService.ts:558-579 | every key is listed once in order; every invoice's key is listed; each group holds exactly the invoices with its key, in input order |
| `Grouping.Push` | src/services/ContractService.ts:571-576 | the invoice is appended to its key's group, created empty when missing; a new key is listed last |
| `Grouping.Partition` | src/services/ContractService.ts:558-579 | a group holds every invoice with its key as often as the input does, and no other |
| `Grouping.GroupInvoices` | src/components/ContractGenerator.tsx:449-465 | the browser groups by `project:buyer:seller` with the properties of `Grouping.GroupBy` |
| `Grouping.GroupInvoicesByProject` | src/services/ContractService.ts:558-579 | the service groups by `project_buyerTaxID_sellerTaxID` with the properties of `Grouping.GroupBy` |
| `Grouping.KeyParts` | src/components/ContractGenerator.tsx:458 | a key built from parts without the separator splits back into them |
| `Grouping.ClientKeySame` | src/components/ContractGenerator.tsx:458 | equal parts give equal keys and, when no part holds a colon, equal keys mean equal parts |
| `Grouping.ServiceKeySame` | src/services/ContractService.ts:568 | equal parts give equal keys and, when no part holds `_`, equal keys mean equal parts |
| `Grouping.ServiceKeysCollide` | src/services/ContractService.ts:568 | a project holding `_` can share a key with a different project |
| `TableData.TableData` | src/components/InvoiceToContract.tsx:156-164 | one row per goods item |
| `TableData.TableRows` | src/components/InvoiceToContract.tsx:156-164 | row i is numbered i + 1, its name has no `*` and its other columns are the item's |
| `TableData.RemoveStars` | src/components/InvoiceToContract.tsx:158 | taking out `*` changes a name exactly when it holds one, and then shortens it |
| `TableData.RemoveStarsTwice` | src/components/InvoiceToContract.tsx:158 | taking out `*` twice is taking it out once |
| `TableData.TableDataAppend` | src/components/InvoiceToContract.tsx:156-164 | the rows of two lists joined are those of each, the second renumbered after the first |
| `FileName.ReplaceForbidden` | src/components/ContractGenerator.tsx:588-589 | the length is kept, no forbidden character remains, and every allowed character stays where it was |
| `FileName.SanitizeFacts` | src/components/ContractGenerator.tsx:588-592 | the cleaned name has no forbidden character, single blanks only, no leading white space, and at most 50 characters |
| `FileName.SanitizeClean` | src/components/ContractGenerator.tsx:588-592 | a name already clean and short enough is left as it is |
| `Storage.NormalizePath` | src/utils/storageAdapter.ts:104-108 | no key holds a `/` |
| `Storage.NormalizePlain` | src/utils/storageAdapter.ts:104-108 | a path not starting with `/` or `:` keeps its length, its slashes become colons and nothing else changes |
| `Storage.NormalizeLeading` | src/utils/storageAdapter.ts:104-108 | a path starting with `/` or `:` loses exactly that character; the key starts with `:` only when the path starts with two of them |
| `Storage.SameKey` | src/utils/storageAdapter.ts:70-102 | a file exists exactly when it can be read; a write is read back under every path with the same key and changes nothing under any other |
| `Storage.LeadingSlashIgnored` | src/utils/storageAdapter.ts:104-108 | a path and the same path with a leading slash name the same key |
| `ClientData.KeepSigned` | src/components/ContractGenerator.tsx:882 | only digits, dots and minus signs remain |
| `ClientData.KeepSignedAll` | src/components/ContractGenerator.tsx:882 | a text made only of digits, dots and minus signs is kept whole |
| `ClientData.KeepSignedAppend` | src/components/ContractGenerator.tsx:882 | the filter works piece by piece: filtering `a + b` is filtering `a`, then `b` |
| `ClientData.KeepSignedDrop` | src/components/ContractGenerator.tsx:882 | any other single character is removed |
| `ClientData.KeepRate` | src/components/ContractGenerator.tsx:893 | only digits, dots and percent signs remain |
| `ClientData.KeepRateAll` | src/components/ContractGenerator.tsx:893 | a text made only of digits, dots and percent signs is kept whole |
| `ClientData.KeepRateAppend` | src/components/ContractGenerator.tsx:893 | the filter works piece by piece: filtering `a + b` is filtering `a`, then `b` |
| `ClientData.KeepRateDrop` | src/components/ContractGenerator.tsx:893 | any other single character is removed |
| `ClientData.Plus` | src/components/ContractGenerator.tsx:906 | a sum is NaN exactly when one of its terms is |
| `ClientData.Times` | src/components/ContractGenerator.tsx:905 | a product with a finite amount is NaN exactly when the rate is |
| `ClientData.TaxRate` | src/components/ContractGenerator.tsx:891-903 | a rate read from a text is never negative |
| `ClientData.Pushed` | src/components/ContractGenerator.tsx:905-907 | a goods line is pushed unchanged except its tax, which changes only when it was computed from the rate |
| `ClientData.HeaderStepGet` | src/components/ContractGenerator.tsx:813-855 | after an invoice each header field keeps a value it already had and is otherwise the invoice's candidate for it |
| `ClientData.ExtractData` | src/components/ContractGenerator.tsx:728-949 | no contract data exactly when there are no invoices |
| `ClientData.UpdateHeader` | src/components/ContractGenerator.tsx:813-855 | the header update of one invoice |
| `ClientData.UpdateParties` | src/components/ContractGenerator.tsx:813-829 | the buyer and seller fields of that update, the others untouched |
| `ClientData.UpdateDetails` | src/components/ContractGenerator.tsx:831-855 | the bank, project and address fields of that update, the others untouched |
| `ClientData.RateOf` | src/components/ContractGenerator.tsx:892-903 | the rate read from the tax-rate text |
| `ClientData.AddLine` | src/components/ContractGenerator.tsx:865-916 | one goods line added to the totals |
| `ClientData.AddLines` | src/components/ContractGenerator.tsx:865-916 | the loop adds every goods line of an invoice |
| `ClientData.ExtractDataFromInvoices` | src/components/ContractGenerator.tsx:728-949 | the loop over the invoices returns the contract data |
| `ClientData.FirstNonEmpty` | src/components/ContractGenerator.tsx:814-855 | the first non-empty candidate, non-empty exactly when some candidate is |
| `ClientData.HeaderIsFirst` | src/components/ContractGenerator.tsx:790-855 | every header field ends up as the first invoice's non-empty candidate for it, in invoice order |
| `ClientData.ProjectNamed` | src/components/ContractGenerator.tsx:841-851 | with at least one invoice the project name is never empty |
| `ClientData.Kept` | src/components/ContractGenerator.tsx:866-877 | no line kept is nameless or a summary line |
| `ClientData.ItemsPushed` | src/components/ContractGenerator.tsx:865-916 | the goods list grows by exactly the non-summary lines, in order, each with its computed tax, the earlier lines unchanged |
| `ClientData.AmountTotal` | src/components/ContractGenerator.tsx:880-884 | the amount total grows by the sum of the kept lines' amounts, an unparsable amount counting 0 |
| `ClientData.TaxRules` | src/components/ContractGenerator.tsx:880-908 | a tax column wins over the rate and leaves the line as it was; a line without amount adds no amount and no tax; a computed tax is written back with two decimals |
| `ClientData.NaNStays` | src/components/ContractGenerator.tsx:905-906 | once the tax total is NaN it stays NaN |
| `ClientData.RateWithoutDigit` | src/components/ContractGenerator.tsx:893-907 | a rate text without any digit makes the rate, the tax total and the written tax NaN |
| `ClientData.RatePercent` | src/components/ContractGenerator.tsx:895-896 | `w%` is the rate w / 100 |
| `ClientData.RateBare` | src/components/ContractGenerator.tsx:897-902 | a bare whole number above 1 is divided by 100; 0 and 1 are taken as they are |
| `ClientData.RateFraction` | src/components/ContractGenerator.tsx:897-898 | `0.w` is the rate 0.w |
| `ClientData.ZeroTotals` | src/components/ContractGenerator.tsx:929-932 | when every line is a summary line all three totals are 0.00 |
| `ClientData.NothingCounted` | src/components/ContractGenerator.tsx:865-916 | and then nothing is added or pushed at all |
| `ClientData.SummariesOnly` | src/components/ContractGenerator.tsx:866-877 | summary lines leave the totals as they were |
| `ServiceData.Counted` | src/services/ContractService.ts:138-151 | what a cell adds to a total is never negative, an unparsable one adding 0 |
| `ServiceData.Tables` | src/services/ContractService.ts:130-132 | one parsed table per invoice |
| `ServiceData.ContractDataOf` | src/services/ContractService.ts:29-190 | no contract data exactly when there are no invoices |
| `ServiceData.ExtractContractDataFromInvoices` | src/services/ContractService.ts:29-190 | the method returns the contract data |
| `ServiceData.SumInvoices` | src/services/ContractService.ts:130-154 | the loop over the invoices returns the sums |
| `ServiceData.AddParsed` | src/services/ContractService.ts:133-152 | the loop over one table's records adds them |
| `ServiceData.AddField` | src/services/ContractService.ts:138-151 | a total grows by the value counted from one field |
| `ServiceData.AddAllNonNegative` | src/services/ContractService.ts:125-154 | both totals are never negative |
| `ServiceData.ColumnSumAppend` | src/services/ContractService.ts:130-154 | a column sum over two record lists is the sum of their column sums |
| `ServiceData.AddAllIsConcatenation` | src/services/ContractService.ts:122-154 | the goods list is every invoice's records concatenated in order, and the totals are the column sums of amount and tax over it |
| `ServiceData.HeaderFromFirst` | src/services/ContractService.ts:36-109 | the header depends only on the first invoice's full text, and is all empty when that text is |
| `ServiceData.MinusIgnored` | src/services/ContractService.ts:139 | a minus sign is stripped, so a negative amount counts as positive |
| `ServiceData.MoneyPlain` | src/services/ContractService.ts:160-162 | a printed total without its commas is the total to two decimals |
| `ServiceData.MoneyInWords` | src/services/ContractService.ts:160 | the words of a printed total are those of the total rounded to cents |
| `ContractTemplate.VariableAt` | src/services/ContractService.ts:303 | a `{{name}}` starting at a position ends after a non-empty name and inside the text |
| `ContractTemplate.AnalyzeVariables` | src/services/ContractService.ts:303-313 | the loop returns the names found, each once, in order of first appearance |
| `ContractTemplate.ScanComplete` | src/services/ContractService.ts:303-313 | in a template built from plain text and `{{name}}` placeholders, the scan finds exactly the placeholder names, in order |
| `ContractTemplate.TemplateVariables` | src/services/ContractService.ts:303-313 | for such a template, a name is among the collected variables exactly when some placeholder carries it |
| `ContractTemplate.Unique` | src/services/ContractService.ts:313 | the loop keeps the first copy of every name |
| `ContractTemplate.ScanSound` | src/services/ContractService.ts:303-309 | every name found is non-empty, holds no `}` and occurs in the template as `{{name}}` |
| `ContractTemplate.ScanOne` | src/services/ContractService.ts:303-309 | a template that is one placeholder yields exactly its name |
| `ContractTemplate.DedupFacts` | src/services/ContractService.ts:313 | removing duplicates keeps exactly the same names and leaves none twice |
| `ContractTemplate.Cells` | src/services/ContractService.ts:650 | a goods line has one cell per printed column |
| `ContractTemplate.ProductLines` | src/services/ContractService.ts:649-651 | one printed line per goods record |
| `ContractTemplate.FormatProductTable` | src/services/ContractService.ts:641-654 | the loop returns the product table, empty for no records |
| `ContractTemplate.TerminatedJoin` | src/services/ContractService.ts:649-651 | lines each ending in a newline are the lines joined by newlines with a final newline |
| `ContractTemplate.ProductLineOneLine` | src/services/ContractService.ts:650 | a record whose cells have no newline prints as one line |
| `ContractTemplate.ProductTableSplit` | src/services/ContractService.ts:641-654 | the table splits at newlines back into the numbered lines, one per record, and an empty last piece |
| `ContractTemplate.Aliases` | src/services/ContractService.ts:582-638 | buyer, seller, project, amount and date repeat their originals; the total defaults to 0.00; all dates are the day's Chinese date; the delivery date is a month later; the year, month and day texts are the day's |
| `ContractTemplate.AmountWordsAgree` | src/services/ContractService.ts:630-631 | the amount in words is the converter's words for the amount printed beside it, 零元整 when the total is missing |
| `ContractTemplate.ZeroWords` | src/services/ContractService.ts:631 | the two defaults, 0 and 0.00, are both spelled 零元整 |
| `ContractTemplate.NextMonthReadBack` | src/services/ContractService.ts:608 | the delivery month has two digits and is the next month, 01 after December |
| `ContractTemplate.ContractNumber` | src/services/ContractService.ts:606 | the contract number is all digits, the year's digits then 7 more, and reads back as the year, the month, the day and the random part |
| `ContractTemplate.Pad2ReadBack` | src/services/ContractService.ts:586-587 | a number below 100 padded to two digits reads back as itself |
| `ContractTemplate.Pad3ReadBack` | src/services/ContractService.ts:606 | a number below 1000 padded to three digits reads back as itself |
| `TemplateFields.SafeItems` | src/components/ContractGenerator.tsx:1072-1083 | one safe item per goods entry |
| `TemplateFields.EnsureFields` | src/components/ContractGenerator.tsx:1039-1087 | the three steps return the filled template data |
| `TemplateFields.FillLoop` | src/components/ContractGenerator.tsx:1052-1062 | the loop over the required fields gives every missing or falsy one its default |
| `TemplateFields.RenameProject` | src/components/ContractGenerator.tsx:1065-1068 | a placeholder project name is replaced by the dated one |
| `TemplateFields.CopyItems` | src/components/ContractGenerator.tsx:1071-1084 | a goods list is replaced by its safe copies |
| `TemplateFields.SafeCopies` | src/components/ContractGenerator.tsx:1072-1083 | the loop returns the safe copies |
| `TemplateFields.FillFacts` | src/components/ContractGenerator.tsx:1052-1062 | listed keys are present afterwards; unlisted keys and truthy values are untouched; a falsy listed key gets its default |
| `TemplateFields.RequiredFilled` | src/components/ContractGenerator.tsx:1039-1087 | every required field is truthy afterwards, every other key unchanged, and a truthy field other than items and projectName kept |
| `TemplateFields.DefaultsUsed` | src/components/ContractGenerator.tsx:1058 | a missing date field gets the locale date, any other missing text field 未提供 |
| `TemplateFields.ProjectNamed` | src/components/ContractGenerator.tsx:1052-1068 | the project name is never empty, 未知项目 or 未提供, and it is 合同-day exactly when it was one of those |
| `TemplateFields.ItemsFilled` | src/components/ContractGenerator.tsx:1054-1084 | missing items become an empty list, a truthy non-list stays, and a list keeps its length with entry i made safe with index i + 1 |
| `TemplateFields.SafeItemFacts` | src/components/ContractGenerator.tsx:1073-1080 | a safe item has every item field, keeps every truthy or extra field, has a truthy index, i + 1 when missing, and "" for any other missing field |
| `TemplateFields.ProjectNameUndated` | src/components/ContractGenerator.tsx:1058 | projectName does not contain Date, so its default is 未提供 |

## Left out

- PDF decoding with pdfjs: the model starts from the tokens of each page (`{text, x, y, width}`), not from the PDF bytes.
- DOCX rendering with docxtemplater, the file download and the server's file output: the model ends at the data record handed to the renderer.
- `readTemplateContent` and the reading of template files: the template content is a parameter of the `{{name}}` collector.
- The orchestration in `generateContract` and `generateContractFromInvoices`: it only calls the modelled steps, the renderer and the file I/O.
- The React components, their state and event handlers, and the HTTP routes: these are UI and transport.
- Logging with `console`: it has no effect on any result.
- The Cloudflare KV calls in `readFile`, `writeFile` and `exists`: the store is given as a map, and the conversion of data between `Buffer` and base64 is not modelled.
- The hardcoded sample invoice of `parseInvoicePDF` in InvoiceToContract.tsx: it is fixed demonstration data.
- The clock: today's date (`Today`, the locale date text and the ISO day) is a parameter.
- `Math.random`: the three random digits of the contract number are the `random` parameter.
- `JSON.stringify` of the goods items: its text is the `itemsJson` parameter.
- The buyer and seller regular expressions of `extractInvoiceDetails` (InvoiceExtractor.ts:432-521): general JavaScript regular expressions are not modelled.
- The header-field patterns of `extractDataFromInvoices` (ContractGenerator.tsx:737-767): they are the `fromText` parameter of `ClientData`.
- The header patterns of `extractContractDataFromInvoices` (ContractService.ts:55-107): they are the `headerOf` parameter of `ServiceData`.
- Tokens.Token: the coordinates `x`, `y` and `width` are integers, where pdfjs gives floating-point numbers. Every threshold (the row band, the column ranges, the 5-unit nearness) is compared with the code's own strict or non-strict operator, and the banding, ordering and range lemmas use only order, addition and subtraction of coordinates, never the step from `c` to `c + 1`, so they hold unchanged for real-valued coordinates.
- Continuation.UnifyVoltages: the code collects the groups in a plain object (`{}`), so a basic name equal to an `Object.prototype` member such as `constructor` finds an inherited value whose `push` fails, and the extraction ends in its `catch`. The model treats every basic name as a fresh group.
- Floating point: numbers are exact decimals. `toFixed(2)` rounds the exact value to the nearest cent, the larger one on a tie, where JavaScript rounds the nearest binary double.
- The exponent forms of `toString` for very large or very small numbers are not modelled.
- The converter is modelled for string input; a number argument goes through `toString` first, and that is not modelled.
- `priceWithTax` and `amountWithTax` (ContractGenerator.tsx:522-523) are products of floating-point numbers and are not modelled.
- Numerals.HeadTextUnits: stated only below 10^12, where there are at most three groups of four digits. Above that the model, like the code, writes `undefined` as the unit, and no lemma is stated.
- FileName.SanitizeFacts: `substring(0, 50)` counts UTF-16 code units, and the model counts characters, so the 50 bound is weaker than the code's for characters outside the basic plane.
- RowGrouping.TableRowsShape: the banding is stated only when no token has y = -1, the value the grouper uses as "no row yet".
- Object identity: the used-token set is keyed by token index, and `item !== nameItem` is modelled as inequality of values.
- The `totalItems` count of `tryExtractItemsByDifferentMethods`: it is only logged.
- The aliasing by which writing the tax back to a goods item also changes the invoice holding it: the model works on values.
- Object key order: the template data is a record with one field per key, not a dictionary with ordered string keys.
- `ensureTemplateFields`: spreading a goods entry that is not an object copies nothing; `NaN`, `null` and `false` are one missing value, and numbers are integers.
