/** The goods-detail step of InvoiceExtractor.ts as a whole: the table path (header and total
    lines, the token region between them, columns, rows, items, continuation passes, table) and
    the fallback it defers to. */
module Extraction {
  import opened Options
  import opened Strings
  import opened Tokens
  import opened TableRegion
  import opened Columns
  import opened RowGrouping
  import opened Items
  import opened ItemsTable
  import Continuation
  import Fallback

  /** The columns of the table: one per definition named by a header label, sorted by left
      edge, then tiled. */
  function ColumnsOf(headers: seq<Token>): (cs: seq<Column>)
    ensures |cs| <= |Definitions|
  {
    Tiled(SortColumns(BuildColumns(Definitions, headers)))
  }

  /** Sorting the columns, then the tiling loop over them as an array. */
  method LayOutColumns(headers: seq<Token>) returns (cs: seq<Column>)
    ensures cs == ColumnsOf(headers)
  {
    var sorted := SortColumns(BuildColumns(Definitions, headers));
    cs := TileSorted(sorted);
  }

  /** The items the table path assembles from the region's rows. */
  function RawTableItems(textItems: seq<Token>): seq<Item>
  {
    Assembled(TableRows(TableTokens(textItems)), ColumnsOf(HeaderLabels(textItems)))
  }

  /** The items the table path reads from the page's tokens, continuation passes included. */
  function TableItems(textItems: seq<Token>): seq<Item>
  {
    Continuation.Processed(textItems, RawTableItems(textItems))
  }

  /** The details the goods step sets, given the located header and total lines: the table
      path when both lines were found and tokens exist, deferring to the fallback when the
      region holds no token; otherwise the fallback whenever tokens exist. */
  function ItemDetails(lines: seq<string>, textItems: seq<Token>, header: int, total: int): Option<TableDetails>
    requires Located(lines, header, total)
  {
    if TableFound(header, total, textItems) then
      if |TableTokens(textItems)| == 0 then Fallback.FallbackDetails(textItems)
      else
        var items := TableItems(textItems);
        if |items| == 0 then None
        else Some(TableDetails(Join(lines[header..total + 1], "\n"), TableText(Polished(items))))
    else if |textItems| > 0 then Fallback.FallbackDetails(textItems)
    else None
  }

  /** The table path up to its items. */
  method ReadTableItems(textItems: seq<Token>) returns (items: seq<Item>)
    ensures items == TableItems(textItems)
  {
    var assembled := AssembleTable(textItems);
    items := Continuation.ProcessItems(textItems, assembled);
  }

  /** Columns, rows and the assembly loop. */
  method AssembleTable(textItems: seq<Token>) returns (items: seq<Item>)
    ensures items == RawTableItems(textItems)
  {
    var cs := LayOutColumns(HeaderLabels(textItems));
    var rows := GroupTableRows(TableTokens(textItems));
    items := AssembleItems(rows, cs);
  }

  /** The goods step over the text lines and the page's tokens. */
  method ExtractItemDetails(lines: seq<string>, textItems: seq<Token>) returns (header: int, total: int, details: Option<TableDetails>)
    ensures Located(lines, header, total)
    ensures details == ItemDetails(lines, textItems, header, total)
  {
    header, total := LocateTable(lines);
    if header >= 0 && total > header && |textItems| > 0 {
      details := TablePath(lines, textItems, header, total);
    } else if |textItems| > 0 {
      var _, d := Fallback.TryExtractItemsByDifferentMethods(textItems);
      details := d;
    } else {
      details := None;
    }
  }

  /** The branch taken when both lines were found and tokens exist. */
  method TablePath(lines: seq<string>, textItems: seq<Token>, header: int, total: int) returns (details: Option<TableDetails>)
    requires Located(lines, header, total) && TableFound(header, total, textItems)
    ensures details == ItemDetails(lines, textItems, header, total)
  {
    if |TableTokens(textItems)| == 0 {
      var _, d := Fallback.TryExtractItemsByDifferentMethods(textItems);
      details := d;
    } else {
      var items := ReadTableItems(textItems);
      details := None;
      if |items| > 0 {
        details := Fallback.SetDetails(items, lines[header..total + 1]);
      }
    }
  }
}
