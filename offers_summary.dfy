/**
 * The text report of the offers tool (`_format_summary_text` in
 * supplier-pricing-mcp/tools/get_offers_for_items.py): a title naming the
 * provider, optional reason lines, a line per item followed by a line per
 * offer, the total, and the lists of unavailable and resolved SKUs.
 */
module OffersSummary {
  import opened Wrappers
  import opened Json
  import opened PyText
  import opened PyValue
  import opened Loops
  import opened OfferData

  const PRINTFUL_TITLE: string := "Результаты подбора офферов (Printful)"
  const FAKESTORE_TITLE: string := "Результаты подбора офферов (FakeStore API)"
  const DEMO_TITLE: string := "Результаты подбора офферов (демо-поставщик)"
  const REASON_PREFIX: string := "Причина: "
  const TOTAL_PREFIX: string := "Минимальная суммарная стоимость по всем позициям: "
  const UNAVAILABLE_HEADER: string := "Позиции без офферов:"
  const RESOLVED_HEADER: string := "Соответствие sku → variant_id:"
  const DEFAULT_CURRENCY: string := "USD"

  /** `structured.get("provider") or "unknown"` */
  function ProviderName(s: Structured): string {
    if s.provider != "" then s.provider else "unknown"
  }

  /** The title: Printful only when it was not a fallback, FakeStore, or the demo supplier otherwise. */
  function Title(s: Structured): (title: string)
    ensures title == PRINTFUL_TITLE <==> s.provider == "printful" && !s.fallbackUsed
    ensures title == FAKESTORE_TITLE <==> s.provider == "fakestoreapi"
    ensures title in {PRINTFUL_TITLE, FAKESTORE_TITLE, DEMO_TITLE}
  {
    if s.provider == "printful" && !s.fallbackUsed then PRINTFUL_TITLE
    else if s.provider == "fakestoreapi" then FAKESTORE_TITLE
    else DEMO_TITLE
  }

  /** `structured.get("currency") or "USD"` */
  function CurrencyName(s: Structured): string {
    if s.currency != "" then s.currency else DEFAULT_CURRENCY
  }

  /** The lines between the title and the items: the prefix, the reason, and a blank line after either. */
  function ReasonLines(s: Structured, reasonPrefix: Option<string>): (lines: seq<string>)
    ensures lines == [] <==> (reasonPrefix.None? || reasonPrefix.value == "") && (s.reason.None? || s.reason.value == "")
  {
    var hasPrefix := reasonPrefix.Some? && reasonPrefix.value != "";
    var hasReason := s.reason.Some? && s.reason.value != "";
    (if hasPrefix then [reasonPrefix.value] else [])
    + (if hasReason then [REASON_PREFIX + s.reason.value] else [])
    + (if hasPrefix || hasReason then [""] else [])
  }

  /** `block.get("item") or {}` read as a dict; an unreadable item reads as empty here and is refused by `SummaryText`. */
  function ItemFieldsOrEmpty(item: Json): Fields {
    if ItemFields(item).Success? then ItemFields(item).value else []
  }

  /** `int(item.get("quantity") or 0)`, 0 when that raises. */
  function QuantityShown(item: Json): int {
    ToInt(Or(Get(ItemFieldsOrEmpty(item), "quantity"), JInt(0))).GetOr(0)
  }

  /** `- {sku} — запрошено {qty_int} шт., офферов: {len(offers)}` */
  function BlockLine(b: ItemBlock): string {
    "- " + Str(Get(ItemFieldsOrEmpty(b.item), "sku")) + " — запрошено " + IntText(QuantityShown(b.item))
    + " шт., офферов: " + IntText(|b.offers|)
  }

  /** An offer together with what its line borrows from its block and the result. */
  datatype OfferRow = OfferRow(qty: int, provider: string, currency: string, offer: Offer)

  function Rows(s: Structured, b: ItemBlock): (rows: seq<OfferRow>)
    ensures |rows| == |b.offers|
  {
    seq(|b.offers|, k requires 0 <= k < |b.offers| => OfferRow(QuantityShown(b.item), ProviderName(s), s.currency, b.offers[k]))
  }

  /** The rows of each block, as one function value shared by the report and its lemmas. */
  function RowsOf(s: Structured): ItemBlock -> seq<OfferRow> {
    b => Rows(s, b)
  }

  /** The offer line: price and position total to two decimals, with the offer's currency or the result's. */
  function OfferLine(row: OfferRow): string {
    var o := row.offer;
    var supplier := if o.supplier != "" then o.supplier else row.provider;
    var curr := if o.currency != "" then o.currency else if row.currency != "" then row.currency else DEFAULT_CURRENCY;
    "  • " + supplier + ": " + Fixed2(o.unitPrice) + " " + curr + " за штуку, ~"
    + Fixed2(Cost(o.unitPrice, row.qty)) + " " + curr + " за позицию (variant_id=" + Str(o.variantId)
    + ", desc=" + Str(Or(o.description, JStr(""))) + ")"
  }

  function TotalLine(s: Structured): string {
    TOTAL_PREFIX + Fixed2(s.totalMinCost) + " " + CurrencyName(s)
  }

  function SkuLine(sku: string): string {
    "- " + sku
  }

  function ResolvedLine(entry: (string, Json)): string {
    "- " + entry.0 + " -> " + Str(entry.1)
  }

  /** A section with a blank line and a header before its lines, or nothing when it has no lines. */
  function Section(header: string, lines: seq<string>): seq<string> {
    if lines == [] then [] else ["", header] + lines
  }

  /** The report's lines, for a result whose items are all readable. */
  function SummaryLines(s: Structured, reasonPrefix: Option<string>): seq<string> {
    [Title(s), ""] + ReasonLines(s, reasonPrefix)
    + Blocks(s.items, BlockLine, RowsOf(s), OfferLine)
    + ["", TotalLine(s)]
    + Section(UNAVAILABLE_HEADER, Lines(s.unavailableSkus, SkuLine))
    + Section(RESOLVED_HEADER, Lines(s.resolvedVariants, ResolvedLine))
  }

  /** The first block whose item `.get` raises on, if any. */
  function UnreadableItem(blocks: seq<ItemBlock>): (r: Option<Json>)
    ensures r.None? <==> forall k :: 0 <= k < |blocks| ==> ItemFields(blocks[k].item).Success?
  {
    if blocks == [] then None
    else if ItemFields(blocks[0].item).Failure? then Some(blocks[0].item)
    else
      var r := UnreadableItem(blocks[1..]);
      assert forall k :: 1 <= k < |blocks| ==> blocks[k] == blocks[1..][k - 1];
      r
  }

  lemma {:induction false} UnreadableItemAt(blocks: seq<ItemBlock>, i: nat)
    requires i < |blocks| && ItemFields(blocks[i].item).Failure?
    requires forall k :: 0 <= k < i ==> ItemFields(blocks[k].item).Success?
    ensures UnreadableItem(blocks) == Some(blocks[i].item)
  {
    if i > 0 {
      UnreadableItemAt(blocks[1..], i - 1);
    }
  }

  /** `_format_summary_text(structured, reason_prefix)`: the joined lines, or the AttributeError of an unreadable item. */
  function SummaryText(s: Structured, reasonPrefix: Option<string>): Result<string, string> {
    match UnreadableItem(s.items)
    case Some(item) => Failure(NoGetMessage(item))
    case None => Success(Join("\n", SummaryLines(s, reasonPrefix)))
  }

  /** The first unreadable item, found by scanning the blocks in order. */
  method FindUnreadableItem(blocks: seq<ItemBlock>) returns (r: Option<Json>)
    ensures r == UnreadableItem(blocks)
  {
    var i := 0;
    while i < |blocks|
      invariant 0 <= i <= |blocks|
      invariant forall k :: 0 <= k < i ==> ItemFields(blocks[k].item).Success?
    {
      if ItemFields(blocks[i].item).Failure? {
        UnreadableItemAt(blocks, i);
        return Some(blocks[i].item);
      }
      i := i + 1;
    }
    return None;
  }

  /** A listed section: nothing for an empty list, else a blank line, the header and a line per element. */
  method AppendSection<T>(lines: seq<string>, header: string, xs: seq<T>, line: T -> string) returns (out: seq<string>)
    ensures out == lines + Section(header, Lines(xs, line))
  {
    LinesList(xs, line);
    if xs == [] {
      return lines;
    }
    out := AppendLines(lines + ["", header], xs, line);
  }

  method FormatSummaryText(s: Structured, reasonPrefix: Option<string>) returns (r: Result<string, string>)
    ensures r == SummaryText(s, reasonPrefix)
  {
    var unreadable := FindUnreadableItem(s.items);
    if unreadable.Some? {
      return Failure(NoGetMessage(unreadable.value));
    }
    var lines := [Title(s), ""] + ReasonLines(s, reasonPrefix);
    lines := AppendBlocks(lines, s.items, BlockLine, RowsOf(s), OfferLine);
    lines := lines + ["", TotalLine(s)];
    lines := AppendSection(lines, UNAVAILABLE_HEADER, s.unavailableSkus, SkuLine);
    lines := AppendSection(lines, RESOLVED_HEADER, s.resolvedVariants, ResolvedLine);
    assert lines == SummaryLines(s, reasonPrefix);
    return Success(Join("\n", lines));
  }

  /** The report opens with the title and a blank line, and ends with the total unless a list follows. */
  lemma SummaryFrame(s: Structured, reasonPrefix: Option<string>)
    ensures var lines := SummaryLines(s, reasonPrefix);
            |lines| >= 4 && lines[0] == Title(s) && lines[1] == ""
            && (s.unavailableSkus == [] && s.resolvedVariants == [] ==> lines[|lines| - 1] == TotalLine(s))
  {
    var unavailable := Section(UNAVAILABLE_HEADER, Lines(s.unavailableSkus, SkuLine));
    var resolved := Section(RESOLVED_HEADER, Lines(s.resolvedVariants, ResolvedLine));
    FrameOf(Title(s), TotalLine(s), ReasonLines(s, reasonPrefix), Blocks(s.items, BlockLine, RowsOf(s), OfferLine),
            unavailable, resolved);
  }

  /** The frame of any report: title, blank line, ..., blank line, total, then the listed sections. */
  lemma FrameOf(title: string, total: string, reason: seq<string>, blocks: seq<string>,
                unavailable: seq<string>, resolved: seq<string>)
    ensures var lines := [title, ""] + reason + blocks + ["", total] + unavailable + resolved;
            |lines| >= 4 && lines[0] == title && lines[1] == ""
            && (unavailable == [] && resolved == [] ==> lines[|lines| - 1] == total)
  {
    var framed := [title, ""] + reason + blocks + ["", total];
    assert framed[0] == title && framed[1] == "" && framed[|framed| - 1] == total;
  }

  /** Every element of a list has its line among the list's lines. */
  lemma ListedLines<T>(xs: seq<T>, line: T -> string)
    ensures forall x :: x in xs ==> line(x) in Lines(xs, line)
  {
    LinesList(xs, line);
    forall x | x in xs ensures line(x) in Lines(xs, line) {
      var k :| 0 <= k < |xs| && xs[k] == x;
      assert Lines(xs, line)[k] == line(x);
    }
  }

  /** The item lines and the listed sections are all part of the report. */
  lemma PartsInSummary(s: Structured, reasonPrefix: Option<string>)
    ensures forall x :: x in Blocks(s.items, BlockLine, RowsOf(s), OfferLine) ==> x in SummaryLines(s, reasonPrefix)
    ensures forall x :: x in Lines(s.unavailableSkus, SkuLine) ==> x in SummaryLines(s, reasonPrefix)
    ensures forall x :: x in Lines(s.resolvedVariants, ResolvedLine) ==> x in SummaryLines(s, reasonPrefix)
  {
  }

  /**
   * The report has a line for every item and for every offer of it, a line
   * for every unavailable SKU and one for every resolved SKU.
   */
  lemma SummaryListsEverything(s: Structured, reasonPrefix: Option<string>)
    ensures forall i :: 0 <= i < |s.items| ==> BlockLine(s.items[i]) in SummaryLines(s, reasonPrefix)
    ensures forall i, row :: 0 <= i < |s.items| && row in Rows(s, s.items[i]) ==> OfferLine(row) in SummaryLines(s, reasonPrefix)
    ensures forall sku :: sku in s.unavailableSkus ==> SkuLine(sku) in SummaryLines(s, reasonPrefix)
    ensures forall e :: e in s.resolvedVariants ==> ResolvedLine(e) in SummaryLines(s, reasonPrefix)
  {
    var children := RowsOf(s);
    var blocks := Blocks(s.items, BlockLine, children, OfferLine);
    forall i | 0 <= i < |s.items|
      ensures BlockLine(s.items[i]) in blocks
      ensures forall row :: row in Rows(s, s.items[i]) ==> OfferLine(row) in blocks
    {
      BlocksList(s.items, BlockLine, children, OfferLine, i);
    }
    ListedLines(s.unavailableSkus, SkuLine);
    ListedLines(s.resolvedVariants, ResolvedLine);
    PartsInSummary(s, reasonPrefix);
  }

  /** The report has a line per item and offer, plus its fixed and listed lines. */
  lemma SummaryLineCount(s: Structured, reasonPrefix: Option<string>)
    ensures |SummaryLines(s, reasonPrefix)| ==
              4 + |ReasonLines(s, reasonPrefix)| + |s.items| + ChildCount(s.items, RowsOf(s))
              + (if s.unavailableSkus == [] then 0 else 2 + |s.unavailableSkus|)
              + (if s.resolvedVariants == [] then 0 else 2 + |s.resolvedVariants|)
  {
    BlocksCount(s.items, BlockLine, RowsOf(s), OfferLine);
    LinesList(s.unavailableSkus, SkuLine);
    LinesList(s.resolvedVariants, ResolvedLine);
  }

  /** A finished provider loop whose items were all read yields blocks the report can read. */
  lemma RunReadable(items: seq<Json>, step: Json -> Result<Option<ItemOutcome>, string>)
    requires OneOutcomePerItem(step) && ReadsItems(step) && Run(items, step).Success?
    ensures UnreadableItem(Run(items, step).value.blocks).None?
  {
    RunBlocks(items, step);
  }
}
