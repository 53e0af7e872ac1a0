/**
 * The `get_offers_for_items` tool of supplier-pricing-mcp
 * (supplier-pricing-mcp/tools/get_offers_for_items.py): Printful when it is
 * enabled and configured, the fakestore catalogue when Printful is off or
 * fails, and a zero-cost demo result when both fail. Each stage's result is
 * returned together with its text report. The configuration read from the
 * environment and both providers' HTTP fetches are parameters.
 */
module OffersTool {
  import opened Wrappers
  import opened Json
  import opened PyText
  import opened PyValue
  import opened Loops
  import opened OfferData
  import opened OffersSummary
  import PrintfulOffers
  import FakestoreOffers

  const DEMO_PROVIDER: string := "demo_fallback"
  const PRINTFUL_FAILED_PREFIX: string := "Printful API недоступно или вернуло ошибку: "
  const PRINTFUL_DISABLED_REASON: string := "USE_PRINTFUL=false (Printful отключен через конфигурацию)."
  const PRINTFUL_NO_KEY_REASON: string := "PRINTFUL_API_KEY не задан, обращение к Printful невозможно."
  const FAKESTORE_FAILED_REASON: string := "fakestoreapi.com недоступен или вернул ошибку."
  const DEMO_REASON_PREFIX: string := "Работаем в финальном демо-режиме: реальный поставщик недоступен."

  /** The settings read from the environment when the module loads. */
  datatype Config = Config(usePrintful: bool, printfulKeySet: bool, currency: string)

  /** `USE_PRINTFUL`: the variable (default "true") lower-cased is one of "1", "true", "yes", "y". */
  function UsePrintful(env: Option<string>): bool {
    var value := if env.Some? then env.value else "true";
    Lower(value) in ["1", "true", "yes", "y"]
  }

  /**
   * Printful is on by default and for "TRUE", "Yes", "Y" and "1"; "false",
   * "0" and "" turn it off, and so does any value whose length is not that
   * of an accepted word.
   */
  lemma UsePrintfulSettings(v: string)
    ensures UsePrintful(None)
    ensures UsePrintful(Some("TRUE")) && UsePrintful(Some("Yes")) && UsePrintful(Some("Y")) && UsePrintful(Some("1"))
    ensures !UsePrintful(Some("false")) && !UsePrintful(Some("0")) && !UsePrintful(Some(""))
    ensures |v| != 1 && |v| != 3 && |v| != 4 ==> !UsePrintful(Some(v))
  {
    assert Lower("true") == "true";
    assert Lower("TRUE") == "true";
    assert Lower("Yes") == "yes";
    assert Lower("Y") == "y";
    assert Lower("1") == "1";
    assert Lower("false") == "false";
    assert Lower("0") == "0";
    assert |Lower(v)| == |v|;
  }

  // ----- the demo result -----

  /** `str((item or {}).get("sku") or "").strip()` */
  function DemoSku(fs: Fields): string {
    Strip(Str(Or(Get(fs, "sku"), JStr(""))))
  }

  /** One demo iteration: the item with no offers, listed as unavailable when its SKU is not blank. */
  function DemoItem(item: Json): (r: Result<Option<ItemOutcome>, string>)
    ensures r.Success? ==> r.value.Some? && r.value.value.item == item
  {
    match ItemFields(item)
    case Failure(e) => Failure(e)
    case Success(fs) =>
      var sku := DemoSku(fs);
      Success(Some(ItemOutcome(item, [], if sku != "" then Some(sku) else None, None, 0.0)))
  }

  function DemoStep(): (step: Json -> Result<Option<ItemOutcome>, string>)
    ensures forall x :: step(x) == DemoItem(x)
    ensures OneOutcomePerItem(step)
    ensures ReadsItems(step)
  {
    x => DemoItem(x)
  }

  /** `_build_demo_structured(items, reason)` */
  function BuildDemoStructured(items: seq<Json>, currency: string, reason: string): Result<Structured, string> {
    match Run(items, DemoStep())
    case Failure(e) => Failure(e)
    case Success(t) => Success(Structured(currency, t.blocks, 0.0, t.unavailable, [], DEMO_PROVIDER, true, Some(reason)))
  }

  method DemoStructured(items: seq<Json>, currency: string, reason: string) returns (r: Result<Structured, string>)
    ensures r == BuildDemoStructured(items, currency, reason)
  {
    var t := RunItems(items, DemoStep());
    if t.Failure? {
      return Failure(t.error);
    }
    return Success(Structured(currency, t.value.blocks, 0.0, t.value.unavailable, [], DEMO_PROVIDER, true, Some(reason)));
  }

  /** The demo result keeps every item in order, offers nothing, costs nothing and resolves nothing. */
  lemma DemoShape(items: seq<Json>, currency: string, reason: string)
    requires BuildDemoStructured(items, currency, reason).Success?
    ensures var s := BuildDemoStructured(items, currency, reason).value;
            s.provider == DEMO_PROVIDER && s.fallbackUsed && s.reason == Some(reason) && s.currency == currency
            && s.totalMinCost == 0.0 && s.resolvedVariants == []
            && |s.items| == |items|
            && (forall k :: 0 <= k < |items| ==> s.items[k] == ItemBlock(items[k], []))
  {
    RunBlocks(items, DemoStep());
  }

  /** The demo result lists as unavailable exactly the non-blank SKUs of its items. */
  lemma DemoUnavailable(items: seq<Json>, currency: string, reason: string)
    requires BuildDemoStructured(items, currency, reason).Success?
    ensures forall sku :: sku in BuildDemoStructured(items, currency, reason).value.unavailableSkus <==>
              exists k :: 0 <= k < |items| && DemoSkuAt(items, k, sku)
  {
    var step := DemoStep();
    RunUnavailable(items, step);
    var unavailable := Run(items, step).value.unavailable;
    assert BuildDemoStructured(items, currency, reason).value.unavailableSkus == unavailable;
    forall sku ensures sku in unavailable <==> exists k :: 0 <= k < |items| && DemoSkuAt(items, k, sku) {
      if sku in unavailable {
        var k :| 0 <= k < |items| && OutcomeOf(step, items[k]).unavailable == Some(sku);
        DemoOutcomeAt(items[k], sku);
        assert DemoSkuAt(items, k, sku);
      }
      if exists k :: 0 <= k < |items| && DemoSkuAt(items, k, sku) {
        var k :| 0 <= k < |items| && DemoSkuAt(items, k, sku);
        DemoOutcomeAt(items[k], sku);
      }
    }
  }

  /** A readable item's demo outcome lists `sku` exactly when `sku` is its non-blank stripped SKU. */
  lemma DemoOutcomeAt(item: Json, sku: string)
    requires DemoItem(item).Success?
    ensures ItemFields(item).Success?
    ensures OutcomeOf(DemoStep(), item).unavailable == Some(sku) <==> sku != "" && sku == DemoSku(ItemFields(item).value)
  {
    assert DemoStep()(item) == DemoItem(item);
  }

  /** Item `k` is readable and its SKU, stripped, is the non-blank `sku`. */
  predicate DemoSkuAt(items: seq<Json>, k: int, sku: string) {
    0 <= k < |items| && ItemFields(items[k]).Success? && sku != "" && sku == DemoSku(ItemFields(items[k]).value)
  }

  /** The demo result can be built exactly when every item is `None`-like or a dict. */
  lemma DemoFails(items: seq<Json>, currency: string, reason: string)
    ensures BuildDemoStructured(items, currency, reason).Failure? <==>
              exists k :: 0 <= k < |items| && ItemFields(items[k]).Failure?
  {
    RunFails(items, DemoStep());
  }

  // ----- the cascade -----

  /** A provider's result and its report, or the exception either raised. */
  function Reported(r: Result<Structured, string>, reasonPrefix: Option<string>): (out: Result<Json, string>)
    ensures r.Failure? ==> out == Failure(r.error)
    ensures r.Success? && SummaryText(r.value, reasonPrefix).Success? ==>
              out == Success(WrapToolResult(StructuredJson(r.value), SummaryText(r.value, reasonPrefix).value))
  {
    match r
    case Failure(e) => Failure(e)
    case Success(s) =>
      match SummaryText(s, reasonPrefix)
      case Failure(e) => Failure(e)
      case Success(text) => Success(WrapToolResult(StructuredJson(s), text))
  }

  /** Why Printful was not used, when it was not tried or its stage raised. */
  function PrintfulReason(config: Config, printful: Result<Json, string>): Option<string> {
    if !config.usePrintful then Some(PRINTFUL_DISABLED_REASON)
    else if !config.printfulKeySet then Some(PRINTFUL_NO_KEY_REASON)
    else if printful.Failure? then Some(PRINTFUL_FAILED_PREFIX + printful.error)
    else None
  }

  /** The reason the demo result gives: the Printful reason, if any, then the fakestore failure. */
  function DemoReason(printfulReason: Option<string>): string {
    var parts := (if printfulReason.Some? && printfulReason.value != "" then [printfulReason.value] else [])
                 + [FAKESTORE_FAILED_REASON];
    Join(" ; ", parts)
  }

  /** The Printful stage: its result and report, or what either raised. */
  function PrintfulStage(config: Config, items: seq<Json>, maxSuppliers: int, lookup: string -> PrintfulOffers.CatalogLookup)
    : Result<Json, string>
  {
    Reported(PrintfulOffers.OffersFromPrintful(true, items, maxSuppliers, config.currency, lookup), None)
  }

  /** The fakestore stage, told why Printful was not used. */
  function FakestoreStage(config: Config, items: seq<Json>, maxSuppliers: int, catalog: FakestoreOffers.CatalogFetch,
                          printfulReason: Option<string>): Result<Json, string>
  {
    Reported(FakestoreOffers.OffersFromFakestore(catalog, items, maxSuppliers, config.currency, printfulReason), None)
  }

  /** The demo stage, whose report opens with the demo-mode notice. */
  function DemoStage(config: Config, items: seq<Json>, printfulReason: Option<string>): Result<Json, string> {
    Reported(BuildDemoStructured(items, config.currency, DemoReason(printfulReason)), Some(DEMO_REASON_PREFIX))
  }

  /**
   * `get_offers_for_items(items, max_suppliers_per_item)`: the wrapped tool
   * result, or the exception that escapes the demo stage.
   */
  function GetOffersForItems(config: Config, items: seq<Json>, maxSuppliers: int,
                             lookup: string -> PrintfulOffers.CatalogLookup,
                             catalog: FakestoreOffers.CatalogFetch): Result<Json, string>
  {
    var printful := PrintfulStage(config, items, maxSuppliers, lookup);
    if config.usePrintful && config.printfulKeySet && printful.Success? then printful
    else
      var printfulReason := PrintfulReason(config, printful);
      var fakestore := FakestoreStage(config, items, maxSuppliers, catalog, printfulReason);
      if fakestore.Success? then fakestore
      else DemoStage(config, items, printfulReason)
  }

  /** A stage's result and its report: the formatting step every stage ends with. */
  method Report(r: Result<Structured, string>, reasonPrefix: Option<string>) returns (out: Result<Json, string>)
    ensures out == Reported(r, reasonPrefix)
  {
    if r.Failure? {
      return Failure(r.error);
    }
    var text := FormatSummaryText(r.value, reasonPrefix);
    if text.Failure? {
      return Failure(text.error);
    }
    return Success(WrapToolResult(StructuredJson(r.value), text.value));
  }

  method GetOffers(config: Config, items: seq<Json>, maxSuppliers: int,
                   lookup: string -> PrintfulOffers.CatalogLookup, catalog: FakestoreOffers.CatalogFetch)
    returns (r: Result<Json, string>)
    ensures r == GetOffersForItems(config, items, maxSuppliers, lookup, catalog)
  {
    var printfulReason: Option<string>;
    if config.usePrintful && config.printfulKeySet {
      var structured := PrintfulOffers.GetOffersFromPrintful(true, items, maxSuppliers, config.currency, lookup);
      var printful := Report(structured, None);
      if printful.Success? {
        return printful;
      }
      printfulReason := Some(PRINTFUL_FAILED_PREFIX + printful.error);
    } else if !config.usePrintful {
      printfulReason := Some(PRINTFUL_DISABLED_REASON);
    } else {
      printfulReason := Some(PRINTFUL_NO_KEY_REASON);
    }
    assert printfulReason == PrintfulReason(config, PrintfulStage(config, items, maxSuppliers, lookup));
    var structured := FakestoreOffers.GetOffersFromFakestore(catalog, items, maxSuppliers, config.currency, printfulReason);
    r := Report(structured, None);
    if r.Success? {
      return r;
    }
    var demo := DemoStructured(items, config.currency, DemoReason(printfulReason));
    r := Report(demo, Some(DEMO_REASON_PREFIX));
  }

  /** When Printful is enabled and configured and its loop finishes, its result is the tool's result. */
  lemma PrintfulFirst(config: Config, items: seq<Json>, maxSuppliers: int,
                      lookup: string -> PrintfulOffers.CatalogLookup, catalog: FakestoreOffers.CatalogFetch)
    requires config.usePrintful && config.printfulKeySet
    requires PrintfulOffers.OffersFromPrintful(true, items, maxSuppliers, config.currency, lookup).Success?
    ensures var s := PrintfulOffers.OffersFromPrintful(true, items, maxSuppliers, config.currency, lookup).value;
            SummaryText(s, None).Success?
            && GetOffersForItems(config, items, maxSuppliers, lookup, catalog)
                 == Success(WrapToolResult(StructuredJson(s), SummaryText(s, None).value))
  {
    RunReadable(items, PrintfulOffers.PrintfulStep(lookup, maxSuppliers, config.currency));
  }

  /**
   * When Printful is off, unconfigured or fails, and the fakestore loop
   * finishes, the fakestore result is the tool's result, carrying the
   * reason Printful was not used.
   */
  lemma FakestoreSecond(config: Config, items: seq<Json>, maxSuppliers: int,
                        lookup: string -> PrintfulOffers.CatalogLookup, catalog: FakestoreOffers.CatalogFetch)
    requires !config.usePrintful || !config.printfulKeySet
             || PrintfulOffers.OffersFromPrintful(true, items, maxSuppliers, config.currency, lookup).Failure?
    requires FakestoreOffers.OffersFromFakestore(catalog, items, maxSuppliers, config.currency, None).Success?
    ensures var reason := PrintfulReason(config, PrintfulStage(config, items, maxSuppliers, lookup));
            var s := FakestoreOffers.OffersFromFakestore(catalog, items, maxSuppliers, config.currency, reason);
            reason.Some? && s.Success? && s.value.reason == reason && SummaryText(s.value, None).Success?
            && GetOffersForItems(config, items, maxSuppliers, lookup, catalog)
                 == Success(WrapToolResult(StructuredJson(s.value), SummaryText(s.value, None).value))
  {
    var reason := PrintfulReason(config, PrintfulStage(config, items, maxSuppliers, lookup));
    FakestoreOffers.FakestoreRunFails(catalog, items, maxSuppliers, config.currency, None);
    FakestoreOffers.FakestoreRunFails(catalog, items, maxSuppliers, config.currency, reason);
    RunReadable(items, FakestoreOffers.FakestoreStep(catalog.body.elems, maxSuppliers, config.currency));
  }

  /**
   * The tool raises exactly when some requested item is neither `None`-like
   * nor a dict; otherwise it always returns a result, the demo one at worst.
   */
  lemma ToolFailsOnlyOnUnreadableItems(config: Config, items: seq<Json>, maxSuppliers: int,
                                       lookup: string -> PrintfulOffers.CatalogLookup, catalog: FakestoreOffers.CatalogFetch)
    ensures GetOffersForItems(config, items, maxSuppliers, lookup, catalog).Failure? <==>
              exists k :: 0 <= k < |items| && ItemFields(items[k]).Failure?
  {
    var reason := PrintfulReason(config, PrintfulStage(config, items, maxSuppliers, lookup));
    var demo := BuildDemoStructured(items, config.currency, DemoReason(reason));
    DemoFails(items, config.currency, DemoReason(reason));
    if demo.Success? {
      RunReadable(items, DemoStep());
    }
    if exists k :: 0 <= k < |items| && ItemFields(items[k]).Failure? {
      var k :| 0 <= k < |items| && ItemFields(items[k]).Failure?;
      PrintfulOffers.PrintfulRunFails(true, items, maxSuppliers, config.currency, lookup);
      assert PrintfulOffers.PrintfulItem(lookup, maxSuppliers, config.currency, items[k]).Failure?;
      FakestoreOffers.FakestoreRunFails(catalog, items, maxSuppliers, config.currency, reason);
      if catalog.Fetched? && catalog.body.JArr? {
        assert FakestoreOffers.FakestoreItem(catalog.body.elems, maxSuppliers, config.currency, items[k]).Failure?;
      }
    }
  }

  /** The demo stage's reason names the Printful reason, when there is one, before the fakestore failure. */
  lemma DemoReasonParts(printfulReason: Option<string>)
    ensures printfulReason.Some? && printfulReason.value != "" ==>
              DemoReason(printfulReason) == printfulReason.value + " ; " + FAKESTORE_FAILED_REASON
    ensures printfulReason.None? ==> DemoReason(printfulReason) == FAKESTORE_FAILED_REASON
  {
    if printfulReason.Some? && printfulReason.value != "" {
      var parts := [printfulReason.value] + [FAKESTORE_FAILED_REASON];
      assert parts[1..] == [FAKESTORE_FAILED_REASON];
      assert Join(" ; ", parts[1..]) == FAKESTORE_FAILED_REASON;
    }
  }
}
