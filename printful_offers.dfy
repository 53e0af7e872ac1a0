/**
 * The Printful provider of the offers tool (`_get_offers_from_printful` in
 * supplier-pricing-mcp/tools/get_offers_for_items.py). Each requested item
 * with a SKU and a positive quantity is looked up in the catalogue under
 * its normalised query; the first variant of the product found is recorded
 * as the SKU's resolved variant and, unless its price exceeds the item's
 * maximum, becomes the item's one offer. The catalogue lookup is a
 * parameter: a function from query to what the two HTTP requests gave.
 */
module PrintfulOffers {
  import opened Wrappers
  import opened Json
  import opened PyText
  import opened PyValue
  import opened Loops
  import opened OfferData
  import opened SkuQuery

  const PROVIDER: string := "printful"
  /** The price taken when a variant's price does not convert to a float. */
  const DEMO_UNIT_PRICE: real := 0.99
  const NO_KEY_MESSAGE: string := "RuntimeError('PRINTFUL_API_KEY не задан')"

  /**
   * What `_fetch_printful_product_and_variants` gives for a query: an
   * `httpx.HTTPError`, any other exception (its repr), or the first product
   * found and its variants (the product is `None` when nothing was found).
   */
  datatype CatalogLookup = HttpFailed(message: string) | Raised(message: string) | Found(product: Json, variants: Json)

  /** `variants[0]` followed by `.get`: the fields of the first variant, or what indexing or `.get` raises. */
  function FirstVariant(variants: Json): (r: Result<Fields, string>)
    requires Truthy(variants)
    ensures variants.JArr? && variants.elems[0].JObj? ==> r == Success(variants.elems[0].fields)
    ensures !variants.JArr? ==> r.Failure?
  {
    match variants
    case JArr(elems) => if elems[0].JObj? then Success(elems[0].fields) else Failure(NoGetMessage(elems[0]))
    case JStr(s) => Failure(NoGetMessage(JStr([s[0]])))
    case JObj(_) => Failure("KeyError(0)")
    case _ => Failure("TypeError(\"'" + TypeName(variants) + "' object is not subscriptable\")")
  }

  /** An item without offers, listed as unavailable under `shown`. */
  function Unavailable(item: Json, shown: string, resolved: Option<(string, Json)>): ItemOutcome {
    ItemOutcome(item, [], Some(shown), resolved, 0.0)
  }

  /**
   * What the first variant makes of a requestable item: the variant id is
   * resolved whatever the price; a price above the maximum leaves the item
   * without an offer, otherwise its one offer (cut to `maxSuppliers`) is
   * priced and its cost counted.
   */
  function VariantOutcome(item: Json, req: ItemRequest, variant: Fields, maxSuppliers: int, currency: string): (o: ItemOutcome)
    ensures o.item == item
    ensures o.resolved == Some((req.sku, Get(variant, "id")))
    ensures var unit := ToFloat(Or(Get(variant, "price"), JFloat(0.0))).GetOr(DEMO_UNIT_PRICE);
            if req.maxPrice.Some? && unit > req.maxPrice.value then
              o.offers == [] && o.unavailable == Some(req.sku) && o.cost == 0.0
            else
              o.unavailable.None? && o.cost == Cost(unit, req.qty)
              && |o.offers| == PrefixLength(1, maxSuppliers)
              && forall f :: f in o.offers ==>
                   f == Offer(PROVIDER, req.sku, unit, currency, Get(variant, "id"), Or(Get(variant, "name"), JStr("")))
  {
    var variantId := Get(variant, "id");
    var name := Or(Get(variant, "name"), JStr(""));
    var unit := ToFloat(Or(Get(variant, "price"), JFloat(0.0))).GetOr(DEMO_UNIT_PRICE);
    if req.maxPrice.Some? && unit > req.maxPrice.value then
      Unavailable(item, req.sku, Some((req.sku, variantId)))
    else
      var offer := Offer(PROVIDER, req.sku, unit, currency, variantId, name);
      ItemOutcome(item, TakePrefix([offer], maxSuppliers), None, Some((req.sku, variantId)), Cost(unit, req.qty))
  }

  /** What the catalogue lookup makes of a requestable item. */
  function FoundOutcome(item: Json, req: ItemRequest, found: CatalogLookup, maxSuppliers: int, currency: string)
    : (r: Result<ItemOutcome, string>)
    ensures r.Success? ==> r.value.item == item
  {
    match found
    case HttpFailed(_) => Success(Unavailable(item, req.sku, None))
    case Raised(e) => Failure(e)
    case Found(product, variants) =>
      if !Truthy(product) || !Truthy(variants) then Success(Unavailable(item, req.sku, None))
      else
        match FirstVariant(variants)
        case Failure(e) => Failure(e)
        case Success(variant) => Success(VariantOutcome(item, req, variant, maxSuppliers, currency))
  }

  /** What happens to an item once its fields are read. */
  function RequestOutcome(lookup: string -> CatalogLookup, maxSuppliers: int, currency: string, item: Json, req: ItemRequest)
    : (r: Result<ItemOutcome, string>)
    ensures r.Success? ==> r.value.item == item
  {
    if !Requestable(req) then Success(Unavailable(item, SkuLabel(req.sku), None))
    else FoundOutcome(item, req, lookup(NormalizeSkuToQuery(req.sku)), maxSuppliers, currency)
  }

  /** One iteration of the item loop; `Failure` is an exception that ends the whole run. */
  function PrintfulItem(lookup: string -> CatalogLookup, maxSuppliers: int, currency: string, item: Json)
    : (r: Result<Option<ItemOutcome>, string>)
    ensures r.Success? ==> r.value.Some? && r.value.value.item == item
  {
    match ItemFields(item)
    case Failure(e) => Failure(e)
    case Success(fs) =>
      match RequestOutcome(lookup, maxSuppliers, currency, item, ReadItem(fs))
      case Failure(e) => Failure(e)
      case Success(o) => Success(Some(o))
  }

  function PrintfulStep(lookup: string -> CatalogLookup, maxSuppliers: int, currency: string)
    : (step: Json -> Result<Option<ItemOutcome>, string>)
    ensures forall x :: step(x) == PrintfulItem(lookup, maxSuppliers, currency, x)
    ensures OneOutcomePerItem(step)
    ensures ReadsItems(step)
  {
    x => PrintfulItem(lookup, maxSuppliers, currency, x)
  }

  /** The structured result of a finished Printful run. */
  function PrintfulStructured(t: Tally, currency: string): Structured {
    Structured(currency, t.blocks, Round2(t.total), t.unavailable, t.resolved, PROVIDER, false, None)
  }

  /** `_get_offers_from_printful(items, max_suppliers_per_item)`; `keySet` says whether an API key is configured. */
  function OffersFromPrintful(keySet: bool, items: seq<Json>, maxSuppliers: int, currency: string, lookup: string -> CatalogLookup)
    : Result<Structured, string>
  {
    if !keySet then Failure(NO_KEY_MESSAGE)
    else
      match Run(items, PrintfulStep(lookup, maxSuppliers, currency))
      case Failure(e) => Failure(e)
      case Success(t) => Success(PrintfulStructured(t, currency))
  }

  method GetOffersFromPrintful(keySet: bool, items: seq<Json>, maxSuppliers: int, currency: string, lookup: string -> CatalogLookup)
    returns (r: Result<Structured, string>)
    ensures r == OffersFromPrintful(keySet, items, maxSuppliers, currency, lookup)
  {
    if !keySet {
      return Failure(NO_KEY_MESSAGE);
    }
    var t := RunItems(items, PrintfulStep(lookup, maxSuppliers, currency));
    if t.Failure? {
      return Failure(t.error);
    }
    return Success(PrintfulStructured(t.value, currency));
  }

  /** An item without a SKU or with no positive quantity is listed under its SKU, or "<empty>", and nothing else happens. */
  lemma PrintfulSkipsUnrequestable(lookup: string -> CatalogLookup, maxSuppliers: int, currency: string, item: Json, req: ItemRequest)
    requires !Requestable(req)
    ensures RequestOutcome(lookup, maxSuppliers, currency, item, req)
              == Success(ItemOutcome(item, [], Some(if req.sku == "" then EMPTY_SKU_LABEL else req.sku), None, 0.0))
  {
  }

  /**
   * Whatever the lookup gives, an item with an offer is resolved and not
   * unavailable, and an item that is resolved yet unavailable (its variant
   * was over the maximum price) has neither offer nor cost. Only a lookup
   * that raises, or a first variant that cannot be read, ends the run.
   */
  lemma PrintfulResolvedOutcomes(item: Json, req: ItemRequest, found: CatalogLookup, maxSuppliers: int, currency: string)
    requires Requestable(req)
    ensures var r := FoundOutcome(item, req, found, maxSuppliers, currency);
            (r.Failure? <==> found.Raised? || (found.Found? && Truthy(found.product) && Truthy(found.variants)
                                               && FirstVariant(found.variants).Failure?))
            && (r.Success? ==>
                  (r.value.offers != [] ==> r.value.resolved == Some((req.sku, r.value.offers[0].variantId))
                                            && r.value.unavailable.None?)
                  && (r.value.resolved.Some? && r.value.unavailable.Some? ==> r.value.offers == [] && r.value.cost == 0.0)
                  && (r.value.unavailable.Some? ==> r.value.unavailable == Some(req.sku) && r.value.cost == 0.0))
  {
  }

  /**
   * A finished Printful run has one block per item in order, lists as
   * unavailable every item that was not requestable (under its label),
   * totals the counted costs rounded to cents, and reports itself as the
   * non-fallback provider without a reason.
   */
  lemma PrintfulRunShape(keySet: bool, items: seq<Json>, maxSuppliers: int, currency: string, lookup: string -> CatalogLookup)
    requires OffersFromPrintful(keySet, items, maxSuppliers, currency, lookup).Success?
    ensures var s := OffersFromPrintful(keySet, items, maxSuppliers, currency, lookup).value;
            var step := PrintfulStep(lookup, maxSuppliers, currency);
            keySet && s.provider == PROVIDER && !s.fallbackUsed && s.reason.None? && s.currency == currency
            && |s.items| == |items|
            && (forall k :: 0 <= k < |items| ==> s.items[k].item == items[k])
            && s.totalMinCost == Round2(SumCosts(Collect(items, step).value))
            && (forall k :: (0 <= k < |items| && ItemFields(items[k]).Success?
                  && !Requestable(ReadItem(ItemFields(items[k]).value))) ==>
                    SkuLabel(ReadItem(ItemFields(items[k]).value).sku) in s.unavailableSkus)
  {
    var step := PrintfulStep(lookup, maxSuppliers, currency);
    RunBlocks(items, step);
    RunTotal(items, step);
    RunUnavailable(items, step);
    forall k | 0 <= k < |items| && ItemFields(items[k]).Success? && !Requestable(ReadItem(ItemFields(items[k]).value))
      ensures SkuLabel(ReadItem(ItemFields(items[k]).value).sku) in Run(items, step).value.unavailable
    {
      var req := ReadItem(ItemFields(items[k]).value);
      assert OutcomeOf(step, items[k]) == RequestOutcome(lookup, maxSuppliers, currency, items[k], req).value;
    }
  }

  /** The run fails exactly when the key is missing or some item raises. */
  lemma PrintfulRunFails(keySet: bool, items: seq<Json>, maxSuppliers: int, currency: string, lookup: string -> CatalogLookup)
    ensures OffersFromPrintful(keySet, items, maxSuppliers, currency, lookup).Failure? <==>
              !keySet || exists k :: 0 <= k < |items| && PrintfulItem(lookup, maxSuppliers, currency, items[k]).Failure?
  {
    RunFails(items, PrintfulStep(lookup, maxSuppliers, currency));
  }
}
