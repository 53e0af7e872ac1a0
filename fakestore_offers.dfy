/**
 * The fakestore fallback provider of the offers tool
 * (`_get_offers_from_fakestore` in
 * supplier-pricing-mcp/tools/get_offers_for_items.py). The whole catalogue
 * is fetched once; each requestable item takes the best-scoring catalogue
 * product for its SKU, and only an item whose price passes its maximum is
 * priced, counted and resolved. The catalogue fetch is a parameter.
 */
module FakestoreOffers {
  import opened Wrappers
  import opened Json
  import opened PyText
  import opened PyValue
  import opened Loops
  import opened OfferData
  import PickBest

  const PROVIDER: string := "fakestoreapi"
  const NOT_A_LIST_MESSAGE: string := "RuntimeError('Неверный формат ответа fakestoreapi.com (ожидался список).')"
  /** The reason given when the caller passes none. */
  const DEFAULT_REASON: string := "Printful отключен или недоступен, используется fakestoreapi.com."
  /** The exception `int(product_id)` raises on an id that is not an integer. */
  const BAD_ID_MESSAGE: string := "ValueError('invalid literal for int()')"
  /** The resolved id recorded for a product without an id. */
  const MISSING_ID: int := -1

  /** What fetching the catalogue gave: an exception (its repr) or the decoded body. */
  datatype CatalogFetch = FetchFailed(message: string) | Fetched(body: Json)

  /** `int(product_id) if product_id is not None else -1` */
  function ResolvedId(productId: Json): (r: Result<int, string>)
    ensures productId.JNull? ==> r == Success(MISSING_ID)
    ensures r.Failure? <==> !productId.JNull? && ToInt(productId).None?
  {
    if productId.JNull? then Success(MISSING_ID)
    else
      match ToInt(productId)
      case Some(n) => Success(n)
      case None => Failure(BAD_ID_MESSAGE)
  }

  /** `float(product.get("price", 0.0) or 0.0)`, or 0.0 when that raises. */
  function UnitPrice(product: Fields): real {
    ToFloat(Or(GetOr(product, "price", JFloat(0.0)), JFloat(0.0))).GetOr(0.0)
  }

  /**
   * What the chosen product makes of a requestable item: `.get` raises on a
   * product that is not a dict; a unit price above the maximum leaves the
   * item unavailable under its SKU; otherwise the product's id is resolved
   * (raising when it is not an integer), the cost is unit price times
   * quantity and the product is the item's one offer, cut to `maxSuppliers`.
   */
  function ProductOutcome(item: Json, req: ItemRequest, product: Json, maxSuppliers: int, currency: string)
    : (r: Result<ItemOutcome, string>)
    ensures r.Success? ==> r.value.item == item
    ensures !product.JObj? ==> r.Failure?
    ensures product.JObj? ==>
              var unit := UnitPrice(product.fields);
              var productId := Get(product.fields, "id");
              if req.maxPrice.Some? && unit > req.maxPrice.value then
                r == Success(ItemOutcome(item, [], Some(req.sku), None, 0.0))
              else
                (r.Success? <==> ResolvedId(productId).Success?)
                && (r.Success? ==>
                      r.value.unavailable.None? && r.value.cost == Cost(unit, req.qty)
                      && r.value.resolved == Some((req.sku, JInt(ResolvedId(productId).value)))
                      && |r.value.offers| == PrefixLength(1, maxSuppliers)
                      && forall f :: f in r.value.offers ==>
                           f == Offer(PROVIDER, req.sku, unit, currency, productId, Or(Get(product.fields, "title"), JStr(""))))
  {
    if !product.JObj? then Failure(NoGetMessage(product))
    else
      var productId := Get(product.fields, "id");
      var title := Or(Get(product.fields, "title"), JStr(""));
      var unit := UnitPrice(product.fields);
      if req.maxPrice.Some? && unit > req.maxPrice.value then
        Success(ItemOutcome(item, [], Some(req.sku), None, 0.0))
      else
        match ResolvedId(productId)
        case Failure(e) => Failure(e)
        case Success(id) =>
          var offer := Offer(PROVIDER, req.sku, unit, currency, productId, title);
          Success(ItemOutcome(item, TakePrefix([offer], maxSuppliers), None, Some((req.sku, JInt(id))), Cost(unit, req.qty)))
  }

  /**
   * What happens to an item once its fields are read: an item without a SKU
   * or a positive quantity is unavailable under its label ("<empty>" for a
   * blank SKU); otherwise the best-scoring product decides.
   */
  function RequestOutcome(products: seq<Json>, maxSuppliers: int, currency: string, item: Json, req: ItemRequest)
    : (r: Result<ItemOutcome, string>)
    ensures r.Success? ==> r.value.item == item
    ensures !Requestable(req) ==> r == Success(ItemOutcome(item, [], Some(SkuLabel(req.sku)), None, 0.0))
    ensures Requestable(req) && PickBest.Pick(products, req.sku).Success?
            && PickBest.Pick(products, req.sku).value.Some? && Truthy(PickBest.Pick(products, req.sku).value.value) ==>
              r == ProductOutcome(item, req, PickBest.Pick(products, req.sku).value.value, maxSuppliers, currency)
  {
    if !Requestable(req) then Success(ItemOutcome(item, [], Some(SkuLabel(req.sku)), None, 0.0))
    else
      match PickBest.Pick(products, req.sku)
      case Failure(e) => Failure(e)
      case Success(picked) =>
        if picked.None? || !Truthy(picked.value) then Success(ItemOutcome(item, [], Some(req.sku), None, 0.0))
        else ProductOutcome(item, req, picked.value, maxSuppliers, currency)
  }

  /** One iteration of the item loop; `Failure` is an exception that ends the whole run. */
  function FakestoreItem(products: seq<Json>, maxSuppliers: int, currency: string, item: Json)
    : (r: Result<Option<ItemOutcome>, string>)
    ensures r.Success? ==> r.value.Some? && r.value.value.item == item
  {
    match ItemFields(item)
    case Failure(e) => Failure(e)
    case Success(fs) =>
      match RequestOutcome(products, maxSuppliers, currency, item, ReadItem(fs))
      case Failure(e) => Failure(e)
      case Success(o) => Success(Some(o))
  }

  function FakestoreStep(products: seq<Json>, maxSuppliers: int, currency: string)
    : (step: Json -> Result<Option<ItemOutcome>, string>)
    ensures forall x :: step(x) == FakestoreItem(products, maxSuppliers, currency, x)
    ensures OneOutcomePerItem(step)
    ensures ReadsItems(step)
  {
    x => FakestoreItem(products, maxSuppliers, currency, x)
  }

  /** `reason_from_printful or DEFAULT_REASON` */
  function FallbackReason(reasonFromPrintful: Option<string>): (reason: string)
    ensures reasonFromPrintful.Some? && reasonFromPrintful.value != "" ==> reason == reasonFromPrintful.value
    ensures reasonFromPrintful.None? || reasonFromPrintful.value == "" ==> reason == DEFAULT_REASON
  {
    if reasonFromPrintful.Some? && reasonFromPrintful.value != "" then reasonFromPrintful.value else DEFAULT_REASON
  }

  /** The structured result of a finished fakestore run. */
  function FakestoreStructured(t: Tally, currency: string, reasonFromPrintful: Option<string>): Structured {
    Structured(currency, t.blocks, Round2(t.total), t.unavailable, t.resolved, PROVIDER, true,
               Some(FallbackReason(reasonFromPrintful)))
  }

  /** `_get_offers_from_fakestore(items, max_suppliers_per_item, reason_from_printful)` */
  function OffersFromFakestore(catalog: CatalogFetch, items: seq<Json>, maxSuppliers: int, currency: string,
                               reasonFromPrintful: Option<string>): Result<Structured, string>
  {
    match catalog
    case FetchFailed(e) => Failure(e)
    case Fetched(body) =>
      if !body.JArr? then Failure(NOT_A_LIST_MESSAGE)
      else
        match Run(items, FakestoreStep(body.elems, maxSuppliers, currency))
        case Failure(e) => Failure(e)
        case Success(t) => Success(FakestoreStructured(t, currency, reasonFromPrintful))
  }

  method GetOffersFromFakestore(catalog: CatalogFetch, items: seq<Json>, maxSuppliers: int, currency: string,
                                reasonFromPrintful: Option<string>) returns (r: Result<Structured, string>)
    ensures r == OffersFromFakestore(catalog, items, maxSuppliers, currency, reasonFromPrintful)
  {
    if catalog.FetchFailed? {
      return Failure(catalog.message);
    }
    if !catalog.body.JArr? {
      return Failure(NOT_A_LIST_MESSAGE);
    }
    var t := RunItems(items, FakestoreStep(catalog.body.elems, maxSuppliers, currency));
    if t.Failure? {
      return Failure(t.error);
    }
    return Success(FakestoreStructured(t.value, currency, reasonFromPrintful));
  }

  /**
   * Unlike the Printful provider, the fallback resolves exactly the items it
   * prices: an item is unavailable exactly when its unit price is above its
   * maximum, and resolved, with unit price times quantity counted,
   * exactly when it is not. A resolved id is the product's integer id, or
   * -1 when the product has none.
   */
  lemma FakestoreResolvesOnlyPriced(item: Json, req: ItemRequest, product: Json, maxSuppliers: int, currency: string)
    requires ProductOutcome(item, req, product, maxSuppliers, currency).Success?
    ensures product.JObj?
    ensures var o := ProductOutcome(item, req, product, maxSuppliers, currency).value;
            var unit := UnitPrice(product.fields);
            (o.unavailable.Some? <==> req.maxPrice.Some? && unit > req.maxPrice.value)
            && (o.resolved.Some? <==> o.unavailable.None?)
            && (o.resolved.Some? ==> o.cost == Cost(unit, req.qty) && |o.offers| == PrefixLength(1, maxSuppliers))
            && (o.unavailable.Some? ==> o.unavailable == Some(req.sku) && o.offers == [] && o.cost == 0.0)
            && (o.resolved.Some? ==>
                  var productId := Get(product.fields, "id");
                  o.resolved.value.0 == req.sku
                  && o.resolved.value.1 == JInt(if productId.JNull? then MISSING_ID else ToInt(productId).value))
  {
  }

  /** An item the catalogue offers nothing for (no products, or an empty product) is unavailable under its SKU. */
  lemma FakestoreNothingPicked(products: seq<Json>, maxSuppliers: int, currency: string, item: Json, req: ItemRequest)
    requires Requestable(req)
    requires PickBest.Pick(products, req.sku).Success?
    requires PickBest.Pick(products, req.sku).value.None? || !Truthy(PickBest.Pick(products, req.sku).value.value)
    ensures RequestOutcome(products, maxSuppliers, currency, item, req) == Success(ItemOutcome(item, [], Some(req.sku), None, 0.0))
  {
  }

  /** An empty catalogue leaves every requestable item unavailable. */
  lemma EmptyCatalogOffersNothing(maxSuppliers: int, currency: string, item: Json, req: ItemRequest)
    ensures var o := RequestOutcome([], maxSuppliers, currency, item, req);
            o.Success? && o.value.offers == [] && o.value.resolved.None? && o.value.cost == 0.0
  {
  }

  /**
   * A finished fakestore run has one block per item in order, lists as
   * unavailable every item that was not requestable (under its label), totals the
   * counted costs rounded to cents, and reports itself as the fallback
   * provider with the caller's reason or the default one.
   */
  lemma FakestoreRunShape(catalog: CatalogFetch, items: seq<Json>, maxSuppliers: int, currency: string,
                          reasonFromPrintful: Option<string>)
    requires OffersFromFakestore(catalog, items, maxSuppliers, currency, reasonFromPrintful).Success?
    ensures var s := OffersFromFakestore(catalog, items, maxSuppliers, currency, reasonFromPrintful).value;
            catalog.Fetched? && catalog.body.JArr?
            && s.provider == PROVIDER && s.fallbackUsed && s.currency == currency
            && s.reason == Some(FallbackReason(reasonFromPrintful))
            && |s.items| == |items|
            && (forall k :: 0 <= k < |items| ==> s.items[k].item == items[k])
            && s.totalMinCost == Round2(SumCosts(Collect(items, FakestoreStep(catalog.body.elems, maxSuppliers, currency)).value))
            && (forall k :: (0 <= k < |items| && ItemFields(items[k]).Success?
                  && !Requestable(ReadItem(ItemFields(items[k]).value))) ==>
                    SkuLabel(ReadItem(ItemFields(items[k]).value).sku) in s.unavailableSkus)
  {
    var step := FakestoreStep(catalog.body.elems, maxSuppliers, currency);
    RunBlocks(items, step);
    RunTotal(items, step);
    RunUnavailable(items, step);
    forall k | 0 <= k < |items| && ItemFields(items[k]).Success? && !Requestable(ReadItem(ItemFields(items[k]).value))
      ensures SkuLabel(ReadItem(ItemFields(items[k]).value).sku) in Run(items, step).value.unavailable
    {
      var req := ReadItem(ItemFields(items[k]).value);
      assert OutcomeOf(step, items[k]) == RequestOutcome(catalog.body.elems, maxSuppliers, currency, items[k], req).value;
    }
  }

  /** The run fails exactly when the fetch failed, the body is not a list, or some item raises. */
  lemma FakestoreRunFails(catalog: CatalogFetch, items: seq<Json>, maxSuppliers: int, currency: string,
                          reasonFromPrintful: Option<string>)
    ensures OffersFromFakestore(catalog, items, maxSuppliers, currency, reasonFromPrintful).Failure? <==>
              catalog.FetchFailed? || !catalog.body.JArr?
              || exists k :: 0 <= k < |items| && FakestoreItem(catalog.body.elems, maxSuppliers, currency, items[k]).Failure?
  {
    if catalog.Fetched? && catalog.body.JArr? {
      RunFails(items, FakestoreStep(catalog.body.elems, maxSuppliers, currency));
    }
  }
}
