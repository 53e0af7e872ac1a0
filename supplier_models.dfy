/**
 * The request and result records of the supplier service
 * (supplier-pricing-mcp/tools/models.py) and the field constraints their
 * validation enforces. Each `New...` function is the model's constructor:
 * it either builds the record or reports the fields that failed, in
 * declaration order.
 */
module SupplierModels {
  import opened Wrappers
  import opened PyText

  /** One requested position: what to buy, how many, and an optional price cap. */
  datatype PurchaseItem = PurchaseItem(sku: string, quantity: int, maxUnitPrice: Option<real>)

  /** A catalogue entry as the product search reports it. */
  datatype ProductSummary = ProductSummary(
    productId: string, title: string, price: real, currency: string, imageUrl: Option<string>)

  /** One supplier's price for one position. */
  datatype SupplierOffer = SupplierOffer(
    supplierId: string, supplierName: string, sku: string, externalProductId: string,
    unitPrice: real, currency: string, deliveryDays: Option<int>, productUrl: Option<string>)

  /** The offers found for one position. */
  datatype ItemOffers = ItemOffers(item: PurchaseItem, offers: seq<SupplierOffer>)

  /** The offers for a whole request. */
  datatype BulkOffersResult = BulkOffersResult(
    currency: string, items: seq<ItemOffers>, totalMinCost: real, unavailableSkus: seq<string>)

  const MAX_SKU_LENGTH: nat := 100
  const MAX_QUANTITY: int := 100000

  /** The invariant every constructed PurchaseItem satisfies. */
  predicate ValidPurchaseItem(p: PurchaseItem) {
    1 <= |p.sku| <= MAX_SKU_LENGTH && Strip(p.sku) == p.sku
    && 1 <= p.quantity <= MAX_QUANTITY
    && (p.maxUnitPrice.None? || p.maxUnitPrice.value > 0.0)
  }

  /** The fields of a PurchaseItem whose constraints `(sku, quantity, maxUnitPrice)` reject. */
  function PurchaseItemErrors(sku: string, quantity: int, maxUnitPrice: Option<real>): seq<string> {
    (if 1 <= |sku| <= MAX_SKU_LENGTH && Strip(sku) != "" then [] else ["sku"])
    + (if 1 <= quantity <= MAX_QUANTITY then [] else ["quantity"])
    + (if maxUnitPrice.None? || maxUnitPrice.value > 0.0 then [] else ["max_unit_price"])
  }

  /**
   * `PurchaseItem(sku=..., quantity=..., max_unit_price=...)`: the length
   * limits apply to the SKU as given, then the SKU is stored stripped and a
   * blank one is refused.
   */
  function NewPurchaseItem(sku: string, quantity: int, maxUnitPrice: Option<real>): (r: Result<PurchaseItem, seq<string>>)
    ensures r.Success? <==> (1 <= |sku| <= MAX_SKU_LENGTH && Strip(sku) != ""
                             && 1 <= quantity <= MAX_QUANTITY
                             && (maxUnitPrice.None? || maxUnitPrice.value > 0.0))
    ensures r.Success? ==> r.value == PurchaseItem(Strip(sku), quantity, maxUnitPrice)
    ensures r.Success? ==> ValidPurchaseItem(r.value)
    ensures r.Failure? ==> r.error != [] && (Strip(sku) == "" ==> "sku" in r.error)
  {
    var errors := PurchaseItemErrors(sku, quantity, maxUnitPrice);
    if errors != [] then Failure(errors)
    else
      var s := Strip(sku);
      StripKeeps(s);
      assert |s| <= |sku| by {
        StripTrims(sku);
      }
      Success(PurchaseItem(s, quantity, maxUnitPrice))
  }

  /**
   * A whitespace-only SKU, of any length (so also one whose length is
   * within the limits), is refused under "sku".
   */
  lemma BlankSkuRefused(sku: string, quantity: int, maxUnitPrice: Option<real>)
    requires AllSpace(sku)
    ensures NewPurchaseItem(sku, quantity, maxUnitPrice).Failure?
    ensures "sku" in NewPurchaseItem(sku, quantity, maxUnitPrice).error
  {
    StripTrims(sku);
  }

  /** The longest URL pydantic's `HttpUrl` accepts. */
  const MAX_URL_LENGTH: nat := 2083

  /** `s` opens with `scheme` (in any case) followed by the first character of a host. */
  predicate HostAfter(s: string, scheme: string) {
    |s| > |scheme| && Lower(s[..|scheme|]) == scheme && s[|scheme|] !in "/?#"
  }

  /**
   * pydantic's `HttpUrl` check, as far as this model follows it: an http or
   * https scheme, "://", a non-empty host, and at most 2083 characters.
   */
  predicate IsHttpUrl(s: string) {
    |s| <= MAX_URL_LENGTH && (HostAfter(s, "http://") || HostAfter(s, "https://"))
  }

  /** An optional `HttpUrl` field: absent, or a URL. */
  predicate OptionalUrl(u: Option<string>) {
    u.None? || IsHttpUrl(u.value)
  }

  /** `ProductSummary(...)`: the price must be positive and the image link, when given, a URL. */
  function NewProductSummary(productId: string, title: string, price: real, currency: string, imageUrl: Option<string>)
    : (r: Result<ProductSummary, seq<string>>)
    ensures r.Success? <==> price > 0.0 && OptionalUrl(imageUrl)
    ensures r.Success? ==> r.value == ProductSummary(productId, title, price, currency, imageUrl)
    ensures r.Failure? ==> r.error != [] && ("price" in r.error <==> price <= 0.0)
                           && ("image_url" in r.error <==> !OptionalUrl(imageUrl))
  {
    var errors := (if price > 0.0 then [] else ["price"]) + (if OptionalUrl(imageUrl) then [] else ["image_url"]);
    if errors == [] then Success(ProductSummary(productId, title, price, currency, imageUrl))
    else Failure(errors)
  }

  /** A link that is not a URL is refused, however good the price. */
  lemma NonUrlImageRefused(price: real)
    requires price > 0.0
    ensures NewProductSummary("1", "Pen", price, "USD", Some("n/a")) == Failure(["image_url"])
    ensures NewProductSummary("1", "Pen", price, "USD", Some("https://fakestoreapi.com/img/1.jpg")).Success?
  {
    assert !OptionalUrl(Some("n/a"));
    var noPrice: seq<string> := [];
    assert noPrice + ["image_url"] == ["image_url"];
    var url := "https://fakestoreapi.com/img/1.jpg";
    assert url[..8] == "https://";
    assert Lower("https://") == "https://";
    assert HostAfter(url, "https://");
  }

  predicate ValidSupplierOffer(o: SupplierOffer) {
    o.unitPrice > 0.0 && OptionalUrl(o.productUrl)
  }

  predicate ValidItemOffers(io: ItemOffers) {
    ValidPurchaseItem(io.item) && forall k :: 0 <= k < |io.offers| ==> ValidSupplierOffer(io.offers[k])
  }

  predicate AllItemOffersValid(items: seq<ItemOffers>) {
    forall k :: 0 <= k < |items| ==> ValidItemOffers(items[k])
  }

  /** The constraints of a BulkOffersResult: a non-negative total over valid positions. */
  predicate ValidBulkOffersResult(b: BulkOffersResult) {
    b.totalMinCost >= 0.0 && AllItemOffersValid(b.items)
  }

  /** `BulkOffersResult(...)`: refuses a negative total or an invalid position. */
  function NewBulkOffersResult(currency: string, items: seq<ItemOffers>, totalMinCost: real, unavailableSkus: seq<string>)
    : (r: Result<BulkOffersResult, seq<string>>)
    ensures r.Success? <==> ValidBulkOffersResult(BulkOffersResult(currency, items, totalMinCost, unavailableSkus))
    ensures r.Success? ==> r.value.totalMinCost == totalMinCost && r.value.items == items
    ensures totalMinCost < 0.0 ==> r.Failure? && "total_min_cost" in r.error
  {
    var b := BulkOffersResult(currency, items, totalMinCost, unavailableSkus);
    var errors := (if AllItemOffersValid(items) then [] else ["items"])
                  + (if totalMinCost >= 0.0 then [] else ["total_min_cost"]);
    if errors == [] then Success(b) else Failure(errors)
  }
}
