/**
 * The `search_printful_catalog` tool of the supplier service
 * (supplier-pricing-mcp/tools/search_printful_catalog.py): find catalogue
 * products whose name contains the query, fetch up to a limit of variants
 * for each, and answer with a structured list and a readable summary. The
 * two Printful requests are parameters: `catalog(scanLimit)` is the reply to
 * the catalogue listing, `variants(productId, limit)` the reply to a
 * product's variant listing.
 */
module SearchPrintfulCatalog {
  import opened Wrappers
  import opened Json
  import opened PyText
  import opened PyValue
  import opened Mcp
  import opened Loops
  import opened PrintfulClient

  const MIN_LIMIT: int := 1
  const MAX_LIMIT: int := 50
  const NOT_CONFIGURED_TEXT: string :=
    "Printful API не сконфигурирован (нет PRINTFUL_API_KEY), поиск по каталогу недоступен."
  const API_ERROR_PREFIX: string := "Ошибка при обращении к Printful API: "
  const HEADER_PREFIX: string := "Поиск по каталогу Printful по запросу: "
  const NOTHING_FOUND: string := "Ничего не найдено."

  datatype VariantInfo = VariantInfo(variantId: int, size: Option<string>, color: Option<string>, name: string, image: Option<string>)

  datatype ProductInfo = ProductInfo(productId: int, name: string, brand: Option<string>, variantCount: Option<int>, variants: seq<VariantInfo>)

  datatype CatalogSearch = CatalogSearch(query: string, products: seq<ProductInfo>)

  /** The tool's answer: the text block and the structured content. */
  datatype Answer = Answer(text: string, structured: CatalogSearch)

  /** A value a pydantic `Optional[str]` field accepts: `None` or a string; anything else fails validation. */
  function OptionalStr(j: Json): Option<Option<string>> {
    match j
    case JNull => Some(None)
    case JStr(s) => Some(Some(s))
    case _ => None
  }

  /** A value a pydantic `Optional[int]` field accepts: `None`, an int, or a bool read as 0 or 1. */
  function OptionalInt(j: Json): Option<Option<int>> {
    if j.JNull? then Some(None)
    else if IsPyInt(j) then Some(Some(PyIntValue(j)))
    else None
  }

  function ValidationError(model: string, field: string): string {
    "ValidationError: " + model + "." + field
  }

  /**
   * What one listed variant adds: nothing when its id is not an int, else
   * its `PrintfulVariantInfo`. `.get` on a non-dict and a field the model
   * refuses raise.
   */
  function VariantOf(v: Json): (r: Result<Option<VariantInfo>, string>)
    ensures r.Success? ==> v.JObj?
    ensures r.Success? ==> (r.value.Some? <==> IsPyInt(Get(v.fields, "id")))
    ensures r.Success? && r.value.Some? ==> r.value.value.variantId == PyIntValue(Get(v.fields, "id"))
  {
    if !v.JObj? then Failure(NoGetMessage(v))
    else
      var fs := v.fields;
      var vid := Get(fs, "id");
      if !IsPyInt(vid) then Success(None)
      else
        var name := Or(Get(fs, "name"), JStr(""));
        var size := OptionalStr(Get(fs, "size"));
        var color := OptionalStr(Get(fs, "color"));
        var image := OptionalStr(Get(fs, "image"));
        if size.None? then Failure(ValidationError("PrintfulVariantInfo", "size"))
        else if color.None? then Failure(ValidationError("PrintfulVariantInfo", "color"))
        else if !name.JStr? then Failure(ValidationError("PrintfulVariantInfo", "name"))
        else if image.None? then Failure(ValidationError("PrintfulVariantInfo", "image"))
        else Success(Some(VariantInfo(PyIntValue(vid), size.value, color.value, name.s, image.value)))
  }

  /** The variant list of a product: a Printful error reads as no variants, any other failure escapes. */
  function VariantsRaw(reply: Result<Json, PrintfulError>): Result<seq<Json>, string> {
    match reply
    case Success(raw) => Success(ExtractData(raw))
    case Failure(ApiError(_)) => Success([])
    case Failure(OtherError(m)) => Failure(m)
  }

  /**
   * What one found product adds: nothing when its id is not an int, else
   * its `PrintfulProductInfo` with the first `limitVariants` listed variants
   * whose ids are ints. An int-id product is kept unless the variant
   * request raises something other than a Printful error, a listed variant
   * raises, or a field fails validation.
   */
  function ProductOf(p: Json, variants: (int, int) -> Result<Json, PrintfulError>, limitVariants: int)
    : (r: Result<Option<ProductInfo>, string>)
    ensures r.Success? ==> p.JObj?
    ensures p.JObj? && !IsPyInt(Get(p.fields, "id")) ==> r == Success(None)
    ensures r.Success? && r.value.Some? ==>
              IsPyInt(Get(p.fields, "id")) && r.value.value.productId == PyIntValue(Get(p.fields, "id"))
    ensures r.Success? && r.value.Some? && limitVariants >= 0 ==> |r.value.value.variants| <= limitVariants
    ensures p.JObj? && IsPyInt(Get(p.fields, "id")) ==>
              var raw := VariantsRaw(variants(PyIntValue(Get(p.fields, "id")), limitVariants));
              var name := Or(Get(p.fields, "name"), JStr(""));
              (r.Success? <==>
                 raw.Success? && Collect(TakePrefix(raw.value, limitVariants), VariantOf).Success? && name.JStr?
                 && OptionalStr(Get(p.fields, "brand")).Some? && OptionalInt(Get(p.fields, "variant_count")).Some?)
              && (r.Success? ==>
                    r.value.Some? && r.value.value.name == name.s
                    && r.value.value.brand == OptionalStr(Get(p.fields, "brand")).value
                    && r.value.value.variantCount == OptionalInt(Get(p.fields, "variant_count")).value
                    && Success(r.value.value.variants) == Collect(TakePrefix(raw.value, limitVariants), VariantOf))
  {
    if !p.JObj? then Failure(NoGetMessage(p))
    else
      var fs := p.fields;
      var id := Get(fs, "id");
      if !IsPyInt(id) then Success(None)
      else
        var name := Or(Get(fs, "name"), JStr(""));
        var brand := OptionalStr(Get(fs, "brand"));
        var variantCount := OptionalInt(Get(fs, "variant_count"));
        match VariantsRaw(variants(PyIntValue(id), limitVariants))
        case Failure(e) => Failure(e)
        case Success(raw) =>
          var listed := TakePrefix(raw, limitVariants);
          match Collect(listed, VariantOf)
          case Failure(e) => Failure(e)
          case Success(vs) =>
            CollectLength(listed, VariantOf);
            if !name.JStr? then Failure(ValidationError("PrintfulProductInfo", "name"))
            else if brand.None? then Failure(ValidationError("PrintfulProductInfo", "brand"))
            else if variantCount.None? then Failure(ValidationError("PrintfulProductInfo", "variant_count"))
            else Success(Some(ProductInfo(PyIntValue(id), name.s, brand.value, variantCount.value, vs)))
  }

  function ProductStep(variants: (int, int) -> Result<Json, PrintfulError>, limitVariants: int)
    : (step: Json -> Result<Option<ProductInfo>, string>)
    ensures forall p :: step(p) == ProductOf(p, variants, limitVariants)
  {
    p => ProductOf(p, variants, limitVariants)
  }

  /** How many catalogue products the search scans: `max(limit_products * 10, 50)`. */
  function ScanLimit(limitProducts: int): (n: int)
    ensures n >= 50 && n >= limitProducts * 10
    ensures n == 50 || n == limitProducts * 10
  {
    if limitProducts * 10 > 50 then limitProducts * 10 else 50
  }

  // ----- the human-readable summary -----

  function OptionalRepr(s: Option<string>): string {
    match s
    case None => "None"
    case Some(t) => Repr(t)
  }

  function ProductLine(p: ProductInfo): string {
    "- product_id=" + IntText(p.productId) + ", brand=" + OptionalRepr(p.brand)
    + ", name=" + Repr(p.name) + ", variants_total="
    + (match p.variantCount case None => "None" case Some(n) => IntText(n))
  }

  function VariantLine(v: VariantInfo): string {
    "  • variant_id=" + IntText(v.variantId) + ", size=" + OptionalRepr(v.size)
    + ", color=" + OptionalRepr(v.color) + ", name=" + Repr(v.name)
  }

  function Variants(p: ProductInfo): seq<VariantInfo> {
    p.variants
  }

  /** The lines for the products `ps`: each product's line, then one line per variant. */
  function ProductLines(ps: seq<ProductInfo>): seq<string> {
    Blocks(ps, ProductLine, Variants, VariantLine)
  }

  function TotalVariants(ps: seq<ProductInfo>): nat {
    if ps == [] then 0 else TotalVariants(ps[..|ps| - 1]) + |ps[|ps| - 1].variants|
  }

  function HeaderLine(query: string): string {
    HEADER_PREFIX + Repr(query) + "\n"
  }

  /** The lines the summary joins with newlines. */
  function SummaryLines(search: CatalogSearch): seq<string> {
    [HeaderLine(search.query)] + (if search.products == [] then [NOTHING_FOUND] else ProductLines(search.products))
  }

  /** After the header there is one line per product and one per variant. */
  lemma {:induction false} ProductLinesCount(ps: seq<ProductInfo>)
    ensures |ProductLines(ps)| == |ps| + TotalVariants(ps)
  {
    if ps != [] {
      ProductLinesCount(ps[..|ps| - 1]);
      LinesList(ps[|ps| - 1].variants, VariantLine);
    }
  }

  /** The summary names every product and every variant it reports. */
  lemma {:induction false} ProductLinesList(ps: seq<ProductInfo>, i: nat)
    requires i < |ps|
    ensures ProductLine(ps[i]) in ProductLines(ps)
    ensures forall v :: v in ps[i].variants ==> VariantLine(v) in ProductLines(ps)
  {
    var init := ps[..|ps| - 1];
    if i < |ps| - 1 {
      assert init[i] == ps[i];
      ProductLinesList(init, i);
    } else {
      LinesList(ps[i].variants, VariantLine);
      forall v | v in ps[i].variants ensures VariantLine(v) in ProductLines(ps) {
        var k :| 0 <= k < |ps[i].variants| && ps[i].variants[k] == v;
        assert Lines(ps[i].variants, VariantLine)[k] == VariantLine(v);
      }
    }
  }

  function SummaryText(search: CatalogSearch): string {
    Join("\n", SummaryLines(search))
  }

  /** `_format_catalog_search_human_readable(search)` */
  method FormatHumanReadable(search: CatalogSearch) returns (text: string)
    ensures text == SummaryText(search)
  {
    var lines := [HeaderLine(search.query)];
    if search.products == [] {
      lines := lines + [NOTHING_FOUND];
    } else {
      lines := AppendBlocks(lines, search.products, ProductLine, Variants, VariantLine);
    }
    text := Join("\n", lines);
  }

  // ----- the tool -----

  function Empty(query: string, text: string): Answer {
    Answer(text, CatalogSearch(query, []))
  }

  /**
   * What `search_printful_catalog(query, limit_products,
   * limit_variants_per_product)` answers; `configured` says whether a
   * Printful client is available.
   */
  function CatalogAnswer(query: string, limitProducts: int, limitVariants: int, configured: bool,
                         catalog: int -> Result<Json, PrintfulError>,
                         variants: (int, int) -> Result<Json, PrintfulError>): Result<Answer, ToolError>
  {
    if !(MIN_LIMIT <= limitProducts <= MAX_LIMIT) then Failure(InvalidArgument("limit_products"))
    else if !(MIN_LIMIT <= limitVariants <= MAX_LIMIT) then Failure(InvalidArgument("limit_variants_per_product"))
    else if !configured then Success(Empty(query, NOT_CONFIGURED_TEXT))
    else
      match SearchProductsByName(catalog(ScanLimit(limitProducts)), query, limitProducts)
      case Failure(ApiError(m)) => Success(Empty(query, API_ERROR_PREFIX + m))
      case Failure(OtherError(m)) => Failure(Uncaught(m))
      case Success(found) =>
        match Collect(found, ProductStep(variants, limitVariants))
        case Failure(e) => Failure(Uncaught(e))
        case Success(products) =>
          var search := CatalogSearch(query, products);
          Success(Answer(SummaryText(search), search))
  }

  /** One iteration of the product loop: the variant request and the variant loop. */
  method ProductEntry(p: Json, variants: (int, int) -> Result<Json, PrintfulError>, limitVariants: int)
    returns (r: Result<Option<ProductInfo>, string>)
    ensures r == ProductOf(p, variants, limitVariants)
  {
    if !p.JObj? {
      return Failure(NoGetMessage(p));
    }
    var id := Get(p.fields, "id");
    if !IsPyInt(id) {
      return Success(None);
    }
    var name := Or(Get(p.fields, "name"), JStr(""));
    var brand := Get(p.fields, "brand");
    var variantCount := Get(p.fields, "variant_count");
    var variantsRaw: seq<Json>;
    match variants(PyIntValue(id), limitVariants) {
      case Success(raw) => variantsRaw := ExtractData(raw);
      case Failure(ApiError(_)) => variantsRaw := [];
      case Failure(OtherError(m)) => return Failure(m);
    }
    var listed := CollectLoop(TakePrefix(variantsRaw, limitVariants), VariantOf);
    if listed.Failure? {
      return Failure(listed.error);
    }
    if !name.JStr? {
      return Failure(ValidationError("PrintfulProductInfo", "name"));
    }
    if OptionalStr(brand).None? {
      return Failure(ValidationError("PrintfulProductInfo", "brand"));
    }
    if OptionalInt(variantCount).None? {
      return Failure(ValidationError("PrintfulProductInfo", "variant_count"));
    }
    return Success(Some(ProductInfo(PyIntValue(id), name.s, OptionalStr(brand).value, OptionalInt(variantCount).value, listed.value)));
  }

  /**
   * `search_printful_catalog(...)`: the limits, the shared client, the
   * name search, then the product loop and the summary.
   */
  method SearchCatalog(slot: ClientSlot, env: map<string, string>, query: string, limitProducts: int, limitVariants: int,
                       catalog: int -> Result<Json, PrintfulError>,
                       variants: (int, int) -> Result<Json, PrintfulError>)
    returns (r: Result<Answer, ToolError>)
    modifies slot
    ensures r == CatalogAnswer(query, limitProducts, limitVariants,
                               old(slot.client) != null || ("PRINTFUL_API_KEY" in env && env["PRINTFUL_API_KEY"] != ""),
                               catalog, variants)
  {
    if !(MIN_LIMIT <= limitProducts <= MAX_LIMIT) {
      return Failure(InvalidArgument("limit_products"));
    }
    if !(MIN_LIMIT <= limitVariants <= MAX_LIMIT) {
      return Failure(InvalidArgument("limit_variants_per_product"));
    }
    var client := slot.GetClient(env);
    if client.Failure? {
      return Success(Empty(query, NOT_CONFIGURED_TEXT));
    }
    var found := SearchProductsByName(catalog(ScanLimit(limitProducts)), query, limitProducts);
    if found.Failure? {
      if found.error.ApiError? {
        return Success(Empty(query, API_ERROR_PREFIX + found.error.message));
      }
      return Failure(Uncaught(found.error.message));
    }
    var products := AssembleProducts(found.value, variants, limitVariants);
    if products.Failure? {
      return Failure(Uncaught(products.error));
    }
    var search := CatalogSearch(query, products.value);
    var text := FormatHumanReadable(search);
    return Success(Answer(text, search));
  }

  /** The found products whose id is an int, in search order. */
  function IntIdProducts(ps: seq<Json>): seq<Json> {
    if ps == [] then []
    else
      var last := ps[|ps| - 1];
      IntIdProducts(ps[..|ps| - 1]) + (if last.JObj? && IsPyInt(Get(last.fields, "id")) then [last] else [])
  }

  /**
   * When the product loop completes, it holds one entry per found product
   * whose id is an int, in search order, each that product's
   * `PrintfulProductInfo`.
   */
  lemma {:induction false} AssembledInOrder(ps: seq<Json>, variants: (int, int) -> Result<Json, PrintfulError>, limitVariants: int)
    requires Collect(ps, ProductStep(variants, limitVariants)).Success?
    ensures var products := Collect(ps, ProductStep(variants, limitVariants)).value;
            var kept := IntIdProducts(ps);
            |products| == |kept|
            && forall k :: 0 <= k < |kept| ==> ProductOf(kept[k], variants, limitVariants) == Success(Some(products[k]))
  {
    if ps != [] {
      var step := ProductStep(variants, limitVariants);
      var init := ps[..|ps| - 1];
      var last := ps[|ps| - 1];
      AssembledInOrder(init, variants, limitVariants);
      assert step(last) == ProductOf(last, variants, limitVariants);
      assert step(last).Success?;
    }
  }

  /**
   * The product loop: one entry per found product whose id is an int, in
   * search order; an exception ends it.
   */
  method AssembleProducts(productsRaw: seq<Json>, variants: (int, int) -> Result<Json, PrintfulError>, limitVariants: int)
    returns (r: Result<seq<ProductInfo>, string>)
    ensures r == Collect(productsRaw, ProductStep(variants, limitVariants))
    ensures r.Success? ==>
              |r.value| == |IntIdProducts(productsRaw)|
              && forall k :: 0 <= k < |r.value| ==>
                   ProductOf(IntIdProducts(productsRaw)[k], variants, limitVariants) == Success(Some(r.value[k]))
    ensures r.Failure? <==> exists k :: 0 <= k < |productsRaw| && ProductOf(productsRaw[k], variants, limitVariants).Failure?
  {
    var step := ProductStep(variants, limitVariants);
    CollectSucceeds(productsRaw, step);
    if Collect(productsRaw, step).Success? {
      AssembledInOrder(productsRaw, variants, limitVariants);
    }
    var products: seq<ProductInfo> := [];
    var i := 0;
    while i < |productsRaw|
      invariant 0 <= i <= |productsRaw|
      invariant Collect(productsRaw[..i], step) == Success(products)
    {
      CollectStep(productsRaw, i, step);
      var entry := ProductEntry(productsRaw[i], variants, limitVariants);
      if entry.Failure? {
        CollectFailsFrom(productsRaw, i, |productsRaw|, step);
        assert productsRaw[..|productsRaw|] == productsRaw;
        return Failure(entry.error);
      }
      if entry.value.Some? {
        products := products + [entry.value.value];
      }
      i := i + 1;
    }
    assert productsRaw[..i] == productsRaw;
    return Success(products);
  }

  // ----- what the tool promises -----

  /** Without a Printful key the tool still answers, with no products and a fixed explanation. */
  lemma UnconfiguredAnswersEmpty(query: string, limitProducts: int, limitVariants: int,
                                 catalog: int -> Result<Json, PrintfulError>,
                                 variants: (int, int) -> Result<Json, PrintfulError>)
    requires MIN_LIMIT <= limitProducts <= MAX_LIMIT && MIN_LIMIT <= limitVariants <= MAX_LIMIT
    ensures CatalogAnswer(query, limitProducts, limitVariants, false, catalog, variants)
              == Success(Answer(NOT_CONFIGURED_TEXT, CatalogSearch(query, [])))
  {
  }

  /** A Printful error during the search is reported in the text, not raised. */
  lemma SearchApiErrorAnswersEmpty(query: string, limitProducts: int, limitVariants: int, message: string,
                                   catalog: int -> Result<Json, PrintfulError>,
                                   variants: (int, int) -> Result<Json, PrintfulError>)
    requires MIN_LIMIT <= limitProducts <= MAX_LIMIT && MIN_LIMIT <= limitVariants <= MAX_LIMIT
    requires catalog(ScanLimit(limitProducts)) == Failure(ApiError(message))
    ensures CatalogAnswer(query, limitProducts, limitVariants, true, catalog, variants)
              == Success(Answer(API_ERROR_PREFIX + message, CatalogSearch(query, [])))
  {
  }

  /**
   * Every reported product is a catalogue product whose name contains the
   * query, with an int id; there are at most `limit_products` of them, and
   * each has at most `limit_variants_per_product` variants.
   */
  lemma ReportedProductsBounded(query: string, limitProducts: int, limitVariants: int,
                                catalog: int -> Result<Json, PrintfulError>,
                                variants: (int, int) -> Result<Json, PrintfulError>)
    requires CatalogAnswer(query, limitProducts, limitVariants, true, catalog, variants).Success?
    ensures var products := CatalogAnswer(query, limitProducts, limitVariants, true, catalog, variants).value.structured.products;
            |products| <= limitProducts
            && (forall k :: 0 <= k < |products| ==> |products[k].variants| <= limitVariants)
            && (forall k :: 0 <= k < |products| ==>
                  exists p :: p in ExtractData(catalog(ScanLimit(limitProducts)).value) && p.JObj?
                              && NameMatches(p, Lower(query)) && IsPyInt(Get(p.fields, "id"))
                              && products[k].productId == PyIntValue(Get(p.fields, "id")))
  {
    var reply := catalog(ScanLimit(limitProducts));
    var step := ProductStep(variants, limitVariants);
    var found := SearchProductsByName(reply, query, limitProducts);
    if found.Success? && Collect(found.value, step).Success? {
      var products := Collect(found.value, step).value;
      CollectLength(found.value, step);
      forall k | 0 <= k < |products|
        ensures |products[k].variants| <= limitVariants
        ensures exists p :: p in ExtractData(reply.value) && p.JObj?
                            && NameMatches(p, Lower(query)) && IsPyInt(Get(p.fields, "id"))
                            && products[k].productId == PyIntValue(Get(p.fields, "id"))
      {
        CollectedFrom(found.value, step, products[k]);
        var j :| 0 <= j < |found.value| && step(found.value[j]) == Success(Some(products[k]));
        assert found.value[j] in found.value;
      }
    }
  }

  /**
   * The reported products follow the name search: one per found product
   * whose id is an int, in the order the search found them, each built
   * from that product and its variants.
   */
  lemma ReportedInSearchOrder(query: string, limitProducts: int, limitVariants: int,
                              catalog: int -> Result<Json, PrintfulError>,
                              variants: (int, int) -> Result<Json, PrintfulError>)
    requires CatalogAnswer(query, limitProducts, limitVariants, true, catalog, variants).Success?
    ensures var found := SearchProductsByName(catalog(ScanLimit(limitProducts)), query, limitProducts);
            var products := CatalogAnswer(query, limitProducts, limitVariants, true, catalog, variants).value.structured.products;
            found.Success? ==>
              |products| == |IntIdProducts(found.value)|
              && forall k :: 0 <= k < |products| ==>
                   ProductOf(IntIdProducts(found.value)[k], variants, limitVariants) == Success(Some(products[k]))
  {
    var found := SearchProductsByName(catalog(ScanLimit(limitProducts)), query, limitProducts);
    if found.Success? {
      AssembledInOrder(found.value, variants, limitVariants);
    }
  }

  /** A product whose variant request fails with a Printful error is still reported, with no variants. */
  lemma VariantApiErrorKeepsProduct(p: Json, variants: (int, int) -> Result<Json, PrintfulError>, limitVariants: int, message: string)
    requires p.JObj? && IsPyInt(Get(p.fields, "id"))
    requires variants(PyIntValue(Get(p.fields, "id")), limitVariants) == Failure(ApiError(message))
    requires ProductOf(p, variants, limitVariants).Success?
    ensures ProductOf(p, variants, limitVariants).value.Some?
    ensures ProductOf(p, variants, limitVariants).value.value.variants == []
  {
    var none: seq<Json> := [];
    assert TakePrefix(none, limitVariants) == [];
  }

  /** A product whose id is not an int is left out without a variant request. */
  lemma NonIntIdSkipped(p: Json, variants: (int, int) -> Result<Json, PrintfulError>, limitVariants: int)
    requires p.JObj? && !IsPyInt(Get(p.fields, "id"))
    ensures ProductOf(p, variants, limitVariants) == Success(None)
  {
  }
}
