/**
 * The Printful catalogue client of the supplier service
 * (supplier-pricing-mcp/tools/printful_client.py): construction from the
 * environment, the shared lazily built instance, unwrapping of list
 * payloads, the name search over a fetched catalogue page and the minimum
 * price of a variant. Every HTTP reply is a parameter.
 */
module PrintfulClient {
  import opened Wrappers
  import opened Json
  import opened PyText
  import opened PyValue
  import opened Loops

  /**
   * An exception leaving the client: `PrintfulApiError`, which callers
   * catch, or any other exception (AttributeError, TypeError, a reply that
   * is not JSON), which they do not.
   */
  datatype PrintfulError = ApiError(message: string) | OtherError(message: string)

  const DEFAULT_BASE_URL: string := "https://api.printful.com"
  const MISSING_KEY_MESSAGE: string :=
    "PRINTFUL_API_KEY is required to query Printful API. Создай приватный token в Printful и задай его в окружении."

  /** The client's settings; the dataclass is never changed after construction. */
  class Client {
    const apiKey: string
    const baseUrl: string
    const defaultCurrency: string
    const sellingRegionName: Option<string>

    constructor(apiKey: string, baseUrl: string, defaultCurrency: string, sellingRegionName: Option<string>)
      ensures this.apiKey == apiKey && this.baseUrl == baseUrl
      ensures this.defaultCurrency == defaultCurrency && this.sellingRegionName == sellingRegionName
    {
      this.apiKey := apiKey;
      this.baseUrl := baseUrl;
      this.defaultCurrency := defaultCurrency;
      this.sellingRegionName := sellingRegionName;
    }
  }

  /** `s.rstrip("/")` */
  function RStripSlash(s: string): (r: string)
    ensures |r| <= |s| && r == s[..|r|]
    ensures forall k :: |r| <= k < |s| ==> s[k] == '/'
    ensures r == [] || r[|r| - 1] != '/'
  {
    if s != [] && s[|s| - 1] == '/' then RStripSlash(s[..|s| - 1]) else s
  }

  /** `os.getenv(name, default)` */
  function EnvOr(env: map<string, string>, name: string, default: string): string {
    if name in env then env[name] else default
  }

  /**
   * `PrintfulClient.from_env()`: needs a non-empty PRINTFUL_API_KEY; the base
   * URL loses its trailing slashes and an empty PRINTFUL_REGION counts as unset.
   */
  method FromEnv(env: map<string, string>) returns (r: Result<Client, string>)
    ensures r.Failure? <==> !("PRINTFUL_API_KEY" in env && env["PRINTFUL_API_KEY"] != "")
    ensures r.Failure? ==> r.error == MISSING_KEY_MESSAGE
    ensures r.Success? ==>
              fresh(r.value)
              && r.value.apiKey == env["PRINTFUL_API_KEY"]
              && r.value.baseUrl == RStripSlash(EnvOr(env, "PRINTFUL_BASE_URL", DEFAULT_BASE_URL))
              && r.value.defaultCurrency == EnvOr(env, "PRINTFUL_CURRENCY", "USD")
              && r.value.sellingRegionName ==
                   (if "PRINTFUL_REGION" in env && env["PRINTFUL_REGION"] != "" then Some(env["PRINTFUL_REGION"]) else None)
  {
    if !("PRINTFUL_API_KEY" in env) || env["PRINTFUL_API_KEY"] == "" {
      return Failure(MISSING_KEY_MESSAGE);
    }
    var baseUrl := RStripSlash(EnvOr(env, "PRINTFUL_BASE_URL", DEFAULT_BASE_URL));
    var currency := EnvOr(env, "PRINTFUL_CURRENCY", "USD");
    var region := EnvOr(env, "PRINTFUL_REGION", "");
    var client := new Client(env["PRINTFUL_API_KEY"], baseUrl, currency, if region != "" then Some(region) else None);
    return Success(client);
  }

  /** The module-level `_client`: empty until the first successful `get_printful_client()`. */
  class ClientSlot {
    var client: Client?

    constructor()
      ensures client == null
    {
      client := null;
    }

    /**
     * `get_printful_client()`: builds the client on the first call that
     * succeeds and hands out that same instance from then on.
     */
    method GetClient(env: map<string, string>) returns (r: Result<Client, string>)
      modifies this
      ensures old(client) != null ==> r == Success(old(client)) && client == old(client)
      ensures old(client) == null ==>
                (r.Success? <==> "PRINTFUL_API_KEY" in env && env["PRINTFUL_API_KEY"] != "")
                && (r.Success? ==> fresh(r.value) && client == r.value)
                && (r.Failure? ==> client == null && r.error == MISSING_KEY_MESSAGE)
    {
      if client == null {
        var built := FromEnv(env);
        if built.Failure? {
          return Failure(built.error);
        }
        client := built.value;
      }
      return Success(client);
    }
  }

  /** Two calls in a row return the very same instance. */
  method GetClientTwice(slot: ClientSlot, env1: map<string, string>, env2: map<string, string>)
    returns (first: Result<Client, string>, second: Result<Client, string>)
    modifies slot
    ensures first.Success? ==> second == first
  {
    first := slot.GetClient(env1);
    second := slot.GetClient(env2);
  }

  /**
   * `PrintfulClient._extract_data(obj)`: a list as it is, the "data" entry
   * of a dict when that is a list, a dict "data" entry as a one-element
   * list, and nothing otherwise.
   */
  function ExtractData(obj: Json): (r: seq<Json>)
    ensures obj.JArr? ==> r == obj.elems
    ensures obj.JObj? && HasKey(obj.fields, "data") && Lookup(obj.fields, "data").value.JArr? ==>
              r == Lookup(obj.fields, "data").value.elems
    ensures obj.JObj? && HasKey(obj.fields, "data") && Lookup(obj.fields, "data").value.JObj? ==>
              r == [Lookup(obj.fields, "data").value]
    ensures !obj.JArr? && !(obj.JObj? && HasKey(obj.fields, "data")
                            && (Lookup(obj.fields, "data").value.JArr? || Lookup(obj.fields, "data").value.JObj?)) ==>
              r == []
  {
    if obj.JArr? then obj.elems
    else if obj.JObj? && HasKey(obj.fields, "data") then
      var data := Lookup(obj.fields, "data").value;
      if data.JArr? then data.elems
      else if data.JObj? then [data]
      else []
    else []
  }

  /** A paginated reply yields its page. */
  lemma ExtractDataOfPage(page: seq<Json>)
    ensures ExtractData(JObj([("data", JArr(page)), ("paging", JObj([]))])) == page
  {
    var fs := [("data", JArr(page)), ("paging", JObj([]))];
    assert fs[0].0 == "data";
  }

  /** `q in str(p.get("name", "")).lower()` for a dict `p`. */
  predicate NameMatches(p: Json, q: string)
    requires p.JObj?
  {
    Contains(Lower(Str(GetOr(p.fields, "name", JStr("")))), q)
  }

  predicate AllDicts(xs: seq<Json>) {
    forall k :: 0 <= k < |xs| ==> xs[k].JObj?
  }

  /**
   * `[p for p in products if q in str(p.get("name", "")).lower()]`; the
   * first element that is not a dict makes `.get` raise.
   */
  function FilterByName(products: seq<Json>, q: string): (r: Result<seq<Json>, PrintfulError>)
    ensures r.Success? <==> AllDicts(products)
    ensures r.Success? ==> forall p :: p in r.value ==> p in products && p.JObj? && NameMatches(p, q)
    ensures r.Success? ==> forall p :: p in products && NameMatches(p, q) ==> p in r.value
    ensures r.Failure? ==> r.error.OtherError?
  {
    if products == [] then Success([])
    else
      var p := products[0];
      if !p.JObj? then Failure(OtherError(NoGetMessage(p)))
      else
        match FilterByName(products[1..], q)
        case Failure(e) => Failure(e)
        case Success(rest) =>
          assert products == [p] + products[1..];
          Success(if NameMatches(p, q) then [p] + rest else rest)
  }

  /** The filter keeps catalogue order: filtering a concatenation concatenates the filtered parts. */
  lemma {:induction false} FilterByNameAppend(xs: seq<Json>, ys: seq<Json>, q: string)
    requires AllDicts(xs) && AllDicts(ys)
    ensures AllDicts(xs + ys)
    ensures FilterByName(xs + ys, q).value == FilterByName(xs, q).value + FilterByName(ys, q).value
  {
    if xs == [] {
      assert xs + ys == ys;
    } else {
      assert (xs + ys)[1..] == xs[1..] + ys;
      FilterByNameAppend(xs[1..], ys, q);
    }
  }

  /** `min(a, b)` on integers. */
  function Minimum(a: int, b: int): int {
    if a <= b then a else b
  }

  /**
   * `search_products_by_name(query, limit_products, scan_limit)` over the
   * reply to the catalogue request: the matching products, in catalogue
   * order, cut to `limitProducts` (Python slice semantics).
   */
  function SearchProductsByName(reply: Result<Json, PrintfulError>, query: string, limitProducts: int)
    : (r: Result<seq<Json>, PrintfulError>)
    ensures reply.Failure? ==> r == Failure(reply.error)
    ensures reply.Success? ==> (r.Success? <==> AllDicts(ExtractData(reply.value)))
    ensures r.Success? && limitProducts >= 0 ==> |r.value| <= limitProducts
    ensures r.Success? ==> forall p :: p in r.value ==>
              p in ExtractData(reply.value) && p.JObj? && NameMatches(p, Lower(query))
    ensures r.Success? ==> r.value <= FilterByName(ExtractData(reply.value), Lower(query)).value
    ensures r.Success? && limitProducts >= 0 ==>
              |r.value| == Minimum(limitProducts, |FilterByName(ExtractData(reply.value), Lower(query)).value|)
  {
    match reply
    case Failure(e) => Failure(e)
    case Success(raw) =>
      match FilterByName(ExtractData(raw), Lower(query))
      case Failure(e) => Failure(e)
      case Success(filtered) => Success(TakePrefix(filtered, limitProducts))
  }

  /** With room for them, every matching product is returned. */
  lemma SearchFindsAllWithinLimit(reply: Result<Json, PrintfulError>, query: string, limitProducts: int, p: Json)
    requires reply.Success? && AllDicts(ExtractData(reply.value))
    requires |FilterByName(ExtractData(reply.value), Lower(query)).value| <= limitProducts
    requires p in ExtractData(reply.value) && NameMatches(p, Lower(query))
    ensures p in SearchProductsByName(reply, query, limitProducts).value
  {
  }

  // ----- get_variant_price -----

  /** The exception that iterating `x` and calling `.get` on its elements raises, for a truthy non-list `x`. */
  function IterationError(x: Json): string {
    if x.JObj? || x.JStr? then NoGetMessage(JStr(""))
    else "TypeError(\"'" + TypeName(x) + "' object is not iterable\")"
  }

  /** `for e in x:` where `x` is `d.get(key, []) or []`: the elements of a list; anything else raises. */
  function EntriesOf(x: Json): Result<seq<Json>, string> {
    if x.JArr? then Success(x.elems) else Failure(IterationError(x))
  }

  /**
   * What one technique or placement contributes: its `discounted_price` if
   * truthy, else its `price`; nothing when that is `None` or when `float()`
   * refuses it. An entry that is not a dict makes `.get` raise.
   */
  function EntryPrice(e: Json): (r: Result<Option<real>, string>)
    ensures r.Failure? <==> !e.JObj?
    ensures e.JObj? && Truthy(Get(e.fields, "discounted_price")) ==>
              r == Success(ToFloat(Get(e.fields, "discounted_price")))
    ensures e.JObj? && !Truthy(Get(e.fields, "discounted_price")) && Get(e.fields, "price").JNull? ==>
              r == Success(None)
    ensures e.JObj? && !Truthy(Get(e.fields, "discounted_price")) && !Get(e.fields, "price").JNull? ==>
              r == Success(ToFloat(Get(e.fields, "price")))
  {
    if !e.JObj? then Failure(NoGetMessage(e))
    else
      var val := Or(Get(e.fields, "discounted_price"), Get(e.fields, "price"));
      if val.JNull? then Success(None) else Success(ToFloat(val))
  }

  /**
   * The prices the loop over `entries` appends, in order; the first entry
   * that raises stops it. Every price in the result comes from an entry,
   * and every entry's price is in the result.
   */
  function EntryPrices(entries: seq<Json>): (r: Result<seq<real>, string>)
    ensures r.Success? <==> AllDicts(entries)
    ensures r.Success? ==> forall p :: p in r.value ==>
              exists k :: 0 <= k < |entries| && EntryPrice(entries[k]) == Success(Some(p))
    ensures r.Success? ==> forall k, p :: 0 <= k < |entries| && EntryPrice(entries[k]) == Success(Some(p)) ==>
              p in r.value
  {
    CollectSucceeds(entries, EntryPrice);
    var r := Collect(entries, EntryPrice);
    assert r.Success? ==> forall k, p :: 0 <= k < |entries| && EntryPrice(entries[k]) == Success(Some(p)) ==>
             p in r.value by {
      if r.Success? {
        forall k, p | 0 <= k < |entries| && EntryPrice(entries[k]) == Success(Some(p))
          ensures p in r.value
        {
          CollectedAll(entries, EntryPrice, k, p);
        }
      }
    }
    assert r.Success? ==> forall p :: p in r.value ==>
             exists k :: 0 <= k < |entries| && EntryPrice(entries[k]) == Success(Some(p)) by {
      if r.Success? {
        forall p | p in r.value
          ensures exists k :: 0 <= k < |entries| && EntryPrice(entries[k]) == Success(Some(p))
        {
          CollectedFrom(entries, EntryPrice, p);
        }
      }
    }
    r
  }

  /** `min(xs)` */
  function Min(xs: seq<real>): (m: real)
    requires xs != []
    ensures m in xs
    ensures forall k :: 0 <= k < |xs| ==> m <= xs[k]
  {
    if |xs| == 1 then xs[0]
    else
      var m := Min(xs[1..]);
      assert forall k :: 1 <= k < |xs| ==> xs[k] == xs[1..][k - 1];
      if xs[0] <= m then xs[0] else m
  }

  /** The prices of both loops of `get_variant_price`, when neither raises. */
  function CollectedPrices(data: Fields): Result<seq<real>, string> {
    match EntriesOf(Or(GetOr(data, "techniques", JArr([])), JArr([])))
    case Failure(e) => Failure(e)
    case Success(techniques) =>
      match EntryPrices(techniques)
      case Failure(e) => Failure(e)
      case Success(techniquePrices) =>
        var product := Or(Get(data, "product"), JObj([]));
        if !product.JObj? then Failure(NoGetMessage(product))
        else
          match EntriesOf(Or(GetOr(product.fields, "placements", JArr([])), JArr([])))
          case Failure(e) => Failure(e)
          case Success(placements) =>
            match EntryPrices(placements)
            case Failure(e) => Failure(e)
            case Success(placementPrices) => Success(techniquePrices + placementPrices)
  }

  /** The currency of a prices reply: `data.currency`, else the client's default, else "USD". */
  function PriceCurrency(data: Fields, defaultCurrency: string): (c: Json)
    ensures Truthy(c)
    ensures Truthy(Get(data, "currency")) ==> c == Get(data, "currency")
    ensures !Truthy(Get(data, "currency")) && defaultCurrency != "" ==> c == JStr(defaultCurrency)
    ensures !Truthy(Get(data, "currency")) && defaultCurrency == "" ==> c == JStr("USD")
  {
    Or(Get(data, "currency"), Or(JStr(defaultCurrency), JStr("USD")))
  }

  function UnexpectedPayloadMessage(variantId: int, raw: Json): string {
    "Unexpected prices payload for variant " + IntText(variantId) + ": " + ReprValue(raw)
  }

  function NoPriceMessage(variantId: int): string {
    "No price info returned for variant_id=" + IntText(variantId)
  }

  /** The "data" entry of a prices reply, `None` when the reply is not a dict. */
  function PricesData(raw: Json): Json {
    if raw.JObj? then Get(raw.fields, "data") else JNull
  }

  /**
   * What `get_variant_price(variant_id)` returns for the prices reply `raw`:
   * the lowest collected price and the reply's currency.
   */
  function VariantPrice(raw: Json, variantId: int, defaultCurrency: string): (r: Result<(real, Json), PrintfulError>)
    ensures !PricesData(raw).JObj? ==> r == Failure(ApiError(UnexpectedPayloadMessage(variantId, raw)))
    ensures PricesData(raw).JObj? && CollectedPrices(PricesData(raw).fields) == Success([]) ==>
              r == Failure(ApiError(NoPriceMessage(variantId)))
    ensures PricesData(raw).JObj? && CollectedPrices(PricesData(raw).fields).Failure? ==>
              r == Failure(OtherError(CollectedPrices(PricesData(raw).fields).error))
    ensures r.Success? ==>
              var prices := CollectedPrices(PricesData(raw).fields).value;
              r.value.0 in prices && (forall k :: 0 <= k < |prices| ==> r.value.0 <= prices[k])
              && r.value.1 == PriceCurrency(PricesData(raw).fields, defaultCurrency)
  {
    var data := PricesData(raw);
    if !data.JObj? then Failure(ApiError(UnexpectedPayloadMessage(variantId, raw)))
    else
      match CollectedPrices(data.fields)
      case Failure(e) => Failure(OtherError(e))
      case Success(prices) =>
        if prices == [] then Failure(ApiError(NoPriceMessage(variantId)))
        else Success((Min(prices), PriceCurrency(data.fields, defaultCurrency)))
  }

  /** A truthy discounted price is the one that counts, whatever the list price. */
  lemma DiscountedPriceWins()
    ensures EntryPrice(JObj([("price", JFloat(12.5)), ("discounted_price", JFloat(9.75))])) == Success(Some(9.75))
  {
    var entry := [("price", JFloat(12.5)), ("discounted_price", JFloat(9.75))];
    assert entry[1].0 == "discounted_price" && entry[0].0 != "discounted_price";
  }

  /** An entry without either price contributes nothing. */
  lemma EntryWithoutPriceSkipped()
    ensures EntryPrice(JObj([("discounted_price", JInt(0))])) == Success(None)
  {
    var entry := [("discounted_price", JInt(0))];
    assert entry[0].0 == "discounted_price";
    assert !HasKey(entry, "price");
  }

  /**
   * One of the two loops of `get_variant_price`: appends the price of each
   * entry in turn and raises on the first entry that is not a dict.
   */
  method CollectEntryPrices(entries: seq<Json>) returns (r: Result<seq<real>, string>)
    ensures r == EntryPrices(entries)
  {
    var prices: seq<real> := [];
    var i := 0;
    while i < |entries|
      invariant 0 <= i <= |entries|
      invariant Collect(entries[..i], EntryPrice) == Success(prices)
    {
      var entry := entries[i];
      CollectStep(entries, i, EntryPrice);
      if !entry.JObj? {
        CollectFailsFrom(entries, i, |entries|, EntryPrice);
        assert entries[..|entries|] == entries;
        return Failure(NoGetMessage(entry));
      }
      var val := Or(Get(entry.fields, "discounted_price"), Get(entry.fields, "price"));
      if !val.JNull? {
        match ToFloat(val) {
          case Some(p) => prices := prices + [p];
          case None =>
        }
      }
      i := i + 1;
    }
    assert entries[..i] == entries;
    return Success(prices);
  }

  /**
   * `PrintfulClient.get_variant_price(variant_id)` once the prices reply
   * `raw` has arrived: collects the price of every technique, then of every
   * placement of the product, and returns the lowest.
   */
  method GetVariantPrice(client: Client, variantId: int, raw: Json) returns (r: Result<(real, Json), PrintfulError>)
    ensures r == VariantPrice(raw, variantId, client.defaultCurrency)
  {
    var data := if raw.JObj? then Get(raw.fields, "data") else JNull;
    if !data.JObj? {
      return Failure(ApiError(UnexpectedPayloadMessage(variantId, raw)));
    }
    var currency := Or(Get(data.fields, "currency"), Or(JStr(client.defaultCurrency), JStr("USD")));

    var techniques := Or(GetOr(data.fields, "techniques", JArr([])), JArr([]));
    if !techniques.JArr? {
      return Failure(OtherError(IterationError(techniques)));
    }
    var techniquePrices := CollectEntryPrices(techniques.elems);
    if techniquePrices.Failure? {
      return Failure(OtherError(techniquePrices.error));
    }

    var product := Or(Get(data.fields, "product"), JObj([]));
    if !product.JObj? {
      return Failure(OtherError(NoGetMessage(product)));
    }
    var placements := Or(GetOr(product.fields, "placements", JArr([])), JArr([]));
    if !placements.JArr? {
      return Failure(OtherError(IterationError(placements)));
    }
    var placementPrices := CollectEntryPrices(placements.elems);
    if placementPrices.Failure? {
      return Failure(OtherError(placementPrices.error));
    }

    var prices := techniquePrices.value + placementPrices.value;
    if prices == [] {
      return Failure(ApiError(NoPriceMessage(variantId)));
    }
    return Success((Min(prices), currency));
  }
}
