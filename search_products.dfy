/**
 * The `search_products` tool of the supplier service
 * (supplier-pricing-mcp/tools/search_products.py): validate the query, take
 * the fetched catalogue, keep the products whose title contains the query,
 * sort them by price and keep the first `limit`. The catalogue request is a
 * parameter: its outcome is given as a `CatalogReply`.
 */
module SearchProducts {
  import opened Wrappers
  import opened Json
  import opened PyText
  import opened PyValue
  import opened Mcp
  import opened Loops
  import opened SupplierModels
  import SupplierUtils

  const EMPTY_QUERY_MESSAGE: string := "Параметр 'query' не может быть пустым."
  const CATALOG_FAILED_PREFIX: string := "Не удалось получить каталог товаров.\n\n"
  const UNEXPECTED_PREFIX: string := "Неожиданная ошибка при обращении к каталогу: "
  const NOT_FOUND_TEXT: string := "По заданному запросу не найдено ни одного товара."
  const COUNT_PREFIX: string := "Найдено товаров: "
  const MIN_LIMIT: int := 1
  const MAX_LIMIT: int := 50

  /** What the catalogue request produced. */
  datatype CatalogReply =
    | StatusError(status: int, body: string)  // the server answered with an error status
    | FetchFailed(message: string)            // any other exception while fetching or decoding
    | Payload(data: Json)                     // the decoded body

  /** The tool's result: the text block and the structured content. */
  datatype SearchResult = SearchResult(query: string, limit: int, currency: string, items: seq<ProductSummary>, text: string)

  /** The stripped title of a catalogue product, `str(product.get("title", "")).strip()`. */
  function TitleOf(fs: Fields): string {
    Strip(Str(GetOr(fs, "title", JStr(""))))
  }

  /**
   * What one catalogue element adds to the matches: nothing when its title
   * does not contain `needle`, else its summary. `.get` on a non-dict,
   * `float()` on a bad price and the ProductSummary constraints raise.
   */
  function MatchOf(needle: string, currency: string, product: Json): (r: Result<Option<ProductSummary>, string>)
    ensures r.Failure? ==> !product.JObj? || Contains(Lower(TitleOf(product.fields)), needle)
    ensures r.Success? ==> product.JObj? && (r.value.Some? <==> Contains(Lower(TitleOf(product.fields)), needle))
    ensures r.Success? && r.value.Some? ==>
              r.value.value.price > 0.0 && r.value.value.currency == currency
              && r.value.value.productId == Str(Get(product.fields, "id"))
              && (needle != [] ==> r.value.value.title == TitleOf(product.fields))
              && OptionalUrl(r.value.value.imageUrl)
  {
    if !product.JObj? then Failure(NoGetMessage(product))
    else
      var title := TitleOf(product.fields);
      if !Contains(Lower(title), needle) then Success(None)
      else
        assert needle != [] ==> title != [] by {
          if needle != [] {
            var i :| 0 <= i <= |Lower(title)| - |needle| && OccursAt(Lower(title), needle, i);
          }
        }
        match KeptOf(currency, product.fields)
        case Failure(e) => Failure(e)
        case Success(summary) => Success(Some(summary))
  }

  /**
   * The summary of a catalogue dict whose title matched: `float()` on the
   * price, then the ProductSummary constraints, where a truthy image must
   * be a string holding a URL.
   */
  function KeptOf(currency: string, fs: Fields): (r: Result<ProductSummary, string>)
    ensures r.Success? ==>
              r.value.price > 0.0 && r.value.currency == currency
              && r.value.productId == Str(Get(fs, "id"))
              && r.value.title == (if TitleOf(fs) != "" then TitleOf(fs) else "Product " + Str(Get(fs, "id")))
              && OptionalUrl(r.value.imageUrl)
  {
    var id := Str(Get(fs, "id"));
    var title := TitleOf(fs);
    match ToFloat(GetOr(fs, "price", JFloat(0.0)))
    case None => Failure("ValueError: float() cannot convert the price")
    case Some(price) => SummaryOf(id, if title != "" then title else "Product " + id, price, currency, Get(fs, "image"))
  }

  /**
   * `ProductSummary(..., image_url=image or None)`: the price must be
   * positive, and a truthy image must be a string holding a URL.
   */
  function SummaryOf(id: string, title: string, price: real, currency: string, image: Json): (r: Result<ProductSummary, string>)
    ensures r.Success? ==> r.value.productId == id && r.value.title == title && r.value.price == price
                           && r.value.currency == currency && r.value.price > 0.0 && OptionalUrl(r.value.imageUrl)
    ensures r.Success? <==> price > 0.0 && (!Truthy(image) || (image.JStr? && IsHttpUrl(image.s)))
  {
    var link := Or(image, JNull);
    if !(link.JNull? || link.JStr?) then Failure("ValidationError: image_url must be a URL")
    else
      match NewProductSummary(id, title, price, currency, if link.JStr? then Some(link.s) else None)
      case Failure(fields) => Failure("ValidationError: " + Join(", ", fields))
      case Success(summary) => Success(summary)
  }

  /** A matching product whose image is a non-empty string that is not a URL makes the loop raise. */
  lemma NonUrlImageFails(needle: string, currency: string, product: Json)
    requires product.JObj? && Contains(Lower(TitleOf(product.fields)), needle)
    requires Get(product.fields, "image").JStr? && Get(product.fields, "image").s != ""
    requires !IsHttpUrl(Get(product.fields, "image").s)
    ensures MatchOf(needle, currency, product).Failure?
  {
    var fs := product.fields;
    var image := Get(fs, "image");
    var id := Str(Get(fs, "id"));
    var title := if TitleOf(fs) != "" then TitleOf(fs) else "Product " + id;
    match ToFloat(GetOr(fs, "price", JFloat(0.0)))
    case None =>
    case Some(price) =>
      assert KeptOf(currency, fs) == SummaryOf(id, title, price, currency, image);
      assert Truthy(image);
  }

  function MatchStep(needle: string, currency: string): Json -> Result<Option<ProductSummary>, string> {
    product => MatchOf(needle, currency, product)
  }

  // ----- sorting by price -----

  predicate SortedByPrice(s: seq<ProductSummary>) {
    forall i, j :: 0 <= i < j < |s| ==> s[i].price <= s[j].price
  }

  predicate PricedAtLeast(s: seq<ProductSummary>, p: real) {
    forall k :: 0 <= k < |s| ==> p <= s[k].price
  }

  /** Insert `x` after every leading element whose price is at most its own. */
  function InsertByPrice(x: ProductSummary, s: seq<ProductSummary>): seq<ProductSummary> {
    if s == [] then [x]
    else if s[0].price <= x.price then [s[0]] + InsertByPrice(x, s[1..])
    else [x] + s
  }

  /** `matches.sort(key=lambda p: p.price)`: a stable sort by price. */
  function SortByPrice(xs: seq<ProductSummary>): seq<ProductSummary> {
    if xs == [] then []
    else InsertByPrice(xs[|xs| - 1], SortByPrice(xs[..|xs| - 1]))
  }

  lemma {:induction false} InsertPermutes(x: ProductSummary, s: seq<ProductSummary>)
    ensures multiset(InsertByPrice(x, s)) == multiset(s) + multiset{x}
    ensures |InsertByPrice(x, s)| == |s| + 1
  {
    if s != [] {
      assert s == [s[0]] + s[1..];
      if s[0].price <= x.price {
        InsertPermutes(x, s[1..]);
      }
    }
  }

  lemma {:induction false} InsertAbove(x: ProductSummary, s: seq<ProductSummary>, p: real)
    requires PricedAtLeast(s, p) && p <= x.price
    ensures PricedAtLeast(InsertByPrice(x, s), p)
  {
    if s != [] && s[0].price <= x.price {
      InsertAbove(x, s[1..], p);
      var rest := InsertByPrice(x, s[1..]);
      assert forall k :: 0 < k < |[s[0]] + rest| ==> ([s[0]] + rest)[k] == rest[k - 1];
    }
  }

  lemma SortedTail(s: seq<ProductSummary>)
    requires SortedByPrice(s) && s != []
    ensures SortedByPrice(s[1..])
  {
    assert forall k :: 0 <= k < |s[1..]| ==> s[1..][k] == s[k + 1];
  }

  lemma SortedCons(a: ProductSummary, s: seq<ProductSummary>)
    requires SortedByPrice(s) && PricedAtLeast(s, a.price)
    ensures SortedByPrice([a] + s)
  {
    assert forall k :: 0 < k < |[a] + s| ==> ([a] + s)[k] == s[k - 1];
  }

  lemma {:induction false} InsertSorted(x: ProductSummary, s: seq<ProductSummary>)
    requires SortedByPrice(s)
    ensures SortedByPrice(InsertByPrice(x, s))
  {
    if s == [] {
    } else if s[0].price <= x.price {
      SortedTail(s);
      assert PricedAtLeast(s[1..], s[0].price) by {
        assert forall k :: 0 <= k < |s[1..]| ==> s[1..][k] == s[k + 1];
      }
      InsertSorted(x, s[1..]);
      InsertAbove(x, s[1..], s[0].price);
      SortedCons(s[0], InsertByPrice(x, s[1..]));
    } else {
      SortedCons(x, s);
    }
  }

  /** The sort returns the same products, ordered by non-decreasing price. */
  lemma SortSortsAndPermutes(xs: seq<ProductSummary>)
    ensures SortedByPrice(SortByPrice(xs))
    ensures multiset(SortByPrice(xs)) == multiset(xs)
    ensures |SortByPrice(xs)| == |xs|
  {
    SortSorts(xs);
    SortPermutes(xs);
  }

  lemma {:induction false} SortSorts(xs: seq<ProductSummary>)
    ensures SortedByPrice(SortByPrice(xs))
  {
    if xs != [] {
      var init := xs[..|xs| - 1];
      SortSorts(init);
      InsertSorted(xs[|xs| - 1], SortByPrice(init));
    }
  }

  lemma {:induction false} SortPermutes(xs: seq<ProductSummary>)
    ensures multiset(SortByPrice(xs)) == multiset(xs)
    ensures |SortByPrice(xs)| == |xs|
  {
    if xs != [] {
      var init := xs[..|xs| - 1];
      var x := xs[|xs| - 1];
      var sorted := SortByPrice(init);
      assert SortByPrice(xs) == InsertByPrice(x, sorted);
      SortPermutes(init);
      InsertPermutes(x, sorted);
      assert multiset(xs) == multiset(init) + multiset{x} by {
        assert xs == init + [x];
      }
    }
  }

  /** The products of `s` priced exactly `p`, in order. */
  function PricedAt(s: seq<ProductSummary>, p: real): seq<ProductSummary> {
    if s == [] then []
    else (if s[0].price == p then [s[0]] else []) + PricedAt(s[1..], p)
  }

  lemma {:induction false} PricedAtAppend(a: seq<ProductSummary>, b: seq<ProductSummary>, p: real)
    ensures PricedAt(a + b, p) == PricedAt(a, p) + PricedAt(b, p)
  {
    if a == [] {
      assert a + b == b;
    } else {
      assert (a + b)[1..] == a[1..] + b;
      PricedAtAppend(a[1..], b, p);
    }
  }

  /** Nothing in a sorted list that starts above `p` is priced `p`. */
  lemma {:induction false} PricedAtAbove(s: seq<ProductSummary>, p: real)
    requires SortedByPrice(s) && s != [] && s[0].price > p
    ensures PricedAt(s, p) == []
  {
    if |s| > 1 {
      assert s[1].price >= s[0].price;
      SortedTail(s);
      PricedAtAbove(s[1..], p);
    }
  }

  /** Inserting `x` puts it after every product of equal price already there. */
  lemma {:induction false} InsertKeepsTies(x: ProductSummary, s: seq<ProductSummary>, p: real)
    requires SortedByPrice(s)
    ensures PricedAt(InsertByPrice(x, s), p) == PricedAt(s, p) + (if x.price == p then [x] else [])
  {
    if s == [] {
    } else if s[0].price <= x.price {
      SortedTail(s);
      InsertKeepsTies(x, s[1..], p);
      var rest := InsertByPrice(x, s[1..]);
      assert ([s[0]] + rest)[1..] == rest;
    } else {
      assert ([x] + s)[1..] == s;
      if x.price == p {
        PricedAtAbove(s, p);
      }
    }
  }

  /** The sort is stable: products of equal price keep their catalogue order. */
  lemma {:induction false} SortIsStable(xs: seq<ProductSummary>, p: real)
    ensures PricedAt(SortByPrice(xs), p) == PricedAt(xs, p)
  {
    if xs != [] {
      var init := xs[..|xs| - 1];
      var x := xs[|xs| - 1];
      var tie := if x.price == p then [x] else [];
      assert SortByPrice(xs) == InsertByPrice(x, SortByPrice(init));
      SortSortsAndPermutes(init);
      InsertKeepsTies(x, SortByPrice(init), p);
      SortIsStable(init, p);
      assert PricedAt(SortByPrice(xs), p) == PricedAt(init, p) + tie;
      assert PricedAt([x], p) == tie by {
        assert [x][1..] == [];
      }
      PricedAtAppend(init, [x], p);
      assert xs == init + [x];
    }
  }

  // ----- the human-readable text -----

  function ItemLine(item: ProductSummary): string {
    "- " + item.title + " — " + FloatText(item.price) + " " + item.currency
  }

  /** The text block: a count and one line per product, or the fixed "not found" sentence. */
  function ResultText(items: seq<ProductSummary>): string {
    if items == [] then NOT_FOUND_TEXT
    else COUNT_PREFIX + IntText(|items|) + "\n\n" + Join("\n", seq(|items|, k requires 0 <= k < |items| => ItemLine(items[k])))
  }

  /** The matches of a catalogue that is a list, before sorting. */
  function Matches(catalog: seq<Json>, query: string, currency: string): Result<seq<ProductSummary>, string> {
    Collect(catalog, MatchStep(Lower(Strip(query)), currency))
  }

  /** The matches, sorted and cut to the limit, as the tool reports them. */
  function Found(query: string, limit: int, currency: string, matches: seq<ProductSummary>): SearchResult {
    var items := TakePrefix(SortByPrice(matches), limit);
    SearchResult(query, limit, currency, items, ResultText(items))
  }

  /**
   * What `search_products(query, limit)` answers for a valid limit and a
   * non-blank query when the catalogue request produced `reply`; `parse` is
   * `json.loads`, used on the body of an error response.
   */
  function Answer(query: string, limit: int, currency: string, reply: CatalogReply, parse: string -> Option<Json>)
    : Result<SearchResult, ToolError>
  {
    match reply
    case StatusError(status, body) =>
      (match SupplierUtils.FormatApiError(body, status, parse)
       case Success(text) => Failure(Raised(McpError(INTERNAL_ERROR, CATALOG_FAILED_PREFIX + text)))
       case Failure(e) => Failure(Uncaught(e)))
    case FetchFailed(message) => Failure(Raised(McpError(INTERNAL_ERROR, UNEXPECTED_PREFIX + message)))
    case Payload(data) =>
      if !data.JArr? then Success(Found(query, limit, currency, []))
      else
        match Matches(data.elems, query, currency)
        case Failure(e) => Failure(Uncaught(e))
        case Success(matches) => Success(Found(query, limit, currency, matches))
  }

  /**
   * `float(os.getenv("SUPPLIER_HTTP_TIMEOUT", "10.0"))`, read on every call
   * from the setting `timeout`; none when `float()` refuses it.
   */
  function TimeoutOf(timeout: Option<string>): Option<real> {
    if timeout.Some? then ParseFloat(timeout.value) else Some(10.0)
  }

  const BAD_TIMEOUT_MESSAGE: string := "ValueError: could not convert string to float"

  /**
   * `search_products(query, limit)`: the argument checks, the timeout
   * setting (read outside the try, so a bad one escapes), then `Answer`.
   */
  function Search(query: string, limit: int, currency: string, timeout: Option<string>, reply: CatalogReply,
                  parse: string -> Option<Json>)
    : Result<SearchResult, ToolError>
  {
    if !(MIN_LIMIT <= limit <= MAX_LIMIT) then Failure(InvalidArgument("limit"))
    else if Strip(query) == "" then Failure(Raised(McpError(INVALID_PARAMS, EMPTY_QUERY_MESSAGE)))
    else if TimeoutOf(timeout).None? then Failure(Uncaught(BAD_TIMEOUT_MESSAGE))
    else Answer(query, limit, currency, reply, parse)
  }

  /**
   * `search_products(query, limit)`: the query check, the handling of the
   * catalogue reply, the loop that builds the matches, then sort and cut.
   */
  method SearchProducts(query: string, limit: int, currency: string, timeout: Option<string>, reply: CatalogReply,
                        parse: string -> Option<Json>)
    returns (r: Result<SearchResult, ToolError>)
    ensures r == Search(query, limit, currency, timeout, reply, parse)
  {
    if !(MIN_LIMIT <= limit <= MAX_LIMIT) {
      return Failure(InvalidArgument("limit"));
    }
    var cleanedQuery := Strip(query);
    if cleanedQuery == "" {
      return Failure(Raised(McpError(INVALID_PARAMS, EMPTY_QUERY_MESSAGE)));
    }
    var seconds := TimeoutOf(timeout);
    if seconds.None? {
      return Failure(Uncaught(BAD_TIMEOUT_MESSAGE));
    }
    var products: Json;
    match reply {
      case StatusError(status, body) =>
        var errorText := SupplierUtils.FormatApiError(body, status, parse);
        if errorText.Failure? {
          return Failure(Uncaught(errorText.error));
        }
        return Failure(Raised(McpError(INTERNAL_ERROR, CATALOG_FAILED_PREFIX + errorText.value)));
      case FetchFailed(message) =>
        return Failure(Raised(McpError(INTERNAL_ERROR, UNEXPECTED_PREFIX + message)));
      case Payload(data) =>
        products := data;
    }

    var matches: seq<ProductSummary> := [];
    if products.JArr? {
      var collected := CollectLoop(products.elems, MatchStep(Lower(cleanedQuery), currency));
      if collected.Failure? {
        return Failure(Uncaught(collected.error));
      }
      matches := collected.value;
    }
    var items := TakePrefix(SortByPrice(matches), limit);
    return Success(SearchResult(query, limit, currency, items, ResultText(items)));
  }

  // ----- what the tool promises -----

  /** A blank query is refused with "invalid params", whatever the catalogue holds. */
  lemma BlankQueryRefused(query: string, limit: int, currency: string, timeout: Option<string>, reply: CatalogReply,
                          parse: string -> Option<Json>)
    requires MIN_LIMIT <= limit <= MAX_LIMIT && AllSpace(query)
    ensures Search(query, limit, currency, timeout, reply, parse) == Failure(Raised(McpError(INVALID_PARAMS, EMPTY_QUERY_MESSAGE)))
  {
    StripTrims(query);
  }

  /** A timeout setting that `float()` refuses escapes as an exception before any fetch, whatever the catalogue. */
  lemma BadTimeoutRaises(query: string, limit: int, currency: string, timeout: string, reply: CatalogReply,
                         parse: string -> Option<Json>)
    requires MIN_LIMIT <= limit <= MAX_LIMIT && Strip(query) != "" && ParseFloat(timeout).None?
    ensures Search(query, limit, currency, Some(timeout), reply, parse) == Failure(Uncaught(BAD_TIMEOUT_MESSAGE))
  {
  }

  /** The text reports the number of products found, or the fixed sentence when there are none. */
  lemma ResultTextReportsCount(items: seq<ProductSummary>)
    ensures items == [] ==> ResultText(items) == NOT_FOUND_TEXT
    ensures items != [] ==> ResultText(items)[..|COUNT_PREFIX| + |IntText(|items|)|] == COUNT_PREFIX + IntText(|items|)
  {
    if items != [] {
      var rest := "\n\n" + Join("\n", seq(|items|, k requires 0 <= k < |items| => ItemLine(items[k])));
      assert ResultText(items) == (COUNT_PREFIX + IntText(|items|)) + rest;
    }
  }

  /** A successful search reports the matches of the catalogue, sorted and cut to the limit. */
  lemma SearchReportsFound(query: string, limit: int, currency: string, timeout: Option<string>, reply: CatalogReply,
                           parse: string -> Option<Json>)
    requires Search(query, limit, currency, timeout, reply, parse).Success?
    ensures MIN_LIMIT <= limit <= MAX_LIMIT && Strip(query) != "" && TimeoutOf(timeout).Some? && reply.Payload?
    ensures Search(query, limit, currency, timeout, reply, parse).value ==
              Found(query, limit, currency,
                    if reply.data.JArr? then Matches(reply.data.elems, query, currency).value else [])
  {
    OnlyPayloadAnswers(query, limit, currency, reply, parse);
  }

  /** A failed or refused catalogue request always ends in an error. */
  lemma OnlyPayloadAnswers(query: string, limit: int, currency: string, reply: CatalogReply, parse: string -> Option<Json>)
    ensures !reply.Payload? ==> Answer(query, limit, currency, reply, parse).Failure?
  {
    if reply.StatusError? {
      var e := SupplierUtils.FormatApiError(reply.body, reply.status, parse);
      if e.Success? {
        assert Answer(query, limit, currency, reply, parse) == Failure(Raised(McpError(INTERNAL_ERROR, CATALOG_FAILED_PREFIX + e.value)));
      }
    }
  }

  /** The reported products are sorted by price and no more than `limit`; the arguments are echoed. */
  lemma FoundSortedAndBounded(query: string, limit: int, currency: string, matches: seq<ProductSummary>)
    requires MIN_LIMIT <= limit
    ensures var res := Found(query, limit, currency, matches);
            SortedByPrice(res.items) && |res.items| <= limit && |res.items| <= |matches|
            && res.query == query && res.limit == limit && res.currency == currency
            && (|matches| >= limit ==> |res.items| == limit)
            && (forall item :: item in res.items ==> item in multiset(matches))
  {
    var sorted := SortByPrice(matches);
    SortSortsAndPermutes(matches);
    var items := Found(query, limit, currency, matches).items;
    assert items == sorted[..PrefixLength(|sorted|, limit)];
    assert SortedByPrice(items) by {
      assert forall k :: 0 <= k < |items| ==> items[k] == sorted[k];
    }
    forall item | item in items ensures item in multiset(matches) {
      assert item in sorted;
    }
  }

  /** Every reported product comes from the catalogue, has a title containing the query, and a positive price. */
  lemma FoundItemsMatch(query: string, currency: string, catalog: seq<Json>, item: ProductSummary)
    requires Strip(query) != "" && Matches(catalog, query, currency).Success?
    requires item in Matches(catalog, query, currency).value
    ensures item.price > 0.0 && item.currency == currency
    ensures exists k :: 0 <= k < |catalog| && catalog[k].JObj? && item.title == TitleOf(catalog[k].fields)
                        && Contains(Lower(item.title), Lower(Strip(query)))
  {
    var step := MatchStep(Lower(Strip(query)), currency);
    CollectedFrom(catalog, step, item);
    var k :| 0 <= k < |catalog| && step(catalog[k]) == Success(Some(item));
    assert Lower(Strip(query)) != [];
  }

  /** Every product whose title contains the query is among the matches, unless the loop raised. */
  lemma EveryTitleMatchIsFound(query: string, currency: string, catalog: seq<Json>, k: nat)
    requires Matches(catalog, query, currency).Success? && k < |catalog|
    requires catalog[k].JObj? && Contains(Lower(TitleOf(catalog[k].fields)), Lower(Strip(query)))
    ensures exists item :: item in Matches(catalog, query, currency).value && item.productId == Str(Get(catalog[k].fields, "id"))
  {
    var step := MatchStep(Lower(Strip(query)), currency);
    CollectSucceeds(catalog, step);
    var m := MatchOf(Lower(Strip(query)), currency, catalog[k]);
    assert step(catalog[k]) == m;
    CollectedAll(catalog, step, k, m.value.value);
  }

  /** A catalogue that is not a list yields no products, reported with the "not found" text. */
  lemma NonListCatalogFindsNothing(query: string, limit: int, currency: string, timeout: Option<string>, data: Json,
                                   parse: string -> Option<Json>)
    requires MIN_LIMIT <= limit <= MAX_LIMIT && Strip(query) != "" && TimeoutOf(timeout).Some? && !data.JArr?
    ensures Search(query, limit, currency, timeout, Payload(data), parse)
              == Success(SearchResult(query, limit, currency, [], NOT_FOUND_TEXT))
  {
    assert Search(query, limit, currency, timeout, Payload(data), parse) == Answer(query, limit, currency, Payload(data), parse);
    assert Answer(query, limit, currency, Payload(data), parse) == Success(Found(query, limit, currency, []));
    FoundNothing(query, limit, currency);
  }

  lemma FoundNothing(query: string, limit: int, currency: string)
    requires MIN_LIMIT <= limit
    ensures Found(query, limit, currency, []) == SearchResult(query, limit, currency, [], NOT_FOUND_TEXT)
  {
    var sorted: seq<ProductSummary> := SortByPrice([]);
    assert sorted == [];
    assert TakePrefix(sorted, limit) == [];
  }
}
