/**
 * The `convert_amount` tool of the currency-conversion service
 * (fx-rates-mcp/tools/convert_amount.py): the static fallback table, the
 * extraction of a rate from the provider's reply, and the decision flow
 * that always produces a result. The HTTP request is a parameter: `fetch`
 * maps the upper-cased pair to what the request produced.
 */
module ConvertAmount {
  import opened Wrappers
  import opened Json
  import opened PyText
  import opened PyValue

  /** `_FX_FALLBACK_RATES`: the rate of one unit of the first currency in the second. */
  const FALLBACK_RATES: map<(string, string), real> := map[
    ("USD", "EUR") := 0.9,
    ("EUR", "USD") := 1.11,
    ("USD", "RUB") := 90.0,
    ("RUB", "USD") := 1.0 / 90.0,
    ("EUR", "RUB") := 98.0,
    ("RUB", "EUR") := 1.0 / 98.0
  ]

  /** Every rate in the table is positive. */
  lemma TableRatesPositive(pair: (string, string))
    requires pair in FALLBACK_RATES
    ensures FALLBACK_RATES[pair] > 0.0
  {
  }

  const PROVIDER_IDENTITY: string := "identity"
  const PROVIDER_STATIC: string := "fallback_static"
  const PROVIDER_FALLBACK_IDENTITY: string := "fallback_identity"

  /**
   * `_fallback_rate(base, quote)`: always some positive rate, with the name
   * of where it came from.
   */
  function FallbackRate(base: string, quote: string): (r: (real, string))
    ensures r.0 > 0.0
    ensures Upper(base) == Upper(quote) ==> r == (1.0, PROVIDER_IDENTITY)
    ensures Upper(base) != Upper(quote) && (Upper(base), Upper(quote)) in FALLBACK_RATES ==>
              r == (FALLBACK_RATES[(Upper(base), Upper(quote))], PROVIDER_STATIC)
    ensures Upper(base) != Upper(quote) && (Upper(base), Upper(quote)) !in FALLBACK_RATES ==>
              r == (1.0, PROVIDER_FALLBACK_IDENTITY)
  {
    var b := Upper(base);
    var q := Upper(quote);
    if b == q then (1.0, PROVIDER_IDENTITY)
    else
      if (b, q) in FALLBACK_RATES then
        TableRatesPositive((b, q));
        (FALLBACK_RATES[(b, q)], PROVIDER_STATIC)
      else (1.0, PROVIDER_FALLBACK_IDENTITY)
  }

  /**
   * Codes in any case find the table's entry for their upper-case pair;
   * for example "usd" and "rub" give the tabled 90.0.
   */
  lemma FallbackIgnoresCase(base: string, quote: string)
    requires (Upper(base), Upper(quote)) in FALLBACK_RATES
    ensures FallbackRate(base, quote) == (FALLBACK_RATES[(Upper(base), Upper(quote))], PROVIDER_STATIC)
    ensures FallbackRate("usd", "rub") == (90.0, PROVIDER_STATIC)
  {
    assert forall pair :: pair in FALLBACK_RATES ==> pair.0 != pair.1;
    assert Upper("usd") == "USD";
    assert Upper("rub") == "RUB";
  }

  /** `info.rate` of the reply, when `info` is a dict holding "rate" and `float()` accepts it. */
  function InfoRate(data: Json): Option<real> {
    if !data.JObj? then None
    else
      var info := Get(data.fields, "info");
      if info.JObj? && HasKey(info.fields, "rate") then ToFloat(Lookup(info.fields, "rate").value)
      else None
  }

  /** `result` of the reply, when present and `float()` accepts it. */
  function ResultRate(data: Json): Option<real> {
    if data.JObj? && HasKey(data.fields, "result") then ToFloat(Lookup(data.fields, "result").value)
    else None
  }

  /**
   * The rate a reply yields: `info.rate` when it converts, else `result`
   * when it converts; a non-dict yields none.
   */
  function RateOf(data: Json): (r: Option<real>)
    ensures r.Some? ==> data.JObj? && (r == InfoRate(data) || r == ResultRate(data))
    ensures r.None? <==> InfoRate(data).None? && ResultRate(data).None?
    ensures InfoRate(data).Some? ==> r == InfoRate(data)
  {
    if InfoRate(data).Some? then InfoRate(data) else ResultRate(data)
  }

  /**
   * The part of `_fetch_rate_http` after the reply is decoded: the rate it
   * found, and the reply itself when it is a dict (`{}` otherwise).
   */
  method ExtractRate(data: Json) returns (rate: Option<real>, raw: Fields)
    ensures rate == RateOf(data)
    ensures raw == (if data.JObj? then data.fields else [])
  {
    rate := None;
    if data.JObj? {
      var info := Get(data.fields, "info");
      if info.JObj? && HasKey(info.fields, "rate") {
        rate := ToFloat(Lookup(info.fields, "rate").value);
      }
      if rate.None? && HasKey(data.fields, "result") {
        rate := ToFloat(Lookup(data.fields, "result").value);
      }
      raw := data.fields;
    } else {
      raw := [];
    }
  }

  /** The rate depends on nothing but the reply's "info" and "result" entries. */
  lemma RateReadsOnlyInfoAndResult(fs: Fields, gs: Fields)
    requires Lookup(fs, "info") == Lookup(gs, "info") && Lookup(fs, "result") == Lookup(gs, "result")
    ensures RateOf(JObj(fs)) == RateOf(JObj(gs))
  {
  }

  /** A leading entry under any other key, such as "success" or "error", leaves the rate as it is. */
  lemma OtherKeyIgnored(key: string, v: Json, fs: Fields)
    requires key != "info" && key != "result"
    ensures RateOf(JObj([(key, v)] + fs)) == RateOf(JObj(fs))
  {
    var gs := [(key, v)] + fs;
    assert gs[1..] == fs;
    RateReadsOnlyInfoAndResult(gs, fs);
  }

  /**
   * `"success": false` alone does not force the fallback: a reply that
   * opens with it yields the rate of the rest, so a convertible `result`
   * and no "info" give that result as the rate.
   */
  lemma FailedReplyStillYieldsRate(fs: Fields, result: Json)
    ensures RateOf(JObj([("success", JBool(false))] + fs)) == RateOf(JObj(fs))
    ensures Lookup(fs, "result") == Some(result) && !HasKey(fs, "info") ==>
              RateOf(JObj([("success", JBool(false))] + fs)) == ToFloat(result)
  {
    OtherKeyIgnored("success", JBool(false), fs);
  }

  /** An `info.rate` that `float()` refuses, whatever it is, leaves the rate to `result`. */
  lemma UnparseableInfoRateFallsThrough(fs: Fields, info: Fields, rate: Json)
    requires Lookup(fs, "info") == Some(JObj(info)) && Lookup(info, "rate") == Some(rate)
    requires ToFloat(rate).None?
    ensures RateOf(JObj(fs)) == ResultRate(JObj(fs))
  {
  }

  /** What the HTTP request produced: an exception, or the decoded body. */
  datatype HttpOutcome = HttpFailed | HttpReply(data: Json)

  /** The dict `convert_amount` returns. */
  datatype Conversion = Conversion(
    base: string, quote: string, amountBase: real, amountQuote: real, rate: real,
    provider: string, fallbackUsed: bool, warning: Option<string>, raw: Fields)

  function UnavailableWarning(apiBase: string): string {
    "FX API " + apiBase + " недоступно или вернуло ошибку, использован fallback-курс."
  }

  function NoRateWarning(provider: string): string {
    "FX API не вернул корректный курс, использован fallback-курс (" + provider + ")."
  }

  /** The rate the HTTP step produced, if any. */
  function HttpRate(outcome: HttpOutcome): Option<real> {
    match outcome
    case HttpFailed => None
    case HttpReply(data) => RateOf(data)
  }

  /** `x * y` on Python floats, computed exactly. */
  function FloatMul(x: real, y: real): real {
    x * y
  }

  /** Where the rate of a conversion between distinct codes came from. */
  datatype RateChoice = RateChoice(rate: real, provider: string, fallbackUsed: bool, warning: Option<string>)

  /** The rate `convert_amount` settles on for the distinct upper-cased codes `b` and `q`. */
  function ChooseRate(b: string, q: string, apiBase: string, outcome: HttpOutcome): RateChoice {
    match HttpRate(outcome)
    case Some(rate) => RateChoice(rate, apiBase, false, None)
    case None =>
      var fb := FallbackRate(b, q);
      var warning := if outcome.HttpFailed? then UnavailableWarning(apiBase) else NoRateWarning(fb.1);
      RateChoice(fb.0, fb.1, true, Some(warning))
  }

  /**
   * What `convert_amount(amount, base, quote)` returns when the request for
   * the upper-cased pair produced `outcome`.
   */
  function Converted(amount: real, base: string, quote: string, apiBase: string, outcome: HttpOutcome): Conversion {
    var b := Upper(base);
    var q := Upper(quote);
    if b == q then Conversion(b, q, amount, amount, 1.0, PROVIDER_IDENTITY, false, None, [])
    else
      var raw := if outcome.HttpReply? && outcome.data.JObj? then outcome.data.fields else [];
      var choice := ChooseRate(b, q, apiBase, outcome);
      Conversion(b, q, amount, FloatMul(amount, choice.rate), choice.rate, choice.provider, choice.fallbackUsed, choice.warning, raw)
  }

  /**
   * `convert_amount(amount, base, quote)`: never fails. Equal codes
   * short-circuit; otherwise the provider's rate is used when it yields one,
   * and the fallback table when it does not.
   */
  method Convert(amount: real, base: string, quote: string, apiBase: string,
                 fetch: (string, string) -> HttpOutcome) returns (c: Conversion)
    ensures c == Converted(amount, base, quote, apiBase, fetch(Upper(base), Upper(quote)))
  {
    var b := Upper(base);
    var q := Upper(quote);
    if b == q {
      return Conversion(b, q, amount, amount, 1.0, PROVIDER_IDENTITY, false, None, []);
    }
    var rate: Option<real> := None;
    var raw: Fields := [];
    var provider := apiBase;
    var fallbackUsed := false;
    var warning: Option<string> := None;

    var outcome := fetch(b, q);
    match outcome {
      case HttpFailed =>
        rate := None;
        warning := Some(UnavailableWarning(apiBase));
      case HttpReply(data) =>
        rate, raw := ExtractRate(data);
    }

    var finalRate: real;
    if rate.None? {
      fallbackUsed := true;
      finalRate, provider := FallbackRate(b, q).0, FallbackRate(b, q).1;
      if warning.None? {
        warning := Some(NoRateWarning(provider));
      }
    } else {
      finalRate := rate.value;
    }
    var choice := RateChoice(finalRate, provider, fallbackUsed, warning);
    var amountBase := amount;
    c := Conversion(b, q, amountBase, FloatMul(amountBase, choice.rate), choice.rate, choice.provider, choice.fallbackUsed, choice.warning, raw);
  }

  /** The output codes are upper-cased and the quote amount is the base amount times the rate. */
  lemma ConvertedAmounts(amount: real, base: string, quote: string, apiBase: string, outcome: HttpOutcome)
    ensures var c := Converted(amount, base, quote, apiBase, outcome);
            c.base == Upper(base) && c.quote == Upper(quote)
            && c.amountBase == amount && c.amountQuote == c.amountBase * c.rate
  {
  }

  /** Codes equal up to case convert at rate 1 from the "identity" provider, whatever the request gave. */
  lemma ConvertedIdentity(amount: real, base: string, quote: string, apiBase: string, outcome: HttpOutcome)
    requires Upper(base) == Upper(quote)
    ensures Converted(amount, base, quote, apiBase, outcome)
            == Conversion(Upper(base), Upper(quote), amount, amount, 1.0, PROVIDER_IDENTITY, false, None, [])
  {
  }

  /**
   * For distinct codes the fallback is used exactly when the request gave
   * no rate; then the rate is the fallback table's, and a warning is set.
   */
  lemma ConvertedFallback(amount: real, base: string, quote: string, apiBase: string, outcome: HttpOutcome)
    requires Upper(base) != Upper(quote)
    ensures var c := Converted(amount, base, quote, apiBase, outcome);
            (c.fallbackUsed <==> HttpRate(outcome).None?)
            && (c.fallbackUsed ==> (c.rate, c.provider) == FallbackRate(base, quote) && c.rate > 0.0 && c.warning.Some?)
            && (outcome.HttpFailed? ==> c.fallbackUsed && c.warning == Some(UnavailableWarning(apiBase)) && c.raw == [])
  {
    FallbackOfUpper(base, quote);
  }

  /** A rate from the provider is used as given, with its reply as `raw` and no warning. */
  lemma ConvertedFromProvider(amount: real, base: string, quote: string, apiBase: string, data: Json)
    requires Upper(base) != Upper(quote) && RateOf(data).Some?
    ensures var c := Converted(amount, base, quote, apiBase, HttpReply(data));
            !c.fallbackUsed && c.rate == RateOf(data).value && c.provider == apiBase
            && c.warning.None? && c.raw == data.fields
  {
  }

  /** Whatever happens, a fallback result carries a warning. */
  lemma WarningWhenFallback(amount: real, base: string, quote: string, apiBase: string, outcome: HttpOutcome)
    ensures var c := Converted(amount, base, quote, apiBase, outcome);
            c.fallbackUsed ==> c.warning.Some?
  {
  }

  /** The fallback of the upper-cased codes is the fallback of the codes. */
  lemma FallbackOfUpper(base: string, quote: string)
    ensures FallbackRate(Upper(base), Upper(quote)) == FallbackRate(base, quote)
  {
    UpperIdempotent(base);
    UpperIdempotent(quote);
  }

  /** Upper-casing twice is upper-casing once. */
  lemma UpperIdempotent(s: string)
    ensures Upper(Upper(s)) == Upper(s)
  {
    forall k | 0 <= k < |s| ensures UpperChar(UpperChar(s[k])) == UpperChar(s[k]) {
    }
  }
}
