/**
 * Helpers of the currency-conversion service (fx-rates-mcp/tools/utils.py):
 * range-checked parsing of a numeric setting, the text of an upstream API
 * error, and the validated default base currency. Environment values are
 * passed in; `None` is an unset variable.
 */
module FxUtils {
  import opened Wrappers
  import opened Json
  import opened PyText
  import opened PyValue
  import opened Mcp

  /**
   * `_parse_float_env`: the setting's value when it parses and lies in
   * `[minValue, maxValue]`, the default otherwise.
   */
  function ParseFloatEnv(value: Option<string>, default: real, minValue: real, maxValue: real): (r: real)
    ensures value.None? ==> r == default
    ensures value.Some? && ParseFloat(value.value).None? ==> r == default
    ensures r == default || (value.Some? && ParseFloat(value.value) == Some(r) && minValue <= r <= maxValue)
    ensures value.Some? && ParseFloat(value.value).Some? ==>
              (minValue <= ParseFloat(value.value).value <= maxValue ==> r == ParseFloat(value.value).value)
    ensures minValue <= default <= maxValue ==> minValue <= r <= maxValue
  {
    match value
    case None => default
    case Some(text) =>
      match ParseFloat(text)
      case None => default
      case Some(parsed) => if parsed < minValue || parsed > maxValue then default else parsed
  }

  /** The details line of the authentication message. */
  const AUTH_PREFIX: string := "Ошибка аутентификации.\n\nЧто можно сделать:\n- Проверьте учетные данные\nДетали: "

  /**
   * `format_api_error(response_text, status_code)`. `parse` is `json.loads`
   * (`None` when the text is not JSON). A body that decodes to something
   * other than an object makes `.get` raise AttributeError, which escapes:
   * that is the `Failure`.
   */
  function FormatApiError(responseText: string, statusCode: int, parse: string -> Option<Json>): (r: Result<string, string>)
    ensures parse(responseText).None? ==>
              r == Success("Ошибка API (статус " + IntText(statusCode) + "): " + responseText)
    ensures r.Failure? <==> parse(responseText).Some? && !parse(responseText).value.JObj?
    ensures parse(responseText).Some? && parse(responseText).value.JObj? ==>
              var fs := parse(responseText).value.fields;
              var message := Str(GetOr(fs, "message", JStr(responseText)));
              r.Success? &&
              (statusCode == 401 ==> r.value == AUTH_PREFIX + message) &&
              (statusCode != 401 ==>
                 r.value == "Ошибка API (код " + Str(GetOr(fs, "code", JStr("unknown"))) + "): " + message)
  {
    match parse(responseText)
    case None => Success("Ошибка API (статус " + IntText(statusCode) + "): " + responseText)
    case Some(data) =>
      if !data.JObj? then Failure(NoGetMessage(data))
      else
        var code := GetOr(data.fields, "code", JStr("unknown"));
        var message := GetOr(data.fields, "message", JStr(responseText));
        var errorMsg := "Ошибка API (код " + Str(code) + "): " + Str(message);
        if statusCode == 401 then Success(AUTH_PREFIX + Str(message)) else Success(errorMsg)
  }

  /** A body without a "code" entry is reported under the code "unknown". */
  lemma UnknownCodeWhenMissing(responseText: string, statusCode: int, parse: string -> Option<Json>)
    requires parse(responseText).Some? && parse(responseText).value.JObj?
    requires !HasKey(parse(responseText).value.fields, "code") && statusCode != 401
    ensures var message := Str(GetOr(parse(responseText).value.fields, "message", JStr(responseText)));
            FormatApiError(responseText, statusCode, parse) == Success("Ошибка API (код " + "unknown" + "): " + message)
  {
    assert GetOr(parse(responseText).value.fields, "code", JStr("unknown")) == JStr("unknown");
  }

  const BASE_CURRENCY_ERROR: string := "Некорректная базовая валюта FX_DEFAULT_BASE_CURRENCY."

  /**
   * `require_base_currency()`: FX_DEFAULT_BASE_CURRENCY (default "RUB"),
   * upper-cased and stripped, accepted only at three characters.
   */
  function RequireBaseCurrency(setting: Option<string>): (r: Result<string, McpError>)
    ensures r.Success? <==> |Strip(Upper(setting.GetOr("RUB")))| == 3
    ensures r.Success? ==> r.value == Strip(Upper(setting.GetOr("RUB"))) && Upper(r.value) == r.value
    ensures r.Failure? ==> r.error == McpError(INVALID_PARAMS, BASE_CURRENCY_ERROR)
    ensures setting.None? ==> r == Success("RUB")
  {
    var raw := setting.GetOr("RUB");
    var base := Strip(Upper(raw));
    UpperOfStrippedUpper(raw);
    DefaultBaseCurrency();
    if |base| != 3 then Failure(McpError(INVALID_PARAMS, BASE_CURRENCY_ERROR))
    else Success(base)
  }

  lemma DefaultBaseCurrency()
    ensures Upper("RUB") == "RUB" && Strip(Upper("RUB")) == "RUB"
  {
    var u := Upper("RUB");
    assert u[0] == 'R' && u[1] == 'U' && u[2] == 'B';
    assert u == "RUB";
    StripKeeps("RUB");
  }

  /** Stripping an upper-cased text leaves text that upper-casing does not change. */
  lemma UpperOfStrippedUpper(s: string)
    ensures Upper(Strip(Upper(s))) == Strip(Upper(s))
  {
    var u := Upper(s);
    var t := Strip(u);
    var i := |u| - |LStrip(u)|;
    StripTrims(u);
    assert Trims(u, t, i);
    forall k | 0 <= k < |t|
      ensures UpperChar(t[k]) == t[k]
    {
      assert t[k] == u[i + k] == UpperChar(s[i + k]);
      UpperCharTwice(s[i + k]);
    }
  }

  /** Upper-casing a character twice changes nothing more. */
  lemma UpperCharTwice(c: char)
    ensures UpperChar(UpperChar(c)) == UpperChar(c)
  {
  }
}
