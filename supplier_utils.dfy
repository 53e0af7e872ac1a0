/**
 * Helpers of the supplier service (supplier-pricing-mcp/tools/utils.py):
 * the check for required environment variables and the text of an upstream
 * API error. The environment is passed in as a map.
 */
module SupplierUtils {
  import opened Wrappers
  import opened Json
  import opened PyText
  import opened PyValue
  import opened Mcp

  /** `os.getenv(name)` is truthy: the variable is set and not empty. */
  predicate IsSet(env: map<string, string>, name: string) {
    name in env && env[name] != ""
  }

  /** `[name for name in names if not os.getenv(name)]` */
  function Missing(names: seq<string>, env: map<string, string>): (missing: seq<string>)
  {
    if names == [] then []
    else (if IsSet(env, names[0]) then [] else [names[0]]) + Missing(names[1..], env)
  }

  /** The missing names are exactly the requested ones that are unset or empty. */
  lemma {:induction false} MissingExactly(names: seq<string>, env: map<string, string>, n: string)
    ensures n in Missing(names, env) <==> n in names && !IsSet(env, n)
  {
    if names != [] {
      MissingExactly(names[1..], env, n);
      assert names == [names[0]] + names[1..];
    }
  }

  /** The missing names keep the order of the request. */
  lemma {:induction false} MissingInOrder(names: seq<string>, env: map<string, string>, i: nat, j: nat)
    requires i <= j <= |names|
    ensures Missing(names[i..j], env) + Missing(names[j..], env) == Missing(names[i..], env)
    decreases j - i
  {
    if i < j {
      MissingInOrder(names, env, i + 1, j);
      assert names[i..j][1..] == names[i + 1..j];
      assert names[i..][1..] == names[i + 1..];
    } else {
      assert names[i..j] == [];
    }
  }

  const MISSING_PREFIX: string := "Отсутствуют обязательные переменные окружения: "

  /**
   * `_require_env_vars(names)`: raises -32602 naming every unset variable,
   * in request order; otherwise maps each requested name to its value.
   */
  function RequireEnvVars(names: seq<string>, env: map<string, string>): (r: Result<map<string, string>, McpError>)
    ensures r.Failure? <==> exists k :: 0 <= k < |names| && !IsSet(env, names[k])
    ensures r.Failure? ==> r.error == McpError(INVALID_PARAMS, MISSING_PREFIX + Join(", ", Missing(names, env)))
    ensures r.Success? ==> r.value.Keys == set n | n in names
    ensures r.Success? ==> forall n :: n in names ==> IsSet(env, n) && r.value[n] == env[n]
  {
    var missing := Missing(names, env);
    if missing != [] then
      MissingExactly(names, env, missing[0]);
      Failure(McpError(INVALID_PARAMS, MISSING_PREFIX + Join(", ", missing)))
    else
      forall k | 0 <= k < |names| ensures IsSet(env, names[k]) {
        MissingExactly(names, env, names[k]);
      }
      Success(map n | n in names :: if n in env then env[n] else "")
  }

  const AUTH_MESSAGE: string :=
    "Ошибка аутентификации при обращении к внешнему API.\n\nПроверьте конфигурацию и учетные данные.\n\nДетали: "

  /**
   * `format_api_error(response_text, status_code)` of the supplier service.
   * `parse` is `json.loads`; a body that decodes to a non-object makes
   * `.get` raise AttributeError, which escapes: that is the `Failure`.
   */
  function FormatApiError(responseText: string, statusCode: int, parse: string -> Option<Json>): (r: Result<string, string>)
    ensures parse(responseText).None? ==>
              r == Success("Ошибка API (HTTP " + IntText(statusCode) + "): " + responseText)
    ensures r.Failure? <==> parse(responseText).Some? && !parse(responseText).value.JObj?
    ensures parse(responseText).Some? && parse(responseText).value.JObj? ==>
              var fs := parse(responseText).value.fields;
              var message := if Truthy(Get(fs, "message")) then Str(Get(fs, "message")) else responseText;
              r.Success? &&
              (statusCode == 401 ==> r.value == AUTH_MESSAGE + message) &&
              (statusCode != 401 ==>
                 r.value == "Ошибка API (код " + Str(GetOr(fs, "code", JStr("unknown"))) + ", HTTP "
                            + IntText(statusCode) + "): " + message)
  {
    match parse(responseText)
    case None => Success("Ошибка API (HTTP " + IntText(statusCode) + "): " + responseText)
    case Some(data) =>
      if !data.JObj? then Failure(NoGetMessage(data))
      else
        var code := GetOr(data.fields, "code", JStr("unknown"));
        var message := Or(Get(data.fields, "message"), JStr(responseText));
        var baseMsg := "Ошибка API (код " + Str(code) + ", HTTP " + IntText(statusCode) + "): " + Str(message);
        if statusCode == 401 then Success(AUTH_MESSAGE + Str(message)) else Success(baseMsg)
  }
}
