/**
 * The older copy of the payload extraction kept in the Printful search
 * debugging script (`extract_structured_content` in
 * scripts/debug_search_printful_mcp.py). It reads the same sources as the
 * agent's, but unwraps the camelCase attribute only through a nested
 * camelCase key and never falls back to raw text: it always yields a dict.
 */
module DebugExtract {
  import opened Wrappers
  import opened Json
  import opened AgentExtract

  /** `inner = sc.get("structuredContent")`: the nested payload when it is a dict, else `sc`. */
  function UnwrapCamel(outer: Fields): (r: Fields)
    ensures Get(outer, "structuredContent").JObj? ==> JObj(r) == Get(outer, "structuredContent")
    ensures !Get(outer, "structuredContent").JObj? ==> r == outer
  {
    var inner := Get(outer, "structuredContent");
    if inner.JObj? then inner.fields else outer
  }

  /** `extract_structured_content(result)` */
  function ExtractStructuredContent(result: ToolCallResult, parse: string -> Option<Json>): Fields {
    if result.structuredContent.JObj? then UnwrapCamel(result.structuredContent.fields)
    else if result.structuredContentSnake.JObj? then Unwrap(result.structuredContentSnake.fields).fields
    else
      match FirstDecodedDict(result.content, parse)
      case Some(outer) => Unwrap(outer).fields
      case None => []
  }

  /**
   * Past a camelCase attribute that is not a dict, the script and the agent
   * agree, except where the agent falls back to the first block's raw
   * text: there the script gives `{}`.
   */
  lemma DebugAgreesPastCamelCase(result: ToolCallResult, parse: string -> Option<Json>)
    requires !result.structuredContent.JObj?
    ensures var rawText := !result.structuredContentSnake.JObj?
                           && (forall j :: 0 <= j < |result.content| ==> !DecodesToDict(result.content[j], parse))
                           && FirstText(result.content).Some?;
            (rawText ==> ExtractStructuredContent(result, parse) == []
                         && ExtractStructured(result, parse) == result.content[0].text)
            && (!rawText ==> JObj(ExtractStructuredContent(result, parse)) == ExtractStructured(result, parse))
  {
  }

  /** On a camelCase attribute whose nested camelCase value is truthy, the two agree. */
  lemma DebugAgreesOnNestedCamelCase(result: ToolCallResult, parse: string -> Option<Json>)
    requires result.structuredContent.JObj? && Truthy(Get(result.structuredContent.fields, "structuredContent"))
    ensures JObj(ExtractStructuredContent(result, parse)) == ExtractStructured(result, parse)
  {
  }

  /**
   * A camelCase attribute holding only the snake_case key: the agent takes
   * the nested payload, the script keeps the envelope.
   */
  lemma SnakeKeyOnlyInAgent(parse: string -> Option<Json>, payload: Fields)
    ensures var envelope := [("structured_content", JObj(payload))];
            var result := ToolCallResult(JObj(envelope), JNull, []);
            ExtractStructured(result, parse) == JObj(payload) && ExtractStructuredContent(result, parse) == envelope
  {
    var envelope := [("structured_content", JObj(payload))];
    assert Get(envelope, "structuredContent") == JNull;
    assert Get(envelope, "structured_content") == JObj(payload);
  }

  /**
   * Where the two differ: no dict attribute and a single block of
   * non-empty text that does not decode to a dict. The agent returns the
   * text, the script `{}`.
   */
  lemma RawTextOnlyInAgent(parse: string -> Option<Json>, text: string, camel: Json, snake: Json)
    requires !camel.JObj? && !snake.JObj? && text != ""
    requires parse(text).None? || !parse(text).value.JObj?
    ensures var result := ToolCallResult(camel, snake, [ContentBlock(JStr(text))]);
            ExtractStructured(result, parse) == JStr(text) && ExtractStructuredContent(result, parse) == []
  {
    var result := ToolCallResult(camel, snake, [ContentBlock(JStr(text))]);
    assert !DecodesToDict(result.content[0], parse);
  }
}
