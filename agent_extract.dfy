/**
 * How the agent reads the payload out of an MCP tool result
 * (`_extract_structured_from_mcp_result` in agent/main.py). The result may
 * carry its payload in a `structuredContent` or `structured_content`
 * attribute, or as JSON text in its content blocks, and the payload may
 * itself be the tool's envelope with the structured part one level down.
 * `json.loads` is a parameter: a function from text to the decoded value,
 * `None` when the text does not decode.
 */
module AgentExtract {
  import opened Wrappers
  import opened Json

  /** A content block: its `text` attribute, `None` when it has none. */
  datatype ContentBlock = ContentBlock(text: Json)

  /**
   * The attributes of a `CallToolResult` the extraction reads, each `None`
   * when absent; `content` is already `content or []`.
   */
  datatype ToolCallResult = ToolCallResult(structuredContent: Json, structuredContentSnake: Json, content: seq<ContentBlock>)

  /**
   * An envelope's inner payload when it is a dict, else the envelope:
   * `inner = d.get("structuredContent") or d.get("structured_content")`.
   */
  function Unwrap(outer: Fields): (r: Json)
    ensures r.JObj?
    ensures var camel := Get(outer, "structuredContent");
            (Truthy(camel) && camel.JObj? ==> r == camel)
            && (Truthy(camel) && !camel.JObj? ==> r == JObj(outer))
    ensures var snake := Get(outer, "structured_content");
            !Truthy(Get(outer, "structuredContent")) ==> r == (if snake.JObj? then snake else JObj(outer))
  {
    var inner := Or(Get(outer, "structuredContent"), Get(outer, "structured_content"));
    if inner.JObj? then inner else JObj(outer)
  }

  /** The block's text is non-empty text that decodes to a dict. */
  predicate DecodesToDict(c: ContentBlock, parse: string -> Option<Json>) {
    c.text.JStr? && c.text.s != "" && parse(c.text.s).Some? && parse(c.text.s).value.JObj?
  }

  /** Block `k` is the first that decodes to a dict. */
  predicate FirstDecoded(contents: seq<ContentBlock>, parse: string -> Option<Json>, k: int) {
    0 <= k < |contents| && DecodesToDict(contents[k], parse)
    && forall j :: 0 <= j < k ==> !DecodesToDict(contents[j], parse)
  }

  /**
   * The loop over the content blocks: empty text is skipped, text that
   * does not decode (or is not text, so `json.loads` raises) is skipped,
   * and the first dict decoded ends the search.
   */
  function FirstDecodedDict(contents: seq<ContentBlock>, parse: string -> Option<Json>): (r: Option<Fields>)
    ensures r.None? <==> forall k :: 0 <= k < |contents| ==> !DecodesToDict(contents[k], parse)
    ensures r.Some? ==> exists k :: FirstDecoded(contents, parse, k) && JObj(r.value) == parse(contents[k].text.s).value
  {
    if contents == [] then None
    else if DecodesToDict(contents[0], parse) then
      assert FirstDecoded(contents, parse, 0);
      Some(parse(contents[0].text.s).value.fields)
    else
      var r := FirstDecodedDict(contents[1..], parse);
      assert r.None? ==> forall k :: 0 <= k < |contents| ==> !DecodesToDict(contents[k], parse) by {
        if r.None? {
          forall k | 0 < k < |contents| ensures !DecodesToDict(contents[k], parse) {
            assert contents[k] == contents[1..][k - 1];
          }
        }
      }
      assert r.Some? ==> exists k :: FirstDecoded(contents, parse, k) && JObj(r.value) == parse(contents[k].text.s).value by {
        if r.Some? {
          var k :| FirstDecoded(contents[1..], parse, k) && JObj(r.value) == parse(contents[1..][k].text.s).value;
          forall j | 0 <= j < k + 1 ensures !DecodesToDict(contents[j], parse) {
            if j > 0 {
              assert contents[j] == contents[1..][j - 1];
            }
          }
          assert FirstDecoded(contents, parse, k + 1);
        }
      }
      r
  }

  /** Only one block can be the first to decode: the search is deterministic. */
  lemma FirstDecodedUnique(contents: seq<ContentBlock>, parse: string -> Option<Json>, i: int, k: int)
    requires FirstDecoded(contents, parse, i) && FirstDecoded(contents, parse, k)
    ensures i == k
  {
  }

  /** The raw text of the first block, when it is truthy. */
  function FirstText(contents: seq<ContentBlock>): Option<Json> {
    if contents != [] && Truthy(contents[0].text) then Some(contents[0].text) else None
  }

  /** `_extract_structured_from_mcp_result(result)` */
  function ExtractStructured(result: ToolCallResult, parse: string -> Option<Json>): Json {
    if result.structuredContent.JObj? then Unwrap(result.structuredContent.fields)
    else if result.structuredContentSnake.JObj? then Unwrap(result.structuredContentSnake.fields)
    else
      match FirstDecodedDict(result.content, parse)
      case Some(outer) => Unwrap(outer)
      case None =>
        match FirstText(result.content)
        case Some(text) => text
        case None => JObj([])
  }

  /**
   * The sources in order of precedence: the camelCase attribute when it is
   * a dict, then the snake_case one, then the first block decoding to a
   * dict, then the first block's raw text, and `{}` when none applies.
   */
  lemma ExtractPrecedence(result: ToolCallResult, parse: string -> Option<Json>, k: int)
    ensures result.structuredContent.JObj? ==>
              ExtractStructured(result, parse) == Unwrap(result.structuredContent.fields)
    ensures !result.structuredContent.JObj? && result.structuredContentSnake.JObj? ==>
              ExtractStructured(result, parse) == Unwrap(result.structuredContentSnake.fields)
    ensures !result.structuredContent.JObj? && !result.structuredContentSnake.JObj?
            && FirstDecoded(result.content, parse, k) ==>
              ExtractStructured(result, parse) == Unwrap(parse(result.content[k].text.s).value.fields)
    ensures !result.structuredContent.JObj? && !result.structuredContentSnake.JObj?
            && (forall j :: 0 <= j < |result.content| ==> !DecodesToDict(result.content[j], parse)) ==>
              ExtractStructured(result, parse) ==
                (if result.content != [] && Truthy(result.content[0].text) then result.content[0].text else JObj([]))
  {
    if !result.structuredContent.JObj? && !result.structuredContentSnake.JObj? && FirstDecoded(result.content, parse, k) {
      var r := FirstDecodedDict(result.content, parse);
      var i :| FirstDecoded(result.content, parse, i) && JObj(r.value) == parse(result.content[i].text.s).value;
      FirstDecodedUnique(result.content, parse, i, k);
    }
  }

  /**
   * The extraction yields a dict unless it falls back to the first block's
   * raw text, which happens only when no source held a dict.
   */
  lemma ExtractDictOrText(result: ToolCallResult, parse: string -> Option<Json>)
    ensures var r := ExtractStructured(result, parse);
            r.JObj? || (r == result.content[0].text && Truthy(r)
                        && !result.structuredContent.JObj? && !result.structuredContentSnake.JObj?
                        && forall j :: 0 <= j < |result.content| ==> !DecodesToDict(result.content[j], parse))
  {
  }
}
