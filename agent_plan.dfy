/**
 * How the agent settles the plan's totals (`build_procurement_plan` and
 * `build_procurement_plan_tools_agent` in agent/main.py): the supplier
 * totals are converted to the requested currency only when the currencies
 * differ and there is something to convert. In the tools mode the replies
 * the language model already obtained are taken from the trace of tool
 * calls, and a tool is called directly only when the trace lacks a usable
 * reply. The tool calls themselves are parameters: the reply each would
 * give.
 */
module AgentPlan {
  import opened Wrappers
  import opened Json
  import opened PyText
  import opened PyValue
  import opened AgentTotals

  const SUPPLIER_TOOL: string := "supplier_get_offers"
  const FX_TOOL: string := "fx_convert_amount"
  const SUPPLIER_AUTO: string := "supplier_get_offers (auto)"
  const FX_AUTO: string := "fx_convert_amount (auto)"

  /** One entry of the tool trace: the tool's name, its arguments and its reply. */
  datatype ToolInvocation = ToolInvocation(name: string, args: Json, result: Json)

  /** Entry `k` is the last one named `name`. */
  predicate LastNamed(trace: seq<ToolInvocation>, name: string, k: int) {
    0 <= k < |trace| && trace[k].name == name && forall j :: k < j < |trace| ==> trace[j].name != name
  }

  /** `_find_last_tool_result(tool_trace, name)`: the reply of the last call of `name`, or `None`. */
  function FindLastToolResult(trace: seq<ToolInvocation>, name: string): (r: Json)
    ensures (forall k :: 0 <= k < |trace| ==> trace[k].name != name) ==> r == JNull
    ensures forall k :: LastNamed(trace, name, k) ==> r == trace[k].result
  {
    if trace == [] then JNull
    else if trace[|trace| - 1].name == name then
      assert forall k :: LastNamed(trace, name, k) ==> k == |trace| - 1;
      trace[|trace| - 1].result
    else
      var init := trace[..|trace| - 1];
      assert forall k :: LastNamed(trace, name, k) ==> LastNamed(init, name, k);
      FindLastToolResult(init, name)
  }

  /** A later call of the same tool hides every earlier one. */
  lemma FindLastAfterCall(trace: seq<ToolInvocation>, call: ToolInvocation)
    ensures FindLastToolResult(trace + [call], call.name) == call.result
    ensures forall name :: name != call.name ==> FindLastToolResult(trace + [call], name) == FindLastToolResult(trace, name)
  {
    assert (trace + [call])[..|trace|] == trace;
  }

  /** `currency.upper() != target.upper() and total_net > 0` */
  predicate NeedFx(supplier: Totals, targetCurrency: string) {
    Upper(supplier.currency) != Upper(targetCurrency) && supplier.totalNet > 0.0
  }

  /** `float(fx.get("amount_quote") or 0.0)`, or the unconverted total when that raises. */
  function ConvertedTotal(fx: Fields, unconverted: real): real {
    ToFloat(Or(Get(fx, "amount_quote"), JFloat(0.0))).GetOr(unconverted)
  }

  /** The target totals given the FX reply: converted when the reply is a dict, else the supplier amount relabelled. */
  function TargetTotals(supplier: Totals, targetCurrency: string, fx: Json): (t: Totals)
    ensures t.currency == targetCurrency && t.totalItems == supplier.totalItems
    ensures !fx.JObj? ==> t.totalNet == supplier.totalNet
    ensures fx.JObj? && ToFloat(Get(fx.fields, "amount_quote")).Some? && Truthy(Get(fx.fields, "amount_quote")) ==>
              t.totalNet == ToFloat(Get(fx.fields, "amount_quote")).value
    ensures fx.JObj? && !Truthy(Get(fx.fields, "amount_quote")) ==> t.totalNet == 0.0
    ensures fx.JObj? && Truthy(Get(fx.fields, "amount_quote")) && ToFloat(Get(fx.fields, "amount_quote")).None? ==>
              t.totalNet == supplier.totalNet
  {
    if fx.JObj? then Totals(targetCurrency, ConvertedTotal(fx.fields, supplier.totalNet), supplier.totalItems)
    else Totals(targetCurrency, supplier.totalNet, supplier.totalItems)
  }

  /** The FX reply the plan records and the totals in the target currency. */
  datatype FxOutcome = FxOutcome(fx: Json, target: Totals)

  /**
   * The pipeline mode: the FX tool is called, with the supplier total and
   * the pair, only when conversion is needed; otherwise the plan has no FX
   * reply and the supplier total under the target currency.
   */
  function PipelineFx(supplier: Totals, targetCurrency: string, convert: (real, string, string) -> Json): (r: FxOutcome)
    ensures !NeedFx(supplier, targetCurrency) ==>
              r == FxOutcome(JNull, Totals(targetCurrency, supplier.totalNet, supplier.totalItems))
    ensures NeedFx(supplier, targetCurrency) ==> r.fx == convert(supplier.totalNet, supplier.currency, targetCurrency)
    ensures NeedFx(supplier, targetCurrency) ==> r.target == TargetTotals(supplier, targetCurrency, r.fx)
    ensures NeedFx(supplier, targetCurrency) && !r.fx.JObj? ==> r.target.totalNet == supplier.totalNet
    ensures r.target.currency == targetCurrency && r.target.totalItems == supplier.totalItems
  {
    if NeedFx(supplier, targetCurrency) then
      var fx := convert(supplier.totalNet, supplier.currency, targetCurrency);
      FxOutcome(fx, TargetTotals(supplier, targetCurrency, fx))
    else FxOutcome(JNull, Totals(targetCurrency, supplier.totalNet, supplier.totalItems))
  }

  /** The reply the tools mode plans with, and the trace with any direct call appended. */
  datatype ToolsFx = ToolsFx(outcome: FxOutcome, trace: seq<ToolInvocation>)

  /** The arguments of a direct FX call. */
  function FxArgs(supplier: Totals, targetCurrency: string): Json {
    JObj([("amount", JFloat(supplier.totalNet)), ("base", JStr(supplier.currency)), ("quote", JStr(targetCurrency))])
  }

  /** `fx.get(key, "").upper()`; a value that is not text raises AttributeError. */
  function UpperField(fx: Fields, key: string): Result<string, string> {
    var v := GetOr(fx, key, JStr(""));
    if v.JStr? then Success(Upper(v.s))
    else Failure("AttributeError(\"'" + TypeName(v) + "' object has no attribute 'upper'\")")
  }

  /**
   * The tools mode as written: a traced FX reply is kept when it is a dict
   * whose `base` matches the supplier currency; its `quote` is not looked at.
   */
  function ToolsAgentFx(supplier: Totals, targetCurrency: string, trace: seq<ToolInvocation>,
                        convert: (real, string, string) -> Json): Result<ToolsFx, string>
  {
    var traced := FindLastToolResult(trace, FX_TOOL);
    var unconverted := Totals(targetCurrency, supplier.totalNet, supplier.totalItems);
    if !NeedFx(supplier, targetCurrency) then Success(ToolsFx(FxOutcome(traced, unconverted), trace))
    else
      var base := if traced.JObj? then UpperField(traced.fields, "base") else Success("");
      if base.Failure? then Failure(base.error)
      else
        var usable := traced.JObj? && base.value == Upper(supplier.currency);
        var fx := if usable then traced else convert(supplier.totalNet, supplier.currency, targetCurrency);
        var trace' := if usable then trace else trace + [ToolInvocation(FX_AUTO, FxArgs(supplier, targetCurrency), fx)];
        Success(ToolsFx(FxOutcome(fx, TargetTotals(supplier, targetCurrency, fx)), trace'))
  }

  /** The traced reply converts exactly the supplier currency into the target currency. */
  predicate ConvertsPair(fx: Json, supplier: Totals, targetCurrency: string) {
    fx.JObj?
    && UpperField(fx.fields, "base") == Success(Upper(supplier.currency))
    && UpperField(fx.fields, "quote") == Success(Upper(targetCurrency))
  }

  /**
   * The tools mode as intended: a traced FX reply is kept only when both
   * its `base` and its `quote` match the pair being converted.
   */
  function ToolsAgentFxChecked(supplier: Totals, targetCurrency: string, trace: seq<ToolInvocation>,
                               convert: (real, string, string) -> Json): Result<ToolsFx, string>
  {
    var traced := FindLastToolResult(trace, FX_TOOL);
    var unconverted := Totals(targetCurrency, supplier.totalNet, supplier.totalItems);
    if !NeedFx(supplier, targetCurrency) then Success(ToolsFx(FxOutcome(traced, unconverted), trace))
    else
      var base := if traced.JObj? then UpperField(traced.fields, "base") else Success("");
      var quote := if traced.JObj? then UpperField(traced.fields, "quote") else Success("");
      if base.Failure? then Failure(base.error)
      else if quote.Failure? then Failure(quote.error)
      else
        var usable := ConvertsPair(traced, supplier, targetCurrency);
        var fx := if usable then traced else convert(supplier.totalNet, supplier.currency, targetCurrency);
        var trace' := if usable then trace else trace + [ToolInvocation(FX_AUTO, FxArgs(supplier, targetCurrency), fx)];
        Success(ToolsFx(FxOutcome(fx, TargetTotals(supplier, targetCurrency, fx)), trace'))
  }

  /**
   * With the pair checked, a converted total comes either from a traced
   * reply for exactly the pair or from a direct call for the pair, which is
   * then the last FX call in the trace.
   */
  lemma CheckedFxUsesThePair(supplier: Totals, targetCurrency: string, trace: seq<ToolInvocation>,
                             convert: (real, string, string) -> Json)
    requires NeedFx(supplier, targetCurrency)
    requires ToolsAgentFxChecked(supplier, targetCurrency, trace, convert).Success?
    ensures var r := ToolsAgentFxChecked(supplier, targetCurrency, trace, convert).value;
            (ConvertsPair(r.outcome.fx, supplier, targetCurrency) && r.trace == trace
             && r.outcome.fx == FindLastToolResult(trace, FX_TOOL))
            || (r.outcome.fx == convert(supplier.totalNet, supplier.currency, targetCurrency)
                && r.trace == trace + [ToolInvocation(FX_AUTO, FxArgs(supplier, targetCurrency), r.outcome.fx)])
    ensures var r := ToolsAgentFxChecked(supplier, targetCurrency, trace, convert).value;
            r.outcome.target.currency == targetCurrency && r.outcome.target.totalItems == supplier.totalItems
  {
  }

  /**
   * The check as written lets a traced reply for another target currency
   * through: a dollar-to-rouble conversion is reported as the euro total.
   */
  lemma FxQuoteNotChecked(convert: (real, string, string) -> Json)
    ensures var supplier := Totals("USD", 10.0, 1);
            var fx := JObj([("base", JStr("USD")), ("quote", JStr("RUB")), ("amount_quote", JFloat(900.0))]);
            var trace := [ToolInvocation(FX_TOOL, JObj([]), fx)];
            var r := ToolsAgentFx(supplier, "EUR", trace, convert);
            r.Success? && r.value.outcome.target == Totals("EUR", 900.0, 1) && !ConvertsPair(fx, supplier, "EUR")
  {
    var supplier := Totals("USD", 10.0, 1);
    var fields := [("base", JStr("USD")), ("quote", JStr("RUB")), ("amount_quote", JFloat(900.0))];
    var trace := [ToolInvocation(FX_TOOL, JObj([]), JObj(fields))];
    CapitalsKept("USD");
    CapitalsKept("EUR");
    CapitalsKept("RUB");
    assert Get(fields, "base") == JStr("USD");
    assert Get(fields, "quote") == JStr("RUB");
    assert Get(fields, "amount_quote") == JFloat(900.0);
    assert FindLastToolResult(trace, FX_TOOL) == JObj(fields);
    assert NeedFx(supplier, "EUR");
    assert UpperField(fields, "base") == Success("USD");
    assert UpperField(fields, "quote") == Success("RUB");
    assert TargetTotals(supplier, "EUR", JObj(fields)) == Totals("EUR", 900.0, 1);
  }

  /** A code written in Latin capitals is its own upper case. */
  lemma CapitalsKept(code: string)
    requires forall k :: 0 <= k < |code| ==> 'A' <= code[k] <= 'Z'
    ensures Upper(code) == code
  {
  }

  /**
   * The tools mode's supplier reply: the last one in the trace, or, when
   * the model never asked for offers, a direct call that is then traced.
   */
  function ToolsAgentSupplier(trace: seq<ToolInvocation>, items: Json, directReply: Json): (r: (Json, seq<ToolInvocation>))
    ensures (forall k :: 0 <= k < |trace| ==> trace[k].name != SUPPLIER_TOOL) ==>
              r.0 == directReply && r.1 == trace + [ToolInvocation(SUPPLIER_AUTO, SupplierArgs(items), directReply)]
    ensures forall k :: LastNamed(trace, SUPPLIER_TOOL, k) && !trace[k].result.JNull? ==> r == (trace[k].result, trace)
  {
    var traced := FindLastToolResult(trace, SUPPLIER_TOOL);
    if traced.JNull? then (directReply, trace + [ToolInvocation(SUPPLIER_AUTO, SupplierArgs(items), directReply)])
    else (traced, trace)
  }

  /** The arguments of a direct supplier call: the parsed items and three suppliers per item. */
  function SupplierArgs(items: Json): Json {
    JObj([("items", items), ("max_suppliers_per_item", JInt(3))])
  }

  /** Both modes report the target totals with the supplier's unit count and no conversion when none is needed. */
  lemma ModesAgreeWithoutConversion(supplier: Totals, targetCurrency: string, trace: seq<ToolInvocation>,
                                    convert: (real, string, string) -> Json)
    requires !NeedFx(supplier, targetCurrency)
    ensures ToolsAgentFx(supplier, targetCurrency, trace, convert).Success?
    ensures ToolsAgentFx(supplier, targetCurrency, trace, convert).value.outcome.target
              == PipelineFx(supplier, targetCurrency, convert).target
              == Totals(targetCurrency, supplier.totalNet, supplier.totalItems)
  {
  }

  /** When the trace has no usable FX reply, the tools mode converts exactly as the pipeline does. */
  lemma ToolsFallsBackToPipeline(supplier: Totals, targetCurrency: string, trace: seq<ToolInvocation>,
                                 convert: (real, string, string) -> Json)
    requires NeedFx(supplier, targetCurrency)
    requires !FindLastToolResult(trace, FX_TOOL).JObj?
    ensures ToolsAgentFx(supplier, targetCurrency, trace, convert).Success?
    ensures ToolsAgentFx(supplier, targetCurrency, trace, convert).value.outcome == PipelineFx(supplier, targetCurrency, convert)
    ensures FindLastToolResult(ToolsAgentFx(supplier, targetCurrency, trace, convert).value.trace, FX_AUTO)
              == convert(supplier.totalNet, supplier.currency, targetCurrency)
  {
    FindLastAfterCall(trace, ToolInvocation(FX_AUTO, FxArgs(supplier, targetCurrency), convert(supplier.totalNet, supplier.currency, targetCurrency)));
  }
}
