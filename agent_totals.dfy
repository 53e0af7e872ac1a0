/**
 * The totals the agent computes from the supplier service's reply
 * (`_aggregate_totals_from_supplier_response` in agent/main.py): the
 * currency, the total cost and the number of units requested, read from
 * the structured result or from the tool envelope around it.
 */
module AgentTotals {
  import opened Wrappers
  import opened Json
  import opened PyValue
  import opened Loops

  const DEFAULT_CURRENCY: string := "USD"

  datatype Totals = Totals(currency: string, totalNet: real, totalItems: int)

  /** The totals of a reply that cannot be read. */
  const EMPTY_TOTALS: Totals := Totals(DEFAULT_CURRENCY, 0.0, 0)

  /** One envelope level: a dict under "structuredContent", else one under "structured_content", else the reply. */
  function UnwrapReply(reply: Fields): (r: Fields)
    ensures Get(reply, "structuredContent").JObj? ==> r == Get(reply, "structuredContent").fields
    ensures !Get(reply, "structuredContent").JObj? && Get(reply, "structured_content").JObj? ==>
              r == Get(reply, "structured_content").fields
    ensures !Get(reply, "structuredContent").JObj? && !Get(reply, "structured_content").JObj? ==> r == reply
  {
    if HasKey(reply, "structuredContent") && Get(reply, "structuredContent").JObj? then Get(reply, "structuredContent").fields
    else if HasKey(reply, "structured_content") && Get(reply, "structured_content").JObj? then Get(reply, "structured_content").fields
    else reply
  }

  /** `int(item.get("quantity", 0))` for the item of one block, 0 when `int()` raises. */
  function BlockQuantity(block: Json): (r: Result<Option<int>, string>)
    ensures r.Failure? <==> !block.JObj? || !Or(Get(block.fields, "item"), JObj([])).JObj?
    ensures r.Success? ==> r.value.Some?
  {
    if !block.JObj? then Failure(NoGetMessage(block))
    else
      var item := Or(Get(block.fields, "item"), JObj([]));
      if !item.JObj? then Failure(NoGetMessage(item))
      else Success(Some(ToInt(GetOr(item.fields, "quantity", JInt(0))).GetOr(0)))
  }

  function QuantityStep(): (step: Json -> Result<Option<int>, string>)
    ensures forall x :: step(x) == BlockQuantity(x)
  {
    x => BlockQuantity(x)
  }

  function Sum(xs: seq<int>): int {
    if xs == [] then 0 else Sum(xs[..|xs| - 1]) + xs[|xs| - 1]
  }

  /**
   * What `for item_block in items` walks: the elements of a list, the keys
   * of a dict and the characters of a string (on each of which `.get`
   * raises), or a TypeError for a value that is not iterable.
   */
  function Iterated(items: Json): Result<seq<Json>, string> {
    match items
    case JArr(elems) => Success(elems)
    case JObj(fs) => Success(seq(|fs|, k requires 0 <= k < |fs| => JStr(fs[k].0)))
    case JStr(s) => Success(seq(|s|, k requires 0 <= k < |s| => JStr([s[k]])))
    case _ => Failure("TypeError(\"'" + TypeName(items) + "' object is not iterable\")")
  }

  /** `_aggregate_totals_from_supplier_response(supplier_resp)` */
  function AggregateTotals(reply: Json): Result<Totals, string> {
    if !reply.JObj? then Success(EMPTY_TOTALS)
    else
      var resp := UnwrapReply(reply.fields);
      var currency := Str(Or(Get(resp, "currency"), JStr(DEFAULT_CURRENCY)));
      var totalNet := ToFloat(GetOr(resp, "total_min_cost", JFloat(0.0))).GetOr(0.0);
      match Iterated(Or(GetOr(resp, "items", JArr([])), JArr([])))
      case Failure(e) => Failure(e)
      case Success(blocks) =>
        match Collect(blocks, QuantityStep())
        case Failure(e) => Failure(e)
        case Success(quantities) => Success(Totals(currency, totalNet, Sum(quantities)))
  }

  method AggregateTotalsFromSupplierResponse(reply: Json) returns (r: Result<Totals, string>)
    ensures r == AggregateTotals(reply)
  {
    if !reply.JObj? {
      return Success(EMPTY_TOTALS);
    }
    var resp := UnwrapReply(reply.fields);
    var currency := Str(Or(Get(resp, "currency"), JStr(DEFAULT_CURRENCY)));
    var totalNet := ToFloat(GetOr(resp, "total_min_cost", JFloat(0.0))).GetOr(0.0);
    var blocks := Iterated(Or(GetOr(resp, "items", JArr([])), JArr([])));
    if blocks.Failure? {
      return Failure(blocks.error);
    }
    var step := QuantityStep();
    var totalItems := 0;
    ghost var quantities: seq<int> := [];
    for i := 0 to |blocks.value|
      invariant Collect(blocks.value[..i], step) == Success(quantities)
      invariant totalItems == Sum(quantities)
    {
      CollectStep(blocks.value, i, step);
      var qty := BlockQuantity(blocks.value[i]);
      if qty.Failure? {
        CollectFailsFrom(blocks.value, i, |blocks.value|, step);
        assert blocks.value[..|blocks.value|] == blocks.value;
        return Failure(qty.error);
      }
      totalItems := totalItems + qty.value.value;
      assert (quantities + [qty.value.value])[..|quantities|] == quantities;
      quantities := quantities + [qty.value.value];
    }
    assert blocks.value[..|blocks.value|] == blocks.value;
    return Success(Totals(currency, totalNet, totalItems));
  }

  /** A reply that is text, or anything but a dict, counts as nothing in dollars. */
  lemma NonDictReplyIsEmpty(reply: Json)
    requires !reply.JObj?
    ensures AggregateTotals(reply) == Success(Totals("USD", 0.0, 0))
  {
  }

  /** The quantity a block contributes: its item's, when that converts to an integer, else 0. */
  function QuantityOf(block: Json): int
    requires block.JObj? && Or(Get(block.fields, "item"), JObj([])).JObj?
  {
    var item := Or(Get(block.fields, "item"), JObj([]));
    match ToInt(GetOr(item.fields, "quantity", JInt(0)))
    case Some(q) => q
    case None => 0
  }

  /** The block is a dict and its item is a dict or falsy. */
  predicate ReadableBlock(block: Json) {
    block.JObj? && Or(Get(block.fields, "item"), JObj([])).JObj?
  }

  /** The sum of the quantities of the first `n` blocks. */
  function QuantitySum(blocks: seq<Json>, n: nat): int
    requires n <= |blocks| && forall k :: 0 <= k < |blocks| ==> ReadableBlock(blocks[k])
  {
    if n == 0 then 0 else QuantitySum(blocks, n - 1) + QuantityOf(blocks[n - 1])
  }

  /**
   * Over a list of readable blocks, the item count is the sum of the
   * blocks' quantities, an unconvertible quantity counting 0.
   */
  lemma TotalItemsIsQuantitySum(blocks: seq<Json>)
    requires forall k :: 0 <= k < |blocks| ==> ReadableBlock(blocks[k])
    ensures Collect(blocks, QuantityStep()).Success?
    ensures Sum(Collect(blocks, QuantityStep()).value) == QuantitySum(blocks, |blocks|)
  {
    var step := QuantityStep();
    forall k | 0 <= k < |blocks| ensures step(blocks[k]) == Success(Some(QuantityOf(blocks[k]))) {
      ReadableQuantity(blocks[k]);
    }
    CollectQuantities(blocks, step);
  }

  /** A readable block contributes its quantity. */
  lemma ReadableQuantity(block: Json)
    requires ReadableBlock(block)
    ensures QuantityStep()(block) == Success(Some(QuantityOf(block)))
  {
  }

  /** The loop over blocks that each contribute their quantity sums those quantities. */
  lemma {:induction false} CollectQuantities(blocks: seq<Json>, step: Json -> Result<Option<int>, string>)
    requires forall k :: 0 <= k < |blocks| ==>
               ReadableBlock(blocks[k]) && step(blocks[k]) == Success(Some(QuantityOf(blocks[k])))
    ensures Collect(blocks, step).Success?
    ensures Sum(Collect(blocks, step).value) == QuantitySum(blocks, |blocks|)
  {
    if blocks != [] {
      var init := blocks[..|blocks| - 1];
      var last := blocks[|blocks| - 1];
      assert forall k :: 0 <= k < |init| ==> init[k] == blocks[k];
      CollectQuantities(init, step);
      QuantitySumPrefix(blocks, init, |init|);
      var acc := Collect(init, step).value;
      assert Collect(blocks, step) == Success(acc + [QuantityOf(last)]);
      assert (acc + [QuantityOf(last)])[..|acc|] == acc;
    }
  }

  lemma {:induction false} QuantitySumPrefix(blocks: seq<Json>, init: seq<Json>, n: nat)
    requires forall k :: 0 <= k < |blocks| ==> ReadableBlock(blocks[k])
    requires n <= |init| <= |blocks| && init == blocks[..|init|]
    ensures QuantitySum(init, n) == QuantitySum(blocks, n)
  {
    if n > 0 {
      QuantitySumPrefix(blocks, init, n - 1);
    }
  }

  /**
   * For a reply whose items are a list of readable blocks: the currency is
   * the reply's (or "USD"), the total is `float(total_min_cost)` (0.0 when
   * it is missing), an unconvertible total becomes 0.0, and the
   * item count is the sum of the quantities.
   */
  lemma AggregateReadable(reply: Fields)
    requires var items := Or(GetOr(UnwrapReply(reply), "items", JArr([])), JArr([]));
             items.JArr? && forall k :: 0 <= k < |items.elems| ==> ReadableBlock(items.elems[k])
    ensures var resp := UnwrapReply(reply);
            var items := Or(GetOr(resp, "items", JArr([])), JArr([])).elems;
            var r := AggregateTotals(JObj(reply));
            r.Success?
            && r.value.currency == Str(Or(Get(resp, "currency"), JStr("USD")))
            && (ToFloat(GetOr(resp, "total_min_cost", JFloat(0.0))).Some? ==>
                  r.value.totalNet == ToFloat(GetOr(resp, "total_min_cost", JFloat(0.0))).value)
            && (ToFloat(GetOr(resp, "total_min_cost", JFloat(0.0))).None? ==> r.value.totalNet == 0.0)
            && r.value.totalItems == QuantitySum(items, |items|)
  {
    var resp := UnwrapReply(reply);
    var itemsJson := Or(GetOr(resp, "items", JArr([])), JArr([]));
    var items := itemsJson.elems;
    assert Iterated(itemsJson) == Success(items);
    TotalItemsIsQuantitySum(items);
    var quantities := Collect(items, QuantityStep()).value;
    assert AggregateTotals(JObj(reply)) == Success(Totals(Str(Or(Get(resp, "currency"), JStr("USD"))),
      ToFloat(GetOr(resp, "total_min_cost", JFloat(0.0))).GetOr(0.0), Sum(quantities)));
  }

  /** The reply is read through at most one envelope: a dict two levels down is not reached. */
  lemma OneEnvelopeLevel(inner: Fields)
    ensures var reply := [("structuredContent", JObj([("structuredContent", JObj(inner))]))];
            UnwrapReply(reply) == [("structuredContent", JObj(inner))]
  {
    var reply := [("structuredContent", JObj([("structuredContent", JObj(inner))]))];
    assert Get(reply, "structuredContent") == JObj([("structuredContent", JObj(inner))]);
  }
}
