/**
 * The data the `get_offers_for_items` tool of the supplier service builds
 * (supplier-pricing-mcp/tools/get_offers_for_items.py): offers, one block
 * per requested item, and the structured result with its totals. Both
 * provider loops read each item the same way and decide, item by item,
 * what to append to four running values; `ItemOutcome` is what one
 * iteration appends and `TallyOf` is the state after a run of iterations.
 */
module OfferData {
  import opened Wrappers
  import opened Json
  import opened PyText
  import opened PyValue
  import opened Loops

  const EMPTY_SKU_LABEL: string := "<empty>"

  /** One offer as the tool reports it; the variant id and description are whatever the provider sent. */
  datatype Offer = Offer(supplier: string, sku: string, unitPrice: real, currency: string, variantId: Json, description: Json)

  /** The offers for one requested item; `item` is the request as it was given. */
  datatype ItemBlock = ItemBlock(item: Json, offers: seq<Offer>)

  /** The tool's structured result. */
  datatype Structured = Structured(
    currency: string, items: seq<ItemBlock>, totalMinCost: real, unavailableSkus: seq<string>,
    resolvedVariants: Fields, provider: string, fallbackUsed: bool, reason: Option<string>)

  /** `(item or {})` before `.get`: a falsy item reads as an empty dict, a truthy non-dict raises. */
  function ItemFields(item: Json): (r: Result<Fields, string>)
    ensures item.JObj? && item.fields != [] ==> r == Success(item.fields)
    ensures !Truthy(item) ==> r == Success([])
    ensures r.Failure? <==> Truthy(item) && !item.JObj?
  {
    if !Truthy(item) then Success([])
    else if item.JObj? then Success(item.fields)
    else Failure(NoGetMessage(item))
  }

  /** What the provider loops read from one requested item. */
  datatype ItemRequest = ItemRequest(sku: string, qty: int, maxPrice: Option<real>)

  /**
   * The stripped `str(sku or "")`, `int(quantity or 0)` with 0 when that
   * raises, and `float(max_unit_price)` with `None` when it is missing,
   * `None`, or raises.
   */
  function ReadItem(fs: Fields): (r: ItemRequest)
    ensures Get(fs, "max_unit_price").JNull? ==> r.maxPrice.None?
  {
    var sku := Strip(Str(Or(Get(fs, "sku"), JStr(""))));
    var qty := ToInt(Or(GetOr(fs, "quantity", JInt(0)), JInt(0))).GetOr(0);
    var maxRaw := Get(fs, "max_unit_price");
    var maxPrice := if maxRaw.JNull? then None else ToFloat(maxRaw);
    ItemRequest(sku, qty, maxPrice)
  }

  /** An item the provider is asked about: it has a SKU and a positive quantity. */
  predicate Requestable(r: ItemRequest) {
    r.sku != "" && r.qty > 0
  }

  /** How an item without offers is listed: its SKU, or a placeholder when it has none. */
  function SkuLabel(sku: string): (shown: string)
    ensures shown != ""
    ensures sku != "" ==> shown == sku
  {
    if sku != "" then sku else EMPTY_SKU_LABEL
  }

  /** `unit_price * qty` */
  function Cost(unitPrice: real, qty: int): real {
    unitPrice * qty as real
  }

  /** What one iteration of a provider loop appends. */
  datatype ItemOutcome = ItemOutcome(
    item: Json, offers: seq<Offer>, unavailable: Option<string>, resolved: Option<(string, Json)>, cost: real)

  /** The four values a provider loop keeps. */
  datatype Tally = Tally(blocks: seq<ItemBlock>, unavailable: seq<string>, resolved: Fields, total: real)

  function AddOutcome(t: Tally, o: ItemOutcome): Tally {
    Tally(t.blocks + [ItemBlock(o.item, o.offers)],
          t.unavailable + (if o.unavailable.Some? then [o.unavailable.value] else []),
          if o.resolved.Some? then Put(t.resolved, o.resolved.value.0, o.resolved.value.1) else t.resolved,
          t.total + o.cost)
  }

  /** The values after the iterations that produced `outs`. */
  function TallyOf(outs: seq<ItemOutcome>): Tally {
    if outs == [] then Tally([], [], [], 0.0)
    else AddOutcome(TallyOf(outs[..|outs| - 1]), outs[|outs| - 1])
  }

  /** The sum of the costs, added up from the first outcome. */
  function SumCosts(outs: seq<ItemOutcome>): real {
    if outs == [] then 0.0 else outs[0].cost + SumCosts(outs[1..])
  }

  lemma {:induction false} SumCostsAppend(outs: seq<ItemOutcome>, o: ItemOutcome)
    ensures SumCosts(outs + [o]) == SumCosts(outs) + o.cost
  {
    if outs != [] {
      assert (outs + [o])[1..] == outs[1..] + [o];
      SumCostsAppend(outs[1..], o);
    }
  }

  /** One block per iteration, in order. */
  lemma {:induction false} TallyBlocks(outs: seq<ItemOutcome>)
    ensures |TallyOf(outs).blocks| == |outs|
    ensures forall k :: 0 <= k < |outs| ==> TallyOf(outs).blocks[k] == ItemBlock(outs[k].item, outs[k].offers)
  {
    if outs != [] {
      TallyBlocks(outs[..|outs| - 1]);
    }
  }

  /** The listed SKUs are exactly those the iterations reported as unavailable. */
  lemma {:induction false} TallyUnavailable(outs: seq<ItemOutcome>)
    ensures forall s :: s in TallyOf(outs).unavailable <==> exists k :: 0 <= k < |outs| && outs[k].unavailable == Some(s)
  {
    if outs != [] {
      var init := outs[..|outs| - 1];
      TallyUnavailable(init);
      forall s | s in TallyOf(outs).unavailable
        ensures exists k :: 0 <= k < |outs| && outs[k].unavailable == Some(s)
      {
        if s in TallyOf(init).unavailable {
          var k :| 0 <= k < |init| && init[k].unavailable == Some(s);
          assert outs[k] == init[k];
        }
      }
      forall s | exists k :: 0 <= k < |outs| && outs[k].unavailable == Some(s)
        ensures s in TallyOf(outs).unavailable
      {
        var k :| 0 <= k < |outs| && outs[k].unavailable == Some(s);
        if k < |init| {
          assert init[k] == outs[k];
        }
      }
    }
  }

  /** The resolved SKUs are exactly those the iterations resolved. */
  lemma TallyResolved(outs: seq<ItemOutcome>)
    ensures forall s :: HasKey(TallyOf(outs).resolved, s) <==>
                          exists k :: 0 <= k < |outs| && outs[k].resolved.Some? && outs[k].resolved.value.0 == s
  {
    forall s ensures HasKey(TallyOf(outs).resolved, s) <==>
                     exists k :: 0 <= k < |outs| && outs[k].resolved.Some? && outs[k].resolved.value.0 == s
    {
      TallyResolvedAt(outs, s);
    }
  }

  lemma {:induction false} TallyResolvedAt(outs: seq<ItemOutcome>, s: string)
    ensures HasKey(TallyOf(outs).resolved, s) <==>
              exists k :: 0 <= k < |outs| && outs[k].resolved.Some? && outs[k].resolved.value.0 == s
  {
    if outs != [] {
      var init := outs[..|outs| - 1];
      var o := outs[|outs| - 1];
      TallyResolvedAt(init, s);
      var before := TallyOf(init).resolved;
      assert TallyOf(outs) == AddOutcome(TallyOf(init), o);
      if o.resolved.Some? {
        PutHasKey(before, o.resolved.value.0, o.resolved.value.1, s);
      }
      if exists k :: 0 <= k < |outs| && outs[k].resolved.Some? && outs[k].resolved.value.0 == s {
        var k :| 0 <= k < |outs| && outs[k].resolved.Some? && outs[k].resolved.value.0 == s;
        if k < |init| {
          assert init[k] == outs[k];
        }
      }
      if exists k :: 0 <= k < |init| && init[k].resolved.Some? && init[k].resolved.value.0 == s {
        var k :| 0 <= k < |init| && init[k].resolved.Some? && init[k].resolved.value.0 == s;
        assert outs[k] == init[k];
      }
    }
  }

  /** Setting a key adds that key to the dict's keys and no other. */
  lemma PutHasKey(fs: Fields, key: string, v: Json, s: string)
    ensures HasKey(Put(fs, key, v), s) <==> HasKey(fs, s) || key == s
  {
    if key != s {
      assert Lookup(Put(fs, key, v), s) == Lookup(fs, s);
    }
  }

  /** The running total is the sum of the iterations' costs. */
  lemma {:induction false} TallyTotal(outs: seq<ItemOutcome>)
    ensures TallyOf(outs).total == SumCosts(outs)
  {
    if outs != [] {
      var init := outs[..|outs| - 1];
      TallyTotal(init);
      assert outs == init + [outs[|outs| - 1]];
      SumCostsAppend(init, outs[|outs| - 1]);
    }
  }

  /** A provider loop over the requested items: the four values, or the first exception an item raises. */
  function Run(items: seq<Json>, step: Json -> Result<Option<ItemOutcome>, string>): Result<Tally, string> {
    match Collect(items, step)
    case Failure(e) => Failure(e)
    case Success(outs) => Success(TallyOf(outs))
  }

  /** Every item that does not raise yields an outcome for that same item. */
  ghost predicate OneOutcomePerItem(step: Json -> Result<Option<ItemOutcome>, string>) {
    forall x :: step(x).Success? ==> step(x).value.Some? && step(x).value.value.item == x
  }

  /** An item `step` does not raise on is readable: `None`, or a dict. */
  ghost predicate ReadsItems(step: Json -> Result<Option<ItemOutcome>, string>) {
    forall x :: step(x).Success? ==> ItemFields(x).Success?
  }

  /** The outcome `step` gives an item that does not raise. */
  function OutcomeOf(step: Json -> Result<Option<ItemOutcome>, string>, x: Json): ItemOutcome
    requires OneOutcomePerItem(step) && step(x).Success?
  {
    step(x).value.value
  }

  /**
   * A provider loop that finishes emits one block per item, in order, each
   * holding that item and the offers its outcome found.
   */
  lemma RunBlocks(items: seq<Json>, step: Json -> Result<Option<ItemOutcome>, string>)
    requires OneOutcomePerItem(step) && Run(items, step).Success?
    ensures forall k :: 0 <= k < |items| ==> step(items[k]).Success?
    ensures |Run(items, step).value.blocks| == |items|
    ensures forall k :: 0 <= k < |items| ==>
              Run(items, step).value.blocks[k] == ItemBlock(items[k], OutcomeOf(step, items[k]).offers)
  {
    CollectEvery(items, step);
    TallyBlocks(Collect(items, step).value);
  }

  /** The SKUs a finished loop lists as unavailable are exactly those its items' outcomes reported. */
  lemma RunUnavailable(items: seq<Json>, step: Json -> Result<Option<ItemOutcome>, string>)
    requires OneOutcomePerItem(step) && Run(items, step).Success?
    ensures forall k :: 0 <= k < |items| ==> step(items[k]).Success?
    ensures forall s :: s in Run(items, step).value.unavailable <==>
              exists k :: 0 <= k < |items| && OutcomeOf(step, items[k]).unavailable == Some(s)
  {
    var outs := Collect(items, step).value;
    CollectEvery(items, step);
    TallyUnavailable(outs);
  }

  /** The SKUs a finished loop resolved are exactly those its items' outcomes resolved. */
  lemma RunResolved(items: seq<Json>, step: Json -> Result<Option<ItemOutcome>, string>)
    requires OneOutcomePerItem(step) && Run(items, step).Success?
    ensures forall k :: 0 <= k < |items| ==> step(items[k]).Success?
    ensures forall s :: HasKey(Run(items, step).value.resolved, s) <==>
              exists k :: 0 <= k < |items| && OutcomeOf(step, items[k]).resolved.Some?
                          && OutcomeOf(step, items[k]).resolved.value.0 == s
  {
    var outs := Collect(items, step).value;
    CollectEvery(items, step);
    TallyResolved(outs);
  }

  /** A finished loop's total is the sum of its outcomes' costs. */
  lemma RunTotal(items: seq<Json>, step: Json -> Result<Option<ItemOutcome>, string>)
    requires Run(items, step).Success?
    ensures Run(items, step).value.total == SumCosts(Collect(items, step).value)
  {
    TallyTotal(Collect(items, step).value);
  }

  /** A loop fails exactly when one of its items raises. */
  lemma RunFails(items: seq<Json>, step: Json -> Result<Option<ItemOutcome>, string>)
    ensures Run(items, step).Failure? <==> exists k :: 0 <= k < |items| && step(items[k]).Failure?
  {
    CollectSucceeds(items, step);
  }

  /**
   * The loop itself: append a block per item, list unavailable SKUs,
   * record resolved variants and add up the costs.
   */
  method RunItems(items: seq<Json>, step: Json -> Result<Option<ItemOutcome>, string>) returns (r: Result<Tally, string>)
    ensures r == Run(items, step)
  {
    var blocks: seq<ItemBlock> := [];
    var unavailable: seq<string> := [];
    var resolved: Fields := [];
    var total := 0.0;
    ghost var outs: seq<ItemOutcome> := [];
    for i := 0 to |items|
      invariant Collect(items[..i], step) == Success(outs)
      invariant TallyOf(outs) == Tally(blocks, unavailable, resolved, total)
    {
      CollectStep(items, i, step);
      var o := step(items[i]);
      if o.Failure? {
        CollectFailsFrom(items, i, |items|, step);
        assert items[..|items|] == items;
        return Failure(o.error);
      }
      if o.value.Some? {
        var out := o.value.value;
        ghost var before := Tally(blocks, unavailable, resolved, total);
        blocks := blocks + [ItemBlock(out.item, out.offers)];
        if out.unavailable.Some? {
          unavailable := unavailable + [out.unavailable.value];
        }
        if out.resolved.Some? {
          resolved := Put(resolved, out.resolved.value.0, out.resolved.value.1);
        }
        total := total + out.cost;
        assert Tally(blocks, unavailable, resolved, total) == AddOutcome(before, out);
        assert (outs + [out])[..|outs|] == outs;
        outs := outs + [out];
      }
    }
    assert items[..|items|] == items;
    return Success(Tally(blocks, unavailable, resolved, total));
  }

  // ----- the structured result as a dict -----

  function OfferJson(o: Offer): Json {
    JObj([("supplier", JStr(o.supplier)), ("sku", JStr(o.sku)), ("unit_price", JFloat(o.unitPrice)),
          ("currency", JStr(o.currency)), ("quantity_available", JNull), ("variant_id", o.variantId),
          ("description", o.description)])
  }

  function BlockJson(b: ItemBlock): Json {
    JObj([("item", b.item), ("offers", JArr(seq(|b.offers|, k requires 0 <= k < |b.offers| => OfferJson(b.offers[k]))))])
  }

  /** The dict the tool returns as structured content. */
  function StructuredJson(s: Structured): Json {
    JObj([("currency", JStr(s.currency)),
          ("items", JArr(seq(|s.items|, k requires 0 <= k < |s.items| => BlockJson(s.items[k])))),
          ("total_min_cost", JFloat(s.totalMinCost)),
          ("unavailable_skus", JArr(seq(|s.unavailableSkus|, k requires 0 <= k < |s.unavailableSkus| => JStr(s.unavailableSkus[k])))),
          ("resolved_variants", JObj(s.resolvedVariants)),
          ("provider", JStr(s.provider)),
          ("fallback_used", JBool(s.fallbackUsed)),
          ("reason", if s.reason.Some? then JStr(s.reason.value) else JNull)])
  }

  /**
   * `_wrap_tool_result(structured, text)`: the envelope with the text as
   * the only content block, the structured dict as it is, and no error flag.
   */
  function WrapToolResult(structured: Json, text: string): (r: Json)
    ensures r.JObj?
    ensures Lookup(r.fields, "structuredContent") == Some(structured)
    ensures Lookup(r.fields, "isError") == Some(JBool(false))
    ensures Lookup(r.fields, "content") == Some(JArr([JObj([("type", JStr("text")), ("text", JStr(text))])]))
  {
    var fs := [("_meta", JNull), ("content", JArr([JObj([("type", JStr("text")), ("text", JStr(text))])])),
               ("structuredContent", structured), ("isError", JBool(false))];
    assert fs[0].0 != "content" && fs[0].0 != "structuredContent" && fs[0].0 != "isError" by {
      assert fs[0].0[0] == '_';
    }
    assert fs[1].0 != "structuredContent" && fs[1].0 != "isError" by {
      assert fs[1].0[0] == 'c' && "isError"[0] == 'i';
    }
    assert fs[2].0 != "isError" by {
      assert |fs[2].0| == 17;
    }
    assert Lookup(fs[2..], "isError") == Lookup(fs[3..], "isError");
    assert Lookup(fs[1..], "isError") == Lookup(fs[2..], "isError");
    JObj(fs)
  }
}
