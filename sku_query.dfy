/**
 * How the offers tool turns an internal SKU into a catalogue search query
 * (`_normalize_sku_to_query` in
 * supplier-pricing-mcp/tools/get_offers_for_items.py): the first alias key,
 * in declared order, found in the lower-cased SKU decides the query;
 * otherwise the SKU itself is the query.
 */
module SkuQuery {
  import opened Wrappers
  import opened PyText

  /** The alias table in its declared order: (key looked for in the SKU, query). */
  const ALIASES: seq<(string, string)> := [
    ("unisex hoodie", "hoodie"), ("hoodie", "hoodie"), ("hoodie_unisex", "hoodie"),
    ("sweatshirt", "hoodie"), ("hoodie sweatshirt", "hoodie"),
    ("unisex t-shirt", "t-shirt"), ("t-shirt", "t-shirt"), ("tshirt", "t-shirt"),
    ("tee", "t-shirt"), ("tee shirt", "t-shirt"),
    ("mug", "mug"), ("coffee mug", "mug"), ("cup", "mug")]

  const DEFAULT_QUERY: string := "product"

  /** The query of the first alias whose key occurs in `s`, if any. */
  function FirstAlias(aliases: seq<(string, string)>, s: string): (r: Option<string>)
    ensures r.None? <==> forall k :: 0 <= k < |aliases| ==> !Contains(s, aliases[k].0)
    ensures r.Some? ==> exists k :: 0 <= k < |aliases| && FirstHit(aliases, s, k) && r.value == aliases[k].1
  {
    if aliases == [] then None
    else if Contains(s, aliases[0].0) then
      assert FirstHit(aliases, s, 0);
      Some(aliases[0].1)
    else
      var r := FirstAlias(aliases[1..], s);
      assert r.None? ==> forall k :: 0 <= k < |aliases| ==> !Contains(s, aliases[k].0) by {
        if r.None? {
          forall k | 0 < k < |aliases| ensures !Contains(s, aliases[k].0) {
            assert aliases[k] == aliases[1..][k - 1];
          }
        }
      }
      assert r.Some? ==> exists k :: 0 <= k < |aliases| && FirstHit(aliases, s, k) && r.value == aliases[k].1 by {
        if r.Some? {
          var k :| 0 <= k < |aliases[1..]| && FirstHit(aliases[1..], s, k) && r.value == aliases[1..][k].1;
          forall j | 0 <= j < k + 1 ensures !Contains(s, aliases[j].0) {
            if j > 0 {
              assert aliases[j] == aliases[1..][j - 1];
            }
          }
          assert FirstHit(aliases, s, k + 1);
        }
      }
      r
  }

  /** The key of entry `k` occurs in `s` and no earlier key does. */
  predicate FirstHit(aliases: seq<(string, string)>, s: string, k: int) {
    0 <= k < |aliases| && Contains(s, aliases[k].0)
    && forall j :: 0 <= j < k ==> !Contains(s, aliases[j].0)
  }

  /** Every alias maps to a non-empty query. */
  predicate NonEmptyTargets(aliases: seq<(string, string)>) {
    forall k :: 0 <= k < |aliases| ==> aliases[k].1 != ""
  }

  /** The normalisation over a given alias table. */
  function NormalizeWith(aliases: seq<(string, string)>, sku: string): (q: string)
    requires NonEmptyTargets(aliases)
    ensures q != ""
    ensures var norm := Lower(Strip(sku));
            (exists k :: FirstHit(aliases, norm, k) && q == aliases[k].1)
            || ((forall k :: 0 <= k < |aliases| ==> !Contains(norm, aliases[k].0))
                && q == (if Strip(sku) != "" then Strip(sku) else DEFAULT_QUERY))
  {
    var raw := Strip(sku);
    match FirstAlias(aliases, Lower(raw))
    case Some(query) => query
    case None => if raw != "" then raw else DEFAULT_QUERY
  }

  /**
   * `_normalize_sku_to_query(sku)`: the query is the target of the first
   * alias key found in the stripped, lower-cased SKU; without one it is the
   * stripped SKU in its own case, or "product" for a blank SKU. It is never
   * empty.
   */
  function NormalizeSkuToQuery(sku: string): (q: string)
    ensures q != ""
    ensures var norm := Lower(Strip(sku));
            (exists k :: FirstHit(ALIASES, norm, k) && q == ALIASES[k].1)
            || ((forall k :: 0 <= k < |ALIASES| ==> !Contains(norm, ALIASES[k].0))
                && q == (if Strip(sku) != "" then Strip(sku) else DEFAULT_QUERY))
  {
    NormalizeWith(ALIASES, sku)
  }

  /** Only one entry can be the first hit: the search is deterministic. */
  lemma FirstHitUnique(aliases: seq<(string, string)>, s: string, k1: int, k2: int)
    requires FirstHit(aliases, s, k1) && FirstHit(aliases, s, k2)
    ensures k1 == k2
  {
  }
}
