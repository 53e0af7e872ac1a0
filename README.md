# Procurement agent data shaping, modelled in Dafny

This project models the data-shaping core of a procurement agent made of three MCP
servers and an LLM-driven client:

- **supplier-pricing-mcp**:
  - `get_offers_for_items` turns SKUs into queries and picks the best catalogue product. It prices each item through Printful, then the fake store, then a demo fallback, and wraps the result as a tool reply.
  - `search_products` filters a catalogue by title, sorts it by price and truncates it.
  - `search_printful_catalog` assembles products and variants.
  - The Printful client extracts "data" lists, picks variant prices and keeps a single shared client.
  - The module also holds the request and result models and the environment/error helpers.
- **fx-rates-mcp**: `convert_amount` with its static fallback-rate table, rate extraction from the provider reply and the fallback bookkeeping, plus the float-env, error-formatting and currency-checking helpers.
- **agent**: the conversation history, the extraction of structured content from MCP replies, the aggregation of supplier totals, the tools-agent dialog loop and its tool dispatch, and the currency-conversion decision in both planning modes (pipeline and tools agent). It also covers the older extraction routine in the debug script.

How the model represents the system:

- JSON values are a datatype whose objects are association lists with first-match lookup.
- Python's `str`, `int`, `float`, truthiness and string methods are written out in `PyText` and `PyValue`.
- A raised exception is an error outcome (`Result`), never a precondition.
- HTTP requests, the LLM, `json.loads` and the environment are parameters.
- Where the source mutates state, the model is imperative:
  - a Dafny class holds the shared Printful client;
  - methods with loops build the matches, products, variants, prices, totals and the dialog trace.
- Each method is proved equal to a specification function, and the listed properties are lemmas about those functions.

## Model

| member | source | states |
|---|---|---|
| SkuQuery.FirstAlias | supplier-pricing-mcp/tools/get_offers_for_items.py:74-76 | no alias is found exactly when no key occurs in the text; a found query belongs to the first key, in declared order, that occurs |
| SkuQuery.NormalizeWith | supplier-pricing-mcp/tools/get_offers_for_items.py:52-79 | over any alias table with non-empty targets: the query is the target of the first key found in the stripped, lower-cased SKU, else the stripped SKU, else "product"; never empty |
| SkuQuery.NormalizeSkuToQuery | supplier-pricing-mcp/tools/get_offers_for_items.py:52-79 | the same for the declared 13-entry alias table: first alias hit, else the stripped SKU in its own case, else "product"; the query is never empty |
| PickBest.WordPoints | supplier-pricing-mcp/tools/get_offers_for_items.py:394-398 | one query word earns between 0 and 1.5 points (1 for the title, 0.5 for the category) |
| PickBest.ScoreOf | supplier-pricing-mcp/tools/get_offers_for_items.py:384-398 | scoring a product raises exactly when the product is not a dict (`.get` on a non-dict) |
| PickBest.WordsPointsBounds | supplier-pricing-mcp/tools/get_offers_for_items.py:394-398 | the word points of a query lie between 0 and 1.5 per word |
| PickBest.WordsPointsPositive | supplier-pricing-mcp/tools/get_offers_for_items.py:394-398 | the word points are positive exactly when some non-empty word occurs in the title or the category |
| PickBest.PointsPositive | supplier-pricing-mcp/tools/get_offers_for_items.py:388-398 | a score is never negative, and positive exactly when the whole query or one of its words occurs in the title or category |
| PickBest.ScoresNonNegative | supplier-pricing-mcp/tools/get_offers_for_items.py:388-398 | every product that can be scored scores at least 0 |
| PickBest.ScanFindsFirstBest | supplier-pricing-mcp/tools/get_offers_for_items.py:381-402 | the scan raises exactly when some product cannot be scored; otherwise it keeps nothing when all score 0, or the first product with the strict maximum score |
| PickBest.ScanFailsOnward | supplier-pricing-mcp/tools/get_offers_for_items.py:384-402 | an exception while scoring a prefix ends the whole scan with that exception |
| PickBest.PickIsAProduct | supplier-pricing-mcp/tools/get_offers_for_items.py:373-408 | nothing is picked exactly when the catalogue is empty; a pick is one of the products; an exception needs a non-blank query and a non-dict product |
| PickBest.PickFirstBest | supplier-pricing-mcp/tools/get_offers_for_items.py:376-408 | with a non-blank query over dicts: the first product when nothing scores above 0, otherwise the first product with the highest score |
| PickBest.AddWordPoints | supplier-pricing-mcp/tools/get_offers_for_items.py:394-398 | the word loop adds exactly the word points of the query to the running score |
| PickBest.AddPoints | supplier-pricing-mcp/tools/get_offers_for_items.py:388-398 | the per-product accumulation yields the product's points |
| PickBest.ScoreProduct | supplier-pricing-mcp/tools/get_offers_for_items.py:385-398 | scoring one product imperatively agrees with its score, raising on a non-dict |
| PickBest.KeepBest | supplier-pricing-mcp/tools/get_offers_for_items.py:381-406 | the best-so-far loop keeps what the scan specification keeps |
| PickBest.PickBestFakestoreProduct | supplier-pricing-mcp/tools/get_offers_for_items.py:368-408 | `_pick_best_fakestore_product` agrees with its specification, whose properties are the two lemmas above |
| OfferData.ItemFields | supplier-pricing-mcp/tools/get_offers_for_items.py:275 | `(item or {})`: a falsy item reads as an empty dict, a dict as itself, and `.get` raises exactly on a truthy non-dict |
| OfferData.ReadItem | supplier-pricing-mcp/tools/get_offers_for_items.py:282-286 | an absent or null `max_unit_price` means no price limit |
| OfferData.SkuLabel | supplier-pricing-mcp/tools/get_offers_for_items.py:289 | an item without a SKU is listed as "<empty>"; any other SKU as itself |
| OfferData.SumCostsAppend | supplier-pricing-mcp/tools/get_offers_for_items.py:330-331 | the running total grows by exactly the new position's cost |
| OfferData.TallyBlocks | supplier-pricing-mcp/tools/get_offers_for_items.py:268-348 | one block per iteration, in order, holding the item as given and its offers |
| OfferData.TallyUnavailable | supplier-pricing-mcp/tools/get_offers_for_items.py:269-328 | a SKU is listed as unavailable exactly when some iteration listed it |
| OfferData.TallyResolved | supplier-pricing-mcp/tools/get_offers_for_items.py:270-317 | a SKU has a resolved variant exactly when some iteration resolved it |
| OfferData.TallyTotal | supplier-pricing-mcp/tools/get_offers_for_items.py:271-331 | the running total is the sum of the position costs |
| OfferData.RunBlocks | supplier-pricing-mcp/tools/get_offers_for_items.py:274-348 | a completed provider loop has one block per input item, in order, each with that item's offers |
| OfferData.RunUnavailable | supplier-pricing-mcp/tools/get_offers_for_items.py:274-328 | the unavailable list holds exactly the SKUs some item's iteration listed |
| OfferData.RunResolved | supplier-pricing-mcp/tools/get_offers_for_items.py:274-317 | the resolved map has exactly the SKUs some item's iteration resolved |
| OfferData.RunTotal | supplier-pricing-mcp/tools/get_offers_for_items.py:271-331 | the loop's total is the sum of the items' position costs |
| OfferData.RunFails | supplier-pricing-mcp/tools/get_offers_for_items.py:274-348 | a provider loop raises exactly when one item's iteration raises |
| OfferData.RunItems | supplier-pricing-mcp/tools/get_offers_for_items.py:268-348 | the imperative item loop leaves the blocks, lists and total its specification describes |
| OfferData.WrapToolResult | supplier-pricing-mcp/tools/get_offers_for_items.py:236-253 | the envelope holds the structured result under "structuredContent", the text as its only text block, and `isError` false |
| PrintfulOffers.FirstVariant | supplier-pricing-mcp/tools/get_offers_for_items.py:314-315 | `variants[0]` of a list of dicts is its first element; a non-list raises |
| PrintfulOffers.VariantOutcome | supplier-pricing-mcp/tools/get_offers_for_items.py:314-348 | the first variant's id is resolved whatever its price; a price above the item's maximum gives no offer, otherwise one priced offer cut to the supplier limit and its cost |
| PrintfulOffers.FoundOutcome | supplier-pricing-mcp/tools/get_offers_for_items.py:309-348 | an iteration's block carries the item it was given |
| PrintfulOffers.RequestOutcome | supplier-pricing-mcp/tools/get_offers_for_items.py:288-348 | the same for a requested item, after the catalogue lookup |
| PrintfulOffers.PrintfulItem | supplier-pricing-mcp/tools/get_offers_for_items.py:274-348 | every iteration that completes appends exactly one block, for its own item |
| PrintfulOffers.PrintfulStep | supplier-pricing-mcp/tools/get_offers_for_items.py:274-348 | the Printful iteration produces one outcome per item and only for items that can be read |
| PrintfulOffers.GetOffersFromPrintful | supplier-pricing-mcp/tools/get_offers_for_items.py:260-360 | `_get_offers_from_printful` agrees with its specification: a missing key raises, otherwise the item loop and the structured result |
| PrintfulOffers.PrintfulSkipsUnrequestable | supplier-pricing-mcp/tools/get_offers_for_items.py:288-291 | an item with a blank SKU or non-positive quantity is listed unavailable (as "<empty>" when blank) without a lookup, offer or resolution |
| PrintfulOffers.PrintfulResolvedOutcomes | supplier-pricing-mcp/tools/get_offers_for_items.py:294-348 | an iteration raises only on a non-HTTP lookup error or an unreadable variant list; an offer implies a resolved variant with its id; an unavailable item costs nothing |
| PrintfulOffers.PrintfulRunShape | supplier-pricing-mcp/tools/get_offers_for_items.py:350-359 | the result names Printful, no fallback and no reason, one block per item, the total rounded to cents, and every unrequestable item listed unavailable |
| PrintfulOffers.PrintfulRunFails | supplier-pricing-mcp/tools/get_offers_for_items.py:265-266 | the Printful stage raises exactly when the key is missing or some item's iteration raises |
| FakestoreOffers.ResolvedId | supplier-pricing-mcp/tools/get_offers_for_items.py:472 | a missing product id resolves to -1; `int(product_id)` raises exactly on an id that does not convert |
| FakestoreOffers.ProductOutcome | supplier-pricing-mcp/tools/get_offers_for_items.py:457-489 | `.get` on a non-dict product raises; a unit price (`float(price or 0.0)`, 0.0 when that fails) above `max_unit_price` leaves the item unavailable under its SKU with no offer, resolution or cost; otherwise it raises exactly when the id is not an int and else resolves the SKU to the int id (or -1), counts unit price × quantity and makes the product its one offer, cut to `max_suppliers_per_item` |
| FakestoreOffers.RequestOutcome | supplier-pricing-mcp/tools/get_offers_for_items.py:446-489 | an item with a blank SKU or a quantity ≤ 0 is listed unavailable under its label (`"<empty>"` for a blank SKU) with no offer; a truthy pick is priced as the product decides |
| FakestoreOffers.FakestoreItem | supplier-pricing-mcp/tools/get_offers_for_items.py:432-489 | every iteration that completes appends exactly one block, for its own item |
| FakestoreOffers.FakestoreStep | supplier-pricing-mcp/tools/get_offers_for_items.py:432-489 | the fakestore iteration produces one outcome per item and only for items that can be read |
| FakestoreOffers.FallbackReason | supplier-pricing-mcp/tools/get_offers_for_items.py:491 | the reason is Printful's when it is non-empty, else the default fakestore notice |
| FakestoreOffers.GetOffersFromFakestore | supplier-pricing-mcp/tools/get_offers_for_items.py:411-502 | `_get_offers_from_fakestore` agrees with its specification: a failed fetch or non-list catalogue raises, otherwise the item loop and the structured result |
| FakestoreOffers.FakestoreResolvesOnlyPriced | supplier-pricing-mcp/tools/get_offers_for_items.py:457-472 | a picked product makes the item unavailable exactly when `max_unit_price` is set and the unit price exceeds it; it is resolved exactly when not unavailable, under its integer id or -1, with unit price × quantity counted; an unaffordable one has no offer and no cost |
| FakestoreOffers.FakestoreNothingPicked | supplier-pricing-mcp/tools/get_offers_for_items.py:451-455 | when the pick is empty or falsy the item is listed unavailable with no offer |
| FakestoreOffers.EmptyCatalogOffersNothing | supplier-pricing-mcp/tools/get_offers_for_items.py:373-374 | an empty catalogue gives no offer, no resolution and no cost |
| FakestoreOffers.FakestoreRunShape | supplier-pricing-mcp/tools/get_offers_for_items.py:432-501 | the result names fakestoreapi, a fallback and its reason, one block per item, the total rounded to cents, and every unrequestable item listed unavailable under its label |
| FakestoreOffers.FakestoreRunFails | supplier-pricing-mcp/tools/get_offers_for_items.py:417-425 | the fakestore stage raises exactly when the fetch fails, the catalogue is not a list, or an item's iteration raises |
| OffersSummary.Title | supplier-pricing-mcp/tools/get_offers_for_items.py:158-166 | the Printful title exactly for Printful without fallback, the FakeStore title exactly for fakestoreapi, otherwise the demo title |
| OffersSummary.ReasonLines | supplier-pricing-mcp/tools/get_offers_for_items.py:170-175 | the reason block is empty exactly when there is neither a prefix nor a reason |
| OffersSummary.Rows | supplier-pricing-mcp/tools/get_offers_for_items.py:190-205 | one offer line per offer of the block |
| OffersSummary.UnreadableItem | supplier-pricing-mcp/tools/get_offers_for_items.py:178-181 | no unreadable item exactly when every block's item can be read with `.get` |
| OffersSummary.UnreadableItemAt | supplier-pricing-mcp/tools/get_offers_for_items.py:178-181 | the summary fails on the first item that cannot be read |
| OffersSummary.FindUnreadableItem | supplier-pricing-mcp/tools/get_offers_for_items.py:178-181 | the scan over the blocks finds the first unreadable item |
| OffersSummary.AppendSection | supplier-pricing-mcp/tools/get_offers_for_items.py:217-231 | a section loop appends the blank line, the header and one line per entry, or nothing for an empty list |
| OffersSummary.FormatSummaryText | supplier-pricing-mcp/tools/get_offers_for_items.py:156-233 | `_format_summary_text` builds exactly the lines of its specification, joined by newlines |
| OffersSummary.SummaryFrame | supplier-pricing-mcp/tools/get_offers_for_items.py:168-215 | the text opens with the title and a blank line and, without unavailable or resolved SKUs, ends with the total line |
| OffersSummary.SummaryListsEverything | supplier-pricing-mcp/tools/get_offers_for_items.py:178-231 | every block, every offer, every unavailable SKU and every resolved pair appears as a line |
| OffersSummary.SummaryLineCount | supplier-pricing-mcp/tools/get_offers_for_items.py:168-231 | the line count is 4 plus the reason lines, one per block and per offer, and each non-empty section's header, blank line and entries |
| OffersSummary.RunReadable | supplier-pricing-mcp/tools/get_offers_for_items.py:178-181 | the blocks a provider loop builds can always be summarised: every item that reached a block was readable |
| OffersTool.UsePrintfulSettings | supplier-pricing-mcp/tools/get_offers_for_items.py:43 | examples of the accepted words "1", "true", "yes" and "y" in any case: unset, "TRUE", "Yes", "Y" and "1" turn Printful on; "false", "0" and "" turn it off; and, for every value, one whose length is not 1, 3 or 4 turns it off |
| OffersTool.DemoItem | supplier-pricing-mcp/tools/get_offers_for_items.py:132-141 | each demo iteration appends one block for its own item |
| OffersTool.DemoStep | supplier-pricing-mcp/tools/get_offers_for_items.py:132-141 | the demo iteration produces one outcome per item and only for readable items |
| OffersTool.DemoStructured | supplier-pricing-mcp/tools/get_offers_for_items.py:124-153 | `_build_demo_structured` agrees with its specification |
| OffersTool.DemoShape | supplier-pricing-mcp/tools/get_offers_for_items.py:143-152 | the demo result names demo_fallback with the given reason, zero cost, no resolutions and one empty block per item |
| OffersTool.DemoUnavailable | supplier-pricing-mcp/tools/get_offers_for_items.py:133-135 | a SKU is listed unavailable exactly when some item has that non-blank stripped SKU |
| OffersTool.DemoOutcomeAt | supplier-pricing-mcp/tools/get_offers_for_items.py:133-135 | one item's demo iteration lists exactly its non-blank stripped SKU |
| OffersTool.DemoFails | supplier-pricing-mcp/tools/get_offers_for_items.py:133 | the demo result fails exactly when some item is a truthy non-dict |
| OffersTool.Reported | supplier-pricing-mcp/tools/get_offers_for_items.py:530-531 | a stage's exception is passed on; a stage's result is wrapped with its summary text |
| OffersTool.Report | supplier-pricing-mcp/tools/get_offers_for_items.py:530-531 | formatting and wrapping a stage's result agrees with its specification |
| OffersTool.GetOffers | supplier-pricing-mcp/tools/get_offers_for_items.py:511-568 | `get_offers_for_items` agrees with its specification, the three-stage cascade |
| OffersTool.PrintfulFirst | supplier-pricing-mcp/tools/get_offers_for_items.py:525-531 | when Printful is enabled, keyed and succeeds, the tool returns its wrapped result |
| OffersTool.FakestoreSecond | supplier-pricing-mcp/tools/get_offers_for_items.py:535-551 | when Printful is off, unkeyed or fails and fakestore succeeds, the tool returns fakestore's result carrying Printful's reason |
| OffersTool.ToolFailsOnlyOnUnreadableItems | supplier-pricing-mcp/tools/get_offers_for_items.py:544-568 | the tool as a whole raises exactly when some item is a truthy non-dict; every other failure falls through to the demo |
| OffersTool.DemoReasonParts | supplier-pricing-mcp/tools/get_offers_for_items.py:557-561 | the demo reason is Printful's reason and the fakestore notice joined by " ; ", or the notice alone |
| SupplierModels.NewPurchaseItem | supplier-pricing-mcp/tools/models.py:10-43 | an item is accepted exactly when the SKU is 1 to 100 characters and not blank, the quantity in 1..100000 and any price limit positive; the SKU is stored stripped |
| SupplierModels.BlankSkuRefused | supplier-pricing-mcp/tools/models.py:39-42 | every whitespace-only SKU, of any length, is refused with an error under `sku` |
| SupplierModels.NewProductSummary | supplier-pricing-mcp/tools/models.py:46-59 | a product summary is accepted exactly when its price is positive and its image link is absent or an HTTP(S) URL; the refused fields are reported |
| SupplierModels.NonUrlImageRefused | supplier-pricing-mcp/tools/models.py:55-57 | an image link "n/a" is refused under `image_url`, while an https link to an image is accepted |
| SupplierModels.NewBulkOffersResult | supplier-pricing-mcp/tools/models.py:97-120 | a bulk result is accepted exactly when its fields meet their constraints; a negative total is always refused |
| SupplierUtils.MissingExactly | supplier-pricing-mcp/tools/utils.py:51 | a name is reported missing exactly when it is required and unset or empty |
| SupplierUtils.MissingInOrder | supplier-pricing-mcp/tools/utils.py:51 | the missing names keep the order of the required names |
| SupplierUtils.RequireEnvVars | supplier-pricing-mcp/tools/utils.py:38-63 | fails with code -32602 listing the missing names exactly when some name is unset; otherwise maps every name to its value |
| SupplierUtils.FormatApiError | supplier-pricing-mcp/tools/utils.py:66-94 | non-JSON bodies give the HTTP message; a JSON dict gives the code and message (the body when the message is falsy), or the authentication message for 401; a JSON non-dict raises |
| FxUtils.ParseFloatEnv | fx-rates-mcp/tools/utils.py:37-62 | the parsed value when the setting parses and lies within the bounds, otherwise the default |
| FxUtils.FormatApiError | fx-rates-mcp/tools/utils.py:65-92 | non-JSON bodies give the status message; a JSON dict gives the code and message (the body when the message key is absent), or the authentication message for 401; a JSON non-dict raises |
| FxUtils.UnknownCodeWhenMissing | fx-rates-mcp/tools/utils.py:77-90 | a JSON error object without "code" and a status other than 401 gives exactly "Ошибка API (код unknown): " followed by its message (or the raw text) |
| FxUtils.RequireBaseCurrency | fx-rates-mcp/tools/utils.py:95-112 | the upper-cased, stripped setting (default "RUB") is returned when it has three characters, otherwise error -32602 |
| FxUtils.DefaultBaseCurrency | fx-rates-mcp/tools/utils.py:104 | the default base currency passes the check as "RUB" |
| FxUtils.UpperOfStrippedUpper | fx-rates-mcp/tools/utils.py:104 | the returned code is already upper case |
| ConvertAmount.TableRatesPositive | fx-rates-mcp/tools/convert_amount.py:48-55 | every rate in the static table is positive |
| ConvertAmount.FallbackRate | fx-rates-mcp/tools/convert_amount.py:138-163 | equal codes (ignoring case) give (1.0, "identity"); a tabled pair its rate with "fallback_static"; any other pair (1.0, "fallback_identity"); the rate is always positive |
| ConvertAmount.FallbackIgnoresCase | fx-rates-mcp/tools/convert_amount.py:145-153 | codes in any case whose upper-cased pair is in the table get that pair's tabled rate from the static provider; e.g. usd/rub gives 90 |
| ConvertAmount.RateOf | fx-rates-mcp/tools/convert_amount.py:108-133 | a rate needs a dict reply and is one of the two candidates; there is none exactly when neither `info.rate` nor `result` converts, and a converting `info.rate` takes precedence |
| ConvertAmount.RateReadsOnlyInfoAndResult | fx-rates-mcp/tools/convert_amount.py:110-133 | two replies that agree on "info" and "result" yield the same rate, whatever else they hold |
| ConvertAmount.OtherKeyIgnored | fx-rates-mcp/tools/convert_amount.py:112-118 | a leading entry under any key other than "info" and "result" leaves the rate unchanged |
| ConvertAmount.ExtractRate | fx-rates-mcp/tools/convert_amount.py:108-135 | the post-fetch extraction returns that rate and the reply when it is a dict, else `{}` |
| ConvertAmount.FailedReplyStillYieldsRate | fx-rates-mcp/tools/convert_amount.py:112-133 | for every reply, a leading `success: false` is only logged: the rate is that of the rest, so a convertible `result` with no "info" is still used |
| ConvertAmount.UnparseableInfoRateFallsThrough | fx-rates-mcp/tools/convert_amount.py:122-133 | for every reply whose `info.rate` is present but does not convert, whatever it is, the rate is the one `result` gives |
| ConvertAmount.Convert | fx-rates-mcp/tools/convert_amount.py:167-270 | `convert_amount` reaches the conversion its specification gives for the fetch outcome of the upper-cased pair |
| ConvertAmount.ConvertedAmounts | fx-rates-mcp/tools/convert_amount.py:187-247 | the codes are upper-cased, the base amount is the input and the quote amount is base amount times rate |
| ConvertAmount.ConvertedIdentity | fx-rates-mcp/tools/convert_amount.py:197-211 | equal codes convert at rate 1 by "identity" without a fetch, fallback or warning |
| ConvertAmount.ConvertedFallback | fx-rates-mcp/tools/convert_amount.py:219-239 | the fallback is used exactly when the fetch gives no rate; it then supplies a positive rate and a warning; a failed fetch gives the unavailability warning and an empty raw reply |
| ConvertAmount.ConvertedFromProvider | fx-rates-mcp/tools/convert_amount.py:219-270 | a fetched rate is used under the API's name with no fallback or warning and the raw reply kept |
| ConvertAmount.WarningWhenFallback | fx-rates-mcp/tools/convert_amount.py:232-239 | a fallback conversion always carries a warning |
| ConvertAmount.FallbackOfUpper | fx-rates-mcp/tools/convert_amount.py:145-146 | the fallback lookup is insensitive to the codes' case |
| ConvertAmount.UpperIdempotent | fx-rates-mcp/tools/convert_amount.py:187-188 | upper-casing twice changes nothing, so the tool's and the lookup's upper-casing agree |
| PrintfulClient.RStripSlash | supplier-pricing-mcp/tools/printful_client.py:42 | `rstrip("/")` removes exactly the trailing slashes: a prefix of the input, with only slashes removed, that does not end in a slash |
| PrintfulClient.FromEnv | supplier-pricing-mcp/tools/printful_client.py:34-57 | fails with the key message exactly when PRINTFUL_API_KEY is unset or empty; otherwise a new client with the key, the slash-stripped base URL, the currency (default USD) and the region, empty meaning none |
| PrintfulClient.ClientSlot.GetClient | supplier-pricing-mcp/tools/printful_client.py:194-202 | a client already created is returned unchanged; otherwise one is created from the environment and kept, or the slot stays empty and the error is passed on |
| PrintfulClient.GetClientTwice | supplier-pricing-mcp/tools/printful_client.py:197-202 | once a client was created, a second call returns that same client, whatever the environment says then |
| PrintfulClient.ExtractData | supplier-pricing-mcp/tools/printful_client.py:79-94 | a list as is; a dict's "data" list, or a "data" dict as a one-element list; `[]` otherwise |
| PrintfulClient.ExtractDataOfPage | supplier-pricing-mcp/tools/printful_client.py:82-91 | a v2 page `{"data": [...], "paging": ...}` yields its data list |
| PrintfulClient.FilterByName | supplier-pricing-mcp/tools/printful_client.py:125-128 | the filter succeeds exactly on a list of dicts; it keeps exactly the products whose name contains the query |
| PrintfulClient.FilterByNameAppend | supplier-pricing-mcp/tools/printful_client.py:125-128 | the filter keeps the catalogue's order: filtering a concatenation concatenates the filtered parts |
| PrintfulClient.SearchProductsByName | supplier-pricing-mcp/tools/printful_client.py:113-129 | a fetch error is passed on; the result fails exactly when a scanned product is not a dict; otherwise it is the prefix, in catalogue order, of the products matching the lower-cased query, of length min(`limit_products`, number of matches) |
| PrintfulClient.SearchFindsAllWithinLimit | supplier-pricing-mcp/tools/printful_client.py:125-129 | when the matches fit within the limit, every matching product is returned |
| PrintfulClient.EntryPrice | supplier-pricing-mcp/tools/printful_client.py:168-175 | `.get` raises on a non-dict entry; a truthy discounted price wins over the price; a falsy discount with a non-null price gives `float(price)`; no discount and no price means the entry is skipped |
| PrintfulClient.EntryPrices | supplier-pricing-mcp/tools/printful_client.py:168-185 | collecting succeeds exactly when every entry is a dict; every collected price comes from some entry, and every entry's price is collected |
| PrintfulClient.Min | supplier-pricing-mcp/tools/printful_client.py:190 | `min(prices)` is one of the prices and no larger than any |
| PrintfulClient.PriceCurrency | supplier-pricing-mcp/tools/printful_client.py:165 | the reply's currency when truthy, else the client's default, else "USD" |
| PrintfulClient.VariantPrice | supplier-pricing-mcp/tools/printful_client.py:142-191 | a reply without a "data" dict and a reply without prices raise their API errors; otherwise the lowest collected price and the currency |
| PrintfulClient.DiscountedPriceWins | supplier-pricing-mcp/tools/printful_client.py:169 | an entry with price 12.5 and discounted price 9.75 counts 9.75 |
| PrintfulClient.EntryWithoutPriceSkipped | supplier-pricing-mcp/tools/printful_client.py:169-171 | a zero discount with no price is skipped, not counted as 0 |
| PrintfulClient.CollectEntryPrices | supplier-pricing-mcp/tools/printful_client.py:168-185 | the appending loop collects the prices its specification gives |
| PrintfulClient.GetVariantPrice | supplier-pricing-mcp/tools/printful_client.py:142-191 | `get_variant_price` agrees with its specification for the fetched reply |
| SearchProducts.MatchOf | supplier-pricing-mcp/tools/search_products.py:155-165 | a catalogue dict is kept exactly when its stripped, lower-cased title contains the needle; a kept one has a positive price, the configured currency, `str(id)` as its id and an image link that is absent or a URL; a non-dict, a bad price or a bad image link raises |
| SearchProducts.KeptOf | supplier-pricing-mcp/tools/search_products.py:158-164 | the summary of a matching dict has a positive price, the currency, `str(id)`, the title or "Product {id}", and a URL or no image; a non-empty image string that is not a URL raises |
| SearchProducts.SummaryOf | supplier-pricing-mcp/tools/search_products.py:158-164 | `ProductSummary(..., image_url=image or None)` succeeds exactly when the price is positive and the image is falsy or a string holding a URL |
| SearchProducts.NonUrlImageFails | supplier-pricing-mcp/tools/search_products.py:155-164 | a matching product whose image is a non-empty string but not a URL makes the search loop raise |
| SearchProducts.SortSortsAndPermutes | supplier-pricing-mcp/tools/search_products.py:169 | sorting by price yields a price-ordered permutation of the matches |
| SearchProducts.SortIsStable | supplier-pricing-mcp/tools/search_products.py:169 | the sort is stable: the matches at any one price keep their catalogue order |
| SearchProducts.SearchProducts | supplier-pricing-mcp/tools/search_products.py:84-204 | the tool method returns what the search specification gives for the query, limit, currency, timeout setting and catalogue reply |
| SearchProducts.BadTimeoutRaises | supplier-pricing-mcp/tools/search_products.py:95 | a timeout setting `float()` refuses makes the call raise, outside the try, before any fetch and whatever the catalogue |
| SearchProducts.BlankQueryRefused | supplier-pricing-mcp/tools/search_products.py:84-92 | an all-whitespace query raises the invalid-params error (-32602) whatever the catalogue holds |
| SearchProducts.ResultTextReportsCount | supplier-pricing-mcp/tools/search_products.py:181-190 | no items give the "nothing found" text; otherwise the text starts with the count of items |
| SearchProducts.OnlyPayloadAnswers | supplier-pricing-mcp/tools/search_products.py:101-146 | an HTTP status error or any other fetch failure always ends in an error, never in a result |
| SearchProducts.SearchReportsFound | supplier-pricing-mcp/tools/search_products.py:151-204 | a successful search had a valid limit, a non-blank query, a convertible timeout and a catalogue payload, and reports the sorted, cut matches (none for a non-list payload) |
| SearchProducts.FoundSortedAndBounded | supplier-pricing-mcp/tools/search_products.py:169-170 | the reported items are sorted by price, at most `limit` many (exactly `limit` when enough matched), all drawn from the matches, with query, limit and currency echoed |
| SearchProducts.FoundItemsMatch | supplier-pricing-mcp/tools/search_products.py:155-165 | every match comes from a catalogue dict whose title contains the query case-insensitively and has a positive price in the configured currency |
| SearchProducts.EveryTitleMatchIsFound | supplier-pricing-mcp/tools/search_products.py:155-165 | every catalogue dict whose title contains the query appears among the matches under its id |
| SearchProducts.NonListCatalogFindsNothing | supplier-pricing-mcp/tools/search_products.py:154-167 | a catalogue payload that is not a list yields an empty result with the "nothing found" text |
| SearchPrintfulCatalog.VariantOf | supplier-pricing-mcp/tools/search_printful_catalog.py:131-147 | a listed variant contributes exactly when its id is an int, and then under that id; `.get` on a non-dict raises |
| SearchPrintfulCatalog.ProductOf | supplier-pricing-mcp/tools/search_printful_catalog.py:112-157 | a found product with a non-int id contributes nothing; an int-id product is kept exactly when its variant request, its listed variants and its fields do not raise, and then carries its id, name, brand, variant count and the collected first `limit_variants_per_product` listed variants (a Printful error in the variant request reads as none) |
| SearchPrintfulCatalog.ScanLimit | supplier-pricing-mcp/tools/search_printful_catalog.py:99 | the scan limit is the larger of 50 and ten times the product limit |
| SearchPrintfulCatalog.ProductLinesCount | supplier-pricing-mcp/tools/search_printful_catalog.py:46-58 | the summary has one line per product and one per variant |
| SearchPrintfulCatalog.ProductLinesList | supplier-pricing-mcp/tools/search_printful_catalog.py:46-58 | every product and every one of its variants has its line in the summary |
| SearchPrintfulCatalog.FormatHumanReadable | supplier-pricing-mcp/tools/search_printful_catalog.py:36-59 | the formatting loop produces the summary its specification gives |
| SearchPrintfulCatalog.ProductEntry | supplier-pricing-mcp/tools/search_printful_catalog.py:112-157 | the per-product loop body builds what the product specification gives |
| SearchPrintfulCatalog.SearchCatalog | supplier-pricing-mcp/tools/search_printful_catalog.py:63-169 | the tool returns the catalogue answer for whether a client is (or can be) configured, and creates the shared client on first use |
| SearchPrintfulCatalog.AssembledInOrder | supplier-pricing-mcp/tools/search_printful_catalog.py:110-157 | a completed product loop has exactly one entry per found product whose id is an int, in search order, each built from that product |
| SearchPrintfulCatalog.AssembleProducts | supplier-pricing-mcp/tools/search_printful_catalog.py:110-157 | the product loop stops at the first product that raises; otherwise it holds one entry per int-id product, in search order, each that product's info |
| SearchPrintfulCatalog.UnconfiguredAnswersEmpty | supplier-pricing-mcp/tools/search_printful_catalog.py:74-86 | without a configured client the answer is the "not configured" text and no products |
| SearchPrintfulCatalog.SearchApiErrorAnswersEmpty | supplier-pricing-mcp/tools/search_printful_catalog.py:95-108 | a Printful API error from the product search gives the error text and no products |
| SearchPrintfulCatalog.ReportedProductsBounded | supplier-pricing-mcp/tools/search_printful_catalog.py:95-157 | at most `limit_products` products, each with at most `limit_variants_per_product` variants, and each an int-id catalogue product whose name contains the query |
| SearchPrintfulCatalog.ReportedInSearchOrder | supplier-pricing-mcp/tools/search_printful_catalog.py:95-157 | the reported products are the name search's int-id products, all of them and in search order, each built from that product and its variants |
| SearchPrintfulCatalog.VariantApiErrorKeepsProduct | supplier-pricing-mcp/tools/search_printful_catalog.py:122-129 | a Printful API error while listing variants keeps the product with no variants |
| SearchPrintfulCatalog.NonIntIdSkipped | supplier-pricing-mcp/tools/search_printful_catalog.py:113-115 | every dict product whose id is not an int (missing, string, float, ...) is skipped |
| AgentHistory.HistoryEntry | agent/main.py:271-275 | a history entry that is not a dict raises; a dict is kept exactly when its role is "user" or "assistant" and its content is a string, with that role and content |
| AgentHistory.HistoryMessages | agent/main.py:267-276 | the conversion loop returns what the history specification gives |
| AgentHistory.HistoryFails | agent/main.py:271-273 | the conversion raises exactly when some entry is not a dict |
| AgentHistory.HistoryKeepsChatTurns | agent/main.py:271-275 | a message is in the result exactly when some entry is a chat turn with that role and content |
| AgentHistory.HistoryKeepsOrder | agent/main.py:271-275 | converting two histories one after the other gives the concatenation of their messages, so order is kept |
| AgentHistory.HistoryNoLonger | agent/main.py:271-275 | there are never more messages than history entries |
| AgentExtract.Unwrap | agent/main.py:288-291 | a truthy dict under "structuredContent" (else under "structured_content") replaces the envelope; anything else leaves the envelope itself |
| AgentExtract.FirstDecodedDict | agent/main.py:300-313 | none exactly when no content block holds text that decodes to a dict; otherwise the first such decoded dict |
| AgentExtract.ExtractPrecedence | agent/main.py:279-323 | the camelCase attribute wins, then the snake_case attribute, then the first block whose text decodes to a dict, then the first block's truthy text, then an empty dict |
| AgentExtract.ExtractDictOrText | agent/main.py:279-323 | the extraction is a dict unless every source failed and the first block's truthy text is returned |
| DebugExtract.UnwrapCamel | scripts/debug_search_printful_mcp.py:21-27 | a dict under the inner "structuredContent" key replaces the envelope; anything else leaves the envelope |
| DebugExtract.DebugAgreesPastCamelCase | scripts/debug_search_printful_mcp.py:29-54 | without a camelCase attribute the script's extraction equals the agent's, except where the agent falls back to raw text and the script to an empty dict |
| DebugExtract.DebugAgreesOnNestedCamelCase | scripts/debug_search_printful_mcp.py:21-27 | with a truthy nested camelCase envelope both extractions agree |
| DebugExtract.SnakeKeyOnlyInAgent | scripts/debug_search_printful_mcp.py:24 | an envelope nesting only "structured_content" is unwrapped by the agent but kept whole by the script |
| DebugExtract.RawTextOnlyInAgent | scripts/debug_search_printful_mcp.py:54 | with no dict attribute and one block of non-empty text that does not decode to a dict, the agent returns that text and the script an empty dict |
| AgentTotals.UnwrapReply | agent/main.py:399-409 | a dict under "structuredContent", else under "structured_content", replaces the reply; otherwise the reply is used as is |
| AgentTotals.BlockQuantity | agent/main.py:418-424 | `.get` raises exactly when the block, or its truthy "item", is not a dict; otherwise the block yields a quantity (0 when not an int) |
| AgentTotals.AggregateTotalsFromSupplierResponse | agent/main.py:380-427 | the aggregation loop returns what the totals specification gives |
| AgentTotals.NonDictReplyIsEmpty | agent/main.py:394-398 | a reply that is not a dict gives USD, 0.0 and 0 items |
| AgentTotals.TotalItemsIsQuantitySum | agent/main.py:418-425 | over readable blocks the item count is the sum of their quantities |
| AgentTotals.QuantitySumPrefix | agent/main.py:418-425 | the running quantity sum over a prefix does not depend on the blocks after it |
| AgentTotals.AggregateReadable | agent/main.py:411-427 | for readable blocks the totals carry the reply's currency (USD when missing), `float(total_min_cost)` when it converts (0.0 when missing) and 0.0 when it does not, and the quantity sum |
| AgentTotals.OneEnvelopeLevel | agent/main.py:399-404 | only one envelope level is removed |
| AgentPlan.FindLastToolResult | agent/main.py:714-721 | none when the tool was never called, otherwise the reply of its last call |
| AgentPlan.FindLastAfterCall | agent/main.py:714-721 | after a new call its reply is the last one for its name, and other names are unaffected |
| AgentPlan.TargetTotals | agent/main.py:757-778 | the target totals have the target currency and the supplier's unit count; a non-dict fx reply keeps the net total; a dict reply gives its truthy numeric `amount_quote`, 0.0 for a falsy one, and the net total when the value does not convert |
| AgentPlan.PipelineFx | agent/main.py:757-778 | no conversion is asked for unless the currencies differ (case-insensitively) and the total is positive; otherwise the fx service is asked to convert the net total from the supplier currency to the target, the target totals are the conversion of the reply, and a non-dict reply keeps the unconverted net total under the target label |
| AgentPlan.ToolsAgentSupplier | agent/main.py:835-855 | the last non-null supplier reply in the trace is used; without one the supplier is called directly and that call is appended to the trace as "(auto)" |
| AgentPlan.ModesAgreeWithoutConversion | agent/main.py:861-872 | when no conversion is needed both modes give the same target totals |
| AgentPlan.ToolsFallsBackToPipeline | agent/main.py:860-902 | when the trace holds no dict fx reply the tools mode converts exactly as the pipeline does and records the call |
| AgentPlan.FxQuoteNotChecked | agent/main.py:873 | the tools mode accepts a traced USD to RUB conversion as the EUR total |
| AgentPlan.CheckedFxUsesThePair | agent/main.py:859-902 | with the pair checked, the converted total comes from a traced reply for the right pair or from a direct conversion appended to the trace |
| AgentDialog.RunToolsAgentDialog | agent/main.py:587-711 | the dialog method returns the trace and final message that the dialog specification gives |
| AgentDialog.DialogLoop | agent/main.py:629-709 | the step loop computes what the step specification gives |
| AgentDialog.ExecuteCalls | agent/main.py:662-703 | the tool-call loop computes what the call specification gives |
| AgentDialog.RunCallsTrace | agent/main.py:662-694 | executing a batch of calls appends one trace entry per call, each the execution of its call |
| AgentDialog.StepsShape | agent/main.py:629-709 | each step adds one model reply; the run ends on a reply without tool calls unless the steps run out; the trace follows the calls in order |
| AgentDialog.DialogShape | agent/main.py:587-711 | at most `max_steps` model replies, every one but the last asked for tools, the trace has one entry per requested call, in order, each the execution of its call |
| AgentDialog.UnknownToolReported | agent/main.py:685-686 | an unknown tool name is answered with the "Unknown tool" error dict and recorded in the trace |
| AgentDialog.NotifyWithoutUrl | agent/main.py:679-684 | a notify call without a truthy url gives the error dict without calling the webhook |
| AgentDialog.DispatchFails | agent/main.py:670-686 | a dispatch raises exactly when a known tool gets arguments that are not a dict, or the fx amount is not a number |
| AgentDialog.ArgumentsDefault | agent/main.py:664-668 | missing, empty or undecodable arguments become an empty dict |
| AgentDialog.SupplierDefaults | agent/main.py:670-673 | a supplier call without items asks for an empty list with at most 3 suppliers per item |

## Left out

- Python floats are modelled as exact reals. `round(x, 2)` is half-even on the exact value, and `repr`/`:.2f` rendering is written out for exact decimals. Binary floating-point error, `inf` and `nan` are not modelled.
- `str.lower`/`str.upper` cover ASCII and the basic Cyrillic alphabet only; other Unicode case mappings are not modelled.
- Exception messages are simplified to the message text a handler would see; Python's exact wording for `float()`/`int()` failures and pydantic's validation reports is not reproduced.
- Pydantic's lax coercion (for example a numeric string accepted as a number) is not modelled; model fields accept exactly the types the validators state.
- SupplierModels.IsHttpUrl (used by SupplierModels.NewProductSummary and SearchProducts.MatchOf): pydantic's `HttpUrl` check is reduced to an http or https scheme in any case, "://", a non-empty host and at most 2083 characters; host syntax, ports and the URL's normalisation (pydantic stores the parsed, normalised URL, the model stores the string as given) are not modelled.
- `json.dumps` of tool replies appended to the dialog, and of the parsed request in the opening message, are taken as given text; `json.loads` is a parameter.
- The system prompts, the `TOOLS_SPEC` schema and the model options (temperature, model name) are parameters or left out.
- Logging, Prometheus counters, OpenTelemetry spans and `ctx.info`/`report_progress` calls have no effect on results and are left out.
- HTTP requests (fake store, Printful, the FX provider), LLM calls, MCP tool calls and the notification webhook are parameters; the supplier, FX and webhook calls made from the dialog are assumed not to raise.
- The fake-store failure reason that is only logged is not modelled.
- `parse_user_request`, `summarize_plan_for_user`, the assembly of the final plan dict, the webhook call at the end of both planning modes, `agent/web_app.py`, the CLI loop and `agent/test.py` are not part of this model.
- The network parts of the Printful client (`_get_json`, `list_catalog_products`, `list_variants_for_product`, `_fetch_printful_product_and_variants`) are parameters; only their post-processing is modelled.
- Environment variables are passed in as configuration values, both those read at import time and those read on each call (`SUPPLIER_HTTP_TIMEOUT` and the currency in `search_products`).
- Server bootstrap files, metrics modules and DTO-only model files of fx-rates-mcp and notification-mcp are not part of this model.
- SearchProducts.SearchProducts: the in-place `list.sort` is modelled as a stable insertion sort on a sequence, so the model does not capture the update in place of the `matches` list.

## Findings

| source | as written | input that shows it | evidently intended | confidence | as-written member | corrected member |
|---|---|---|---|---|---|---|
| agent/main.py:873 | the tools agent reuses a traced `fx_convert_amount` reply when only its `base` equals the supplier currency; its `quote` is never compared with the target currency | supplier totals USD 10.0 for 1 item, target EUR, trace holding the reply {base: USD, quote: RUB, amount_quote: 900.0}: the plan reports 900.0 EUR | reuse a traced reply only when it converts the supplier currency into the target currency (the comment at line 859 says "with the needed pair") | not executed | AgentPlan.FxQuoteNotChecked | AgentPlan.CheckedFxUsesThePair |
