/**
 * How the fakestore fallback chooses a catalogue product for a SKU
 * (`_pick_best_fakestore_product` in
 * supplier-pricing-mcp/tools/get_offers_for_items.py). Each product is
 * scored against the lower-cased query: 3 when the query occurs in its
 * title, 2 when it occurs in its category, and per query word 1 for the
 * title and 0.5 for the category. The first product with the strictly
 * highest positive score wins; without one, the first product is taken.
 */
module PickBest {
  import opened Wrappers
  import opened Json
  import opened PyText
  import opened PyValue

  /** `str(p.get(key) or "").lower()` */
  function FieldText(fs: Fields, key: string): string {
    Lower(Str(Or(Get(fs, key), JStr(""))))
  }

  /** The points one query word earns. */
  function WordPoints(word: string, title: string, category: string): (pts: real)
    ensures 0.0 <= pts <= 1.5
  {
    (if word != "" && Contains(title, word) then 1.0 else 0.0)
    + (if word != "" && Contains(category, word) then 0.5 else 0.0)
  }

  /** The points the words earn, added up in order. */
  function WordsPoints(words: seq<string>, title: string, category: string): real {
    if words == [] then 0.0
    else WordsPoints(words[..|words| - 1], title, category) + WordPoints(words[|words| - 1], title, category)
  }

  /** The score of a product with the given (lower-cased) title and category. */
  function Points(query: string, title: string, category: string): real {
    (if Contains(title, query) then 3.0 else 0.0)
    + (if Contains(category, query) then 2.0 else 0.0)
    + WordsPoints(Split(query), title, category)
  }

  /** The score of one product; `p.get` raises on anything but a dict. */
  function ScoreOf(query: string, p: Json): (r: Result<real, string>)
    ensures r.Failure? <==> !p.JObj?
  {
    if !p.JObj? then Failure(NoGetMessage(p))
    else Success(Points(query, FieldText(p.fields, "title"), FieldText(p.fields, "category")))
  }

  /** Word points never go below zero and are at most 1.5 per word. */
  lemma {:induction false} WordsPointsBounds(words: seq<string>, title: string, category: string)
    ensures 0.0 <= WordsPoints(words, title, category) <= 1.5 * |words| as real
  {
    if words != [] {
      WordsPointsBounds(words[..|words| - 1], title, category);
    }
  }

  /** A word found in the title or category makes the word points positive, and only such a word does. */
  lemma {:induction false} WordsPointsPositive(words: seq<string>, title: string, category: string)
    ensures WordsPoints(words, title, category) > 0.0 <==>
            exists k :: 0 <= k < |words| && words[k] != "" && (Contains(title, words[k]) || Contains(category, words[k]))
  {
    if words != [] {
      var init := words[..|words| - 1];
      WordsPointsPositive(init, title, category);
      WordsPointsBounds(init, title, category);
      if exists k :: 0 <= k < |init| && init[k] != "" && (Contains(title, init[k]) || Contains(category, init[k])) {
        var k :| 0 <= k < |init| && init[k] != "" && (Contains(title, init[k]) || Contains(category, init[k]));
        assert words[k] == init[k];
      }
      if exists k :: 0 <= k < |words| && words[k] != "" && (Contains(title, words[k]) || Contains(category, words[k])) {
        var k :| 0 <= k < |words| && words[k] != "" && (Contains(title, words[k]) || Contains(category, words[k]));
        if k < |init| {
          assert init[k] == words[k];
        }
      }
    }
  }

  /**
   * A product scores above zero exactly when the query occurs in its title
   * or category, or one of the query's words does.
   */
  lemma PointsPositive(query: string, title: string, category: string)
    ensures Points(query, title, category) >= 0.0
    ensures Points(query, title, category) > 0.0 <==>
            Contains(title, query) || Contains(category, query)
            || exists k :: 0 <= k < |Split(query)| && (Contains(title, Split(query)[k]) || Contains(category, Split(query)[k]))
  {
    var words := Split(query);
    WordsPointsBounds(words, title, category);
    WordsPointsPositive(words, title, category);
    assert forall k :: 0 <= k < |words| ==> words[k] != "";
  }

  /** No product scores below zero. */
  lemma ScoresNonNegative(query: string)
    ensures forall p :: ScoreOf(query, p).Success? ==> ScoreOf(query, p).value >= 0.0
  {
    forall p: Json | p.JObj? ensures ScoreOf(query, p).value >= 0.0 {
      PointsPositive(query, FieldText(p.fields, "title"), FieldText(p.fields, "category"));
    }
  }

  /**
   * The loop over the products up to a point: the index of the product kept
   * so far (-1 for none) and its score. A later product replaces it only
   * with a strictly higher score; the first product that cannot be scored
   * raises.
   */
  function Scan<T>(ps: seq<T>, score: T -> Result<real, string>): Result<(int, real), string> {
    if ps == [] then Success((-1, 0.0))
    else
      match Scan(ps[..|ps| - 1], score)
      case Failure(e) => Failure(e)
      case Success(kept) =>
        match score(ps[|ps| - 1])
        case Failure(e) => Failure(e)
        case Success(s) => if s > kept.1 then Success((|ps| - 1, s)) else Success(kept)
  }

  /** Every product is scored and scores at most `best`. */
  predicate AllScoredAtMost<T>(ps: seq<T>, score: T -> Result<real, string>, best: real) {
    forall j :: 0 <= j < |ps| ==> score(ps[j]).Success? && score(ps[j]).value <= best
  }

  /** The products before index `i` all score below `best`. */
  predicate ScoredBelowBefore<T>(ps: seq<T>, score: T -> Result<real, string>, i: int, best: real)
    requires 0 <= i <= |ps|
  {
    forall j :: 0 <= j < i ==> score(ps[j]).Success? && score(ps[j]).value < best
  }

  /**
   * The scan fails exactly when some product cannot be scored. Otherwise,
   * with scores never below zero, it keeps no product when nothing scores
   * above zero, and else the first product with the highest score.
   */
  lemma {:induction false} ScanFindsFirstBest<T>(ps: seq<T>, score: T -> Result<real, string>)
    requires forall p :: score(p).Success? ==> score(p).value >= 0.0
    ensures Scan(ps, score).Failure? <==> exists j :: 0 <= j < |ps| && score(ps[j]).Failure?
    ensures Scan(ps, score).Success? && Scan(ps, score).value.0 == -1 ==>
              Scan(ps, score).value.1 == 0.0 && AllScoredAtMost(ps, score, 0.0)
    ensures Scan(ps, score).Success? && Scan(ps, score).value.0 != -1 ==>
              var (idx, best) := Scan(ps, score).value;
              0 <= idx < |ps| && best > 0.0 && score(ps[idx]) == Success(best)
              && AllScoredAtMost(ps, score, best) && ScoredBelowBefore(ps, score, idx, best)
  {
    if ps != [] {
      var init := ps[..|ps| - 1];
      ScanFindsFirstBest(init, score);
      assert forall j :: 0 <= j < |init| ==> ps[j] == init[j];
      if Scan(init, score).Success? {
        var (idx, best) := Scan(init, score).value;
        var r := score(ps[|ps| - 1]);
        if r.Success? && r.value > best && idx != -1 {
          assert ScoredBelowBefore(ps, score, |ps| - 1, r.value);
        }
      }
    }
  }

  /** Once the scan has failed, scanning further products fails with the same message. */
  lemma {:induction false} ScanFailsOnward<T>(ps: seq<T>, score: T -> Result<real, string>, i: nat)
    requires i <= |ps| && Scan(ps[..i], score).Failure?
    ensures Scan(ps, score) == Scan(ps[..i], score)
    decreases |ps| - i
  {
    if i < |ps| {
      assert ps[..i + 1][..i] == ps[..i];
      ScanFailsOnward(ps, score, i + 1);
    } else {
      assert ps[..i] == ps;
    }
  }

  /** The scorer for one query. */
  function Scorer(query: string): (score: Json -> Result<real, string>)
    ensures forall p :: score(p) == ScoreOf(query, p)
  {
    p => ScoreOf(query, p)
  }

  /**
   * `_pick_best_fakestore_product(products, sku_query)`: `None` for no
   * products; the first product for a blank query or when nothing scores;
   * otherwise the first best-scoring product.
   */
  function Pick(products: seq<Json>, skuQuery: string): Result<Option<Json>, string> {
    if products == [] then Success(None)
    else
      var query := Lower(Strip(skuQuery));
      if query == "" then Success(Some(products[0]))
      else
        match Kept(products, query)
        case Failure(e) => Failure(e)
        case Success(best) => if best.Some? then Success(best) else Success(Some(products[0]))
  }

  /** The product the scan keeps, if any. */
  function Kept(products: seq<Json>, query: string): Result<Option<Json>, string> {
    KeptBy(products, Scorer(query))
  }

  function KeptBy<T>(ps: seq<T>, score: T -> Result<real, string>): Result<Option<T>, string> {
    match Scan(ps, score)
    case Failure(e) => Failure(e)
    case Success(kept) => if 0 <= kept.0 < |ps| then Success(Some(ps[kept.0])) else Success(None)
  }

  /** Nothing is picked exactly when there are no products; what is picked is one of them. */
  lemma PickIsAProduct(products: seq<Json>, skuQuery: string)
    ensures Pick(products, skuQuery).Success? ==>
              (Pick(products, skuQuery).value.None? <==> products == [])
              && (Pick(products, skuQuery).value.Some? ==> Pick(products, skuQuery).value.value in products)
    ensures Pick(products, skuQuery).Failure? ==>
              Lower(Strip(skuQuery)) != "" && exists j :: 0 <= j < |products| && !products[j].JObj?
  {
    var query := Lower(Strip(skuQuery));
    if products != [] && query != "" {
      ScoresNonNegative(query);
      ScanFindsFirstBest(products, Scorer(query));
    }
  }

  /**
   * With a non-blank query over dicts, the pick is the first product with
   * the strictly highest positive score, or the first product when every
   * score is zero.
   */
  lemma PickFirstBest(products: seq<Json>, skuQuery: string)
    requires products != [] && Lower(Strip(skuQuery)) != ""
    requires forall j :: 0 <= j < |products| ==> products[j].JObj?
    ensures var score := Scorer(Lower(Strip(skuQuery)));
            Pick(products, skuQuery).Success?
            && (AllScoredAtMost(products, score, 0.0) ==> Pick(products, skuQuery) == Success(Some(products[0])))
            && (!AllScoredAtMost(products, score, 0.0) ==>
                  exists i, best :: 0 <= i < |products| && best > 0.0
                    && Pick(products, skuQuery) == Success(Some(products[i]))
                    && score(products[i]) == Success(best)
                    && AllScoredAtMost(products, score, best) && ScoredBelowBefore(products, score, i, best))
  {
    var query := Lower(Strip(skuQuery));
    ScoresNonNegative(query);
    ScanFindsFirstBest(products, Scorer(query));
  }

  /** The scoring loop over the query's words, from a starting score. */
  method AddWordPoints(score: real, words: seq<string>, title: string, category: string) returns (total: real)
    ensures total == score + WordsPoints(words, title, category)
  {
    total := score;
    for i := 0 to |words|
      invariant total == score + WordsPoints(words[..i], title, category)
    {
      assert words[..i + 1][..i] == words[..i];
      var word := words[i];
      if word != "" && Contains(title, word) {
        total := total + 1.0;
      }
      if word != "" && Contains(category, word) {
        total := total + 0.5;
      }
    }
    assert words[..|words|] == words;
  }

  /** The score of a product with the given title and category, as the loop body computes it. */
  method AddPoints(query: string, title: string, category: string) returns (score: real)
    ensures score == Points(query, title, category)
  {
    score := 0.0;
    if Contains(title, query) {
      score := score + 3.0;
    }
    if Contains(category, query) {
      score := score + 2.0;
    }
    score := AddWordPoints(score, Split(query), title, category);
  }

  /** The score of one product. */
  method ScoreProduct(query: string, p: Json) returns (r: Result<real, string>)
    ensures r == ScoreOf(query, p)
  {
    if !p.JObj? {
      return Failure(NoGetMessage(p));
    }
    var score := AddPoints(query, FieldText(p.fields, "title"), FieldText(p.fields, "category"));
    return Success(score);
  }

  /** The loop of `_pick_best_fakestore_product` keeping `best` and `best_score`. */
  method KeepBest<T>(ps: seq<T>, score: T -> Result<real, string>) returns (r: Result<Option<T>, string>)
    ensures r == KeptBy(ps, score)
  {
    var best: Option<T> := None;
    var bestScore := 0.0;
    ghost var bestIndex := -1;
    for i := 0 to |ps|
      invariant Scan(ps[..i], score) == Success((bestIndex, bestScore))
      invariant -1 <= bestIndex < i
      invariant best == if bestIndex == -1 then None else Some(ps[bestIndex])
    {
      assert ps[..i + 1][..i] == ps[..i];
      var s := score(ps[i]);
      if s.Failure? {
        ScanFailsOnward(ps, score, i + 1);
        return Failure(s.error);
      }
      if s.value > bestScore {
        bestScore := s.value;
        best := Some(ps[i]);
        bestIndex := i;
      }
    }
    assert ps[..|ps|] == ps;
    return Success(best);
  }

  /** `_pick_best_fakestore_product(products, sku_query)` */
  method PickBestFakestoreProduct(products: seq<Json>, skuQuery: string) returns (r: Result<Option<Json>, string>)
    ensures r == Pick(products, skuQuery)
  {
    if products == [] {
      return Success(None);
    }
    var query := Lower(Strip(skuQuery));
    if query == "" {
      return Success(Some(products[0]));
    }
    var best := KeepBest(products, Scorer(query));
    if best.Failure? {
      return Failure(best.error);
    }
    if best.value.None? {
      return Success(Some(products[0]));
    }
    return best;
  }
}
