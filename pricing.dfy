/**
 * Market prices and the per-ingredient price arithmetic of Recipe.calculatePrice.
 * Prices are exact reals; Java's `Math.round(x * 10) / 10.0` is Round1.
 */
module Pricing {
  import opened Sums

  /**
   * A snapshot of the market: for each item id, the `pricePerUnit` of every
   * entry of its `sell_summary`, best offer first.
   */
  type Market = map<string, seq<real>>

  /** The fixed surcharge added to the best sell price before rounding. */
  const Surcharge: real := 0.1

  /** `x` is a whole number of tenths. */
  ghost predicate OnGrid(x: real) {
    (x * 10.0).Floor as real == x * 10.0
  }

  /**
   * Rounding to one decimal place, half up: Java's `Math.round` is floor(y + 1/2).
   * The result is the unique multiple of 0.1 in [x - 0.05, x + 0.05) ...
   */
  function Round1(x: real): (r: real)
    ensures OnGrid(r)
    ensures r - 0.05 <= x < r + 0.05
  {
    var n := (x * 10.0 + 0.5).Floor;
    assert n as real * 10.0 / 10.0 == n as real;
    n as real / 10.0
  }

  /** ... so any multiple of 0.1 in that window is the rounded value. */
  lemma Round1Unique(x: real, y: real)
    requires OnGrid(y) && y - 0.05 <= x < y + 0.05
    ensures Round1(x) == y
  {
    var r := Round1(x);
    var a, b := (r * 10.0).Floor, (y * 10.0).Floor;
    assert a as real == r * 10.0 && b as real == y * 10.0;
    assert -1.0 < (a - b) as real < 1.0;
    assert a - b == 0;
  }

  /** Rounding twice is rounding once. */
  lemma Round1Idempotent(x: real)
    ensures Round1(Round1(x)) == Round1(x)
  {
    Round1Unique(Round1(x), Round1(x));
  }

  /** Rounding preserves order. */
  lemma Round1Monotone(x: real, y: real)
    requires x <= y
    ensures Round1(x) <= Round1(y)
  {
    var a, b := (x * 10.0 + 0.5).Floor, (y * 10.0 + 0.5).Floor;
    assert a as real <= x * 10.0 + 0.5 <= y * 10.0 + 0.5 < b as real + 1.0;
    assert a <= b;
    assert Round1(x) == a as real / 10.0 && Round1(y) == b as real / 10.0;
  }

  /** What one ingredient line adds: a unit price times a quantity, rounded to a tenth. */
  function LineTotal(unitPrice: real, qty: int): (c: real)
    ensures OnGrid(c)
  {
    Round1(unitPrice * qty as real)
  }

  /** A non-negative price times a non-negative quantity adds a non-negative amount. */
  lemma LineTotalNonNegative(unitPrice: real, qty: int)
    requires unitPrice >= 0.0 && qty >= 0
    ensures LineTotal(unitPrice, qty) >= 0.0
  {
    Round1Unique(0.0, 0.0);
    Round1Monotone(0.0, unitPrice * qty as real);
  }

  /** The market has a best sell offer for `item`. */
  predicate Quoted(market: Market, item: string) {
    item in market && |market[item]| > 0
  }

  /**
   * What one primitive ingredient adds to a recipe's cost: the best sell price
   * plus the surcharge, rounded, times the quantity, rounded again; nothing
   * when the market does not list the item or has no sell offers for it.
   */
  function PrimitiveCost(market: Market, item: string, qty: int): (c: real)
    ensures !Quoted(market, item) ==> c == 0.0
    ensures OnGrid(c)
  {
    if item in market then
      var summary := market[item];
      if |summary| > 0 then
        LineTotal(Round1(summary[0] + Surcharge), qty)
      else 0.0
    else 0.0
  }

  /** The cost contributed by each primitive ingredient, keyed by item id. */
  function PrimitiveCosts(ingredients: map<string, int>, market: Market): (costs: map<string, real>)
    ensures costs.Keys == ingredients.Keys
  {
    map item | item in ingredients :: PrimitiveCost(market, item, ingredients[item])
  }

  /** Every quantity is non-negative. */
  predicate NonNegativeQuantities<K>(ingredients: map<K, int>) {
    forall k :: k in ingredients ==> ingredients[k] >= 0
  }

  /** Every listed sell price is non-negative. */
  predicate NonNegativePrices(market: Market) {
    forall item :: item in market ==> forall j :: 0 <= j < |market[item]| ==> market[item][j] >= 0.0
  }

  /** With non-negative prices and quantities, every primitive contribution is non-negative. */
  lemma PrimitiveCostNonNegative(market: Market, item: string, qty: int)
    requires NonNegativePrices(market) && qty >= 0
    ensures PrimitiveCost(market, item, qty) >= 0.0
  {
    if Quoted(market, item) {
      Round1Monotone(0.0, market[item][0] + Surcharge);
      Round1Unique(0.0, 0.0);
      LineTotalNonNegative(Round1(market[item][0] + Surcharge), qty);
    }
  }

  /**
   * The primitive total splits into any one ingredient's contribution plus the
   * total of the others, whatever the ingredient and whichever order is used.
   */
  lemma IngredientContribution(ingredients: map<string, int>, market: Market, item: string)
    requires item in ingredients
    ensures Total(PrimitiveCosts(ingredients, market))
         == PrimitiveCost(market, item, ingredients[item]) + Total(PrimitiveCosts(ingredients - {item}, market))
  {
    var costs := PrimitiveCosts(ingredients, market);
    TotalRemove(costs, item);
    assert costs - {item} == PrimitiveCosts(ingredients - {item}, market);
  }

  /**
   * An item the market does not quote adds nothing, and the other
   * ingredients are still summed.
   */
  lemma UnquotedIngredientIsFree(ingredients: map<string, int>, market: Market, item: string, qty: int)
    requires !Quoted(market, item)
    ensures Total(PrimitiveCosts(ingredients[item := qty], market))
         == Total(PrimitiveCosts(ingredients - {item}, market))
  {
    IngredientContribution(ingredients[item := qty], market, item);
    assert ingredients[item := qty] - {item} == ingredients - {item};
  }

  /** Two whole numbers of tenths add up to a whole number of tenths. */
  lemma OnGridAdd(x: real, y: real)
    requires OnGrid(x) && OnGrid(y)
    ensures OnGrid(x + y)
  {
    var a, b := (x * 10.0).Floor, (y * 10.0).Floor;
    assert (x + y) * 10.0 == (a + b) as real;
  }

  /** A sum of whole tenths is a whole number of tenths. */
  lemma {:induction false} TotalOnGrid<K>(m: map<K, real>)
    requires forall k :: k in m ==> OnGrid(m[k])
    ensures OnGrid(Total(m))
    decreases |m|
  {
    if m != map[] {
      var k :| k in m;
      var rest := m - {k};
      TotalRemove(m, k);
      assert |rest| < |m| by { assert rest.Keys == m.Keys - {k}; }
      TotalOnGrid(rest);
      OnGridAdd(m[k], Total(rest));
    }
  }

  /** RAW_ORE at 100.0, ten of them: round(100.1) = 100.1, round(1001.0) = 1001.0. */
  lemma WidgetOreCost()
    ensures PrimitiveCost(map["RAW_ORE" := [100.0]], "RAW_ORE", 10) == 1001.0
  {
    Round1Unique(100.0 + Surcharge, 100.1);
    Round1Unique(100.1 * 10.0, 1001.0);
  }
}
