/**
 * Recipe: a node of a bill of materials. It holds the quantities of primitive
 * market items and of nested sub-recipes needed for one unit of its output,
 * prices itself recursively against a market snapshot, logs every computed
 * price under a timestamp, and turns a purse into full orders per ingredient.
 */
module Recipes {
  import opened Wrappers
  import opened Sums
  import opened Pricing
  import opened Orders

  /**
   * The map object a recipe's `history` field refers to: computed prices
   * keyed by timestamp. A log belongs to the recipe that created it.
   */
  class PriceLog {
    ghost const owner: Recipe?
    var entries: map<int, real>

    constructor (ghost owner: Recipe?)
      ensures this.owner == owner && entries == map[]
    {
      this.owner := owner;
      entries := map[];
    }
  }

  /**
   * The bill of materials below a recipe, as a value: the recipe itself, its
   * primitive ingredients, and for each sub-recipe ingredient its quantity and
   * that sub-recipe's own bill of materials.
   */
  datatype Bom = Bom(recipe: Recipe, primitive: map<string, int>, subs: map<Recipe, Part>)
  datatype Part = Part(quantity: int, bom: Bom)

  /** The price of one unit given a market snapshot: all primitive plus all sub-recipe contributions. */
  ghost function Cost(b: Bom, market: Market): real
    decreases b, 1
  {
    Total(PrimitiveCosts(b.primitive, market)) + Total<Recipe>(SubCosts(b, market))
  }

  /** What each sub-recipe ingredient adds: its own cost times its quantity, rounded to a tenth. */
  ghost function SubCosts(b: Bom, market: Market): (costs: map<Recipe, real>)
    decreases b, 0
    ensures costs.Keys == b.subs.Keys
  {
    map s | s in b.subs :: LineTotal(Cost(b.subs[s].bom, market), b.subs[s].quantity)
  }

  /** One sub-recipe ingredient's entry in SubCosts. */
  lemma SubCostOf(b: Bom, market: Market, s: Recipe)
    requires s in b.subs
    ensures SubCosts(b, market)[s] == LineTotal(Cost(b.subs[s].bom, market), b.subs[s].quantity)
  {
  }

  /** The recipes a pricing visits: the top one and, recursively, its sub-recipes. */
  ghost function Nodes(b: Bom): (nodes: set<Recipe>)
    ensures b.recipe in nodes
  {
    {b.recipe} + set s, r | s in b.subs && r in Nodes(b.subs[s].bom) :: r
  }

  /** The recipes reached through the sub-recipe ingredients in `ks`. */
  ghost function Reached(b: Bom, ks: set<Recipe>): set<Recipe>
  {
    set s, r | s in b.subs && s in ks && r in Nodes(b.subs[s].bom) :: r
  }

  lemma ReachedNone(b: Bom)
    ensures Reached(b, {}) == {}
  {
  }

  lemma ReachedStep(b: Bom, ks: set<Recipe>, s: Recipe)
    requires s in b.subs
    ensures Reached(b, ks + {s}) == Reached(b, ks) + Nodes(b.subs[s].bom)
  {
  }

  lemma ReachedAll(b: Bom)
    ensures Nodes(b) == {b.recipe} + Reached(b, b.subs.Keys)
  {
  }

  // ---- The running sum over the sub-recipe ingredients ----

  /** `sum` totals the keys of `subs` in `done`; `pending` holds the rest. */
  ghost predicate Summing(subs: map<Recipe, real>, pending: set<Recipe>, done: set<Recipe>, sum: real)
  {
    && pending + done == subs.Keys && pending !! done
    && sum + Total<Recipe>(Restrict<Recipe, real>(subs, pending)) == Total<Recipe>(subs)
  }

  lemma SummingStart(subs: map<Recipe, real>)
    ensures Summing(subs, subs.Keys, {}, 0.0)
  {
    assert Restrict<Recipe, real>(subs, subs.Keys) == subs;
  }

  lemma TakeOne(subs: map<Recipe, real>, pending: set<Recipe>, done: set<Recipe>, sum: real, s: Recipe)
    requires Summing(subs, pending, done, sum) && s in pending
    ensures Summing(subs, pending - {s}, done + {s}, sum + subs[s])
  {
    var rest := Restrict<Recipe, real>(subs, pending);
    TotalRemove<Recipe>(rest, s);
    assert rest - {s} == Restrict<Recipe, real>(subs, pending - {s});
  }

  lemma SummingDone(subs: map<Recipe, real>, done: set<Recipe>, sum: real)
    requires Summing(subs, {}, done, sum)
    ensures sum == Total<Recipe>(subs) && done == subs.Keys
  {
    TotalEmpty<Recipe>(Restrict<Recipe, real>(subs, {}));
  }

  // ---- Properties of the cost ----

  /** A recipe with no ingredients costs nothing. */
  lemma EmptyCost(b: Bom, market: Market)
    requires b.primitive == map[] && b.subs == map[]
    ensures Cost(b, market) == 0.0
  {
    TotalEmpty(PrimitiveCosts(b.primitive, market));
    TotalEmpty<Recipe>(SubCosts(b, market));
  }

  /** Every quantity anywhere in the bill of materials is non-negative. */
  ghost predicate NonNegativeBom(b: Bom)
    decreases b
  {
    && NonNegativeQuantities(b.primitive)
    && forall s :: s in b.subs ==> b.subs[s].quantity >= 0 && NonNegativeBom(b.subs[s].bom)
  }

  /** Non-negative prices and quantities give a non-negative cost. */
  lemma {:induction false} CostNonNegative(b: Bom, market: Market)
    requires NonNegativePrices(market) && NonNegativeBom(b)
    ensures Cost(b, market) >= 0.0
    decreases b
  {
    var primitive := PrimitiveCosts(b.primitive, market);
    forall item | item in primitive
      ensures primitive[item] >= 0.0
    {
      PrimitiveCostNonNegative(market, item, b.primitive[item]);
    }
    TotalNonNegative(primitive);
    var subs := SubCosts(b, market);
    forall s | s in subs
      ensures subs[s] >= 0.0
    {
      CostNonNegative(b.subs[s].bom, market);
      LineTotalNonNegative(Cost(b.subs[s].bom, market), b.subs[s].quantity);
    }
    TotalNonNegative<Recipe>(subs);
  }

  /**
   * A sub-recipe ingredient adds exactly its own cost times its quantity,
   * rounded to a tenth, whatever the other ingredients are.
   */
  lemma SubRecipeContribution(b: Bom, market: Market, s: Recipe)
    requires s in b.subs
    ensures Cost(b, market) == Total(PrimitiveCosts(b.primitive, market))
      + LineTotal(Cost(b.subs[s].bom, market), b.subs[s].quantity)
      + Total<Recipe>(SubCosts(b, market) - {s})
  {
    TotalRemove<Recipe>(SubCosts(b, market), s);
  }

  /** Every contribution is rounded to a tenth, so every price is a whole number of tenths. */
  lemma CostOnGrid(b: Bom, market: Market)
    ensures OnGrid(Cost(b, market))
  {
    var primitive, subs := PrimitiveCosts(b.primitive, market), SubCosts(b, market);
    TotalOnGrid(primitive);
    TotalOnGrid<Recipe>(subs);
    OnGridAdd(Total(primitive), Total<Recipe>(subs));
  }

  /** The text toString writes around the ingredient count. */
  const CountOpen: string := " ("
  const CountClose: string := " ingredients)"

  class Recipe {
    const name: string
    /** Sub-recipe ingredients, keyed by object identity, with their quantities. */
    var inputs: map<Recipe, int>
    /** Primitive ingredients, keyed by market item id, with their quantities. */
    var inputs2: map<string, int>
    /** Every computed price, keyed by the timestamp of the computation. */
    var history: PriceLog
    /** This recipe and every recipe reachable through its sub-recipe ingredients (possibly more). */
    ghost var Repr: set<Recipe>
    /** The bill of materials the ingredient maps describe. */
    ghost var model: Bom
    /** The price logs of the recipes in the footprint. */
    ghost var Logs: set<PriceLog>

    /**
     * The sub-recipe graph below this recipe is acyclic (no recipe reaches
     * itself), every sub-recipe's footprint lies within this one's, every
     * recipe in the footprint owns its own price log, and `model` mirrors the
     * ingredient maps. One sub-recipe may be shared by several parents.
     */
    ghost predicate Valid()
      reads this, Repr
      decreases Repr
    {
      && this in Repr
      && (forall r {:trigger r in Repr} :: r in Repr ==> r.history.owner == r && r.history in Logs)
      && (forall l {:trigger l in Logs} :: l in Logs ==> l.owner in Repr && l.owner.history == l)
      && model.recipe == this && model.primitive == inputs2 && model.subs.Keys == inputs.Keys
      && forall s {:trigger s in inputs} :: s in inputs ==>
           && s in Repr && s.Repr <= Repr && s.Logs <= Logs && this !in s.Repr && s.Valid()
           && model.subs[s] == Part(inputs[s], s.model)
    }

    /** Validity depends only on the recipes in the footprint. */
    twostate lemma StillValid()
      requires old(Valid()) && unchanged(this) && unchanged(old(Repr))
      ensures Valid()
    {
    }

    /** The price calculatePrice returns: the cost, or 0 when the market could not be fetched. */
    ghost function Price(market: Option<Market>): real
      reads this
    {
      if market.Some? then Cost(model, market.value) else 0.0
    }

    /** A new recipe has no ingredients and an empty log, so it prices at 0. */
    constructor (name: string)
      ensures Valid() && Repr == {this} && Logs == {history}
      ensures this.name == name && inputs == map[] && inputs2 == map[]
      ensures fresh(history) && history.entries == map[]
      ensures forall market :: Price(market) == 0.0
    {
      this.name := name;
      inputs, inputs2 := map[], map[];
      Repr := {this};
      model := Bom(this, map[], map[]);
      // Every field must be set before `new;`, but the log's owner can only
      // name `this` after it; a placeholder log fills the field until then.
      history := new PriceLog(null);
      new;
      history := new PriceLog(this);
      Logs := {history};
      forall market: Option<Market> | market.Some?
        ensures Price(market) == 0.0
      {
        EmptyCost(model, market.value);
      }
    }

    /** Every recipe a pricing visits lies in the footprint. */
    lemma {:induction false} NodesInRepr()
      requires Valid()
      ensures Nodes(model) <= Repr
      decreases Repr
    {
      forall s | s in inputs
        ensures Nodes(s.model) <= Repr
      {
        s.NodesInRepr();
      }
    }

    /**
     * The sum of the primitive ingredients' contributions, accumulated in
     * whatever order the keys are visited. An item missing from the market or
     * without a sell offer adds nothing.
     */
    method PrimitiveTotal(items: Market) returns (sum: real)
      ensures sum == Total(PrimitiveCosts(inputs2, items))
    {
      ghost var primitive := PrimitiveCosts(inputs2, items);
      sum := 0.0;
      var todo := inputs2.Keys;
      ghost var done: set<string> := {};
      while todo != {}
        invariant todo + done == inputs2.Keys && todo !! done
        invariant sum == Total(Restrict(primitive, done))
        decreases todo
      {
        var item :| item in todo;
        var contribution := 0.0;
        if item in items {
          var summary := items[item];
          if |summary| > 0 {
            var price := Round1(summary[0] + Surcharge);
            contribution := LineTotal(price, inputs2[item]);
          }
        }
        assert primitive[item] == PrimitiveCost(items, item, inputs2[item]);
        assert contribution == primitive[item];
        sum := sum + contribution;
        TotalExtend(primitive, done, item);
        todo, done := todo - {item}, done + {item};
      }
      assert Restrict(primitive, done) == primitive;
    }

    /**
     * Prices the recipe and logs the result under `now`. With a market
     * snapshot the result is the cost of the bill of materials; when the
     * market could not be fetched it is 0. Only the logs in the footprint may
     * change: this recipe's gains `now`, and the log of every recipe the
     * pricing does not visit keeps its entries.
     */
    method CalculatePrice(market: Option<Market>, now: int) returns (sum: real)
      requires Valid()
      modifies Logs
      decreases Repr, 2
      ensures sum == Price(market)
      ensures history.entries == old(history.entries)[now := sum]
      ensures market.None? ==> forall l :: l in Logs && l != history ==> l.entries == old(l.entries)
      ensures market.Some? ==> forall l :: l in Logs && l.owner !in Nodes(model) ==> l.entries == old(l.entries)
    {
      if market.None? {
        history.entries := history.entries[now := 0.0];
        return 0.0;
      }
      var items := market.value;
      sum := PrimitiveTotal(items);
      var below := SubRecipeTotal(items, now);
      sum := sum + below;
      history.entries := history.entries[now := sum];
    }

    /**
     * The sum of the sub-recipe ingredients' contributions, each sub-recipe
     * priced by its own calculatePrice. This recipe's log is left alone, and
     * so is the log of every recipe not reached.
     */
    method SubRecipeTotal(items: Market, now: int) returns (sum: real)
      requires Valid()
      modifies Logs
      decreases Repr, 1
      ensures sum == Total<Recipe>(SubCosts(model, items))
      ensures history.entries == old(history.entries)
      ensures forall l :: l in Logs && l.owner !in Nodes(model) ==> l.entries == old(l.entries)
    {
      ghost var subs := SubCosts(model, items);
      sum := 0.0;
      var pending := inputs.Keys;
      ghost var done: set<Recipe> := {};
      SummingStart(subs);
      ReachedNone(model);
      while pending != {}
        invariant Valid() && model == old(model) && Repr == old(Repr) && Logs == old(Logs)
        invariant Summing(subs, pending, done, sum)
        invariant history.entries == old(history.entries)
        invariant forall l :: l in Logs && l.owner !in Reached(model, done) ==> l.entries == old(l.entries)
        decreases pending
      {
        var s :| s in pending;
        ReachedStep(model, done, s);
        var c := PricePart(s, items, now);
        TakeOne(subs, pending, done, sum, s);
        sum := sum + c;
        pending, done := pending - {s}, done + {s};
      }
      SummingDone(subs, done, sum);
      ReachedAll(model);
    }

    /**
     * Prices one sub-recipe ingredient and returns what it adds: the
     * sub-recipe's price times its quantity, rounded to a tenth.
     */
    method PricePart(s: Recipe, items: Market, now: int) returns (c: real)
      requires Valid() && s in inputs
      modifies Logs
      decreases Repr, 0
      ensures Valid() && model == old(model) && Repr == old(Repr) && Logs == old(Logs)
      ensures s in model.subs && c == SubCosts(model, items)[s]
      ensures history.entries == old(history.entries)
      ensures forall l :: l in Logs && l.owner !in Nodes(model.subs[s].bom) ==> l.entries == old(l.entries)
    {
      var cost := s.CalculatePrice(Some(items), now);
      StillValid();
      c := LineTotal(cost, inputs[s]);
      SubCostOf(model, items, s);
    }

    /**
     * Prices the recipe, then reports for every primitive ingredient how many
     * full orders and extra units a purse pays for. A zero price yields an
     * empty report.
     */
    method FromPurse(market: Option<Market>, now: int, purse: real) returns (output: map<string, string>)
      requires Valid()
      modifies Logs
      ensures history.entries == old(history.entries)[now := Price(market)]
      ensures market.None? ==> forall l :: l in Logs && l != history ==> l.entries == old(l.entries)
      ensures market.Some? ==> forall l :: l in Logs && l.owner !in Nodes(model) ==> l.entries == old(l.entries)
      ensures Price(market) == 0.0 ==> output == map[]
      ensures Price(market) != 0.0 ==> output.Keys == inputs2.Keys
      ensures forall item :: item in output ==>
        output[item] == Render(OrderPlan(inputs2, purse, Price(market))[item])
    {
      output := map[];
      var price := CalculatePrice(market, now);
      if price == 0.0 {
        return;
      }
      var count := CraftCount(purse, price);
      ghost var plan := OrderPlan(inputs2, purse, price);
      var keys := inputs2.Keys;
      while keys != {}
        invariant keys <= inputs2.Keys
        invariant output.Keys == inputs2.Keys - keys
        invariant forall item :: item in output ==> output[item] == Render(plan[item])
        decreases keys
      {
        var key :| key in keys;
        var itemCount := count * inputs2[key];
        var split := SplitOrders(itemCount);
        output := output[key := Render(split)];
        keys := keys - {key};
      }
    }

    /** `name (N ingredients)`, where N counts the primitive ingredients only. */
    function ToString(): (s: string)
      reads this
      ensures |s| >= |name| + |CountOpen| + |CountClose|
      ensures s[..|name|] == name
      ensures s[|name|..|name| + |CountOpen|] == CountOpen && s[|s| - |CountClose|..] == CountClose
      ensures ParseDecimal(s[|name| + |CountOpen|..|s| - |CountClose|]) == |inputs2|
    {
      var count := Decimal(|inputs2|);
      var s := name + CountOpen + count + CountClose;
      assert s[|name| + |CountOpen|..|s| - |CountClose|] == count;
      DecimalRoundTrip(|inputs2|);
      s
    }

    /**
     * Adds (or replaces) a primitive ingredient: `item` now needs `quantity`,
     * whatever it needed before; nothing else changes.
     */
    method AddIngredient(item: string, quantity: int)
      requires Valid()
      modifies this
      ensures Valid()
      ensures inputs2 == old(inputs2)[item := quantity]
      ensures inputs == old(inputs) && history == old(history) && Repr == old(Repr) && Logs == old(Logs)
      ensures model == old(model).(primitive := inputs2)
    {
      inputs2, model := inputs2[item := quantity], model.(primitive := inputs2[item := quantity]);
      forall s | s in inputs
        ensures s.Valid()
      {
        s.StillValid();
      }
    }

    /**
     * Adds (or replaces) a sub-recipe ingredient: `recipe` now needs
     * `quantity`, whatever it needed before; nothing else changes. The recipe
     * must not already reach this one, so no cycle is formed.
     */
    method AddRecipeIngredient(recipe: Recipe, quantity: int)
      requires Valid() && recipe.Valid() && this !in recipe.Repr
      modifies this
      ensures Valid()
      ensures inputs == old(inputs)[recipe := quantity]
      ensures Repr == old(Repr) + recipe.Repr && Logs == old(Logs) + recipe.Logs
      ensures inputs2 == old(inputs2) && history == old(history)
      ensures model == old(model).(subs := old(model).subs[recipe := Part(quantity, recipe.model)])
    {
      inputs, Repr, Logs, model :=
        inputs[recipe := quantity], Repr + recipe.Repr, Logs + recipe.Logs,
        model.(subs := model.subs[recipe := Part(quantity, recipe.model)]);
      forall s | s in inputs
        ensures s.Valid()
      {
        s.StillValid();
      }
    }
  }
}
