# Bazaar recipe pricing, modelled in Dafny

Bazzar_Calc prices crafting recipes against the Hypixel Bazaar. A `Recipe` is a named
bill of materials. It holds two ingredient maps:

- `inputs2` maps a primitive market item id to the quantity needed per craft;
- `inputs` maps a nested `Recipe` object to the quantity needed per craft.

`calculatePrice` prices one craft. For every primitive item, it takes the best sell offer
(the first `sell_summary` entry's `pricePerUnit`), adds 0.1 and rounds to one decimal. It
then multiplies that by the quantity and rounds to one decimal again. It adds, for every
sub-recipe, that sub-recipe's own price times its quantity, also rounded to one decimal.
It logs the total in the recipe's `history` under the current time.

`fromPurse` prices the recipe and works out how many crafts a purse pays for. For every
primitive ingredient it reports that count times the quantity as text: full orders of
71680 units plus the extra units. `addIngredient` sets one ingredient's quantity.
`toString` reports the name and the number of primitive ingredients.

## How the model is built

- `wrappers.dfy`, module `Wrappers`: the `Option` used for a market that could not be fetched.
- `sums.dfy`, module `Sums`: the total of a map's values (`Total`) and the lemma that the
  order of summation does not matter. Java iterates its hash maps in an unspecified order.
- `pricing.dfy`, module `Pricing`: the market snapshot (`Market`, item id to the list of
  sell prices), Java's `Math.round(x * 10) / 10.0` as `Round1`, and one primitive
  ingredient's contribution.
- `orders.dfy`, module `Orders`: the craft count and Java's truncating `/` and `%` by 71680.
  It also holds the `"%d full orders %d extra"` text, with a parser that reads the two
  numbers back.
- `recipe.dfy`, module `Recipes`: `Recipe` is a class with the source's fields. `inputs` and
  `inputs2` are maps the methods reassign. `history` is a reference to a `PriceLog` object
  holding the timestamp-to-price map, because a shared sub-recipe's log is written by
  every parent that prices it.

Ghost state supports the proofs:

- `Repr` is a set of recipes that contains this one and every recipe reachable from it.
- `Logs` is the set of their price logs.
- `model` is the bill of materials as a value (`Bom`).
- `Valid()` ties these to the fields and keeps the sub-recipe graph acyclic. Sharing a
  sub-recipe between parents is allowed.

The cost is the pure function `Cost(model, market)`. Each method is proved against it.

Prices are exact reals, so the model has no floating-point error. The market is a
parameter: `Some(snapshot)` when the fetch succeeds, `None` when it throws. The clock is
the parameter `now`.

## Model

| member | source | states |
|---|---|---|
| Sums.TotalRemove | src/main/java/org/example/Recipe.java:34-50 | any ingredient can be summed first: the total equals that value plus the total of the rest, so the unspecified hash-map order does not change a price |
| Sums.TotalExtend | src/main/java/org/example/Recipe.java:34-47 | adding one more line to the running sum adds exactly that line's value |
| Sums.TotalNonNegative | src/main/java/org/example/Recipe.java:34-50 | a sum of non-negative contributions is non-negative |
| Pricing.Round1 | src/main/java/org/example/Recipe.java:39 | `Math.round(x*10)/10.0` gives a whole number of tenths within [x - 0.05, x + 0.05), i.e. rounds half up to one decimal |
| Pricing.Round1Unique | src/main/java/org/example/Recipe.java:39 | any multiple of 0.1 in that window is the rounded value |
| Pricing.Round1Idempotent | src/main/java/org/example/Recipe.java:39-40 | rounding an already rounded price changes nothing |
| Pricing.Round1Monotone | src/main/java/org/example/Recipe.java:39-40 | rounding preserves order |
| Pricing.LineTotal | src/main/java/org/example/Recipe.java:40 | a unit price times a quantity, rounded, is a whole number of tenths |
| Pricing.LineTotalNonNegative | src/main/java/org/example/Recipe.java:40 | a non-negative price times a non-negative quantity adds a non-negative amount |
| Pricing.PrimitiveCost | src/main/java/org/example/Recipe.java:35-46 | an item missing from the market, or with an empty sell_summary, contributes 0; every contribution is a whole number of tenths |
| Pricing.PrimitiveCosts | src/main/java/org/example/Recipe.java:34 | there is exactly one contribution per primitive ingredient |
| Pricing.PrimitiveCostNonNegative | src/main/java/org/example/Recipe.java:38-40 | non-negative sell prices and quantities give a non-negative contribution |
| Pricing.IngredientContribution | src/main/java/org/example/Recipe.java:34-47 | the primitive total is one ingredient's round1(round1(p + 0.1) * qty) plus the total of the others |
| Pricing.UnquotedIngredientIsFree | src/main/java/org/example/Recipe.java:35-46 | an ingredient the market does not quote adds nothing |
| Pricing.OnGridAdd | src/main/java/org/example/Recipe.java:40 | two whole numbers of tenths sum to a whole number of tenths |
| Pricing.TotalOnGrid | src/main/java/org/example/Recipe.java:40 | a sum of rounded contributions is a whole number of tenths |
| Pricing.WidgetOreCost | src/main/java/org/example/Recipe.java:38-40 | a best offer of 100.0 becomes 100.1 per unit, and ten units cost 1001.0 |
| Orders.JavaDiv | src/main/java/org/example/Recipe.java:67 | Java's `/` by a positive divisor truncates toward zero: for a non-negative dividend the quotient times the divisor is the largest multiple not above it, for a negative one the smallest multiple not below it |
| Orders.JavaRem | src/main/java/org/example/Recipe.java:68 | Java's `%` is the dividend minus the truncated quotient times the divisor, so its sign is the dividend's and its magnitude is below the divisor |
| Orders.SplitOrders | src/main/java/org/example/Recipe.java:66-68 | full orders times 71680 plus the extra is the item count; the extra lies in [0, 71680) for a non-negative count and in (-71680, 0] for a negative one, as Java's truncating operators give |
| Orders.NegativeCountSplit | src/main/java/org/example/Recipe.java:67-68 | -1 units are 0 full orders and -1 extra, not the Euclidean -1 and 71679 |
| Orders.CraftCount | src/main/java/org/example/Recipe.java:64 | the craft count is the largest integer not above purse / price |
| Orders.OrderPlan | src/main/java/org/example/Recipe.java:62-70 | a zero price gives no report; otherwise there is one entry per primitive ingredient and nothing more, and each entry's full*71680 + extra equals count*qty, with the extra in [0, 71680) for a non-negative count*qty and in (-71680, 0] for a negative one |
| Orders.NothingAffordable | src/main/java/org/example/Recipe.java:64-68 | a purse smaller than the price reports 0 full orders and 0 extra for every ingredient |
| Orders.WidgetPlan | src/main/java/org/example/Recipe.java:64-69 | a purse of 5000 at a price of 1001.0 buys 4 crafts: 40 units of a 10-per-craft item, no full order |
| Orders.Digits | src/main/java/org/example/Recipe.java:69 | a natural number's decimal digits are a non-empty string of digit characters |
| Orders.DigitsRoundTrip | src/main/java/org/example/Recipe.java:69 | the digits read back as the number |
| Orders.Decimal | src/main/java/org/example/Recipe.java:69 | `%d` writes an integer without spaces |
| Orders.DecimalRoundTrip | src/main/java/org/example/Recipe.java:69 | `%d` output, negative sign included, reads back as the integer |
| Orders.Render | src/main/java/org/example/Recipe.java:69 | the report line is the full-order count, " full orders ", the extra count and " extra"; what it preserves is stated by RenderRoundTrip and RenderInjective |
| Orders.RenderRoundTrip | src/main/java/org/example/Recipe.java:69 | both numbers can be read back from a "%d full orders %d extra" line |
| Orders.RenderInjective | src/main/java/org/example/Recipe.java:69 | different splits give different report lines |
| Recipes.PriceLog.constructor | src/main/java/org/example/Recipe.java:15 | each recipe's `history` map starts empty and belongs to that recipe alone |
| Recipes.Cost | src/main/java/org/example/Recipe.java:30-57 | the value calculatePrice computes with a market snapshot: the total of the primitive contributions plus the total of the sub-recipe contributions; every pricing contract is stated against it |
| Recipes.SubCosts | src/main/java/org/example/Recipe.java:48-50 | there is exactly one contribution per sub-recipe ingredient |
| Recipes.EmptyCost | src/main/java/org/example/Recipe.java:30-57 | a recipe with no ingredients costs 0 |
| Recipes.CostNonNegative | src/main/java/org/example/Recipe.java:30-57 | with non-negative sell prices and non-negative quantities at every level, the cost is non-negative |
| Recipes.SubRecipeContribution | src/main/java/org/example/Recipe.java:48-50 | the cost is the primitive total plus round1(sub-recipe cost * qty) plus the other sub-recipes' contributions |
| Recipes.CostOnGrid | src/main/java/org/example/Recipe.java:39-50 | every price is a whole number of tenths |
| Recipes.Recipe.constructor | src/main/java/org/example/Recipe.java:17-19 | the new recipe has the given name, no ingredients and an empty history, and it prices at 0 whatever the market |
| Recipes.Recipe.NodesInRepr | src/main/java/org/example/Recipe.java:48-50 | every recipe a pricing visits lies in the footprint |
| Recipes.Recipe.PrimitiveTotal | src/main/java/org/example/Recipe.java:34-47 | the loop over `inputs2`, in any order, returns the total of the primitive contributions |
| Recipes.Recipe.CalculatePrice | src/main/java/org/example/Recipe.java:30-57 | the result is the cost of the bill of materials, or 0 when the fetch fails; `history` gains (now, result) and keeps every other entry; no log outside the recipes the pricing visits changes, and with a failed fetch no other log changes at all; only price logs can be written |
| Recipes.Recipe.SubRecipeTotal | src/main/java/org/example/Recipe.java:48-50 | the loop over `inputs`, in any order, returns the total of the sub-recipe contributions and leaves this recipe's log and every unvisited log alone |
| Recipes.Recipe.PricePart | src/main/java/org/example/Recipe.java:49 | one sub-recipe's call adds round1(its cost * qty) and writes only logs beneath it (and never this recipe's own log) |
| Recipes.Recipe.FromPurse | src/main/java/org/example/Recipe.java:59-72 | the recipe is priced and logged as calculatePrice does: `history` gains (now, price), with a failed fetch no other log changes, and otherwise no log outside the visited recipes changes; a zero price gives an empty map; otherwise the keys are exactly the primitive ingredients and each value is the order-plan line for craft count times quantity |
| Recipes.Recipe.ToString | src/main/java/org/example/Recipe.java:82-85 | the text starts with the name, and the number between " (" and " ingredients)" reads back as the number of primitive ingredients |
| Recipes.Recipe.AddIngredient | src/main/java/org/example/Recipe.java:74-76 | the item's quantity is set, overwriting any earlier one; sub-recipes, history and footprint are unchanged; the recipe stays valid |
| Recipes.Recipe.AddRecipeIngredient | src/main/java/org/example/Recipe.java:78-80 | the sub-recipe's quantity is set, overwriting any earlier one; the footprint and logs grow by the sub-recipe's; primitive ingredients and history are unchanged; the recipe stays valid and acyclic |

## Left out

- Main.java: the command line, the HTTP fetch of the Bazaar, persistence and the recipe store are not part of this model.
- Recipes.Recipe.CalculatePrice: the source fetches the market again in every nested call; the model prices the whole tree against one snapshot, and a failed fetch is modelled only at the top.
- Recipes.Recipe.CalculatePrice: the source reads the clock once per recipe; the model uses one timestamp `now` for the whole pricing.
- Recipes.Recipe.CalculatePrice: states this recipe's new `history` entry and that logs of recipes the pricing does not visit stay unchanged, but not which (timestamp, price) each visited sub-recipe logs.
- Recipes.Recipe.CalculatePrice: an exception thrown midway (a malformed market entry) would keep the partial sum; the model has only a failed fetch, which yields 0.
- The "Warning" and "Failed to fetch prices" console messages are output only, and are not modelled.
- Orders.Decimal: Java's `%d` formats with the default locale, which may use other digits or signs; the model writes ASCII digits and `-`.
- Prices are exact reals, not IEEE doubles: rounding error in `+ 0.1`, `* 10` and `Math.round` is not modelled.
- Orders.CraftCount: the cast to `long` saturates, and `count * quantity` wraps in 64 bits in the source; the model uses unbounded integers.
- Recipes.Recipe.AddRecipeIngredient: requires that the added recipe does not already reach this one. The source has no such check, and a cycle would make calculatePrice recurse until the stack overflows.
- Recipes.Recipe.AddIngredient: validity is proved for the receiver. A parent holding this recipe as a sub-recipe is not re-established when it changes, since the model has no back-pointers to parents.
- getName, the no-argument constructor (name "Untitled") and serialVersionUID/Serializable are trivial or serialization-only, and are not modelled.
- The source keys `inputs` by the recipe object's identity (Recipe does not override `equals`/`hashCode`); the model keys it by object reference, which is the same thing.
