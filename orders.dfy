/**
 * The affordability arithmetic of Recipe.fromPurse: how many crafts a purse
 * pays for, how a quantity splits into full orders of a fixed size plus a
 * remainder, and the "%d full orders %d extra" text each item is reported as.
 */
module Orders {

  /** The size of one full order. */
  const BatchSize: int := 71680

  /** Java's `/` on integers: the quotient truncated toward zero. */
  function JavaDiv(a: int, b: int): (q: int)
    requires b > 0
    ensures a >= 0 ==> 0 <= q * b <= a < q * b + b
    ensures a < 0 ==> q * b - b < a <= q * b <= 0
  {
    var n := if a >= 0 then a else -a;
    var d := n / b;
    assert d * b + n % b == n && 0 <= n % b < b;
    if a >= 0 then d
    else
      assert (-d) * b == -(d * b);
      -d
  }

  /** Java's `%` on integers: the remainder takes the sign of the dividend. */
  function JavaRem(a: int, b: int): (r: int)
    requires b > 0
    ensures r == a - JavaDiv(a, b) * b
    ensures a >= 0 ==> 0 <= r < b
    ensures a < 0 ==> -b < r <= 0
  {
    if a >= 0 then a % b else -((-a) % b)
  }

  /** A quantity as whole orders plus extra units. */
  datatype Split = Split(full: int, extra: int)

  /**
   * Splits `itemCount` into full orders and a remainder the way Java's
   * truncating `/` and `%` do: the parts add back up to `itemCount`, and the
   * remainder lies strictly within one order of zero, on the side of its sign.
   */
  function SplitOrders(itemCount: int): (s: Split)
    ensures s.full * BatchSize + s.extra == itemCount
    ensures itemCount >= 0 ==> s.full >= 0 && 0 <= s.extra < BatchSize
    ensures itemCount < 0 ==> s.full <= 0 && -BatchSize < s.extra <= 0
  {
    Split(JavaDiv(itemCount, BatchSize), JavaRem(itemCount, BatchSize))
  }

  /**
   * A negative count splits toward zero, as Java's operators do: -1 is no
   * full order and -1 extra, where Euclidean division would give -1 orders
   * and 71679 extra.
   */
  lemma NegativeCountSplit()
    ensures SplitOrders(-1) == Split(0, -1)
    ensures (-1) / BatchSize == -1 && (-1) % BatchSize == BatchSize - 1
  {
  }

  /** The number of crafts a purse pays for: `(long) Math.floor(purse / price)`. */
  function CraftCount(purse: real, price: real): (n: int)
    requires price != 0.0
    ensures n as real <= purse / price < n as real + 1.0
  {
    (purse / price).Floor
  }

  /**
   * The order plan for a recipe's direct primitive ingredients, given its unit
   * price: nothing when the price is zero; otherwise, for every ingredient and
   * for nothing else, the split of craft count times the per-craft quantity.
   */
  function OrderPlan(ingredients: map<string, int>, purse: real, price: real): (plan: map<string, Split>)
    ensures price == 0.0 ==> plan == map[]
    ensures price != 0.0 ==> plan.Keys == ingredients.Keys
    ensures price != 0.0 ==> forall item :: item in plan ==>
      plan[item].full * BatchSize + plan[item].extra == CraftCount(purse, price) * ingredients[item]
    ensures price != 0.0 ==> forall item :: item in plan && CraftCount(purse, price) * ingredients[item] >= 0 ==>
      0 <= plan[item].extra < BatchSize
    ensures price != 0.0 ==> forall item :: item in plan && CraftCount(purse, price) * ingredients[item] < 0 ==>
      -BatchSize < plan[item].extra <= 0
  {
    if price == 0.0 then map[]
    else
      var count := CraftCount(purse, price);
      map item | item in ingredients :: SplitOrders(count * ingredients[item])
  }

  /** A purse that pays for no craft yields zero full orders and zero extra for every ingredient. */
  lemma NothingAffordable(ingredients: map<string, int>, purse: real, price: real)
    requires price > 0.0 && 0.0 <= purse < price
    ensures OrderPlan(ingredients, purse, price).Keys == ingredients.Keys
    ensures forall item :: item in ingredients ==> OrderPlan(ingredients, purse, price)[item] == Split(0, 0)
  {
    var inv := 1.0 / price;
    assert purse / price == purse * inv && price * inv == 1.0;
    assert purse * inv < price * inv;
    assert CraftCount(purse, price) == 0;
  }

  /** Purse 5000 at unit price 1001.0 pays for 4 crafts: 40 units of a 10-per-craft item, no full order. */
  lemma WidgetPlan()
    ensures OrderPlan(map["RAW_ORE" := 10], 5000.0, 1001.0) == map["RAW_ORE" := Split(0, 40)]
  {
    assert 4.0 <= 5000.0 / 1001.0 < 5.0;
    assert CraftCount(5000.0, 1001.0) == 4;
  }

  // ---- Decimal text, as Java's "%d" writes an integer ----

  /** The digit character for 0..9. */
  function DigitChar(d: int): (c: char)
    requires 0 <= d < 10
    ensures '0' <= c <= '9' && (c as int) - ('0' as int) == d
  {
    ((('0' as int) + d) as char)
  }

  /** The value of a digit character. */
  function DigitValue(c: char): nat {
    if '0' <= c <= '9' then (c as int) - ('0' as int) else 0
  }

  predicate AllDigits(s: string) {
    forall i :: 0 <= i < |s| ==> '0' <= s[i] <= '9'
  }

  /** The decimal digits of `n`, most significant first, without leading zeros. */
  function Digits(n: nat): (s: string)
    ensures |s| > 0 && AllDigits(s)
    decreases n
  {
    if n < 10 then [DigitChar(n)] else Digits(n / 10) + [DigitChar(n % 10)]
  }

  /** The value of a string of digits. */
  function DigitsValue(s: string): nat
    decreases |s|
  {
    if s == [] then 0 else DigitsValue(s[..|s| - 1]) * 10 + DigitValue(s[|s| - 1])
  }

  lemma {:induction false} DigitsRoundTrip(n: nat)
    ensures DigitsValue(Digits(n)) == n
    decreases n
  {
    if n >= 10 {
      var d := Digits(n);
      assert d[..|d| - 1] == Digits(n / 10);
      DigitsRoundTrip(n / 10);
    }
  }

  /** `n` as Java's `String.format("%d", n)` writes it in a locale with ASCII digits and an ASCII minus sign. */
  function Decimal(n: int): (s: string)
    ensures forall i :: 0 <= i < |s| ==> s[i] != ' '
  {
    if n < 0 then "-" + Digits(-n) else Digits(n)
  }

  /** Reads back a decimal integer with an optional leading minus sign. */
  function ParseDecimal(s: string): int {
    if |s| > 0 && s[0] == '-' then -(DigitsValue(s[1..]) as int) else DigitsValue(s)
  }

  /** Reading back the text of an integer gives that integer. */
  lemma DecimalRoundTrip(n: int)
    ensures ParseDecimal(Decimal(n)) == n
  {
    if n < 0 {
      assert Decimal(n)[1..] == Digits(-n);
      DigitsRoundTrip(-n);
    } else {
      DigitsRoundTrip(n);
    }
  }

  const FullOrdersText: string := " full orders "
  const ExtraText: string := " extra"

  /** The text fromPurse reports for one ingredient. */
  function Render(s: Split): string {
    Decimal(s.full) + FullOrdersText + Decimal(s.extra) + ExtraText
  }

  /** The position of the first space in `s`, or `|s|` when there is none. */
  function SpaceIndex(s: string): (i: nat)
    ensures i <= |s|
    ensures forall j :: 0 <= j < i ==> s[j] != ' '
    ensures i < |s| ==> s[i] == ' '
  {
    if s == [] then 0 else if s[0] == ' ' then 0 else 1 + SpaceIndex(s[1..])
  }

  /** Reads a report line back into its two numbers. */
  function ReadSplit(line: string): Split {
    var i := SpaceIndex(line);
    var rest := line[i..];
    var tail := if |rest| >= |FullOrdersText| then rest[|FullOrdersText|..] else [];
    Split(ParseDecimal(line[..i]), ParseDecimal(tail[..SpaceIndex(tail)]))
  }

  /** A space-free word followed by a space ends at that space. */
  lemma SpaceIndexOfWord(w: string, t: string)
    requires forall i :: 0 <= i < |w| ==> w[i] != ' '
    requires |t| > 0 && t[0] == ' '
    ensures SpaceIndex(w + t) == |w|
  {
    assert (w + t)[|w|] == ' ';
  }

  /** The report text loses nothing: both numbers can be read back from it. */
  lemma RenderRoundTrip(s: Split)
    ensures ReadSplit(Render(s)) == s
  {
    var a, b := Decimal(s.full), Decimal(s.extra);
    var line := Render(s);
    assert line == a + (FullOrdersText + b + ExtraText);
    SpaceIndexOfWord(a, FullOrdersText + b + ExtraText);
    assert line[..|a|] == a;
    var rest := line[|a|..];
    assert rest == FullOrdersText + b + ExtraText;
    var tail := rest[|FullOrdersText|..];
    assert tail == b + ExtraText;
    SpaceIndexOfWord(b, ExtraText);
    assert tail[..|b|] == b;
    DecimalRoundTrip(s.full);
    DecimalRoundTrip(s.extra);
  }

  /** Distinct splits are reported as distinct text. */
  lemma RenderInjective(s: Split, t: Split)
    requires Render(s) == Render(t)
    ensures s == t
  {
    RenderRoundTrip(s);
    RenderRoundTrip(t);
  }
}
