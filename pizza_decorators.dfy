/**
 * The class decorators of `03_decorator/solution2.js`: a `Pizza` wrapped by
 * `ToppingDecorator`s. Each decorator keeps the wrapped pizza in its
 * `Pizza` property and is never changed afterwards, so a decorated pizza
 * is a value: the chain of decorators around the basic pizza.
 *
 * `HotSauce` reads the property `pizza`, which no constructor sets, so its
 * `getPrice` and `getDescription` throw a `TypeError`. `GetPrice` and
 * `GetDescription` model that as written; `IntendedPrice` and
 * `IntendedDescription` model the evidently intended behaviour.
 */
module PizzaDecorators {
  import opened Wrappers
  import Seqs

  const BasicPizzaPrice := 10
  const CheeseToppingPrice := 2
  const PepperoniToppingPrice := 3
  const HotSauceToppingPrice := 1

  /** The concrete decorators. */
  datatype Topping = Cheese | Pepperoni | HotSauce

  /** `new Pizza()`, a bare `new ToppingDecorator(pizza)`, or a concrete decorator around a pizza. */
  datatype Pizza = Basic | ToppingDecorator(pizza: Pizza) | Topped(topping: Topping, pizza: Pizza)

  /** The `description` a decorator's constructor sets. */
  function Name(topping: Topping): string {
    match topping
    case Cheese => "cheese"
    case Pepperoni => "pepperoni"
    case HotSauce => "hot sauce"
  }

  /** The price constant a decorator adds. */
  function ToppingPrice(topping: Topping): (price: int)
    ensures price > 0
  {
    match topping
    case Cheese => CheeseToppingPrice
    case Pepperoni => PepperoniToppingPrice
    case HotSauce => HotSauceToppingPrice
  }

  /** The error a read of `getPrice` or `getDescription` through `undefined` throws. */
  function UndefinedRead(property: string): string {
    "Cannot read properties of undefined (reading '" + property + "')"
  }

  /** `getPrice()` as written: `HotSauce` throws. */
  function GetPrice(p: Pizza): Result<int> {
    match p
    case Basic => Ok(BasicPizzaPrice)
    case ToppingDecorator(inner) => GetPrice(inner)
    case Topped(HotSauce, _) => Err(UndefinedRead("getPrice"))
    case Topped(t, inner) =>
      var r := GetPrice(inner);
      if r.Ok? then Ok(r.value + ToppingPrice(t)) else r
  }

  /** `getDescription()` as written: `Cheese` and `Pepperoni` put a space before the wrapped description, `HotSauce` throws. */
  function GetDescription(p: Pizza): Result<string> {
    match p
    case Basic => Ok("Basic pizza")
    case ToppingDecorator(inner) => GetDescription(inner)
    case Topped(HotSauce, _) => Err(UndefinedRead("getDescription"))
    case Topped(t, inner) =>
      var r := GetDescription(inner);
      if r.Ok? then Ok(" " + r.value + ", " + Name(t)) else r
  }

  /** The toppings of a pizza, innermost first. */
  function Toppings(p: Pizza): seq<Topping> {
    match p
    case Basic => []
    case ToppingDecorator(inner) => Toppings(inner)
    case Topped(t, inner) => Toppings(inner) + [t]
  }

  /** The price `getPrice` evidently intends: `HotSauce` adds its price like the others. */
  function IntendedPrice(p: Pizza): int {
    match p
    case Basic => BasicPizzaPrice
    case ToppingDecorator(inner) => IntendedPrice(inner)
    case Topped(t, inner) => IntendedPrice(inner) + ToppingPrice(t)
  }

  /** The description `getDescription` evidently intends: `HotSauce` appends its name without the leading space. */
  function IntendedDescription(p: Pizza): string {
    match p
    case Basic => "Basic pizza"
    case ToppingDecorator(inner) => IntendedDescription(inner)
    case Topped(HotSauce, inner) => IntendedDescription(inner) + ", " + Name(HotSauce)
    case Topped(t, inner) => " " + IntendedDescription(inner) + ", " + Name(t)
  }

  /** The prices of a list of toppings. */
  function Prices(toppings: seq<Topping>): (prices: seq<int>)
    ensures |prices| == |toppings|
    ensures forall i :: 0 <= i < |toppings| ==> prices[i] == ToppingPrice(toppings[i])
  {
    if toppings == [] then [] else [ToppingPrice(toppings[0])] + Prices(toppings[1..])
  }

  /** `ToppingDecorator` passes price and description through. */
  lemma DecoratorPassesThrough(p: Pizza)
    ensures GetPrice(ToppingDecorator(p)) == GetPrice(p)
    ensures GetDescription(ToppingDecorator(p)) == GetDescription(p)
  {
  }

  /**
   * As written, a pizza's price and description are defined exactly when no
   * `HotSauce` is on it, and then they are the intended ones; with one
   * anywhere in the chain the call throws.
   */
  lemma {:induction false} HotSauceThrows(p: Pizza)
    ensures GetPrice(p).Ok? <==> HotSauce !in Toppings(p)
    ensures GetDescription(p).Ok? <==> HotSauce !in Toppings(p)
    ensures GetPrice(p).Ok? ==> GetPrice(p).value == IntendedPrice(p)
    ensures GetDescription(p).Ok? ==> GetDescription(p).value == IntendedDescription(p)
  {
    match p
    case Basic =>
    case ToppingDecorator(inner) =>
      HotSauceThrows(inner);
    case Topped(t, inner) =>
      HotSauceThrows(inner);
      assert t in Toppings(p);
  }

  /** The smallest input that shows it: hot sauce on the basic pizza. */
  lemma HotSauceOnBasicThrows()
    ensures GetPrice(Topped(HotSauce, Basic)) == Err("Cannot read properties of undefined (reading 'getPrice')")
    ensures IntendedPrice(Topped(HotSauce, Basic)) == 11
  {
  }

  /** The intended price is the basic price plus the price of every topping. */
  lemma {:induction false} IntendedPriceIsSum(p: Pizza)
    ensures IntendedPrice(p) == BasicPizzaPrice + Seqs.Sum(Prices(Toppings(p)))
  {
    match p
    case Basic =>
    case ToppingDecorator(inner) =>
      IntendedPriceIsSum(inner);
    case Topped(t, inner) =>
      IntendedPriceIsSum(inner);
      assert Prices(Toppings(inner) + [t]) == Prices(Toppings(inner)) + [ToppingPrice(t)];
      Seqs.SumAppend(Prices(Toppings(inner)), [ToppingPrice(t)]);
  }

  /** `n` spaces. */
  function Spaces(n: nat): (r: string)
    ensures |r| == n
  {
    if n == 0 then "" else " " + Spaces(n - 1)
  }

  /** The `", <name>"` suffixes of a list of toppings, innermost first. */
  function Suffixes(toppings: seq<Topping>): string {
    if toppings == [] then "" else Suffixes(toppings[..|toppings| - 1]) + ", " + Name(toppings[|toppings| - 1])
  }

  /** One `Cheese` or `Pepperoni` step of `LeadingSpacesAccumulate`. */
  lemma LeadingSpaceStep(t: Topping, inner: Pizza)
    requires t != HotSauce
    requires IntendedDescription(inner) == Spaces(|Toppings(inner)|) + "Basic pizza" + Suffixes(Toppings(inner))
    ensures IntendedDescription(Topped(t, inner))
         == Spaces(|Toppings(inner)| + 1) + "Basic pizza" + Suffixes(Toppings(inner) + [t])
  {
    var ts := Toppings(inner) + [t];
    assert ts[..|ts| - 1] == Toppings(inner);
    var n := |Toppings(inner)|;
    var spaces, suffixes := Spaces(n), Suffixes(Toppings(inner));
    assert IntendedDescription(Topped(t, inner)) == " " + IntendedDescription(inner) + ", " + Name(t);
    assert Spaces(n + 1) == " " + spaces;
    assert Suffixes(ts) == suffixes + ", " + Name(t);
    Regroup(spaces, suffixes, Name(t));
  }

  /** Moving the leading space and the new suffix into their groups. */
  lemma Regroup(spaces: string, suffixes: string, name: string)
    ensures " " + (spaces + "Basic pizza" + suffixes) + ", " + name == (" " + spaces) + "Basic pizza" + (suffixes + ", " + name)
  {
  }

  /**
   * Each `Cheese` or `Pepperoni` adds one leading space, so the intended
   * description of a chain without hot sauce is one space per topping, the
   * basic description, and the topping names in the order added.
   */
  lemma {:induction false} LeadingSpacesAccumulate(p: Pizza)
    requires HotSauce !in Toppings(p)
    ensures IntendedDescription(p) == Spaces(|Toppings(p)|) + "Basic pizza" + Suffixes(Toppings(p))
  {
    match p
    case Basic =>
    case ToppingDecorator(inner) =>
      LeadingSpacesAccumulate(inner);
    case Topped(t, inner) =>
      var ts := Toppings(p);
      assert ts == Toppings(inner) + [t];
      assert t != HotSauce && HotSauce !in Toppings(inner) by {
        assert t == ts[|ts| - 1];
      }
      LeadingSpacesAccumulate(inner);
      LeadingSpaceStep(t, inner);
  }

  /**
   * The client code: basic 10, cheese 12, pepperoni 13, and cheese on
   * pepperoni 15, described with two leading spaces and the toppings in the
   * order they were added.
   */
  lemma ClientCode()
    ensures GetPrice(Basic) == Ok(10)
    ensures GetPrice(Topped(Cheese, Basic)) == Ok(12)
    ensures GetPrice(Topped(Pepperoni, Basic)) == Ok(13)
    ensures GetPrice(Topped(Cheese, Topped(Pepperoni, Basic))) == Ok(15)
    ensures GetDescription(Topped(Cheese, Topped(Pepperoni, Basic)))
         == Ok(Spaces(2) + "Basic pizza" + Suffixes([Pepperoni, Cheese]))
  {
    var deluxe := Topped(Cheese, Topped(Pepperoni, Basic));
    assert Toppings(deluxe) == [Pepperoni, Cheese];
    HotSauceThrows(deluxe);
    LeadingSpacesAccumulate(deluxe);
  }
}
