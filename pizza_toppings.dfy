/**
 * The functional decorators of `03_decorator/hOrderF.js`: a pizza is a plain
 * record, `addTopping(topping)` is a function from pizza to a new pizza,
 * and `createPizzaWithToppings` folds a list of toppings over the base
 * pizza with `reduce`. Records are never mutated, so they are values here.
 */
module PizzaToppings {
  import Seqs

  /** `{ description, price }` of a pizza. */
  datatype Pizza = Pizza(description: string, price: int)

  /** `{ description, price }` of a topping. */
  datatype Topping = Topping(description: string, price: int)

  const BasicPizzaPrice := 10
  const CheeseToppingPrice := 2
  const PepperoniToppingPrice := 3
  const HotSauceToppingPrice := 1

  const Cheese := Topping("cheese", CheeseToppingPrice)
  const Pepperoni := Topping("pepperoni", PepperoniToppingPrice)
  const HotSauce := Topping("hotSauce", HotSauceToppingPrice)

  /** `createPizza()`. */
  function CreatePizza(): (p: Pizza)
    ensures p.description == "Base_pizza" && p.price == BasicPizzaPrice
  {
    Pizza("Base_pizza", BasicPizzaPrice)
  }

  /** The text a topping adds to a description. */
  function Suffix(topping: Topping): string {
    " with " + topping.description + " topping"
  }

  /** `addTopping(topping)(pizza)`: a new pizza whose price adds the topping's and whose description ends with the topping's suffix. */
  function AddTopping(topping: Topping, pizza: Pizza): (r: Pizza)
    ensures r.price - pizza.price == topping.price
    ensures |r.description| > |pizza.description|
    ensures r.description[..|pizza.description|] == pizza.description
    ensures r.description[|pizza.description|..] == Suffix(topping)
  {
    var r := Pizza(pizza.description + Suffix(topping), pizza.price + topping.price);
    assert r.description[..|pizza.description|] == pizza.description;
    r
  }

  /** `createPizzaWithToppings(toppings)`: `reduce` from the left, starting at `createPizza()`. */
  function CreatePizzaWithToppings(toppings: seq<Topping>): Pizza {
    if toppings == [] then CreatePizza()
    else AddTopping(toppings[|toppings| - 1], CreatePizzaWithToppings(toppings[..|toppings| - 1]))
  }

  /** The prices of a list of toppings. */
  function Prices(toppings: seq<Topping>): (prices: seq<int>)
    ensures |prices| == |toppings|
    ensures forall i :: 0 <= i < |toppings| ==> prices[i] == toppings[i].price
  {
    if toppings == [] then [] else [toppings[0].price] + Prices(toppings[1..])
  }

  /** The suffixes of a list of toppings, first topping first. */
  function Suffixes(toppings: seq<Topping>): string {
    if toppings == [] then "" else Suffix(toppings[0]) + Suffixes(toppings[1..])
  }

  /** The suffixes of a concatenation are the suffixes of its parts. */
  lemma {:induction false} SuffixesAppend(a: seq<Topping>, b: seq<Topping>)
    ensures Suffixes(a + b) == Suffixes(a) + Suffixes(b)
  {
    if a == [] {
      assert a + b == b;
    } else {
      assert (a + b)[1..] == a[1..] + b;
      SuffixesAppend(a[1..], b);
    }
  }

  /** No toppings: the base pizza. */
  lemma NoToppingsIsBase()
    ensures CreatePizzaWithToppings([]) == CreatePizza()
  {
  }

  /** With toppings, the price is the base price plus the sum of the topping prices. */
  lemma {:induction false} PriceIsBasePlusToppings(toppings: seq<Topping>)
    ensures CreatePizzaWithToppings(toppings).price == BasicPizzaPrice + Seqs.Sum(Prices(toppings))
  {
    if toppings != [] {
      var init := toppings[..|toppings| - 1];
      var last := toppings[|toppings| - 1];
      PriceIsBasePlusToppings(init);
      assert toppings == init + [last];
      assert Prices(toppings) == Prices(init) + [last.price];
      Seqs.SumAppend(Prices(init), [last.price]);
    }
  }

  /** The description is the base description followed by one suffix per topping, in list order. */
  lemma {:induction false} DescriptionInOrder(toppings: seq<Topping>)
    ensures CreatePizzaWithToppings(toppings).description == "Base_pizza" + Suffixes(toppings)
  {
    if toppings != [] {
      var init := toppings[..|toppings| - 1];
      var last := toppings[|toppings| - 1];
      DescriptionInOrder(init);
      assert toppings == init + [last];
      SuffixesAppend(init, [last]);
      assert Suffixes([last]) == Suffix(last);
    }
  }

  /** Adding toppings one by one is the same as passing them all at once. */
  lemma {:induction false} OneByOneIsAtOnce(toppings: seq<Topping>, topping: Topping)
    ensures AddTopping(topping, CreatePizzaWithToppings(toppings)) == CreatePizzaWithToppings(toppings + [topping])
  {
    assert (toppings + [topping])[..|toppings|] == toppings;
  }

  /** Two toppings added one after the other. */
  lemma TwoToppings(first: Topping, second: Topping)
    ensures AddTopping(second, AddTopping(first, CreatePizza()))
         == Pizza("Base_pizza" + Suffix(first) + Suffix(second), BasicPizzaPrice + first.price + second.price)
  {
  }

  /** The client code, step by step: cheese then pepperoni on the base pizza cost 12 and then 15. */
  lemma ClientCodeStepByStep()
    ensures var cheesePizza := AddTopping(Cheese, CreatePizza());
      var deluxePizza1 := AddTopping(Pepperoni, cheesePizza);
      cheesePizza.price == 12 && deluxePizza1.price == 15 &&
      deluxePizza1.description == "Base_pizza" + Suffix(Cheese) + Suffix(Pepperoni) &&
      deluxePizza1 == CreatePizzaWithToppings([Cheese, Pepperoni])
  {
    TwoToppings(Cheese, Pepperoni);
    OneByOneIsAtOnce([], Cheese);
    assert [] + [Cheese] == [Cheese];
    OneByOneIsAtOnce([Cheese], Pepperoni);
    assert [Cheese] + [Pepperoni] == [Cheese, Pepperoni];
  }

  /** The client code, all at once: cheese, pepperoni and hot sauce cost 16. */
  lemma ClientCodeAtOnce()
    ensures CreatePizzaWithToppings([Cheese, Pepperoni, HotSauce]).price == 16
  {
    var ts := [Cheese, Pepperoni, HotSauce];
    PriceIsBasePlusToppings(ts);
    assert Prices(ts) == [2, 3, 1];
    assert Seqs.Sum([1]) == 1;
    assert Seqs.Sum([3, 1]) == 4;
  }
}
