/**
 * The order add-ons of `10_exercises/03_exercise.js`: a base order wrapped
 * by decorators, each of which forwards to the order it wraps and adds its
 * own price and description suffix. A decorator never changes the order
 * it wraps, so orders are values.
 */
module OrderAddOns {
  import Seqs
  import Strings

  /** The concrete decorators. */
  datatype Feature = GiftWrapping | ExpeditedShipping | PersonalMessage

  /** An order: the base `Order`, a bare `OrderDecorator`, or a concrete decorator around an order. */
  datatype Order = BaseOrder | OrderDecorator(order: Order) | AddOn(feature: Feature, order: Order)

  /** The base cost. */
  const BaseCost := 50

  /** The description suffix of a feature. */
  function FeatureName(feature: Feature): string {
    match feature
    case GiftWrapping => "Gift Wrapping"
    case ExpeditedShipping => "Expedited Shipping"
    case PersonalMessage => "Personal Message"
  }

  /** What a feature adds to the cost. */
  function FeaturePrice(feature: Feature): (price: int)
    ensures price > 0
  {
    match feature
    case GiftWrapping => 5
    case ExpeditedShipping => 15
    case PersonalMessage => 3
  }

  /** `getDescription()`. */
  function GetDescription(order: Order): string {
    match order
    case BaseOrder => "Base Order"
    case OrderDecorator(inner) => GetDescription(inner)
    case AddOn(feature, inner) => GetDescription(inner) + " + " + FeatureName(feature)
  }

  /** `getCost()`. */
  function GetCost(order: Order): int {
    match order
    case BaseOrder => BaseCost
    case OrderDecorator(inner) => GetCost(inner)
    case AddOn(feature, inner) => GetCost(inner) + FeaturePrice(feature)
  }

  /** The features of an order, innermost first: the order in which they were added. */
  function Features(order: Order): seq<Feature> {
    match order
    case BaseOrder => []
    case OrderDecorator(inner) => Features(inner)
    case AddOn(feature, inner) => Features(inner) + [feature]
  }

  /** The prices of a list of features. */
  function Prices(features: seq<Feature>): (prices: seq<int>)
    ensures |prices| == |features|
    ensures forall i :: 0 <= i < |features| ==> prices[i] == FeaturePrice(features[i])
  {
    if features == [] then [] else [FeaturePrice(features[0])] + Prices(features[1..])
  }

  /** The description suffixes of a list of features, in order. */
  function Suffixes(features: seq<Feature>): string {
    if features == [] then "" else Suffixes(features[..|features| - 1]) + " + " + FeatureName(features[|features| - 1])
  }

  /** A bare `OrderDecorator` passes cost and description through unchanged. */
  lemma DecoratorPassesThrough(order: Order)
    ensures GetCost(OrderDecorator(order)) == GetCost(order)
    ensures GetDescription(OrderDecorator(order)) == GetDescription(order)
    ensures Features(OrderDecorator(order)) == Features(order)
  {
  }

  /** The cost of an order is the base cost plus the price of each feature added. */
  lemma {:induction false} CostIsBasePlusFeatures(order: Order)
    ensures GetCost(order) == BaseCost + Seqs.Sum(Prices(Features(order)))
  {
    match order
    case BaseOrder =>
    case OrderDecorator(inner) =>
      CostIsBasePlusFeatures(inner);
    case AddOn(feature, inner) =>
      CostIsBasePlusFeatures(inner);
      var fs := Features(inner);
      assert Prices(fs + [feature]) == Prices(fs) + [FeaturePrice(feature)];
      Seqs.SumAppend(Prices(fs), [FeaturePrice(feature)]);
  }

  /** Every decorator raises the cost: an order costs at least the base, strictly more with any feature. */
  lemma CostBounds(order: Order)
    ensures GetCost(order) >= BaseCost
    ensures Features(order) != [] ==> GetCost(order) > BaseCost
  {
    CostIsBasePlusFeatures(order);
    PositiveSum(Prices(Features(order)));
  }

  /** A sum of positive prices is positive unless empty. */
  lemma {:induction false} PositiveSum(prices: seq<int>)
    requires forall i :: 0 <= i < |prices| ==> prices[i] > 0
    ensures Seqs.Sum(prices) >= 0
    ensures prices != [] ==> Seqs.Sum(prices) > 0
  {
    if prices != [] {
      PositiveSum(prices[1..]);
    }
  }

  /** The description is the base description followed by `" + <Feature>"` for each feature, in the order added. */
  lemma {:induction false} DescriptionLists(order: Order)
    ensures GetDescription(order) == "Base Order" + Suffixes(Features(order))
  {
    match order
    case BaseOrder =>
    case OrderDecorator(inner) =>
      DescriptionLists(inner);
    case AddOn(feature, inner) =>
      DescriptionLists(inner);
      var fs := Features(inner) + [feature];
      assert fs[..|fs| - 1] == Features(inner);
  }

  /** `console.log(order.getDescription(), "=", order.getCost())`. */
  function Line(order: Order): string {
    GetDescription(order) + " = " + Strings.IntToString(GetCost(order))
  }

  /** The client code: gift wrap, expedited shipping and a personal message in turn raise 50 to 55, 70 and 73. */
  lemma ClientCode()
    ensures var wrapped := AddOn(GiftWrapping, BaseOrder);
      var shipped := AddOn(ExpeditedShipping, wrapped);
      var messaged := AddOn(PersonalMessage, shipped);
      [GetCost(BaseOrder), GetCost(wrapped), GetCost(shipped), GetCost(messaged)] == [50, 55, 70, 73] &&
      Features(messaged) == [GiftWrapping, ExpeditedShipping, PersonalMessage]
  {
  }
}
