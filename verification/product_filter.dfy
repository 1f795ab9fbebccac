/**
 * The product listing filter: a card stays visible exactly when it matches
 * the selected category and the selected price range.
 */
module ProductFilter {

  /** The selector value that matches every category. */
  const AllCategories: string := "all"

  /** The price selector: every price, or the inclusive range `min-max`. */
  datatype PriceChoice = AnyPrice | Between(min: real, max: real)

  /** What the filter reads from a product card. */
  datatype Card = Card(category: string, price: real)

  predicate CategoryMatch(selected: string, category: string)
  {
    selected == AllCategories || category == selected
  }

  predicate PriceMatch(selected: PriceChoice, price: real)
  {
    match selected
    case AnyPrice => true
    case Between(min, max) => price >= min && price <= max
  }

  /** A card is displayed when both its category and its price match. */
  predicate Visible(category: string, price: PriceChoice, card: Card)
  {
    CategoryMatch(category, card.category) && PriceMatch(price, card.price)
  }

  /** Set the display flag of every card, in order, from the two selector values. */
  method FilterProducts(cards: seq<Card>, shown: array<bool>, category: string, price: PriceChoice)
    requires shown.Length == |cards|
    modifies shown
    ensures forall i :: 0 <= i < |cards| ==> shown[i] == Visible(category, price, cards[i])
  {
    var i := 0;
    while i < |cards|
      invariant 0 <= i <= |cards|
      invariant forall k :: 0 <= k < i ==> shown[k] == Visible(category, price, cards[k])
    {
      var card := cards[i];
      var categoryMatch := category == AllCategories || card.category == category;
      var priceMatch := true;
      if price.Between? {
        priceMatch := card.price >= price.min && card.price <= price.max;
      }
      shown[i] := categoryMatch && priceMatch;
      i := i + 1;
    }
  }

  /** With both selectors on "all", every card is shown. */
  lemma UnfilteredShowsAll(card: Card)
    ensures Visible(AllCategories, AnyPrice, card)
  {
  }

  /** Under a chosen category and range, a card is shown iff its category is that one and min <= price <= max. */
  lemma ShownIffBothMatch(category: string, min: real, max: real, card: Card)
    requires category != AllCategories
    ensures Visible(category, Between(min, max), card) <==>
              card.category == category && min <= card.price <= max
  {
  }

  /** Both ends of a price range are included. */
  lemma RangeInclusive(category: string, min: real, max: real)
    requires min <= max
    ensures Visible(category, Between(min, max), Card(category, min))
    ensures Visible(category, Between(min, max), Card(category, max))
  {
  }

  /** Relaxing either selector to "all" never hides a card that was shown. */
  lemma RelaxingShowsMore(category: string, price: PriceChoice, card: Card)
    requires Visible(category, price, card)
    ensures Visible(AllCategories, price, card)
    ensures Visible(category, AnyPrice, card)
  {
  }
}
