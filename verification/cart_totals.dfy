/**
 * Values derived from the cart: the badge count and the order summary
 * (subtotal, tax, shipping, total). Money is an exact `real`.
 */
module CartTotals {
  import opened CartModel

  /** Flat shipping charge, added to every order summary. */
  const Shipping: real := 5.0

  /** Tax rate applied to the subtotal. */
  const TaxRate: real := 0.1

  datatype Totals = Totals(subtotal: real, tax: real, shipping: real, total: real)

  /** The number of units in the cart: the sum of the line quantities (script.js:36). */
  function Count(cart: seq<Line>): int
  {
    if cart == [] then 0 else cart[0].quantity + Count(cart[1..])
  }

  /** The price of one line: unit price times quantity. */
  function LineTotal(l: Line): real
  {
    l.price * l.quantity as real
  }

  /** The sum of the line totals (script.js:123). */
  function Subtotal(cart: seq<Line>): real
  {
    if cart == [] then 0.0 else LineTotal(cart[0]) + Subtotal(cart[1..])
  }

  /** The order summary of the cart. */
  function CartTotals(cart: seq<Line>): (t: Totals)
    ensures t.subtotal == Subtotal(cart)
    ensures t.tax == t.subtotal * TaxRate
    ensures t.shipping == Shipping
    ensures t.total == t.subtotal * (1.0 + TaxRate) + Shipping
  {
    var subtotal := Subtotal(cart);
    var tax := subtotal * TaxRate;
    Totals(subtotal, tax, Shipping, subtotal + Shipping + tax)
  }

  // ---------------------------------------------------------------------
  // The count

  /** The count of a concatenation is the sum of the counts. */
  lemma {:induction false} CountConcat(a: seq<Line>, b: seq<Line>)
    ensures Count(a + b) == Count(a) + Count(b)
  {
    if a != [] {
      assert (a + b)[1..] == a[1..] + b;
      CountConcat(a[1..], b);
    } else {
      assert a + b == b;
    }
  }

  /** Replacing the line at `i` changes the count by the difference of the two quantities. */
  lemma CountUpdate(cart: seq<Line>, i: nat, l: Line)
    requires i < |cart|
    ensures Count(cart[i := l]) == Count(cart) - cart[i].quantity + l.quantity
  {
    assert cart == cart[..i] + [cart[i]] + cart[i + 1..];
    assert cart[i := l] == cart[..i] + [l] + cart[i + 1..];
    CountConcat(cart[..i] + [cart[i]], cart[i + 1..]);
    CountConcat(cart[..i], [cart[i]]);
    CountConcat(cart[..i] + [l], cart[i + 1..]);
    CountConcat(cart[..i], [l]);
  }

  /** When every quantity is at least 1 the count is at least the number of lines, so it is 0 exactly for an empty cart. */
  lemma {:induction false} CountBounds(cart: seq<Line>)
    requires AllPositive(cart)
    ensures Count(cart) >= |cart|
    ensures Count(cart) == 0 <==> cart == []
  {
    if cart != [] {
      assert AllPositive(cart[1..]) by {
        forall j | 0 <= j < |cart[1..]| ensures cart[1..][j].quantity >= 1 {
          assert cart[1..][j] == cart[j + 1];
        }
      }
      CountBounds(cart[1..]);
    }
  }

  /** Each add-to-cart raises the count by exactly 1. */
  lemma {:induction false} CountAdded(cart: seq<Line>, id: string, name: string, price: real)
    ensures Count(Added(cart, id, name, price)) == Count(cart) + 1
  {
    match Find(cart, id)
    case Some(i) =>
      AddedExisting(cart, id, name, price, i);
      CountUpdate(cart, i, cart[i].(quantity := cart[i].quantity + 1));
    case None =>
      AddedNew(cart, id, name, price);
      CountConcat(cart, [Line(id, name, price, 1)]);
  }

  /** Removing a product takes its whole quantity off the count. */
  lemma CountRemoved(cart: seq<Line>, id: string, i: nat)
    requires DistinctIds(cart)
    requires Find(cart, id) == Some(i)
    ensures Count(Removed(cart, id)) == Count(cart) - cart[i].quantity
  {
    RemovedAt(cart, id, i);
    assert cart == cart[..i] + [cart[i]] + cart[i + 1..];
    CountConcat(cart[..i] + [cart[i]], cart[i + 1..]);
    CountConcat(cart[..i], [cart[i]]);
    CountConcat(cart[..i], cart[i + 1..]);
  }

  /** Setting a present line to `q >= 1` changes the count from its old quantity to `q`. */
  lemma CountUpdated(cart: seq<Line>, id: string, q: int, i: nat)
    requires Find(cart, id) == Some(i)
    requires q >= 1
    ensures Count(Updated(cart, id, q)) == Count(cart) - cart[i].quantity + q
  {
    WithQuantityAt(cart, id, q, i);
    CountUpdate(cart, i, cart[i].(quantity := q));
  }

  // ---------------------------------------------------------------------
  // The subtotal

  /** The subtotal of a concatenation is the sum of the subtotals. */
  lemma {:induction false} SubtotalConcat(a: seq<Line>, b: seq<Line>)
    ensures Subtotal(a + b) == Subtotal(a) + Subtotal(b)
  {
    if a != [] {
      assert (a + b)[1..] == a[1..] + b;
      SubtotalConcat(a[1..], b);
    } else {
      assert a + b == b;
    }
  }

  /** Replacing the line at `i` changes the subtotal by the difference of the two line totals. */
  lemma SubtotalUpdate(cart: seq<Line>, i: nat, l: Line)
    requires i < |cart|
    ensures Subtotal(cart[i := l]) == Subtotal(cart) - LineTotal(cart[i]) + LineTotal(l)
  {
    assert cart == cart[..i] + [cart[i]] + cart[i + 1..];
    assert cart[i := l] == cart[..i] + [l] + cart[i + 1..];
    SubtotalConcat(cart[..i] + [cart[i]], cart[i + 1..]);
    SubtotalConcat(cart[..i], [cart[i]]);
    SubtotalConcat(cart[..i] + [l], cart[i + 1..]);
    SubtotalConcat(cart[..i], [l]);
  }

  /**
   * Adding a product raises the subtotal by one unit price: the price the
   * line was first added at when the id is already present, the given price
   * otherwise.
   */
  lemma {:induction false} SubtotalAdded(cart: seq<Line>, id: string, name: string, price: real)
    ensures Find(cart, id).Some? ==>
              Subtotal(Added(cart, id, name, price)) == Subtotal(cart) + cart[Find(cart, id).value].price
    ensures Find(cart, id).None? ==>
              Subtotal(Added(cart, id, name, price)) == Subtotal(cart) + price
  {
    match Find(cart, id)
    case Some(i) =>
      AddedExisting(cart, id, name, price, i);
      var l := cart[i].(quantity := cart[i].quantity + 1);
      SubtotalUpdate(cart, i, l);
      assert LineTotal(l) == LineTotal(cart[i]) + cart[i].price;
    case None =>
      AddedNew(cart, id, name, price);
      SubtotalConcat(cart, [Line(id, name, price, 1)]);
  }

  /** Removing a product takes its line total off the subtotal. */
  lemma SubtotalRemoved(cart: seq<Line>, id: string, i: nat)
    requires DistinctIds(cart)
    requires Find(cart, id) == Some(i)
    ensures Subtotal(Removed(cart, id)) == Subtotal(cart) - LineTotal(cart[i])
  {
    RemovedAt(cart, id, i);
    assert cart == cart[..i] + [cart[i]] + cart[i + 1..];
    SubtotalConcat(cart[..i] + [cart[i]], cart[i + 1..]);
    SubtotalConcat(cart[..i], [cart[i]]);
    SubtotalConcat(cart[..i], cart[i + 1..]);
  }

  /** With non-negative unit prices, the subtotal is non-negative and the total is at least the shipping charge. */
  lemma {:induction false} TotalAtLeastShipping(cart: seq<Line>)
    requires AllPositive(cart)
    requires forall j :: 0 <= j < |cart| ==> cart[j].price >= 0.0
    ensures Subtotal(cart) >= 0.0
    ensures CartTotals(cart).total >= Shipping
  {
    if cart != [] {
      forall j | 0 <= j < |cart[1..]| ensures cart[1..][j].quantity >= 1 && cart[1..][j].price >= 0.0 {
        assert cart[1..][j] == cart[j + 1];
      }
      TotalAtLeastShipping(cart[1..]);
      assert LineTotal(cart[0]) >= 0.0;
    }
  }

  /** The summary arithmetic does not special-case an empty cart: it still adds shipping, giving 5.00. */
  lemma EmptyCartTotals()
    ensures CartTotals([]) == Totals(0.0, 0.0, 5.0, 5.0)
  {
  }

  /** Two units at 10.00 and one at 5.50 give 25.50 + 2.55 tax + 5.00 shipping = 33.05. */
  lemma ExampleTotals()
    ensures CartTotals([Line("A", "Widget", 10.0, 2), Line("B", "Gadget", 5.5, 1)])
              == Totals(25.5, 2.55, 5.0, 33.05)
  {
    var cart := [Line("A", "Widget", 10.0, 2), Line("B", "Gadget", 5.5, 1)];
    assert cart[1..][1..] == [];
  }
}
