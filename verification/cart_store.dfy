/**
 * The page's cart state: the live cart and the snapshot last written to
 * browser storage under the key 'cart'. Every mutating operation updates the
 * cart and then overwrites the snapshot with it, as the page script does.
 */
module CartStore {
  import opened CartModel
  import opened CartTotals

  class ShoppingCart {
    /** The live cart, in insertion order. */
    var cart: seq<Line>
    /** The snapshot held by storage; stands in for `localStorage['cart']`. */
    var saved: seq<Line>

    /** Ids are distinct, quantities are at least 1 and storage holds the live cart. */
    ghost predicate Valid()
      reads this
    {
      WellFormed(cart) && saved == cart
    }

    /** Start from the cart that was loaded from storage. */
    constructor (initial: seq<Line>)
      requires WellFormed(initial)
      ensures Valid()
      ensures cart == initial
    {
      cart := initial;
      saved := initial;
    }

    /** The number shown on the cart badge. */
    function ItemCount(): (n: int)
      reads this
      requires Valid()
      ensures n >= |cart|
      ensures n == 0 <==> cart == []
    {
      CountBounds(cart);
      Count(cart)
    }

    /** Add one unit of a product: bump its line in place, or append a new line. */
    method AddToCart(id: string, name: string, price: real)
      requires WellFormed(cart)
      modifies this
      ensures Valid()
      ensures cart == Added(old(cart), id, name, price)
    {
      AddedWellFormed(cart, id, name, price);
      var found := Find(cart, id);
      match found {
        case Some(i) =>
          AddedExisting(cart, id, name, price, i);
          cart := cart[i := cart[i].(quantity := cart[i].quantity + 1)];
        case None =>
          AddedNew(cart, id, name, price);
          cart := cart + [Line(id, name, price, 1)];
      }
      saved := cart;
    }

    /**
     * Drop every line with `id` and save. Also called from `UpdateQuantity`
     * on a cart whose line for `id` was just given a quantity below 1, so it
     * does not require the invariant.
     */
    method RemoveItem(id: string)
      modifies this
      ensures cart == Removed(old(cart), id)
      ensures saved == cart
      ensures old(WellFormed(cart)) ==> Valid()
    {
      if WellFormed(cart) {
        RemovedWellFormed(cart, id);
      }
      cart := Removed(cart, id);
      saved := cart;
    }

    /** Write `q` into the line with `id`, then drop the line if `q < 1`, else save. */
    method UpdateQuantity(id: string, q: int)
      requires Valid()
      modifies this
      ensures Valid()
      ensures cart == Updated(old(cart), id, q)
    {
      var found := Find(cart, id);
      if found.Some? {
        var i := found.value;
        UpdatedWellFormed(cart, id, q);
        WithQuantityAt(cart, id, q, i);
        RemovedIgnoresQuantity(cart, id, q);
        cart := cart[i := cart[i].(quantity := q)];
        if cart[i].quantity < 1 {
          RemoveItem(id);
        } else {
          saved := cart;
        }
      }
    }

    /** The minus button next to a line. */
    method Decrement(id: string)
      requires Valid()
      modifies this
      ensures Valid()
      ensures cart == Stepped(old(cart), id, -1)
    {
      var found := Find(cart, id);
      if found.Some? {
        UpdateQuantity(id, cart[found.value].quantity - 1);
      }
    }

    /** The plus button next to a line. */
    method Increment(id: string)
      requires Valid()
      modifies this
      ensures Valid()
      ensures cart == Stepped(old(cart), id, 1)
    {
      var found := Find(cart, id);
      if found.Some? {
        UpdateQuantity(id, cart[found.value].quantity + 1);
      }
    }

    /** Empty the cart and save; the resulting state does not depend on the state before. */
    method ClearCart()
      modifies this
      ensures Valid()
      ensures cart == [] && saved == []
    {
      cart := [];
      saved := cart;
    }
  }

  /** Adding the same product twice to an empty cart gives one line of quantity 2. */
  method AddTwiceScenario(id: string, name: string, price: real) returns (c: ShoppingCart)
    ensures fresh(c) && c.Valid()
    ensures c.cart == [Line(id, name, price, 2)]
  {
    c := new ShoppingCart([]);
    c.AddToCart(id, name, price);
    c.AddToCart(id, name, price);
  }

  /** Clearing twice leaves the same empty cart and snapshot as clearing once. */
  method ClearTwiceScenario(c: ShoppingCart)
    modifies c
    ensures c.Valid() && c.cart == [] && c.saved == []
  {
    c.ClearCart();
    var once := c.cart;
    c.ClearCart();
    assert c.cart == once;
  }
}
