/**
 * The cart as a value: an ordered sequence of lines, and the effect of each
 * cart operation on that sequence, written as functions over it.
 * The class in cart_store.dfy performs these effects step by step and is
 * proved against the functions defined here.
 */
module CartModel {

  datatype Option<T> = None | Some(value: T)

  /** One product in the cart; `price` is the unit price fixed when the line was created. */
  datatype Line = Line(id: string, name: string, price: real, quantity: int)

  /** Some line of the cart carries `id`. */
  predicate InCart(cart: seq<Line>, id: string)
  {
    exists j :: 0 <= j < |cart| && cart[j].id == id
  }

  /** No two lines share an id. */
  predicate DistinctIds(cart: seq<Line>)
  {
    forall i, j :: 0 <= i < j < |cart| ==> cart[i].id != cart[j].id
  }

  /** Every line has quantity at least 1. */
  predicate AllPositive(cart: seq<Line>)
  {
    forall i :: 0 <= i < |cart| ==> cart[i].quantity >= 1
  }

  /** The invariant every reachable cart keeps. */
  predicate WellFormed(cart: seq<Line>)
  {
    DistinctIds(cart) && AllPositive(cart)
  }

  /** The index of the first line with `id`, if any (the lookup at script.js:50). */
  function Find(cart: seq<Line>, id: string): (r: Option<nat>)
    ensures r.Some? ==> r.value < |cart| && cart[r.value].id == id
    ensures r.Some? ==> forall j :: 0 <= j < r.value ==> cart[j].id != id
    ensures r.None? <==> !InCart(cart, id)
  {
    if cart == [] then None
    else if cart[0].id == id then Some(0)
    else
      match Find(cart[1..], id)
      case None =>
        assert forall j :: 1 <= j < |cart| ==> cart[j] == cart[1..][j - 1];
        None
      case Some(k) =>
        assert forall j :: 1 <= j <= k ==> cart[j] == cart[1..][j - 1];
        Some(k + 1)
  }

  /**
   * Reference definition of adding a product: walk the cart; the first line
   * with `id` gets one more unit, and if there is none a new line of quantity 1
   * closes the cart.
   */
  function Added(cart: seq<Line>, id: string, name: string, price: real): seq<Line>
  {
    if cart == [] then [Line(id, name, price, 1)]
    else if cart[0].id == id then [cart[0].(quantity := cart[0].quantity + 1)] + cart[1..]
    else [cart[0]] + Added(cart[1..], id, name, price)
  }

  /** The cart with every line carrying `id` dropped, others in order (script.js:136). */
  function Removed(cart: seq<Line>, id: string): (r: seq<Line>)
    ensures |r| <= |cart|
    ensures !InCart(r, id)
  {
    if cart == [] then []
    else if cart[0].id == id then Removed(cart[1..], id)
    else
      var rest := Removed(cart[1..], id);
      assert forall j :: 1 <= j < |[cart[0]] + rest| ==> ([cart[0]] + rest)[j] == rest[j - 1];
      [cart[0]] + rest
  }

  /** Reference definition of overwriting the quantity of the first line with `id` (script.js:146). */
  function WithQuantity(cart: seq<Line>, id: string, q: int): seq<Line>
  {
    if cart == [] then []
    else if cart[0].id == id then [cart[0].(quantity := q)] + cart[1..]
    else [cart[0]] + WithQuantity(cart[1..], id, q)
  }

  /** The net effect of `updateQuantity(id, q)` on the cart. */
  function Updated(cart: seq<Line>, id: string, q: int): seq<Line>
  {
    if !InCart(cart, id) then cart
    else if q < 1 then Removed(cart, id)
    else WithQuantity(cart, id, q)
  }

  /** The net effect of the plus (`delta` = 1) and minus (`delta` = -1) buttons. */
  function Stepped(cart: seq<Line>, id: string, delta: int): seq<Line>
  {
    match Find(cart, id)
    case None => cart
    case Some(i) => Updated(cart, id, cart[i].quantity + delta)
  }

  // ---------------------------------------------------------------------
  // Adding a product

  /** Adding an id already present bumps that line in place and changes nothing else. */
  lemma {:induction false} AddedExisting(cart: seq<Line>, id: string, name: string, price: real, i: nat)
    requires Find(cart, id) == Some(i)
    ensures Added(cart, id, name, price) == cart[i := cart[i].(quantity := cart[i].quantity + 1)]
  {
    if cart[0].id != id {
      assert Find(cart[1..], id) == Some(i - 1);
      AddedExisting(cart[1..], id, name, price, i - 1);
    }
  }

  /** Adding a new id appends one line of quantity 1 and leaves every earlier line alone. */
  lemma {:induction false} AddedNew(cart: seq<Line>, id: string, name: string, price: real)
    requires !InCart(cart, id)
    ensures Added(cart, id, name, price) == cart + [Line(id, name, price, 1)]
  {
    if cart != [] {
      assert cart[0].id != id;
      assert !InCart(cart[1..], id) by {
        forall j | 0 <= j < |cart[1..]| ensures cart[1..][j].id != id {
          assert cart[1..][j] == cart[j + 1];
        }
      }
      AddedNew(cart[1..], id, name, price);
      assert cart == [cart[0]] + cart[1..];
    }
  }

  /** Adding a product keeps ids distinct and every quantity at least 1. */
  lemma AddedWellFormed(cart: seq<Line>, id: string, name: string, price: real)
    requires WellFormed(cart)
    ensures WellFormed(Added(cart, id, name, price))
  {
    match Find(cart, id)
    case Some(i) => AddedExisting(cart, id, name, price, i);
    case None => AddedNew(cart, id, name, price);
  }

  // ---------------------------------------------------------------------
  // Removing a product

  /** A line survives removal exactly when it was in the cart and carries another id. */
  lemma {:induction false} RemovedMembers(cart: seq<Line>, id: string, l: Line)
    ensures l in Removed(cart, id) <==> l in cart && l.id != id
  {
    if cart != [] {
      RemovedMembers(cart[1..], id, l);
      assert cart == [cart[0]] + cart[1..];
    }
  }

  /** Removing an id that is not in the cart leaves the cart unchanged. */
  lemma {:induction false} RemovedAbsent(cart: seq<Line>, id: string)
    requires !InCart(cart, id)
    ensures Removed(cart, id) == cart
  {
    if cart != [] {
      assert cart[0].id != id;
      assert !InCart(cart[1..], id) by {
        forall j | 0 <= j < |cart[1..]| ensures cart[1..][j].id != id {
          assert cart[1..][j] == cart[j + 1];
        }
      }
      RemovedAbsent(cart[1..], id);
      assert cart == [cart[0]] + cart[1..];
    }
  }

  /** In a cart with distinct ids, removing the line at `i` keeps the others in their order. */
  lemma {:induction false} RemovedAt(cart: seq<Line>, id: string, i: nat)
    requires DistinctIds(cart)
    requires Find(cart, id) == Some(i)
    ensures Removed(cart, id) == cart[..i] + cart[i + 1..]
  {
    if cart[0].id == id {
      assert i == 0;
      assert !InCart(cart[1..], id) by {
        forall j | 0 <= j < |cart[1..]| ensures cart[1..][j].id != id {
          assert cart[1..][j] == cart[j + 1];
        }
      }
      RemovedAbsent(cart[1..], id);
    } else {
      assert Find(cart[1..], id) == Some(i - 1);
      RemovedAt(cart[1..], id, i - 1);
      assert cart[..i] == [cart[0]] + cart[1..][..i - 1];
      assert cart[i + 1..] == cart[1..][i..];
    }
  }

  /** Removal keeps ids distinct and every quantity at least 1. */
  lemma RemovedWellFormed(cart: seq<Line>, id: string)
    requires WellFormed(cart)
    ensures WellFormed(Removed(cart, id))
  {
    match Find(cart, id)
    case None => RemovedAbsent(cart, id);
    case Some(i) =>
      RemovedAt(cart, id, i);
      var r := Removed(cart, id);
      assert forall k :: 0 <= k < |r| ==> r[k] == (if k < i then cart[k] else cart[k + 1]);
  }

  // ---------------------------------------------------------------------
  // Setting a quantity

  /** Setting the quantity of the line found at `i` changes that field of that line only. */
  lemma {:induction false} WithQuantityAt(cart: seq<Line>, id: string, q: int, i: nat)
    requires Find(cart, id) == Some(i)
    ensures WithQuantity(cart, id, q) == cart[i := cart[i].(quantity := q)]
  {
    if cart[0].id != id {
      assert Find(cart[1..], id) == Some(i - 1);
      WithQuantityAt(cart[1..], id, q, i - 1);
    }
  }

  /** Whatever quantity was first written into the line, filtering it out afterwards gives `Removed`. */
  lemma {:induction false} RemovedIgnoresQuantity(cart: seq<Line>, id: string, q: int)
    ensures Removed(WithQuantity(cart, id, q), id) == Removed(cart, id)
  {
    if cart != [] && cart[0].id != id {
      RemovedIgnoresQuantity(cart[1..], id, q);
      var w := WithQuantity(cart, id, q);
      assert w[0] == cart[0] && w[1..] == WithQuantity(cart[1..], id, q);
    }
  }

  /** `updateQuantity(id, q)` with `q < 1` has the net effect of `removeItem(id)`, present or not. */
  lemma {:induction false} UpdatedBelowOneRemoves(cart: seq<Line>, id: string, q: int)
    requires q < 1
    ensures Updated(cart, id, q) == Removed(cart, id)
  {
    if !InCart(cart, id) {
      RemovedAbsent(cart, id);
    }
  }

  /** On a well-formed cart, `updateQuantity` with an integer quantity keeps the invariant. */
  lemma UpdatedWellFormed(cart: seq<Line>, id: string, q: int)
    requires WellFormed(cart)
    ensures WellFormed(Updated(cart, id, q))
  {
    match Find(cart, id)
    case None =>
    case Some(i) =>
      if q < 1 {
        RemovedWellFormed(cart, id);
      } else {
        WithQuantityAt(cart, id, q, i);
      }
  }

  // ---------------------------------------------------------------------
  // The plus and minus buttons

  /** Pressing minus on a line of quantity 1 deletes that line and keeps the others in order. */
  lemma MinusOnOneRemoves(cart: seq<Line>, id: string, i: nat)
    requires WellFormed(cart)
    requires Find(cart, id) == Some(i)
    requires cart[i].quantity == 1
    ensures Stepped(cart, id, -1) == cart[..i] + cart[i + 1..]
    ensures !InCart(Stepped(cart, id, -1), id)
  {
    RemovedAt(cart, id, i);
  }

  /** Pressing minus on a line of quantity above 1 takes exactly one unit off it. */
  lemma MinusAboveOneDecrements(cart: seq<Line>, id: string, i: nat)
    requires Find(cart, id) == Some(i)
    requires cart[i].quantity > 1
    ensures Stepped(cart, id, -1) == cart[i := cart[i].(quantity := cart[i].quantity - 1)]
  {
    WithQuantityAt(cart, id, cart[i].quantity - 1, i);
  }

  /** On a well-formed cart, pressing plus on a line does what adding that product again does. */
  lemma {:induction false} PlusIsAdd(cart: seq<Line>, id: string, name: string, price: real)
    requires WellFormed(cart)
    requires InCart(cart, id)
    ensures Stepped(cart, id, 1) == Added(cart, id, name, price)
  {
    var i := Find(cart, id).value;
    WithQuantityAt(cart, id, cart[i].quantity + 1, i);
    AddedExisting(cart, id, name, price, i);
  }

  /** The plus and minus buttons keep the invariant. */
  lemma SteppedWellFormed(cart: seq<Line>, id: string, delta: int)
    requires WellFormed(cart)
    ensures WellFormed(Stepped(cart, id, delta))
  {
    match Find(cart, id)
    case None =>
    case Some(i) => UpdatedWellFormed(cart, id, cart[i].quantity + delta);
  }
}
