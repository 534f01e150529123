/**
 * The price breakdown shown on the checkout page: subtotal, flat shipping,
 * tax and total, in exact decimal arithmetic.
 */
module Checkout {
  import opened Cart

  /** Flat shipping charged on any order with a positive subtotal. */
  const ShippingFee: real := 49.99

  /** Sales tax rate applied to the subtotal (8%). */
  const TaxRate: real := 0.08

  datatype Breakdown = Breakdown(subtotal: real, shipping: real, tax: real, total: real)

  /** Every line has a non-negative unit price. */
  predicate PricesNonNegative(cart: seq<LineItem>)
  {
    forall i :: 0 <= i < |cart| ==> cart[i].price >= 0.0
  }

  /** Some line has a positive unit price. */
  predicate HasPricedItem(cart: seq<LineItem>)
  {
    exists i :: 0 <= i < |cart| && cart[i].price > 0.0
  }

  /** Price of one line: unit price times quantity. */
  function LineTotal(item: LineItem): real
  {
    item.price * item.quantity as real
  }

  /** Sum of the line totals, folded left to right as `reduce` does. */
  function Subtotal(cart: seq<LineItem>): real
  {
    if cart == [] then 0.0
    else Subtotal(cart[..|cart| - 1]) + LineTotal(cart[|cart| - 1])
  }

  /** The breakdown of `cart`: shipping only when there is something to pay for. */
  function PriceBreakdown(cart: seq<LineItem>): Breakdown
  {
    var subtotal := Subtotal(cart);
    var shipping := if subtotal > 0.0 then ShippingFee else 0.0;
    var tax := subtotal * TaxRate;
    Breakdown(subtotal, shipping, tax, subtotal + shipping + tax)
  }

  lemma {:induction false} SubtotalConcat(a: seq<LineItem>, b: seq<LineItem>)
    ensures Subtotal(a + b) == Subtotal(a) + Subtotal(b)
  {
    if b == [] {
      assert a + b == a;
    } else {
      var n := |b| - 1;
      assert (a + b)[..|a + b| - 1] == a + b[..n];
      SubtotalConcat(a, b[..n]);
    }
  }

  /**
   * With non-negative prices and positive quantities the subtotal is never
   * negative, and it is positive exactly when some line has a positive price.
   */
  lemma {:induction false} SubtotalSign(cart: seq<LineItem>)
    requires PricesNonNegative(cart) && QuantitiesPositive(cart)
    ensures Subtotal(cart) >= 0.0
    ensures Subtotal(cart) > 0.0 <==> HasPricedItem(cart)
  {
    if cart != [] {
      var n := |cart| - 1;
      var front := cart[..n];
      SubtotalSign(front);
      assert LineTotal(cart[n]) >= 0.0;
      assert LineTotal(cart[n]) > 0.0 <==> cart[n].price > 0.0;
      if HasPricedItem(cart) && cart[n].price <= 0.0 {
        var i :| 0 <= i < |cart| && cart[i].price > 0.0;
        assert front[i].price > 0.0;
      }
      if HasPricedItem(front) {
        var i :| 0 <= i < |front| && front[i].price > 0.0;
        assert cart[i].price > 0.0;
      }
    }
  }

  /** An empty cart costs nothing: no subtotal, no shipping, no tax. */
  lemma BreakdownOfEmptyCart()
    ensures PriceBreakdown([]) == Breakdown(0.0, 0.0, 0.0, 0.0)
  {
  }

  /** One line priced 10 with quantity 2 gives 20 / 49.99 / 1.6 / 71.59. */
  lemma BreakdownExample(name: string, image: string)
    ensures PriceBreakdown([LineItem(name, 10.0, image, 2)]) == Breakdown(20.0, 49.99, 1.6, 71.59)
  {
    SubtotalSingle(LineItem(name, 10.0, image, 2));
  }

  /**
   * For a cart with non-negative prices and positive quantities: shipping is
   * charged exactly when some line has a positive price, tax is 8% of the
   * subtotal, and the total never falls below the subtotal.
   */
  lemma BreakdownShape(cart: seq<LineItem>)
    requires PricesNonNegative(cart) && QuantitiesPositive(cart)
    ensures var b := PriceBreakdown(cart);
            && b.subtotal >= 0.0
            && (b.shipping == ShippingFee <==> HasPricedItem(cart))
            && (b.shipping == 0.0 <==> !HasPricedItem(cart))
            && b.tax == b.subtotal * 0.08
            && b.total == b.subtotal * 1.08 + b.shipping
            && b.total >= b.subtotal
            && (b.total == 0.0 <==> !HasPricedItem(cart))
  {
    SubtotalSign(cart);
  }

  lemma SubtotalSingle(item: LineItem)
    ensures Subtotal([item]) == LineTotal(item)
  {
    assert [item][..0] == [];
  }

  /** Replacing one line changes the subtotal by the difference of the two line totals. */
  lemma SubtotalReplace(cart: seq<LineItem>, i: int, item: LineItem)
    requires 0 <= i < |cart|
    ensures Subtotal(cart[i := item]) == Subtotal(cart) - LineTotal(cart[i]) + LineTotal(item)
  {
    assert cart == cart[..i] + [cart[i]] + cart[i + 1..];
    assert cart[i := item] == cart[..i] + [item] + cart[i + 1..];
    SubtotalConcat(cart[..i] + [cart[i]], cart[i + 1..]);
    SubtotalConcat(cart[..i] + [item], cart[i + 1..]);
    SubtotalConcat(cart[..i], [cart[i]]);
    SubtotalConcat(cart[..i], [item]);
    SubtotalSingle(cart[i]);
    SubtotalSingle(item);
  }

  /** One more unit of a line adds one unit price to its line total. */
  lemma LineTotalIncrement(item: LineItem)
    ensures LineTotal(item.(quantity := item.quantity + 1)) == LineTotal(item) + item.price
  {
    assert (item.quantity + 1) as real == item.quantity as real + 1.0;
  }

  /**
   * Adding a product raises the subtotal by one unit price: the price the
   * existing line was first added with, or the given price for a new line.
   */
  lemma AddItemSubtotal(cart: seq<LineItem>, name: string, price: real, image: string)
    ensures var i := IndexOf(cart, name);
            Subtotal(AddItem(cart, name, price, image)) == Subtotal(cart) + (if i >= 0 then cart[i].price else price)
  {
    var i := IndexOf(cart, name);
    if i != -1 {
      var item := cart[i].(quantity := cart[i].quantity + 1);
      assert AddItem(cart, name, price, image) == cart[i := item];
      SubtotalReplace(cart, i, item);
      LineTotalIncrement(cart[i]);
    } else {
      var item := LineItem(name, price, image, 1);
      assert AddItem(cart, name, price, image) == cart + [item];
      SubtotalConcat(cart, [item]);
      SubtotalSingle(item);
    }
  }
}
