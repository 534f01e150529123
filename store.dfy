/**
 * The cart as the pages keep it: one storage slot holding the whole cart.
 * Each edit reads the slot, changes the cart and writes the whole cart
 * back: always for an add or a removal, and for a quantity update when
 * the index holds a line.
 */
module Storage {
  import opened Cart
  import opened Checkout

  datatype Option<T> = None | Some(value: T)

  class CartStore {
    /** The `cart` storage key: absent, or the cart last saved there. */
    var slot: Option<seq<LineItem>>

    /** An empty store: nothing has been saved under the key yet. */
    constructor ()
      ensures slot == None
      ensures Stored() == []
    {
      slot := None;
    }

    /** The cart a page sees: the saved cart, or an empty one if the key is absent. */
    ghost function Stored(): seq<LineItem>
      reads this
    {
      match slot
      case None => []
      case Some(cart) => cart
    }

    method GetCart() returns (cart: seq<LineItem>)
      ensures slot.None? ==> cart == []
      ensures slot.Some? ==> cart == slot.value
    {
      if slot.Some? {
        cart := slot.value;
      } else {
        cart := [];
      }
    }

    /** Replaces whatever the key held; a later `GetCart` returns `cart` itself. */
    method SaveCart(cart: seq<LineItem>)
      modifies this
      ensures slot == Some(cart)
      ensures Stored() == cart
    {
      slot := Some(cart);
    }

    /** The number shown on the cart badge. */
    method CartQuantity() returns (n: int)
      ensures n == TotalQuantity(Stored())
      ensures QuantitiesPositive(Stored()) ==> (n > 0 <==> Stored() != [])
    {
      var cart := GetCart();
      if QuantitiesPositive(cart) {
        TotalQuantityPositive(cart);
      }
      n := TotalQuantity(cart);
    }

    /**
     * The breakdown the checkout page shows for the saved cart; an empty
     * cart shows all zeros.
     */
    method CheckoutTotals() returns (b: Breakdown)
      ensures b == PriceBreakdown(Stored())
      ensures Stored() == [] ==> b == Breakdown(0.0, 0.0, 0.0, 0.0)
    {
      var cart := GetCart();
      if |cart| == 0 {
        b := PriceBreakdown([]);
      } else {
        b := PriceBreakdown(cart);
      }
    }

    /**
     * Adds one unit of the product `name`: bumps the quantity of the line
     * that already has that name, or appends a new line, then saves.
     */
    method AddToCart(name: string, price: real, image: string)
      modifies this
      ensures slot == Some(AddItem(old(Stored()), name, price, image))
      ensures TotalQuantity(Stored()) == old(TotalQuantity(Stored())) + 1
      ensures old(Valid(Stored())) ==> Valid(Stored())
    {
      var cart := GetCart();
      ghost var before := cart;
      var existing := IndexOf(cart, name);
      if existing != -1 {
        cart := cart[existing := cart[existing].(quantity := cart[existing].quantity + 1)];
      } else {
        cart := cart + [LineItem(name, price, image, 1)];
      }
      SaveCart(cart);
      AddItemTotalQuantity(before, name, price, image);
      if Valid(before) {
        AddItemValid(before, name, price, image);
      }
    }

    /**
     * Sets the quantity of line `index` to `quantity`, but never below one,
     * and saves; when there is no line at `index` nothing is saved.
     */
    method UpdateItemQuantity(index: int, quantity: int)
      modifies this
      ensures 0 <= index < |old(Stored())| ==> slot == Some(SetQuantity(old(Stored()), index, quantity))
      ensures !(0 <= index < |old(Stored())|) ==> slot == old(slot)
      ensures old(Valid(Stored())) ==> Valid(Stored())
    {
      var cart := GetCart();
      if 0 <= index < |cart| {
        ghost var before := cart;
        cart := cart[index := cart[index].(quantity := Max(1, quantity))];
        SaveCart(cart);
        if Valid(before) {
          SetQuantityValid(before, index, quantity);
        }
      }
    }

    /** Cuts out the line at `index` as `splice(index, 1)` does, then saves. */
    method RemoveItem(index: int)
      modifies this
      ensures slot == Some(SpliceOne(old(Stored()), index))
      ensures 0 <= index < |old(Stored())| ==>
                TotalQuantity(Stored()) == old(TotalQuantity(Stored())) - old(Stored())[index].quantity
      ensures old(Valid(Stored())) ==> Valid(Stored())
    {
      var cart := GetCart();
      ghost var before := cart;
      var start := SpliceStart(|cart|, index);
      if start < |cart| {
        cart := cart[..start] + cart[start + 1..];
      }
      SaveCart(cart);
      if 0 <= index < |before| {
        SpliceOneTotalQuantity(before, index);
      }
      if Valid(before) {
        SpliceOneValid(before, index);
      }
    }
  }
}
