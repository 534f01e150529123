/**
 * The cart of the storefront: an ordered sequence of line items, the
 * lookup by product name, the badge count and the three edits the pages
 * make to it (add a product, set a quantity, remove a line).
 */
module Cart {

  /** One product in the cart. `price` is the already-parsed unit price. */
  datatype LineItem = LineItem(name: string, price: real, image: string, quantity: int)

  /** Some line of `cart` carries the product `name`. */
  predicate HasItem(cart: seq<LineItem>, name: string)
  {
    exists k :: 0 <= k < |cart| && cart[k].name == name
  }

  /** No two lines share a product name. */
  predicate NamesUnique(cart: seq<LineItem>)
  {
    forall i, j :: 0 <= i < j < |cart| ==> cart[i].name != cart[j].name
  }

  /** Every line holds at least one unit. */
  predicate QuantitiesPositive(cart: seq<LineItem>)
  {
    forall i :: 0 <= i < |cart| ==> cart[i].quantity >= 1
  }

  /** The invariant the cart operations keep. */
  predicate Valid(cart: seq<LineItem>)
  {
    NamesUnique(cart) && QuantitiesPositive(cart)
  }

  /** `cart` and `r` agree everywhere except possibly at position `i`. */
  predicate SameExcept(cart: seq<LineItem>, r: seq<LineItem>, i: int)
  {
    |r| == |cart| && forall j :: 0 <= j < |cart| && j != i ==> r[j] == cart[j]
  }

  /**
   * Position of the first line named `name`, or -1 when there is none
   * (the behaviour of `Array.prototype.findIndex` with a name test).
   */
  function IndexOf(cart: seq<LineItem>, name: string): (r: int)
    ensures -1 <= r < |cart|
    ensures r == -1 <==> !HasItem(cart, name)
    ensures r >= 0 ==> cart[r].name == name
    ensures r >= 0 ==> forall j :: 0 <= j < r ==> cart[j].name != name
  {
    if cart == [] then -1
    else if cart[0].name == name then 0
    else
      var k := IndexOf(cart[1..], name);
      if k == -1 then -1 else k + 1
  }

  /** In a cart without duplicate names, the line named `name` is the one `IndexOf` finds. */
  lemma IndexOfUnique(cart: seq<LineItem>, name: string, k: int)
    requires NamesUnique(cart)
    requires 0 <= k < |cart| && cart[k].name == name
    ensures IndexOf(cart, name) == k
  {
  }

  /** Sum of the quantities, folded left to right as `reduce` does. */
  function TotalQuantity(cart: seq<LineItem>): int
  {
    if cart == [] then 0
    else TotalQuantity(cart[..|cart| - 1]) + cart[|cart| - 1].quantity
  }

  lemma {:induction false} TotalQuantityConcat(a: seq<LineItem>, b: seq<LineItem>)
    ensures TotalQuantity(a + b) == TotalQuantity(a) + TotalQuantity(b)
  {
    if b == [] {
      assert a + b == a;
    } else {
      var n := |b| - 1;
      assert (a + b)[..|a + b| - 1] == a + b[..n];
      TotalQuantityConcat(a, b[..n]);
    }
  }

  /** A cart whose lines all hold a unit has a badge count at least its length. */
  lemma {:induction false} TotalQuantityAtLeastLength(cart: seq<LineItem>)
    requires QuantitiesPositive(cart)
    ensures TotalQuantity(cart) >= |cart|
  {
    if cart != [] {
      TotalQuantityAtLeastLength(cart[..|cart| - 1]);
    }
  }

  /** For a valid cart, the badge count is positive exactly when the cart has a line. */
  lemma TotalQuantityPositive(cart: seq<LineItem>)
    requires QuantitiesPositive(cart)
    ensures TotalQuantity(cart) > 0 <==> |cart| > 0
  {
    TotalQuantityAtLeastLength(cart);
  }

  /** Replacing one line changes the badge count by the difference of its quantities. */
  lemma TotalQuantityReplace(cart: seq<LineItem>, i: int, item: LineItem)
    requires 0 <= i < |cart|
    ensures TotalQuantity(cart[i := item]) == TotalQuantity(cart) - cart[i].quantity + item.quantity
  {
    assert cart == cart[..i] + [cart[i]] + cart[i + 1..];
    assert cart[i := item] == cart[..i] + [item] + cart[i + 1..];
    TotalQuantityConcat(cart[..i] + [cart[i]], cart[i + 1..]);
    TotalQuantityConcat(cart[..i] + [item], cart[i + 1..]);
    TotalQuantityConcat(cart[..i], [cart[i]]);
    TotalQuantityConcat(cart[..i], [item]);
  }

  /** Cutting out one line lowers the badge count by that line's quantity. */
  lemma TotalQuantityCut(cart: seq<LineItem>, i: int)
    requires 0 <= i < |cart|
    ensures TotalQuantity(cart[..i] + cart[i + 1..]) == TotalQuantity(cart) - cart[i].quantity
  {
    assert cart == cart[..i] + [cart[i]] + cart[i + 1..];
    TotalQuantityConcat(cart[..i] + [cart[i]], cart[i + 1..]);
    TotalQuantityConcat(cart[..i], [cart[i]]);
    TotalQuantityConcat(cart[..i], cart[i + 1..]);
  }

  // ---------------------------------------------------------------------
  // Add to cart
  // ---------------------------------------------------------------------

  /**
   * The cart after adding the product `name`: one more unit of the first
   * line with that name, or else a new line with one unit at the end.
   * Re-adding a product keeps the price and image it was first added with.
   */
  function AddItem(cart: seq<LineItem>, name: string, price: real, image: string): (r: seq<LineItem>)
    ensures HasItem(cart, name) ==>
              var i := IndexOf(cart, name);
              SameExcept(cart, r, i) &&
              r[i].name == cart[i].name && r[i].price == cart[i].price &&
              r[i].image == cart[i].image && r[i].quantity == cart[i].quantity + 1
    ensures !HasItem(cart, name) ==>
              |r| == |cart| + 1 && r[..|cart|] == cart &&
              r[|cart|] == LineItem(name, price, image, 1)
  {
    var i := IndexOf(cart, name);
    if i != -1 then cart[i := cart[i].(quantity := cart[i].quantity + 1)]
    else cart + [LineItem(name, price, image, 1)]
  }

  /** Adding keeps names unique and quantities at least one. */
  lemma AddItemValid(cart: seq<LineItem>, name: string, price: real, image: string)
    requires Valid(cart)
    ensures Valid(AddItem(cart, name, price, image))
  {
  }

  /** Every add raises the badge count by exactly one. */
  lemma AddItemTotalQuantity(cart: seq<LineItem>, name: string, price: real, image: string)
    ensures TotalQuantity(AddItem(cart, name, price, image)) == TotalQuantity(cart) + 1
  {
    var i := IndexOf(cart, name);
    if i != -1 {
      TotalQuantityReplace(cart, i, cart[i].(quantity := cart[i].quantity + 1));
    } else {
      TotalQuantityConcat(cart, [LineItem(name, price, image, 1)]);
    }
  }

  /** Adding the same product twice yields one line, not two. */
  lemma AddItemTwice(cart: seq<LineItem>, name: string, price: real, image: string, price': real, image': string)
    requires !HasItem(cart, name)
    ensures AddItem(AddItem(cart, name, price, image), name, price', image') ==
            cart + [LineItem(name, price, image, 2)]
  {
  }

  /** One product to add: name, parsed price and image reference. */
  datatype Product = Product(name: string, price: real, image: string)

  /** The cart after adding each product of `adds` in order. */
  function AddAll(cart: seq<LineItem>, adds: seq<Product>): seq<LineItem>
    decreases |adds|
  {
    if adds == [] then cart
    else AddAll(AddItem(cart, adds[0].name, adds[0].price, adds[0].image), adds[1..])
  }

  /** After any sequence of adds, the badge count has grown by the number of adds. */
  lemma {:induction false} AddAllTotalQuantity(cart: seq<LineItem>, adds: seq<Product>)
    ensures TotalQuantity(AddAll(cart, adds)) == TotalQuantity(cart) + |adds|
    decreases |adds|
  {
    if adds != [] {
      AddItemTotalQuantity(cart, adds[0].name, adds[0].price, adds[0].image);
      AddAllTotalQuantity(AddItem(cart, adds[0].name, adds[0].price, adds[0].image), adds[1..]);
    }
  }

  /** Any sequence of adds keeps a valid cart valid; from an empty cart it stays duplicate-free. */
  lemma {:induction false} AddAllValid(cart: seq<LineItem>, adds: seq<Product>)
    requires Valid(cart)
    ensures Valid(AddAll(cart, adds))
    decreases |adds|
  {
    if adds != [] {
      AddItemValid(cart, adds[0].name, adds[0].price, adds[0].image);
      AddAllValid(AddItem(cart, adds[0].name, adds[0].price, adds[0].image), adds[1..]);
    }
  }

  // ---------------------------------------------------------------------
  // Update quantity
  // ---------------------------------------------------------------------

  function Max(a: int, b: int): int
  {
    if a >= b then a else b
  }

  /**
   * The cart after setting the quantity of line `index` to `quantity`,
   * clamped to at least one; an index with no line leaves it as it is.
   */
  function SetQuantity(cart: seq<LineItem>, index: int, quantity: int): (r: seq<LineItem>)
    ensures 0 <= index < |cart| ==>
              SameExcept(cart, r, index) &&
              r[index] == cart[index].(quantity := r[index].quantity) &&
              r[index].quantity >= 1 &&
              (quantity >= 1 ==> r[index].quantity == quantity) &&
              (quantity < 1 ==> r[index].quantity == 1)
    ensures !(0 <= index < |cart|) ==> r == cart
  {
    if 0 <= index < |cart| then cart[index := cart[index].(quantity := Max(1, quantity))]
    else cart
  }

  /** Setting a quantity keeps names unique and quantities at least one. */
  lemma SetQuantityValid(cart: seq<LineItem>, index: int, quantity: int)
    requires Valid(cart)
    ensures Valid(SetQuantity(cart, index, quantity))
  {
  }

  /** Setting a quantity moves the badge count by the change of that line's quantity. */
  lemma SetQuantityTotalQuantity(cart: seq<LineItem>, index: int, quantity: int)
    requires 0 <= index < |cart|
    ensures TotalQuantity(SetQuantity(cart, index, quantity)) ==
            TotalQuantity(cart) - cart[index].quantity + Max(1, quantity)
  {
    TotalQuantityReplace(cart, index, cart[index].(quantity := Max(1, quantity)));
  }

  // ---------------------------------------------------------------------
  // Remove
  // ---------------------------------------------------------------------

  /**
   * Where `splice(index, 1)` starts on an array of length `len`: a negative
   * index counts back from the end, and the result is kept within 0..len.
   */
  function SpliceStart(len: nat, index: int): (s: nat)
    ensures s <= len
    ensures 0 <= index <= len ==> s == index
    ensures index > len ==> s == len
    ensures -(len as int) <= index < 0 ==> s == len + index
    ensures index < -(len as int) ==> s == 0
  {
    if index < 0 then (if len + index < 0 then 0 else len + index)
    else if index > len then len
    else index
  }

  /** The cart after `splice(index, 1)`. */
  function SpliceOne(cart: seq<LineItem>, index: int): (r: seq<LineItem>)
    ensures 0 <= index < |cart| ==>
              |r| == |cart| - 1 && r[..index] == cart[..index] &&
              forall j :: index <= j < |r| ==> r[j] == cart[j + 1]
    ensures index >= |cart| ==> r == cart
    ensures -|cart| <= index < 0 ==> r == cart[..|cart| + index] + cart[|cart| + index + 1..]
    ensures index < -|cart| && cart != [] ==> r == cart[1..]
    ensures cart == [] ==> r == []
  {
    var s := SpliceStart(|cart|, index);
    if s < |cart| then cart[..s] + cart[s + 1..] else cart
  }

  /** Removing a line keeps names unique and quantities at least one. */
  lemma SpliceOneValid(cart: seq<LineItem>, index: int)
    requires Valid(cart)
    ensures Valid(SpliceOne(cart, index))
  {
  }

  /** Removing a line lowers the badge count by that line's quantity. */
  lemma SpliceOneTotalQuantity(cart: seq<LineItem>, index: int)
    requires 0 <= index < |cart|
    ensures TotalQuantity(SpliceOne(cart, index)) == TotalQuantity(cart) - cart[index].quantity
  {
    TotalQuantityCut(cart, index);
  }
}
