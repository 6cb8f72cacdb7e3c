/** The cart handlers: add one unit of a product, set or remove a line, delete
    the cart, read the cart.  Each works on the shopper's single cart document,
    which it changes in place and saves. */
module CartController {
  import opened Common
  import opened CartModel
  import opened ProductModel
  import opened Store

  /** The shape answered for a shopper without a stored cart. */
  function EmptyCart(userId: Id): (c: Cart)
    ensures c.userId == userId && c.cartItems == [] && c.totalAmount == 0.0
  {
    Cart(userId, [], 0.0)
  }

  /** The cart a shopper sees: the stored one, or the empty shape. */
  function CartView(carts: map<Id, Cart>, userId: Id): (c: Cart)
    ensures userId in carts ==> c == carts[userId]
    ensures userId !in carts ==> c == EmptyCart(userId)
  {
    if userId in carts then carts[userId] else EmptyCart(userId)
  }

  /** Every stored cart holds one entry per product. */
  predicate CartsDistinct(carts: map<Id, Cart>) {
    forall u :: u in carts ==> DistinctProducts(carts[u].cartItems)
  }

  /** Every stored cart's `totalAmount` is the sum over its entries. */
  predicate TotalsConsistent(carts: map<Id, Cart>) {
    forall u :: u in carts ==> carts[u].totalAmount == Total(carts[u].cartItems)
  }

  /** The line a first add creates from the product. */
  function NewLine(pid: Id, p: Product): (i: CartItem)
    requires |p.photos| > 0
    ensures i.productId == pid && i.quantity == 1 && i.price == p.price && i.name == p.name && i.photo == p.photos[0]
  {
    CartItem(pid, p.photos[0], p.name, 1, p.price)
  }

  /** The last step of add and update: the total recomputed from the entries,
      then `cart.save()`, which the cart schema may refuse. */
  function SaveOn(carts: map<Id, Cart>, userId: Id, items: seq<CartItem>, done: string, failed: string)
    : (r: (Reply<Cart>, map<Id, Cart>))
    ensures r.0.Fail? ==> r == (Fail(500, failed), carts)
    ensures r.0.Ok? ==> r == (Ok(200, done, Cart(userId, items, Total(items))), carts[userId := Cart(userId, items, Total(items))])
    ensures r.0.Ok? <==> ValidCart(Cart(userId, items, Total(items)))
  {
    var c := Cart(userId, items, Total(items));
    if !ValidCart(c) then (Fail(500, failed), carts)
    else (Ok(200, done, c), carts[userId := c])
  }

  // ------------------------------------------------------------ addToCart

  /** addToCart on the carts: the four guards, then one more unit of the product
      in the shopper's cart (a new cart when there is none), the total
      recomputed, and the save (refused by the schema when, say, the product's
      first photo is not an image URL). */
  function AddOn(carts: map<Id, Cart>, products: map<Id, Product>, userId: Id, productId: Option<Id>)
    : (Reply<Cart>, map<Id, Cart>)
  {
    if productId.None? then (Fail(400, "Product ID is required"), carts)
    else
      var pid := productId.value;
      if pid !in products then (Fail(404, "Product not found"), carts)
      else
        var p := products[pid];
        if |p.photos| == 0 then (Fail(400, "Product has no images"), carts)
        else if p.quantity != "instock" then (Fail(400, "Product is out of stock"), carts)
        else
          var items := if userId in carts then AddOne(carts[userId].cartItems, NewLine(pid, p)) else [NewLine(pid, p)];
          SaveOn(carts, userId, items, "Product added to cart successfully", "Failed to add to cart")
  }

  /** `addToCart`. */
  method AddToCart(db: Database, userId: Id, productId: Option<Id>) returns (reply: Reply<Cart>)
    requires db.Valid()
    modifies db`carts
    ensures db.Valid()
    ensures (reply, db.carts) == AddOn(old(db.carts), db.products, userId, productId)
  {
    if productId.None? {
      return Fail(400, "Product ID is required");
    }
    var pid := productId.value;
    if pid !in db.products {
      return Fail(404, "Product not found");
    }
    var p := db.products[pid];
    if |p.photos| == 0 {
      return Fail(400, "Product has no images");
    }
    if p.quantity != "instock" {
      return Fail(400, "Product is out of stock");
    }
    var line := NewLine(pid, p);
    var items: seq<CartItem>;
    if userId in db.carts {
      var current := db.carts[userId].cartItems;
      var index := IndexOf(current, pid);
      assert index == IndexOf(current, line.productId);
      if index >= 0 {
        items := current[index := current[index].(quantity := current[index].quantity + 1)];
      } else {
        items := current + [line];
      }
      assert items == AddOne(current, line);
    } else {
      items := [line];
    }
    ghost var expected := SaveOn(db.carts, userId, items, "Product added to cart successfully", "Failed to add to cart");
    assert AddOn(db.carts, db.products, userId, productId) == expected;
    var cart := Cart(userId, items, Total(items));
    var saved := db.SaveCart(cart);
    if saved.Failure? {
      return Fail(500, "Failed to add to cart");
    }
    reply := Ok(200, "Product added to cart successfully", cart);
  }

  // ------------------------------------------------------------ updateCart

  /** updateCart on the carts: the guards, then quantity 0 removes the line and
      any other quantity sets it and refreshes the price from the product; a
      cart left empty is deleted instead of saved. */
  function UpdateOn(carts: map<Id, Cart>, products: map<Id, Product>, userId: Id,
                    productId: Option<Id>, quantity: Option<int>)
    : (Reply<Cart>, map<Id, Cart>)
  {
    if productId.None? || quantity.None? || quantity.value < 0 then (Fail(400, "Invalid product or quantity"), carts)
    else if userId !in carts then (Fail(404, "Cart not found"), carts)
    else
      var pid, q := productId.value, quantity.value;
      var items := carts[userId].cartItems;
      var k := IndexOf(items, pid);
      if k == -1 then (Fail(404, "Product not in cart"), carts)
      else if q != 0 && pid !in products then (Fail(404, "Product not found"), carts)
      else if q != 0 && products[pid].quantity != "instock" then
        (Fail(400, "Product " + products[pid].name + " is out of stock"), carts)
      else
        var items' := if q == 0 then items[..k] + items[k + 1..]
                      else items[k := items[k].(quantity := q, price := products[pid].price)];
        if items' == [] then (Ok(200, "Cart is now empty", EmptyCart(userId)), carts - {userId})
        else SaveOn(carts, userId, items', "Cart updated successfully", "Failed to update cart")
  }

  /** `updateCart`; a missing quantity (`null` or absent) is `None`. */
  method UpdateCart(db: Database, userId: Id, productId: Option<Id>, quantity: Option<int>) returns (reply: Reply<Cart>)
    requires db.Valid()
    modifies db`carts
    ensures db.Valid()
    ensures (reply, db.carts) == UpdateOn(old(db.carts), db.products, userId, productId, quantity)
  {
    if productId.None? || quantity.None? || quantity.value < 0 {
      return Fail(400, "Invalid product or quantity");
    }
    if userId !in db.carts {
      return Fail(404, "Cart not found");
    }
    var pid, q := productId.value, quantity.value;
    var items := db.carts[userId].cartItems;
    var index := IndexOf(items, pid);
    if index == -1 {
      return Fail(404, "Product not in cart");
    }
    if q == 0 {
      items := items[..index] + items[index + 1..];
    } else {
      if pid !in db.products {
        return Fail(404, "Product not found");
      }
      var p := db.products[pid];
      if p.quantity != "instock" {
        return Fail(400, "Product " + p.name + " is out of stock");
      }
      items := items[index := items[index].(quantity := q, price := p.price)];
    }
    if |items| == 0 {
      db.DeleteCart(userId);
      return Ok(200, "Cart is now empty", EmptyCart(userId));
    }
    var cart := Cart(userId, items, Total(items));
    var saved := db.SaveCart(cart);
    if saved.Failure? {
      return Fail(500, "Failed to update cart");
    }
    reply := Ok(200, "Cart updated successfully", cart);
  }

  // ------------------------------------------------------------ deleteCart, getCart

  /** `deleteCart`: removes the cart if there is one and always answers the empty shape. */
  method DeleteCart(db: Database, userId: Id) returns (reply: Reply<Cart>)
    requires db.Valid()
    modifies db`carts
    ensures db.Valid()
    ensures db.carts == old(db.carts) - {userId}
    ensures reply == Ok(200, "Cart deleted successfully", EmptyCart(userId))
  {
    db.DeleteCart(userId);
    reply := Ok(200, "Cart deleted successfully", EmptyCart(userId));
  }

  /** `getCart`: the stored cart, or the empty shape; nothing is written. */
  method GetCart(db: Database, userId: Id) returns (reply: Reply<Cart>)
    requires db.Valid()
    ensures reply.Ok? && reply.body.userId == userId
    ensures userId in db.carts ==> reply.body == db.carts[userId]
    ensures userId !in db.carts ==> reply.body.cartItems == [] && reply.body.totalAmount == 0.0
  {
    reply := Ok(200, "Cart retrieved successfully", CartView(db.carts, userId));
  }

  // ------------------------------------------------------------ properties

  /** The guards of addToCart reject before anything is written. */
  lemma AddRefusalWritesNothing(carts: map<Id, Cart>, products: map<Id, Product>, userId: Id, productId: Option<Id>)
    requires productId.None? || productId.value !in products || |products[productId.value].photos| == 0
             || products[productId.value].quantity != "instock"
    ensures var (reply, carts') := AddOn(carts, products, userId, productId);
      reply.Fail? && carts' == carts
  {
  }

  /** A successful add either raises the quantity of the product's entry by one
      and adds no entry, or appends one entry with quantity 1 and the product's
      price, name and first photo; no other entry changes. */
  lemma AddIncrementsOrAppends(carts: map<Id, Cart>, products: map<Id, Product>, userId: Id, pid: Id)
    ensures var (reply, carts') := AddOn(carts, products, userId, Some(pid));
      var old_ := CartView(carts, userId).cartItems;
      var k := IndexOf(old_, pid);
      reply.Ok? ==>
        && userId in carts' && reply.body == carts'[userId]
        && var new_ := carts'[userId].cartItems;
        && (k >= 0 ==> |new_| == |old_| && new_[k].quantity == old_[k].quantity + 1
                       && forall j :: 0 <= j < |old_| && j != k ==> new_[j] == old_[j])
        && (k == -1 ==> new_ == old_ + [new_[|old_|]] && new_[|old_|].productId == pid
                        && new_[|old_|].quantity == 1 && new_[|old_|].price == products[pid].price
                        && new_[|old_|].name == products[pid].name
                        && new_[|old_|].photo == products[pid].photos[0])
  {
    var (reply, carts') := AddOn(carts, products, userId, Some(pid));
    if reply.Ok? && userId !in carts {
      assert CartView(carts, userId).cartItems == [];
    }
  }

  /** One entry per product, in every cart, after any add. */
  lemma AddKeepsCartsDistinct(carts: map<Id, Cart>, products: map<Id, Product>, userId: Id, productId: Option<Id>)
    requires CartsDistinct(carts)
    ensures CartsDistinct(AddOn(carts, products, userId, productId).1)
  {
    if productId.Some? && productId.value in products && |products[productId.value].photos| > 0 && userId in carts {
      AddOneKeepsDistinct(carts[userId].cartItems, NewLine(productId.value, products[productId.value]));
    }
  }

  /** A successful add raises the stored total by the price of one unit: the
      price already stored on the product's line, or the catalogue price for a
      new line. */
  lemma AddRaisesTotalByOneUnit(carts: map<Id, Cart>, products: map<Id, Product>, userId: Id, pid: Id)
    requires TotalsConsistent(carts)
    ensures var (reply, carts') := AddOn(carts, products, userId, Some(pid));
      && TotalsConsistent(carts')
      && (reply.Ok? ==>
            var items := CartView(carts, userId).cartItems;
            var k := IndexOf(items, pid);
            reply.body.totalAmount == CartView(carts, userId).totalAmount
                                      + (if k >= 0 then items[k].price else products[pid].price))
  {
    var (reply, carts') := AddOn(carts, products, userId, Some(pid));
    if reply.Ok? {
      var p := products[pid];
      if userId in carts {
        AddOneTotal(carts[userId].cartItems, NewLine(pid, p));
      } else {
        AddOneTotal([], NewLine(pid, p));
        assert AddOne([], NewLine(pid, p)) == [NewLine(pid, p)];
      }
    }
  }

  /** The guards of updateCart reject before anything is written. */
  lemma UpdateRefusalWritesNothing(carts: map<Id, Cart>, products: map<Id, Product>, userId: Id,
                                   productId: Option<Id>, quantity: Option<int>)
    requires || productId.None? || quantity.None? || quantity.value < 0 || userId !in carts
             || IndexOf(carts[userId].cartItems, productId.value) == -1
    ensures var (reply, carts') := UpdateOn(carts, products, userId, productId, quantity);
      reply.Fail? && carts' == carts
  {
  }

  /** Quantity 0 removes exactly the product's entry and keeps the others in
      their order; a cart left empty is deleted and answered as the empty shape. */
  lemma UpdateToZeroRemovesEntry(carts: map<Id, Cart>, products: map<Id, Product>, userId: Id, pid: Id)
    requires userId in carts && IndexOf(carts[userId].cartItems, pid) >= 0
    ensures var items := carts[userId].cartItems;
      var k := IndexOf(items, pid);
      var (reply, carts') := UpdateOn(carts, products, userId, Some(pid), Some(0));
      && (|items| == 1 ==> reply == Ok(200, "Cart is now empty", EmptyCart(userId)) && userId !in carts'
                           && CartView(carts', userId) == reply.body)
      && (|items| > 1 && reply.Ok? ==> carts'[userId].cartItems == items[..k] + items[k + 1..]
                                       && |carts'[userId].cartItems| == |items| - 1)
  {
    var items := carts[userId].cartItems;
    var k := IndexOf(items, pid);
    var rest := items[..k] + items[k + 1..];
    assert |rest| == |items| - 1;
    if |items| == 1 {
      assert rest == [];
      assert UpdateOn(carts, products, userId, Some(pid), Some(0)) == (Ok(200, "Cart is now empty", EmptyCart(userId)), carts - {userId});
    }
  }

  /** A positive quantity for an entry of an in-stock product sets that entry's
      quantity and price and nothing else, and the total moves by the
      difference of the two subtotals. */
  lemma UpdateSetsEntry(carts: map<Id, Cart>, products: map<Id, Product>, userId: Id, pid: Id, q: int)
    requires TotalsConsistent(carts)
    requires q > 0 && userId in carts && IndexOf(carts[userId].cartItems, pid) >= 0
    requires pid in products && products[pid].quantity == "instock"
    ensures var items := carts[userId].cartItems;
      var k := IndexOf(items, pid);
      var x := items[k].(quantity := q, price := products[pid].price);
      var (reply, carts') := UpdateOn(carts, products, userId, Some(pid), Some(q));
      reply.Ok? ==>
        && carts'[userId].cartItems == items[k := x]
        && carts'[userId].totalAmount == carts[userId].totalAmount - Subtotal(items[k]) + Subtotal(x)
  {
    var items := carts[userId].cartItems;
    var k := IndexOf(items, pid);
    var x := items[k].(quantity := q, price := products[pid].price);
    var items' := items[k := x];
    assert |items'| == |items| > 0;
    var r := UpdateOn(carts, products, userId, Some(pid), Some(q));
    assert r == SaveOn(carts, userId, items', "Cart updated successfully", "Failed to update cart");
    if r.0.Ok? {
      TotalUpdate(items, k, x);
    }
  }

  /** A product that is out of stock cannot have its quantity raised or set. */
  lemma UpdateRefusesOutOfStock(carts: map<Id, Cart>, products: map<Id, Product>, userId: Id, pid: Id, q: int)
    requires q > 0 && userId in carts && IndexOf(carts[userId].cartItems, pid) >= 0
    requires pid in products && products[pid].quantity != "instock"
    ensures UpdateOn(carts, products, userId, Some(pid), Some(q))
      == (Fail(400, "Product " + products[pid].name + " is out of stock"), carts)
  {
  }

  /** One entry per product, in every cart, after any update; and every stored
      total stays the sum over its entries. */
  lemma UpdateKeepsInvariants(carts: map<Id, Cart>, products: map<Id, Product>, userId: Id,
                              productId: Option<Id>, quantity: Option<int>)
    requires CartsDistinct(carts) && TotalsConsistent(carts)
    ensures var carts' := UpdateOn(carts, products, userId, productId, quantity).1;
      CartsDistinct(carts') && TotalsConsistent(carts')
  {
    var carts' := UpdateOn(carts, products, userId, productId, quantity).1;
    if productId.None? || quantity.None? || quantity.value < 0 || userId !in carts {
      assert carts' == carts;
      return;
    }
    var pid, q := productId.value, quantity.value;
    var items := carts[userId].cartItems;
    var k := IndexOf(items, pid);
    if k == -1 || (q != 0 && (pid !in products || products[pid].quantity != "instock")) {
      assert carts' == carts;
      return;
    }
    if q == 0 {
      var items' := items[..k] + items[k + 1..];
      RemoveKeepsDistinct(items, k);
      if items' == [] {
        assert carts' == carts - {userId};
        DeleteKeepsInvariants(carts, userId);
      } else {
        assert carts' == SaveOn(carts, userId, items', "Cart updated successfully", "Failed to update cart").1;
        SaveKeepsInvariants(carts, userId, items', "Cart updated successfully", "Failed to update cart");
      }
    } else {
      var items' := items[k := items[k].(quantity := q, price := products[pid].price)];
      UpdateKeepsDistinct(items, k, items'[k]);
      assert items' != [];
      assert carts' == SaveOn(carts, userId, items', "Cart updated successfully", "Failed to update cart").1;
      SaveKeepsInvariants(carts, userId, items', "Cart updated successfully", "Failed to update cart");
    }
  }

  /** Saving a cart free of duplicates keeps both cart invariants. */
  lemma SaveKeepsInvariants(carts: map<Id, Cart>, userId: Id, items: seq<CartItem>, done: string, failed: string)
    requires CartsDistinct(carts) && TotalsConsistent(carts) && DistinctProducts(items)
    ensures var carts' := SaveOn(carts, userId, items, done, failed).1;
      CartsDistinct(carts') && TotalsConsistent(carts')
  {
  }

  /** Deleting a cart keeps both cart invariants. */
  lemma DeleteKeepsInvariants(carts: map<Id, Cart>, userId: Id)
    requires CartsDistinct(carts) && TotalsConsistent(carts)
    ensures CartsDistinct(carts - {userId}) && TotalsConsistent(carts - {userId})
  {
  }

  /** Deleting twice is deleting once, and after a delete the cart reads as the
      empty shape that deleteCart answered. */
  lemma DeleteIsIdempotent(carts: map<Id, Cart>, userId: Id)
    ensures (carts - {userId}) - {userId} == carts - {userId}
    ensures CartView(carts - {userId}, userId) == EmptyCart(userId)
  {
  }
}
