/** The cart schema, and the pure list operations the cart controller performs
    on a cart's items. */
module CartModel {
  import opened Common
  import opened Text

  datatype CartItem = CartItem(productId: Id, photo: string, name: string, quantity: int, price: real)

  datatype Cart = Cart(userId: Id, cartItems: seq<CartItem>, totalAmount: real)

  const ImageExtensions: seq<string> := ["jpg", "jpeg", "png", "webp", "gif"]

  /** The photo pattern `^https?:\/\/.+\.(jpg|jpeg|png|webp|gif)$`: an http or https
      scheme, at least one character without a line break, a dot and one of the
      five extensions at the very end. */
  predicate ImageUrl(s: string) {
    var rest := if StartsWith(s, "https://") then s[8..] else if StartsWith(s, "http://") then s[7..] else [];
    && (StartsWith(s, "https://") || StartsWith(s, "http://"))
    && (forall k :: 0 <= k < |rest| ==> !IsLineTerminator(rest[k]))
    && exists e :: 0 <= e < |ImageExtensions| && |rest| >= |ImageExtensions[e]| + 2
         && EndsWith(rest, "." + ImageExtensions[e])
  }

  /** The cart-item validators: an image URL, a name and a quantity of at least one. */
  predicate ValidCartItem(i: CartItem) {
    ImageUrl(i.photo) && i.name != "" && i.quantity >= 1
  }

  predicate ValidCart(c: Cart) {
    forall k :: 0 <= k < |c.cartItems| ==> ValidCartItem(c.cartItems[k])
  }

  /** The cart invariant the controller keeps: at most one entry per product. */
  predicate DistinctProducts(items: seq<CartItem>) {
    forall a, b :: 0 <= a < b < |items| ==> items[a].productId != items[b].productId
  }

  /** `cartItems.reduce((sum, item) => sum + item.price * item.quantity, 0)`. */
  function Total(items: seq<CartItem>): real {
    if items == [] then 0.0 else Total(items[..|items| - 1]) + Subtotal(items[|items| - 1])
  }

  function Subtotal(i: CartItem): real {
    i.price * i.quantity as real
  }

  lemma {:induction false} TotalAppend(a: seq<CartItem>, b: seq<CartItem>)
    ensures Total(a + b) == Total(a) + Total(b)
  {
    if b != [] {
      assert (a + b)[..|a + b| - 1] == a + b[..|b| - 1];
      TotalAppend(a, b[..|b| - 1]);
    } else {
      assert a + b == a;
    }
  }

  /** Replacing one entry changes the total by the difference of the two entries' subtotals. */
  lemma TotalUpdate(items: seq<CartItem>, k: nat, x: CartItem)
    requires k < |items|
    ensures Total(items[k := x]) ==
      Total(items) - Subtotal(items[k]) + Subtotal(x)
  {
    var a, b := items[..k], items[k + 1..];
    SplitAt(items, k, x);
    TotalAppend(a + [items[k]], b);
    TotalAppend(a, [items[k]]);
    TotalAppend(a + [x], b);
    TotalAppend(a, [x]);
    TotalPush([], items[k]);
    TotalPush([], x);
  }

  /** Removing one entry takes exactly its subtotal off the total. */
  lemma TotalRemove(items: seq<CartItem>, k: nat)
    requires k < |items|
    ensures Total(items[..k] + items[k + 1..]) == Total(items) - Subtotal(items[k])
  {
    var a, b := items[..k], items[k + 1..];
    SplitAt(items, k, items[k]);
    TotalAppend(a + [items[k]], b);
    TotalAppend(a, [items[k]]);
    TotalAppend(a, b);
    TotalPush([], items[k]);
  }

  /** A list is the part before position `k`, the entry at `k` and the part after. */
  lemma SplitAt(items: seq<CartItem>, k: nat, x: CartItem)
    requires k < |items|
    ensures items == items[..k] + [items[k]] + items[k + 1..]
    ensures items[k := x] == items[..k] + [x] + items[k + 1..]
  {
    var a, b := items[..k], items[k + 1..];
    forall j | 0 <= j < |items| ensures items[j] == (a + [items[k]] + b)[j] {
      if j > k { assert items[j] == b[j - k - 1]; }
    }
    forall j | 0 <= j < |items| ensures items[k := x][j] == (a + [x] + b)[j] {
      if j > k { assert items[j] == b[j - k - 1]; }
    }
  }

  /** The entry for `pid`, if any: the `findIndex` result, with -1 for none. */
  function IndexOf(items: seq<CartItem>, pid: Id): (r: int)
    ensures -1 <= r < |items|
    ensures r >= 0 ==> items[r].productId == pid && forall k :: 0 <= k < r ==> items[k].productId != pid
    ensures r == -1 <==> forall k :: 0 <= k < |items| ==> items[k].productId != pid
  {
    if items == [] then -1
    else if items[0].productId == pid then 0
    else
      var r := IndexOf(items[1..], pid);
      if r == -1 then -1 else r + 1
  }

  /** `cartItems[index].quantity += 1` when `pid` is present, `push` of `x` otherwise. */
  function AddOne(items: seq<CartItem>, x: CartItem): (r: seq<CartItem>)
    ensures IndexOf(items, x.productId) >= 0 ==>
      var k := IndexOf(items, x.productId);
      r == items[k := items[k].(quantity := items[k].quantity + 1)]
    ensures IndexOf(items, x.productId) == -1 ==> r == items + [x]
  {
    var k := IndexOf(items, x.productId);
    if k >= 0 then items[k := items[k].(quantity := items[k].quantity + 1)] else items + [x]
  }

  /** Adding keeps one entry per product, and either raises the matching entry's
      quantity by one (no entry added) or appends `x` at the end. */
  lemma AddOneKeepsDistinct(items: seq<CartItem>, x: CartItem)
    requires DistinctProducts(items)
    ensures DistinctProducts(AddOne(items, x))
    ensures |AddOne(items, x)| == |items| || |AddOne(items, x)| == |items| + 1
    ensures x.productId in set i | i in AddOne(items, x) :: i.productId
  {
    var k := IndexOf(items, x.productId);
    var r := AddOne(items, x);
    if k >= 0 {
      assert r[k] in r;
    } else {
      assert r[|items|] == x;
    }
  }

  /** The total after adding `x` grows by the price of one unit of that product. */
  lemma AddOneTotal(items: seq<CartItem>, x: CartItem)
    requires x.quantity == 1
    ensures var k := IndexOf(items, x.productId);
      Total(AddOne(items, x)) == Total(items) + (if k >= 0 then items[k].price else x.price)
  {
    var k := IndexOf(items, x.productId);
    if k >= 0 {
      var y := items[k].(quantity := items[k].quantity + 1);
      assert AddOne(items, x) == items[k := y];
      TotalUpdate(items, k, y);
      SubtotalBump(items[k]);
    } else {
      assert AddOne(items, x) == items + [x];
      TotalPush(items, x);
      assert Subtotal(x) == x.price * 1.0;
    }
  }

  lemma SubtotalBump(i: CartItem)
    ensures Subtotal(i.(quantity := i.quantity + 1)) == Subtotal(i) + i.price
  {
    assert (i.quantity + 1) as real == i.quantity as real + 1.0;
  }

  lemma TotalPush(items: seq<CartItem>, x: CartItem)
    ensures Total(items + [x]) == Total(items) + Subtotal(x)
  {
    assert (items + [x])[..|items|] == items;
  }

  /** Removing or rewriting one entry keeps the others and their order, and keeps
      the cart free of duplicates. */
  lemma RemoveKeepsDistinct(items: seq<CartItem>, k: nat)
    requires k < |items| && DistinctProducts(items)
    ensures DistinctProducts(items[..k] + items[k + 1..])
  {
    var r := items[..k] + items[k + 1..];
    forall a, b | 0 <= a < b < |r| ensures r[a].productId != r[b].productId {
      var a' := if a < k then a else a + 1;
      var b' := if b < k then b else b + 1;
      assert r[a] == items[a'] && r[b] == items[b'];
    }
  }

  lemma UpdateKeepsDistinct(items: seq<CartItem>, k: nat, x: CartItem)
    requires k < |items| && DistinctProducts(items) && x.productId == items[k].productId
    ensures DistinctProducts(items[k := x])
  {
  }
}
