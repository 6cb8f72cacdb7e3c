/** The MongoDB collections the controllers use, as one in-memory store.  Each
    collection is a map from document id to document (carts are keyed by their
    owner, as every cart query filters on `userId`).  The primitives below are the
    Mongoose calls the controllers make: a write runs the schema's validators and
    the unique indexes first and changes nothing when either refuses. */
module Store {
  import opened Common
  import opened Accounts
  import opened OrderModel
  import opened CouponModel
  import opened TransactionModel
  import opened HistoryModel
  import opened CartModel
  import opened ProductModel

  /** Why a write was refused: a schema validator, or a unique index. */
  datatype DbError = ValidationError | DuplicateKey

  /** `outbox` gets the notification a hook produced, if any. */
  function Sent(n: Option<Notification>): (s: seq<Notification>)
    ensures |s| <= 1
    ensures n.Some? ==> s == [n.value]
    ensures n.None? ==> s == []
  {
    if n.Some? then [n.value] else []
  }

  /** The coupon document as stored: the `code` setters applied. */
  function WithSetters(c: Coupon): (s: Coupon)
    ensures s.code == NormaliseCode(c.code)
    ensures s.(code := c.code) == c
  {
    c.(code := NormaliseCode(c.code))
  }

  // The unique indexes.  A clash is another document (not `self`) holding the value.

  /** The gateway-id index is unique and sparse, and the path defaults to `null`.
      A sparse index skips only documents that lack the path; a stored `null` is
      indexed like any other value, so two orders without a gateway id clash. */
  predicate RazorpayIdClash(orders: map<Id, Order>, self: Id, rid: Option<string>) {
    exists a :: a in orders && a != self && orders[a].razorpayOrderId == rid
  }

  /** Whether another order holds a gateway id does not depend on the order stored
      under `self` itself. */
  lemma RazorpayIdClashIgnoresSelf(orders: map<Id, Order>, self: Id, o: Order, rid: Option<string>)
    ensures RazorpayIdClash(orders[self := o], self, rid) <==> RazorpayIdClash(orders, self, rid)
  {
    if RazorpayIdClash(orders[self := o], self, rid) {
      var a :| a in orders[self := o] && a != self && orders[self := o][a].razorpayOrderId == rid;
      assert a in orders && orders[a].razorpayOrderId == rid;
    }
    if RazorpayIdClash(orders, self, rid) {
      var a :| a in orders && a != self && orders[a].razorpayOrderId == rid;
      assert a in orders[self := o] && orders[self := o][a].razorpayOrderId == rid;
    }
  }

  /** Adding a valid order under a fresh id keeps every stored order valid and
      every gateway id held at most once, provided no stored order already holds
      the new order's gateway id. */
  lemma InsertKeepsRazorpayIdsApart(orders: map<Id, Order>, next: Id, o: Order, m: map<Id, Order>)
    requires forall id :: id in orders ==> id < next && ValidOrder(orders[id])
    requires forall a :: a in orders ==> !RazorpayIdClash(orders, a, orders[a].razorpayOrderId)
    requires ValidOrder(o) && !RazorpayIdClash(orders, next, o.razorpayOrderId)
    requires m == orders[next := o]
    ensures next !in orders
    ensures forall id :: id in m ==> id < next + 1 && ValidOrder(m[id])
    ensures forall a :: a in m ==> !RazorpayIdClash(m, a, m[a].razorpayOrderId)
  {
    forall a | a in m
      ensures !RazorpayIdClash(m, a, m[a].razorpayOrderId)
    {
      if a != next {
        assert !RazorpayIdClash(orders, a, orders[a].razorpayOrderId);
      }
    }
  }

  predicate CodeClash(coupons: map<Id, Coupon>, self: Id, code: string) {
    exists a :: a in coupons && a != self && coupons[a].code == code
  }

  /** Adding a valid coupon under a fresh id keeps every stored coupon valid and
      every code unique, provided no stored coupon already holds the new code. */
  lemma InsertKeepsCodesUnique(coupons: map<Id, Coupon>, next: Id, c: Coupon, m: map<Id, Coupon>)
    requires forall id :: id in coupons ==> id < next && ValidCoupon(coupons[id])
    requires forall a :: a in coupons ==> !CodeClash(coupons, a, coupons[a].code)
    requires ValidCoupon(c) && !exists a :: a in coupons && coupons[a].code == c.code
    requires m == coupons[next := c]
    ensures next !in coupons && !CodeClash(coupons, next, c.code)
    ensures forall id :: id in m ==> id < next + 1 && ValidCoupon(m[id])
    ensures forall a :: a in m ==> !CodeClash(m, a, m[a].code)
  {
    forall a | a in m
      ensures !CodeClash(m, a, m[a].code)
    {
      if a != next {
        assert !CodeClash(coupons, a, coupons[a].code);
      }
    }
  }

  predicate TransactionIdClash(transactions: map<Id, Transaction>, self: Id, tid: string) {
    exists a :: a in transactions && a != self && transactions[a].transactionId == tid
  }

  predicate NameClash(products: map<Id, Product>, self: Id, name: string) {
    exists a :: a in products && a != self && products[a].name == name
  }

  predicate EmailClash(users: map<Id, User>, self: Id, email: string) {
    exists a :: a in users && a != self && users[a].email == email
  }

  /** At most one OTP entry per phone: new entries are only ever upserted on the phone. */
  predicate PhonesUnique(otps: map<Id, OtpEntry>) {
    forall a, a' :: a in otps && a' in otps && otps[a].phone == otps[a'].phone ==> a == a'
  }

  /** `Otp.findOneAndUpdate({ phone }, { verified: false, status: 'pending', … },
      { upsert: true })` on the entries: the entry for the phone is reset to
      pending, or a pending entry holding only the phone and the status is
      inserted under the next id.  Strict mode drops `verified`, and an update
      runs no validators, so the inserted entry lacks the schema's required
      paths.  The third component is the id of the entry written. */
  ghost function UpsertPending(otps: map<Id, OtpEntry>, nextId: nat, phone: string): (r: (map<Id, OtpEntry>, nat, Id))
    requires forall a :: a in otps ==> a < nextId
    ensures r.2 in r.0 && r.0[r.2].phone == phone && r.0[r.2].status == "pending"
    ensures r.2 in otps ==> r.1 == nextId && r.0 == otps[r.2 := otps[r.2].(status := "pending")]
    ensures r.2 !in otps ==>
      && (forall a :: a in otps ==> otps[a].phone != phone)
      && r.2 == nextId && r.1 == nextId + 1 && r.0 == otps[nextId := OtpEntry(phone, "pending", None, None, None, None)]
  {
    if exists a :: a in otps && otps[a].phone == phone then
      var a :| a in otps && otps[a].phone == phone;
      (otps[a := otps[a].(status := "pending")], nextId, a)
    else
      (otps[nextId := OtpEntry(phone, "pending", None, None, None, None)], nextId + 1, nextId)
  }

  /** The upsert keeps one entry per phone and hands out only fresh ids. */
  lemma UpsertKeepsPhonesUnique(otps: map<Id, OtpEntry>, nextId: nat, phone: string)
    requires PhonesUnique(otps) && forall a :: a in otps ==> a < nextId
    ensures var (otps', nextId', _) := UpsertPending(otps, nextId, phone);
      PhonesUnique(otps') && forall a :: a in otps' ==> a < nextId'
  {
    var (otps', nextId', id) := UpsertPending(otps, nextId, phone);
    forall a, a' | a in otps' && a' in otps' && otps'[a].phone == otps'[a'].phone
      ensures a == a'
    {
      if a != id && a' != id {
        assert otps[a].phone == otps[a'].phone;
      }
    }
  }

  /** The order-side collections, as one value: what the order, payment and
      admin handlers read and write besides the users they only look up. */
  datatype OrderBook = OrderBook(
    orders: map<Id, Order>,
    coupons: map<Id, Coupon>,
    transactions: map<Id, Transaction>,
    history: map<Id, OrderHistory>,
    nextId: nat,
    outbox: seq<Notification>)

  class Database {
    var orders: map<Id, Order>
    var coupons: map<Id, Coupon>
    var transactions: map<Id, Transaction>
    var history: map<Id, OrderHistory>
    var carts: map<Id, Cart>
    var products: map<Id, Product>
    var users: map<Id, User>
    var otps: map<Id, OtpEntry>
    /** The e-mails the order hooks handed to the mail service, oldest first. */
    var outbox: seq<Notification>
    /** The next ObjectId to hand out; every stored id is below it. */
    var nextId: nat

    ghost predicate OrdersOk() reads this`orders, this`nextId {
      && (forall id :: id in orders ==> id < nextId && ValidOrder(orders[id]))
      && (forall a :: a in orders ==> !RazorpayIdClash(orders, a, orders[a].razorpayOrderId))
    }

    ghost predicate CouponsOk() reads this`coupons, this`nextId {
      && (forall id :: id in coupons ==> id < nextId && ValidCoupon(coupons[id]))
      && (forall a :: a in coupons ==> !CodeClash(coupons, a, coupons[a].code))
    }

    ghost predicate TransactionsOk() reads this`transactions, this`nextId {
      && (forall id :: id in transactions ==> id < nextId && ValidTransaction(transactions[id]))
      && (forall a :: a in transactions ==> !TransactionIdClash(transactions, a, transactions[a].transactionId))
    }

    ghost predicate HistoryOk() reads this`history, this`nextId {
      forall id :: id in history ==> id < nextId && ValidHistory(history[id])
    }

    ghost predicate CartsOk() reads this`carts {
      forall u :: u in carts ==> carts[u].userId == u && ValidCart(carts[u])
    }

    ghost predicate ProductsOk() reads this`products, this`nextId {
      && (forall id :: id in products ==> id < nextId && ValidProduct(products[id]))
      && (forall a :: a in products ==> !NameClash(products, a, products[a].name))
    }

    ghost predicate UsersOk() reads this`users, this`nextId {
      && (forall id :: id in users ==> id < nextId)
      && (forall a :: a in users ==> !EmailClash(users, a, users[a].email))
    }

    ghost predicate OtpsOk() reads this`otps, this`nextId {
      (forall id :: id in otps ==> id < nextId) && PhonesUnique(otps)
    }

    /** The order-side collections as they are now. */
    function Book(): OrderBook
      reads this
    {
      OrderBook(orders, coupons, transactions, history, nextId, outbox)
    }

    /** What the schemas and unique indexes guarantee of every stored document. */
    ghost predicate Valid()
      reads this
    {
      OrdersOk() && CouponsOk() && TransactionsOk() && HistoryOk() && CartsOk()
      && ProductsOk() && UsersOk() && OtpsOk()
    }

    constructor ()
      ensures Valid()
      ensures orders == map[] && coupons == map[] && transactions == map[] && history == map[]
      ensures carts == map[] && products == map[] && users == map[] && otps == map[]
      ensures outbox == [] && nextId == 0
    {
      orders, coupons, transactions, history := map[], map[], map[], map[];
      carts, products, users, otps := map[], map[], map[], map[];
      outbox, nextId := [], 0;
    }

    /** A new ObjectId: one above every id handed out so far. */
    method FreshId() returns (id: Id)
      requires Valid()
      modifies this`nextId
      ensures Valid()
      ensures id == old(nextId) && nextId == id + 1
    {
      id := nextId;
      nextId := nextId + 1;
    }

    // ---------------------------------------------------------------- orders

    /** `Order.create(doc)`: validate, check the unique index, insert under a fresh
        id, then run the save hooks of a new document. */
    method InsertOrder(o: Order) returns (r: Result<Id, DbError>)
      requires Valid()
      modifies this`orders, this`nextId, this`outbox
      ensures Valid()
      ensures r == Failure(ValidationError) <==> !ValidOrder(o)
      ensures r == Failure(DuplicateKey) <==> ValidOrder(o) && RazorpayIdClash(old(orders), old(nextId), o.razorpayOrderId)
      ensures r.Failure? ==> orders == old(orders) && nextId == old(nextId) && outbox == old(outbox)
      ensures r.Success? ==>
        && r.value == old(nextId) && r.value !in old(orders)
        && orders == old(orders)[r.value := o] && nextId == old(nextId) + 1
        && outbox == old(outbox) + Sent(PlacedNotification(true, r.value, o, users))
    {
      if !ValidOrder(o) { return Failure(ValidationError); }
      if exists a :: a in orders && orders[a].razorpayOrderId == o.razorpayOrderId {
        return Failure(DuplicateKey);
      }
      var id := FreshId();
      InsertKeepsRazorpayIdsApart(orders, id, o, orders[id := o]);
      orders := orders[id := o];
      outbox := outbox + Sent(PlacedNotification(true, id, o, users));
      r := Success(id);
    }

    /** `order.save()` on a loaded order: validate, check the unique index,
        overwrite.  The save hooks see a document that is not new and mail nothing. */
    method SaveOrder(id: Id, o: Order) returns (r: Result<Id, DbError>)
      requires Valid() && id in orders
      modifies this`orders
      ensures Valid()
      ensures r == Failure(ValidationError) <==> !ValidOrder(o)
      ensures r == Failure(DuplicateKey) <==> ValidOrder(o) && RazorpayIdClash(old(orders), id, o.razorpayOrderId)
      ensures r.Failure? ==> orders == old(orders)
      ensures r.Success? ==> r.value == id && orders == old(orders)[id := o]
      ensures ValidOrder(o) && o.razorpayOrderId == old(orders)[id].razorpayOrderId ==> r.Success?
    {
      if !ValidOrder(o) { return Failure(ValidationError); }
      if exists a :: a in orders && a != id && orders[a].razorpayOrderId == o.razorpayOrderId {
        return Failure(DuplicateKey);
      }
      orders := orders[id := o];
      r := Success(id);
    }

    /** `Order.findByIdAndDelete(id)`. */
    method DeleteOrder(id: Id)
      requires Valid()
      modifies this`orders
      ensures Valid()
      ensures orders == old(orders) - {id}
    {
      orders := orders - {id};
    }

    /** `Order.findOne({ razorpayOrderId: rid })`; the unique index makes the answer unique. */
    method FindOrderByRazorpayId(rid: string) returns (r: Option<Id>)
      requires Valid()
      ensures r.Some? ==> r.value in orders && orders[r.value].razorpayOrderId == Some(rid)
      ensures r.None? ==> forall a :: a in orders ==> orders[a].razorpayOrderId != Some(rid)
      ensures r.Some? ==> forall a :: a in orders && orders[a].razorpayOrderId == Some(rid) ==> a == r.value
    {
      if exists a :: a in orders && orders[a].razorpayOrderId == Some(rid) {
        var a :| a in orders && orders[a].razorpayOrderId == Some(rid);
        assert !RazorpayIdClash(orders, a, orders[a].razorpayOrderId);
        r := Some(a);
      } else {
        r := None;
      }
    }

    // --------------------------------------------------------------- coupons

    /** `Coupon.create(doc)`, given the document after the code setters ran
        (`WithSetters`): validation, then the unique index on the code. */
    method InsertCoupon(c: Coupon) returns (r: Result<Id, DbError>)
      requires Valid()
      modifies this`coupons, this`nextId
      ensures Valid()
      ensures r == Failure(ValidationError) <==> !ValidCoupon(c)
      ensures r == Failure(DuplicateKey) <==> ValidCoupon(c) && CodeClash(old(coupons), old(nextId), c.code)
      ensures r.Failure? ==> coupons == old(coupons) && nextId == old(nextId)
      ensures r.Success? ==>
        && r.value == old(nextId) && r.value !in old(coupons)
        && coupons == old(coupons)[r.value := c] && nextId == old(nextId) + 1
    {
      if !ValidCoupon(c) { return Failure(ValidationError); }
      if exists a :: a in coupons && coupons[a].code == c.code { return Failure(DuplicateKey); }
      var id := FreshId();
      InsertKeepsCodesUnique(coupons, id, c, coupons[id := c]);
      coupons := coupons[id := c];
      r := Success(id);
    }

    /** `coupon.save()` on a loaded coupon whose code is not touched. */
    method SaveCoupon(id: Id, c: Coupon) returns (r: Result<Id, DbError>)
      requires Valid() && id in coupons && c.code == coupons[id].code
      modifies this`coupons
      ensures Valid()
      ensures r.Failure? <==> !ValidCoupon(c)
      ensures r.Failure? ==> r.error == ValidationError && coupons == old(coupons)
      ensures r.Success? ==> r.value == id && coupons == old(coupons)[id := c]
    {
      if !ValidCoupon(c) { return Failure(ValidationError); }
      coupons := coupons[id := c];
      r := Success(id);
    }

    /** `Coupon.findByIdAndUpdate(id, { status })`: no validators run. */
    method SetCouponStatus(id: Id, status: string) returns (found: bool)
      requires Valid() && status in CouponStatuses
      modifies this`coupons
      ensures Valid()
      ensures found <==> id in old(coupons)
      ensures found ==> coupons == old(coupons)[id := old(coupons)[id].(status := status)]
      ensures !found ==> coupons == old(coupons)
    {
      found := id in coupons;
      if found {
        coupons := coupons[id := coupons[id].(status := status)];
      }
    }

    /** `Coupon.findByIdAndDelete(id)`. */
    method DeleteCoupon(id: Id) returns (found: bool)
      requires Valid()
      modifies this`coupons
      ensures Valid()
      ensures found <==> id in old(coupons)
      ensures coupons == old(coupons) - {id}
    {
      found := id in coupons;
      coupons := coupons - {id};
    }

    /** `Coupon.findOne({ code, status: 'active' })`, with the code setters applied
        to the filter value. */
    method FindActiveCoupon(code: string) returns (r: Option<Id>)
      requires Valid()
      ensures r.Some? ==> r.value in coupons && coupons[r.value].code == NormaliseCode(code) && coupons[r.value].status == "active"
      ensures r.None? ==> forall a :: a in coupons && coupons[a].code == NormaliseCode(code) ==> coupons[a].status != "active"
    {
      var key := NormaliseCode(code);
      if exists a :: a in coupons && coupons[a].code == key && coupons[a].status == "active" {
        var a :| a in coupons && coupons[a].code == key && coupons[a].status == "active";
        r := Some(a);
      } else {
        r := None;
      }
    }

    /** `Coupon.findOne({ code })`, whatever the status. */
    method FindCouponByCode(code: string) returns (r: Option<Id>)
      requires Valid()
      ensures r.Some? ==> r.value in coupons && coupons[r.value].code == NormaliseCode(code)
      ensures r.None? ==> forall a :: a in coupons ==> coupons[a].code != NormaliseCode(code)
    {
      var key := NormaliseCode(code);
      if exists a :: a in coupons && coupons[a].code == key {
        var a :| a in coupons && coupons[a].code == key;
        r := Some(a);
      } else {
        r := None;
      }
    }

    // ---------------------------------------------------- transactions, history

    /** `TransactionModel.create(doc)`. */
    method InsertTransaction(t: Transaction) returns (r: Result<Id, DbError>)
      requires Valid()
      modifies this`transactions, this`nextId
      ensures Valid()
      ensures r == Failure(ValidationError) <==> !ValidTransaction(t)
      ensures r == Failure(DuplicateKey) <==>
        ValidTransaction(t) && TransactionIdClash(old(transactions), old(nextId), t.transactionId)
      ensures r.Failure? ==> transactions == old(transactions) && nextId == old(nextId)
      ensures r.Success? ==>
        && r.value == old(nextId) && r.value !in old(transactions)
        && transactions == old(transactions)[r.value := t] && nextId == old(nextId) + 1
    {
      if !ValidTransaction(t) { return Failure(ValidationError); }
      if exists a :: a in transactions && transactions[a].transactionId == t.transactionId {
        return Failure(DuplicateKey);
      }
      var id := FreshId();
      transactions := transactions[id := t];
      r := Success(id);
    }

    /** `OrderHistory.create(doc)`; `originalOrderId` has no unique index. */
    method InsertHistory(h: OrderHistory) returns (r: Result<Id, DbError>)
      requires Valid()
      modifies this`history, this`nextId
      ensures Valid()
      ensures r.Failure? <==> !ValidHistory(h)
      ensures r.Failure? ==> r.error == ValidationError && history == old(history) && nextId == old(nextId)
      ensures r.Success? ==>
        && r.value == old(nextId) && r.value !in old(history)
        && history == old(history)[r.value := h] && nextId == old(nextId) + 1
    {
      if !ValidHistory(h) { return Failure(ValidationError); }
      var id := FreshId();
      history := history[id := h];
      r := Success(id);
    }

    // ----------------------------------------------------------------- carts

    /** `cart.save()` of a new or a loaded cart. */
    method SaveCart(c: Cart) returns (r: Result<Id, DbError>)
      requires Valid()
      modifies this`carts
      ensures Valid()
      ensures r.Failure? <==> !ValidCart(c)
      ensures r.Failure? ==> r.error == ValidationError && carts == old(carts)
      ensures r.Success? ==> r.value == c.userId && carts == old(carts)[c.userId := c]
    {
      if !ValidCart(c) { return Failure(ValidationError); }
      carts := carts[c.userId := c];
      r := Success(c.userId);
    }

    /** `Cart.findOneAndDelete({ userId })`. */
    method DeleteCart(userId: Id)
      requires Valid()
      modifies this`carts
      ensures Valid()
      ensures carts == old(carts) - {userId}
    {
      carts := carts - {userId};
    }

    // -------------------------------------------------------------- products

    /** `Product.create(doc)`. */
    method InsertProduct(p: Product) returns (r: Result<Id, DbError>)
      requires Valid()
      modifies this`products, this`nextId
      ensures Valid()
      ensures r == Failure(ValidationError) <==> !ValidProduct(p)
      ensures r == Failure(DuplicateKey) <==> ValidProduct(p) && NameClash(old(products), old(nextId), p.name)
      ensures r.Failure? ==> products == old(products) && nextId == old(nextId)
      ensures r.Success? ==>
        && r.value == old(nextId) && r.value !in old(products)
        && products == old(products)[r.value := p] && nextId == old(nextId) + 1
    {
      if !ValidProduct(p) { return Failure(ValidationError); }
      if exists a :: a in products && products[a].name == p.name { return Failure(DuplicateKey); }
      var id := FreshId();
      products := products[id := p];
      r := Success(id);
    }

    /** `product.save()` on a loaded product. */
    method SaveProduct(id: Id, p: Product) returns (r: Result<Id, DbError>)
      requires Valid() && id in products
      modifies this`products
      ensures Valid()
      ensures r == Failure(ValidationError) <==> !ValidProduct(p)
      ensures r == Failure(DuplicateKey) <==> ValidProduct(p) && NameClash(old(products), id, p.name)
      ensures r.Failure? ==> products == old(products)
      ensures r.Success? ==> r.value == id && products == old(products)[id := p]
    {
      if !ValidProduct(p) { return Failure(ValidationError); }
      if exists a :: a in products && a != id && products[a].name == p.name { return Failure(DuplicateKey); }
      products := products[id := p];
      r := Success(id);
    }

    /** `Product.findByIdAndDelete(id)`. */
    method DeleteProduct(id: Id)
      requires Valid()
      modifies this`products
      ensures Valid()
      ensures products == old(products) - {id}
    {
      products := products - {id};
    }

    /** `Product.findOne({ name })`; the unique index makes the answer unique. */
    method FindProductByName(name: string) returns (r: Option<Id>)
      requires Valid()
      ensures r.Some? ==> r.value in products && products[r.value].name == name
      ensures r.None? ==> forall a :: a in products ==> products[a].name != name
    {
      if exists a :: a in products && products[a].name == name {
        var a :| a in products && products[a].name == name;
        r := Some(a);
      } else {
        r := None;
      }
    }

    // ------------------------------------------------------- users and OTPs

    /** `User.create(doc)`. */
    method InsertUser(u: User) returns (r: Result<Id, DbError>)
      requires Valid()
      modifies this`users, this`nextId
      ensures Valid()
      ensures r == Failure(ValidationError) <==> !ValidUser(u)
      ensures r == Failure(DuplicateKey) <==> ValidUser(u) && EmailClash(old(users), old(nextId), u.email)
      ensures r.Failure? ==> users == old(users) && nextId == old(nextId)
      ensures r.Success? ==>
        && r.value == old(nextId) && r.value !in old(users)
        && users == old(users)[r.value := u] && nextId == old(nextId) + 1
    {
      if !ValidUser(u) { return Failure(ValidationError); }
      if exists a :: a in users && users[a].email == u.email { return Failure(DuplicateKey); }
      var id := FreshId();
      users := users[id := u];
      r := Success(id);
    }

    /** `User.findOne({ email })`. */
    method FindUserByEmail(email: string) returns (r: Option<Id>)
      requires Valid()
      ensures r.Some? ==> r.value in users && users[r.value].email == email
      ensures r.None? ==> forall a :: a in users ==> users[a].email != email
    {
      if exists a :: a in users && users[a].email == email {
        var a :| a in users && users[a].email == email;
        r := Some(a);
      } else {
        r := None;
      }
    }

    /** `User.findOne({ phone })`: matches only documents that carry a phone path. */
    method FindUserByPhone(phone: string) returns (r: Option<Id>)
      requires Valid()
      ensures r.Some? ==> r.value in users && users[r.value].phone == Some(phone)
      ensures r.None? ==> forall a :: a in users ==> users[a].phone != Some(phone)
    {
      if exists a :: a in users && users[a].phone == Some(phone) {
        var a :| a in users && users[a].phone == Some(phone);
        r := Some(a);
      } else {
        r := None;
      }
    }

    /** `Otp.findOneAndUpdate({ phone }, …, { upsert: true })` (`UpsertPending`). */
    method UpsertPendingOtp(phone: string) returns (id: Id)
      requires Valid()
      modifies this`otps, this`nextId
      ensures Valid()
      ensures (otps, nextId, id) == UpsertPending(old(otps), old(nextId), phone)
    {
      UpsertKeepsPhonesUnique(otps, nextId, phone);
      ghost var r := UpsertPending(otps, nextId, phone);
      if exists a :: a in otps && otps[a].phone == phone {
        id :| id in otps && otps[id].phone == phone;
        assert r.2 in otps && otps[r.2].phone == phone;
        otps := otps[id := otps[id].(status := "pending")];
      } else {
        id := nextId;
        otps := otps[id := OtpEntry(phone, "pending", None, None, None, None)];
        nextId := nextId + 1;
      }
    }

    /** `Otp.findOne({ phone })`. */
    method FindOtpByPhone(phone: string) returns (r: Option<Id>)
      requires Valid()
      ensures r.Some? ==> r.value in otps && otps[r.value].phone == phone
      ensures r.None? ==> forall a :: a in otps ==> otps[a].phone != phone
    {
      if exists a :: a in otps && otps[a].phone == phone {
        var a :| a in otps && otps[a].phone == phone;
        r := Some(a);
      } else {
        r := None;
      }
    }

    /** The sign-up filter `Otp.findOne({ email, purpose: 'signup', status: 'verified' })`. */
    method FindVerifiedSignupOtp(email: string) returns (r: Option<Id>)
      requires Valid()
      ensures r.Some? ==> r.value in otps && SignupOtp(otps[r.value], email)
      ensures r.None? ==> forall a :: a in otps ==> !SignupOtp(otps[a], email)
    {
      if exists a :: a in otps && SignupOtp(otps[a], email) {
        var a :| a in otps && SignupOtp(otps[a], email);
        r := Some(a);
      } else {
        r := None;
      }
    }

    /** `otpEntry.save()` of a loaded entry: the schema's validators run first. */
    method SaveOtp(id: Id, e: OtpEntry) returns (r: Result<Id, DbError>)
      requires Valid() && id in otps && e.phone == otps[id].phone
      modifies this`otps
      ensures Valid()
      ensures r.Failure? <==> !ValidOtp(e)
      ensures r.Failure? ==> r.error == ValidationError && otps == old(otps)
      ensures r.Success? ==> r.value == id && otps == old(otps)[id := e]
    {
      if !ValidOtp(e) { return Failure(ValidationError); }
      otps := otps[id := e];
      r := Success(id);
    }

    /** `Otp.deleteOne({ _id: id })`. */
    method DeleteOtp(id: Id)
      requires Valid()
      modifies this`otps
      ensures Valid()
      ensures otps == old(otps) - {id}
    {
      otps := otps - {id};
    }
  }

  /** Every stored id was handed out before `nextId`. */
  predicate IdsFresh(b: OrderBook) {
    && (forall a :: a in b.orders ==> a < b.nextId)
    && (forall a :: a in b.coupons ==> a < b.nextId)
    && (forall a :: a in b.transactions ==> a < b.nextId)
    && (forall a :: a in b.history ==> a < b.nextId)
  }

  /** At most one order holds a given gateway order id, and at most one order
      holds none. */
  predicate RazorpayIdsUnique(orders: map<Id, Order>) {
    forall a, a' ::
      (a in orders && a' in orders && orders[a].razorpayOrderId == orders[a'].razorpayOrderId) ==> a == a'
  }

  /** What the schemas and unique indexes guarantee of the order book. */
  predicate BookOk(b: OrderBook) {
    && IdsFresh(b)
    && (forall a :: a in b.orders ==> ValidOrder(b.orders[a]))
    && (forall a :: a in b.coupons ==> ValidCoupon(b.coupons[a]))
    && RazorpayIdsUnique(b.orders)
  }

  /** The store's invariant gives the book's. */
  lemma ValidDatabaseBook(db: Database)
    requires db.Valid()
    ensures BookOk(db.Book())
  {
    assert db.OrdersOk() && db.CouponsOk() && db.TransactionsOk() && db.HistoryOk();
    forall a, a' | a in db.orders && a' in db.orders &&
        db.orders[a].razorpayOrderId == db.orders[a'].razorpayOrderId
      ensures a == a'
    {
      assert !RazorpayIdClash(db.orders, a, db.orders[a].razorpayOrderId);
    }
  }

  /** The entry sign-up accepts for `email`. */
  predicate SignupOtp(e: OtpEntry, email: string) {
    e.email == Some(email) && e.purpose == Some("signup") && e.status == "verified"
  }
}
