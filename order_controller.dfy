/** The shopper-facing order handlers: coupon check, order creation with the
    coupon reservation and the gateway order, the expiry callback of an unpaid
    order, and the two payment confirmations. */
module OrderController {
  import opened Common
  import opened Text
  import opened Accounts
  import opened OrderModel
  import opened CouponModel
  import opened TransactionModel
  import opened HistoryModel
  import opened Store

  // ------------------------------------------------------------ request data

  /** An order line as the client sends it; `stockStatus` is the client's copy
      of the product's stock flag. */
  datatype ItemInput = ItemInput(productId: Option<Id>, name: string, price: real, quantity: int, stockStatus: string)

  /** The shipping address of the request; the empty string is a path left out. */
  datatype AddressInput = AddressInput(
    name: string, phone: string, street: string, city: string,
    state: string, postalCode: string, country: string)

  /** What the gateway's order-creation call is asked for. */
  datatype GatewayRequest = GatewayRequest(amount: real, currency: string, receipt: Id)

  /** The coupon fields `verifyCoupon` reports. */
  datatype CouponView = CouponView(code: string, discountPercentage: real, minPurchase: real, maxPurchase: real)

  /** The created order and the gateway order id it was linked to, if any. */
  datatype Placed = Placed(orderId: Id, razorpayOrderId: Option<string>)

  /** The two-hour expiry callback createOrder schedules for an online order. */
  datatype ExpiryTimer = ExpiryTimer(orderId: Id, couponId: Option<Id>)

  /** What the order schema keeps of a request line: `stockStatus` is not one of its paths. */
  function ToOrderItems(items: seq<ItemInput>): (r: seq<OrderItem>)
    ensures |r| == |items|
    ensures forall k :: 0 <= k < |items| ==>
      r[k] == OrderItem(items[k].productId, items[k].name, items[k].price, items[k].quantity)
  {
    seq(|items|, k requires 0 <= k < |items| =>
      OrderItem(items[k].productId, items[k].name, items[k].price, items[k].quantity))
  }

  /** The address `Order.create` is given: each field `|| ''`.  An empty country
      is a value, so the schema's default 'India' does not apply. */
  function ToAddress(a: AddressInput): Address {
    Address(a.name, a.phone, a.street, a.city, a.state, a.postalCode, a.country)
  }

  // ------------------------------------------------------------ pure decisions

  /** The index of the first line flagged 'outofstock', or `|items|` when there is none. */
  function FirstOutOfStock(items: seq<ItemInput>): (r: nat)
    ensures r <= |items|
    ensures forall k :: 0 <= k < r ==> items[k].stockStatus != "outofstock"
    ensures r < |items| ==> items[r].stockStatus == "outofstock"
  {
    if items == [] || items[0].stockStatus == "outofstock" then 0
    else 1 + FirstOutOfStock(items[1..])
  }

  /** The 400 answers createOrder gives before it reads any store: an empty cart,
      then the first line that is out of stock. */
  function Precheck(items: seq<ItemInput>): (r: Option<string>)
    ensures r.None? <==> items != [] && forall k :: 0 <= k < |items| ==> items[k].stockStatus != "outofstock"
    ensures items == [] ==> r == Some("Cart is empty")
  {
    if items == [] then Some("Cart is empty")
    else if FirstOutOfStock(items) < |items| then Some(items[FirstOutOfStock(items)].name + " is out of stock")
    else None
  }

  function LineAmount(i: ItemInput): real {
    i.price * i.quantity as real
  }

  /** `items.reduce((acc, i) => acc + i.price * i.quantity, 0)`. */
  function ItemsTotal(items: seq<ItemInput>): real {
    if items == [] then 0.0 else ItemsTotal(items[..|items| - 1]) + LineAmount(items[|items| - 1])
  }

  /** The reduce adds the lines in order: the total of two runs of lines is the
      sum of their totals. */
  lemma {:induction false} ItemsTotalAppend(a: seq<ItemInput>, b: seq<ItemInput>)
    ensures ItemsTotal(a + b) == ItemsTotal(a) + ItemsTotal(b)
  {
    if b != [] {
      assert (a + b)[..|a + b| - 1] == a + b[..|b| - 1];
      ItemsTotalAppend(a, b[..|b| - 1]);
    } else {
      assert a + b == a;
    }
  }

  /** Lines with non-negative prices and quantities never give a negative total. */
  lemma {:induction false} ItemsTotalNonNegative(items: seq<ItemInput>)
    requires forall k :: 0 <= k < |items| ==> items[k].price >= 0.0 && items[k].quantity >= 0
    ensures ItemsTotal(items) >= 0.0
  {
    if items != [] {
      var last := items[|items| - 1];
      assert last.price * last.quantity as real >= 0.0;
      ItemsTotalNonNegative(items[..|items| - 1]);
    }
  }

  /** The reason a coupon is refused for an amount, if any: outside
      `[minPurchase, maxPurchase]` (both ends allowed), then no uses left.  A
      missing amount compares false both ways, so it is never out of range. */
  function CouponRefusal(total: Option<real>, c: Coupon): (r: Option<string>)
    ensures r.None? <==> (total.None? || c.minPurchase <= total.value <= c.maxPurchase) && c.usageLimit > 0
    ensures total.Some? && (total.value < c.minPurchase || total.value > c.maxPurchase) ==>
      r == Some("Coupon not applicable for this order amount")
  {
    if total.Some? && (total.value < c.minPurchase || total.value > c.maxPurchase) then
      Some("Coupon not applicable for this order amount")
    else if c.usageLimit <= 0 then Some("Coupon usage limit reached")
    else None
  }

  /** A stored coupon always has a use left, so the usage-limit refusal is never given. */
  lemma UsageLimitRefusalUnreachable(total: Option<real>, c: Coupon)
    requires ValidCoupon(c)
    ensures CouponRefusal(total, c) != Some("Coupon usage limit reached")
  {
  }

  /** `total - (total * discountPercentage) / 100`. */
  function Discounted(total: real, pct: real): real {
    total - (total * pct) / 100.0
  }

  /** A percentage in [0, 100] never raises a non-negative total and never makes
      it negative; 0 keeps it, 100 makes it free. */
  lemma DiscountedBounds(total: real, pct: real)
    requires total >= 0.0 && 0.0 <= pct <= 100.0
    ensures 0.0 <= Discounted(total, pct) <= total
    ensures pct == 0.0 ==> Discounted(total, pct) == total
    ensures pct == 100.0 ==> Discounted(total, pct) == 0.0
  {
    assert total * pct <= total * 100.0;
    assert total * pct >= 0.0;
  }

  /** The coupon `Coupon.findOne({ code, status: 'active' })` matches: the filter's
      code goes through the same setters as the stored one. */
  ghost predicate Selects(coupons: map<Id, Coupon>, code: string, cid: Id) {
    cid in coupons && coupons[cid].code == NormaliseCode(code) && coupons[cid].status == "active"
  }

  /** The matched coupon, when there is one; codes are unique, so it is the only one. */
  ghost function Lookup(coupons: map<Id, Coupon>, code: string): (r: Option<(Id, Coupon)>)
    ensures r.Some? ==> Selects(coupons, code, r.value.0) && r.value.1 == coupons[r.value.0]
    ensures r.None? <==> forall cid :: !Selects(coupons, code, cid)
  {
    if exists cid :: Selects(coupons, code, cid) then
      var cid :| Selects(coupons, code, cid);
      Some((cid, coupons[cid]))
    else None
  }

  /** Two active coupons matching one code are the same coupon. */
  lemma LookupFinds(db: Database, code: string, cid: Id)
    requires db.Valid() && Selects(db.coupons, code, cid)
    ensures Lookup(db.coupons, code) == Some((cid, db.coupons[cid]))
  {
    var other := Lookup(db.coupons, code).value.0;
    assert db.CouponsOk();
    assert !CodeClash(db.coupons, cid, db.coupons[cid].code);
  }

  /** The amount charged and the coupon applied. */
  datatype Priced = Priced(total: real, couponId: Option<Id>)

  /** createOrder's pricing: no code, no coupon; a code must find an active coupon
      the total qualifies for, and then the discounted total is charged. */
  function Quote(total: real, couponCode: string, found: Option<(Id, Coupon)>): (r: Result<Priced, string>)
    ensures couponCode == "" ==> r == Success(Priced(total, None))
    ensures couponCode != "" && found.None? ==> r == Failure("Coupon not found or inactive")
    ensures couponCode != "" && found.Some? && CouponRefusal(Some(total), found.value.1).Some? ==>
      r == Failure(CouponRefusal(Some(total), found.value.1).value)
    ensures couponCode != "" && found.Some? && CouponRefusal(Some(total), found.value.1).None? ==>
      r == Success(Priced(Discounted(total, found.value.1.discountPercentage), Some(found.value.0)))
  {
    if couponCode == "" then Success(Priced(total, None))
    else if found.None? then Failure("Coupon not found or inactive")
    else
      var (cid, c) := found.value;
      var refusal := CouponRefusal(Some(total), c);
      if refusal.Some? then Failure(refusal.value)
      else Success(Priced(Discounted(total, c.discountPercentage), Some(cid)))
  }

  /** A quote never charges more than the undiscounted total, nor less than
      nothing, whenever the coupon is a stored (valid) one. */
  lemma QuoteWithinTotal(total: real, couponCode: string, found: Option<(Id, Coupon)>)
    requires total >= 0.0
    requires found.Some? ==> ValidCoupon(found.value.1)
    ensures Quote(total, couponCode, found).Success? ==>
      0.0 <= Quote(total, couponCode, found).value.total <= total
  {
    if couponCode != "" && found.Some? {
      DiscountedBounds(total, found.value.1.discountPercentage);
    }
  }

  /** The coupon store after the reservation: one use taken off `cid`. */
  function Reserve(coupons: map<Id, Coupon>, cid: Id): (r: map<Id, Coupon>)
    requires cid in coupons
    ensures r.Keys == coupons.Keys && r[cid].usageLimit == coupons[cid].usageLimit - 1
    ensures r[cid].(usageLimit := coupons[cid].usageLimit) == coupons[cid]
    ensures forall a :: a in coupons && a != cid ==> r[a] == coupons[a]
  {
    coupons[cid := coupons[cid].(usageLimit := coupons[cid].usageLimit - 1)]
  }

  /** The document createOrder inserts for a priced request. */
  function Document(userId: Id, items: seq<ItemInput>, a: AddressInput, paymentMethod: string,
                    p: Priced, now: int): (o: Order)
    ensures o.items == ToOrderItems(items) && o.shippingAddress == ToAddress(a)
    ensures o.totalAmount == p.total && o.couponId == p.couponId && o.paymentMethod == paymentMethod
    ensures o.orderStatus == "Pending" && o.paymentStatus == "Pending"
    ensures o.transactionId.None? && o.razorpayOrderId.None?
  {
    NewOrder(userId, ToOrderItems(items), ToAddress(a), paymentMethod, p.total, p.couponId, now)
  }

  // ------------------------------------------------------------ verifyCoupon

  /** `verifyCoupon`: a read-only check of a code against an amount. */
  method VerifyCoupon(db: Database, couponCode: string, totalAmount: Option<real>) returns (reply: Reply<CouponView>)
    requires db.Valid()
    ensures couponCode == "" ==> reply == Fail(400, "Coupon code is required")
    ensures couponCode != "" && Lookup(db.coupons, couponCode).None? ==> reply == Fail(400, "Invalid coupon")
    ensures couponCode != "" && Lookup(db.coupons, couponCode).Some? ==>
      var c := Lookup(db.coupons, couponCode).value.1;
      && (CouponRefusal(totalAmount, c).Some? ==> reply == Fail(400, CouponRefusal(totalAmount, c).value))
      && (CouponRefusal(totalAmount, c).None? ==>
            reply == Ok(200, "", CouponView(c.code, c.discountPercentage, c.minPurchase, c.maxPurchase)))
  {
    if couponCode == "" {
      return Fail(400, "Coupon code is required");
    }
    var found := db.FindActiveCoupon(couponCode);
    if found.None? {
      return Fail(400, "Invalid coupon");
    }
    var cid := found.value;
    LookupFinds(db, couponCode, cid);
    var c := db.coupons[cid];
    var refusal := CouponRefusal(totalAmount, c);
    if refusal.Some? {
      return Fail(400, refusal.value);
    }
    reply := Ok(200, "", CouponView(c.code, c.discountPercentage, c.minPurchase, c.maxPurchase));
  }

  // ------------------------------------------------------------ createOrder on values

  /** The pricing phase on the order book: price the lines, and when a coupon
      applies, save it with one use fewer; that save is refused (a 500) when the
      coupon's `min: 1` would be broken. */
  ghost function PriceOn(b: OrderBook, items: seq<ItemInput>, couponCode: string)
    : (Result<Priced, Reply<Placed>>, OrderBook)
  {
    var found := Lookup(b.coupons, couponCode);
    var q := Quote(ItemsTotal(items), couponCode, found);
    if q.Failure? then (Failure(Fail(400, q.error)), b)
    else if couponCode == "" then (Success(q.value), b)
    else
      var (r, coupons) := ReserveOn(b.coupons, found.value.0, q.value);
      (r, b.(coupons := coupons))
  }

  /** `coupon.usageLimit -= 1; await coupon.save()`: the reservation of one use
      of coupon `cid` for the priced order `p`. */
  function ReserveOn(coupons: map<Id, Coupon>, cid: Id, p: Priced): (Result<Priced, Reply<Placed>>, map<Id, Coupon>)
    requires cid in coupons
  {
    var reserved := coupons[cid].(usageLimit := coupons[cid].usageLimit - 1);
    if !ValidCoupon(reserved) then (Failure(Fail(500, "Validation failed: usageLimit")), coupons)
    else (Success(p), Reserve(coupons, cid))
  }

  /** The gateway phase on the order book, for order `id` just inserted as `o`:
      ask the gateway for `totalAmount * 100` paise with the order's id as
      receipt, then save the gateway's id on the order (the unique index may
      refuse it) and start the expiry timer. */
  function LinkOn(b: OrderBook, id: Id, o: Order, gateway: GatewayRequest -> Option<string>)
    : (Reply<Placed>, Option<ExpiryTimer>, OrderBook)
  {
    var rid := gateway(GatewayRequest(o.totalAmount * 100.0, "INR", id));
    if rid.None? then (Fail(500, "Gateway order creation failed"), None, b)
    else if RazorpayIdClash(b.orders, id, rid) then (Fail(500, "Duplicate razorpayOrderId"), None, b)
    else (Ok(200, "", Placed(id, rid)), Some(ExpiryTimer(id, o.couponId)),
          b.(orders := b.orders[id := o.(razorpayOrderId := rid)]))
  }

  /** The insertion phase on the order book: insert the document (the save
      hooks mail "Placed"); a COD order is then done, any other order goes on
      to the gateway phase. */
  function PlaceOn(b: OrderBook, users: map<Id, User>, o: Order, gateway: GatewayRequest -> Option<string>)
    : (Reply<Placed>, Option<ExpiryTimer>, OrderBook)
  {
    if !ValidOrder(o) || RazorpayIdClash(b.orders, b.nextId, o.razorpayOrderId) then
      (Fail(500, "Order validation failed"), None, b)
    else
      var id := b.nextId;
      var inserted := b.(orders := b.orders[id := o], nextId := id + 1,
                         outbox := b.outbox + Sent(PlacedNotification(true, id, o, users)));
      if o.paymentMethod == "COD" then (Ok(200, "", Placed(id, None)), None, inserted)
      else LinkOn(inserted, id, o, gateway)
  }

  /** createOrder on the order book: the prechecks, the pricing phase, the
      address read (a missing address throws), then the insertion phase. */
  ghost function CreateOrderOn(b: OrderBook, users: map<Id, User>, userId: Id, items: seq<ItemInput>,
                               address: Option<AddressInput>, paymentMethod: string, couponCode: string,
                               gateway: GatewayRequest -> Option<string>, now: int)
    : (Reply<Placed>, Option<ExpiryTimer>, OrderBook)
  {
    if Precheck(items).Some? then (Fail(400, Precheck(items).value), None, b)
    else
      var (priced, b1) := PriceOn(b, items, couponCode);
      if priced.Failure? then (priced.error, None, b1)
      else if address.None? then (Fail(500, "Cannot read properties of undefined (reading 'name')"), None, b1)
      else PlaceOn(b1, users, Document(userId, items, address.value, paymentMethod, priced.value, now), gateway)
  }

  /** The expiry callback on the order book: an order still unpaid is deleted,
      after one use is given back to its coupon if that coupon still exists; an
      order that is paid or gone is left alone. */
  function ExpireOn(b: OrderBook, t: ExpiryTimer): OrderBook {
    if t.orderId !in b.orders || b.orders[t.orderId].paymentStatus != "Pending" then b
    else if t.couponId.Some? && t.couponId.value in b.coupons then
      var cid := t.couponId.value;
      var restored := b.coupons[cid].(usageLimit := b.coupons[cid].usageLimit + 1);
      if !ValidCoupon(restored) then b
      else b.(orders := b.orders - {t.orderId}, coupons := b.coupons[cid := restored])
    else b.(orders := b.orders - {t.orderId})
  }

  // ------------------------------------------------------------ createOrder

  /** The `for (const i of items)` stock check: the first line flagged out of stock. */
  method FindOutOfStock(items: seq<ItemInput>) returns (k: nat)
    ensures k == FirstOutOfStock(items)
  {
    k := 0;
    while k < |items| && items[k].stockStatus != "outofstock"
      invariant k <= |items|
      invariant FirstOutOfStock(items) == k + FirstOutOfStock(items[k..])
    {
      assert items[k..][1..] == items[k + 1..];
      k := k + 1;
    }
  }

  /** The pricing and coupon-reservation phase of createOrder. */
  method PriceAndReserve(db: Database, items: seq<ItemInput>, couponCode: string) returns (r: Result<Priced, Reply<Placed>>)
    requires db.Valid()
    modifies db`coupons
    ensures db.Valid()
    ensures (r, db.Book()) == PriceOn(old(db.Book()), items, couponCode)
  {
    var total := ItemsTotal(items);
    if couponCode == "" {
      return Success(Priced(total, None));
    }
    var found := db.FindActiveCoupon(couponCode);
    if found.None? {
      return Failure(Fail(400, "Coupon not found or inactive"));
    }
    var cid := found.value;
    LookupFinds(db, couponCode, cid);
    var c := db.coupons[cid];
    var refusal := CouponRefusal(Some(total), c);
    if refusal.Some? {
      return Failure(Fail(400, refusal.value));
    }
    r := TakeCouponUse(db, cid, Priced(Discounted(total, c.discountPercentage), Some(cid)));
  }

  /** The reservation step of the pricing phase. */
  method TakeCouponUse(db: Database, cid: Id, p: Priced) returns (r: Result<Priced, Reply<Placed>>)
    requires db.Valid() && cid in db.coupons
    modifies db`coupons
    ensures db.Valid()
    ensures (r, db.coupons) == ReserveOn(old(db.coupons), cid, p)
  {
    var c := db.coupons[cid];
    var saved := db.SaveCoupon(cid, c.(usageLimit := c.usageLimit - 1));
    if saved.Failure? {
      return Failure(Fail(500, "Validation failed: usageLimit"));
    }
    r := Success(p);
  }

  /** The gateway phase of createOrder. */
  method LinkGatewayOrder(db: Database, id: Id, o: Order, gateway: GatewayRequest -> Option<string>)
    returns (reply: Reply<Placed>, timer: Option<ExpiryTimer>)
    requires db.Valid() && id in db.orders && db.orders[id] == o
    modifies db`orders
    ensures db.Valid()
    ensures (reply, timer, db.Book()) == LinkOn(old(db.Book()), id, o, gateway)
  {
    var rid := gateway(GatewayRequest(o.totalAmount * 100.0, "INR", id));
    if rid.None? {
      return Fail(500, "Gateway order creation failed"), None;
    }
    assert db.OrdersOk();
    var saved := db.SaveOrder(id, o.(razorpayOrderId := rid));
    if saved.Failure? {
      assert saved.error == ValidationError || saved.error == DuplicateKey;
      return Fail(500, "Duplicate razorpayOrderId"), None;
    }
    reply, timer := Ok(200, "", Placed(id, rid)), Some(ExpiryTimer(id, o.couponId));
  }

  /** The insertion phase of createOrder. */
  method PlaceOrder(db: Database, o: Order, gateway: GatewayRequest -> Option<string>)
    returns (reply: Reply<Placed>, timer: Option<ExpiryTimer>)
    requires db.Valid()
    modifies db`orders, db`nextId, db`outbox
    ensures db.Valid()
    ensures (reply, timer, db.Book()) == PlaceOn(old(db.Book()), db.users, o, gateway)
  {
    var created := db.InsertOrder(o);
    if created.Failure? {
      assert created.error == ValidationError || created.error == DuplicateKey;
      return Fail(500, "Order validation failed"), None;
    }
    var id := created.value;
    if o.paymentMethod == "COD" {
      return Ok(200, "", Placed(id, None)), None;
    }
    reply, timer := LinkGatewayOrder(db, id, o, gateway);
  }

  /** `createOrder`.  The gateway's order-creation call is the function
      `gateway`, `None` standing for a call that throws; `now` is the clock. */
  method CreateOrder(db: Database, userId: Id, items: seq<ItemInput>, address: Option<AddressInput>,
                     paymentMethod: string, couponCode: string,
                     gateway: GatewayRequest -> Option<string>, now: int)
    returns (reply: Reply<Placed>, timer: Option<ExpiryTimer>)
    requires db.Valid()
    modifies db`orders, db`coupons, db`nextId, db`outbox
    ensures db.Valid()
    ensures (reply, timer, db.Book()) ==
      CreateOrderOn(old(db.Book()), db.users, userId, items, address, paymentMethod, couponCode, gateway, now)
  {
    if items == [] {
      return Fail(400, "Cart is empty"), None;
    }
    var k := FindOutOfStock(items);
    if k < |items| {
      return Fail(400, items[k].name + " is out of stock"), None;
    }
    var priced := PriceAndReserve(db, items, couponCode);
    if priced.Failure? {
      return priced.error, None;
    }
    if address.None? {
      return Fail(500, "Cannot read properties of undefined (reading 'name')"), None;
    }
    reply, timer := PlaceOrder(db, Document(userId, items, address.value, paymentMethod, priced.value, now), gateway);
  }

  /** The body of the expiry callback. */
  method ExpireUnpaidOrder(db: Database, t: ExpiryTimer)
    requires db.Valid()
    modifies db`orders, db`coupons
    ensures db.Valid()
    ensures db.Book() == ExpireOn(old(db.Book()), t)
  {
    if t.orderId in db.orders && db.orders[t.orderId].paymentStatus == "Pending" {
      if t.couponId.Some? && t.couponId.value in db.coupons {
        var cid := t.couponId.value;
        var c := db.coupons[cid];
        var saved := db.SaveCoupon(cid, c.(usageLimit := c.usageLimit + 1));
        if saved.Failure? {
          return;
        }
      }
      db.DeleteOrder(t.orderId);
    }
  }

  // ------------------------------------------------------------ payment

  /** The transaction a confirmation records for order `id`. */
  function PaymentRecord(id: Id, o: Order, paymentId: string): (t: Transaction)
    ensures t.orderId == id && t.userId == o.userId && t.items == o.items
    ensures t.amount == o.totalAmount && t.paymentMethod == o.paymentMethod
    ensures t.paymentStatus == "Success" && t.transactionId == paymentId
  {
    Transaction(id, o.userId, o.items, o.totalAmount, o.paymentMethod, "Success", paymentId)
  }

  /** A valid order can be recorded exactly when it was not paid 'ONLINE' and a
      payment id is given: the two schemas spell the online method differently. */
  lemma PaymentRecordValid(id: Id, o: Order, paymentId: string)
    requires ValidOrder(o)
    ensures ValidTransaction(PaymentRecord(id, o, paymentId)) <==>
      o.paymentMethod != "ONLINE" && paymentId != ""
  {
    MethodEnumsDiffer(o.paymentMethod);
  }

  /** How a confirmation ended.  `Failed` is a 500 after the order was already
      saved as paid. */
  datatype Confirmation =
    | NotFound
    | AlreadyPaid(orderId: Id)
    | Confirmed(orderId: Id, transactionId: Id)
    | Failed(orderId: Id)

  /** The steps both confirmations share once the signature is good, on the
      order book: find the order by gateway id, stop if it is paid, otherwise
      save it as paid and go on to record the payment. */
  ghost function ConfirmOn(b: OrderBook, rid: string, paymentId: string, now: int): (Confirmation, OrderBook)
  {
    if forall a :: a in b.orders ==> b.orders[a].razorpayOrderId != Some(rid) then (NotFound, b)
    else
      var id :| id in b.orders && b.orders[id].razorpayOrderId == Some(rid);
      var o := b.orders[id];
      if o.paymentStatus == "Paid" then (AlreadyPaid(id), b)
      else
        var paid := o.(paymentStatus := "Paid");
        if !ValidOrder(paid) then (Failed(id), b)
        else RecordOn(b.(orders := b.orders[id := paid]), id, paid, paymentId, now)
  }

  /** The recording steps on the order book, for order `id` already saved as
      `paid`: record the transaction, link it to the order, and archive a copy
      of the order. */
  function RecordOn(b: OrderBook, id: Id, paid: Order, paymentId: string, now: int): (Confirmation, OrderBook)
  {
    var t := PaymentRecord(id, paid, paymentId);
    if !ValidTransaction(t) || TransactionIdClash(b.transactions, b.nextId, paymentId) then (Failed(id), b)
    else
      var tid := b.nextId;
      var linked := paid.(transactionId := Some(tid));
      ArchiveOn(b.(orders := b.orders[id := linked], transactions := b.transactions[tid := t],
                   nextId := tid + 1), id, linked, tid, now)
  }

  /** The order-history step: a snapshot of the linked order under the next id. */
  function ArchiveOn(b: OrderBook, id: Id, linked: Order, tid: Id, now: int): (Confirmation, OrderBook)
  {
    var h := Snapshot(id, linked, now);
    if !ValidHistory(h) then (Failed(id), b)
    else (Confirmed(id, tid), b.(history := b.history[b.nextId := h], nextId := b.nextId + 1))
  }

  /** The recording steps of a confirmation. */
  method RecordPayment(db: Database, id: Id, paid: Order, paymentId: string, now: int) returns (c: Confirmation)
    requires db.Valid() && id in db.orders && db.orders[id] == paid && ValidOrder(paid)
    modifies db`orders, db`transactions, db`history, db`nextId
    ensures db.Valid()
    ensures (c, db.Book()) == RecordOn(old(db.Book()), id, paid, paymentId, now)
  {
    var recorded := db.InsertTransaction(PaymentRecord(id, paid, paymentId));
    if recorded.Failure? {
      assert recorded.error == ValidationError || recorded.error == DuplicateKey;
      return Failed(id);
    }
    var tid := recorded.value;
    var linked := paid.(transactionId := Some(tid));
    assert ValidOrder(linked);
    var relinked := db.SaveOrder(id, linked);
    assert relinked.Success?;
    c := ArchivePayment(db, id, linked, tid, now);
  }

  /** `OrderHistory.create(...)` after a confirmed payment. */
  method ArchivePayment(db: Database, id: Id, linked: Order, tid: Id, now: int) returns (c: Confirmation)
    requires db.Valid()
    modifies db`history, db`nextId
    ensures db.Valid()
    ensures (c, db.Book()) == ArchiveOn(old(db.Book()), id, linked, tid, now)
  {
    var archived := db.InsertHistory(Snapshot(id, linked, now));
    if archived.Failure? {
      return Failed(id);
    }
    c := Confirmed(id, tid);
  }

  /** The shared confirmation steps. */
  method ConfirmPayment(db: Database, rid: string, paymentId: string, now: int) returns (c: Confirmation)
    requires db.Valid()
    modifies db`orders, db`transactions, db`history, db`nextId
    ensures db.Valid()
    ensures (c, db.Book()) == ConfirmOn(old(db.Book()), rid, paymentId, now)
  {
    var found := db.FindOrderByRazorpayId(rid);
    if found.None? {
      return NotFound;
    }
    var id := found.value;
    ghost var chosen :| chosen in db.orders && db.orders[chosen].razorpayOrderId == Some(rid);
    assert chosen == id;
    var o := db.orders[id];
    if o.paymentStatus == "Paid" {
      return AlreadyPaid(id);
    }
    var paid := o.(paymentStatus := "Paid");
    assert db.OrdersOk() && ValidOrder(paid);
    var saved := db.SaveOrder(id, paid);
    c := RecordPayment(db, id, paid, paymentId, now);
  }

  /** `razorpayWebhook`: the signature check is the function `signatureOk`. */
  method RazorpayWebhook(db: Database, rid: string, paymentId: string, signature: string,
                         signatureOk: (string, string, string) -> bool, now: int)
    returns (reply: Reply<Option<Id>>, c: Option<Confirmation>)
    requires db.Valid()
    modifies db`orders, db`transactions, db`history, db`nextId
    ensures db.Valid()
    ensures !signatureOk(rid, paymentId, signature) ==>
      reply == Fail(400, "Invalid signature") && c.None? && db.Book() == old(db.Book())
    ensures signatureOk(rid, paymentId, signature) ==>
      c.Some? && (c.value, db.Book()) == ConfirmOn(old(db.Book()), rid, paymentId, now)
    ensures c == Some(NotFound) ==> reply == Fail(404, "Order not found")
    ensures c.Some? && c.value.AlreadyPaid? ==> reply == Ok(200, "Payment already processed", None)
    ensures c.Some? && c.value.Confirmed? ==> reply == Ok(200, "Payment verified", Some(c.value.transactionId))
    ensures c.Some? && c.value.Failed? ==> reply.Fail? && reply.status == 500
  {
    if !signatureOk(rid, paymentId, signature) {
      return Fail(400, "Invalid signature"), None;
    }
    var outcome := ConfirmPayment(db, rid, paymentId, now);
    c := Some(outcome);
    reply := match outcome
      case NotFound => Fail(404, "Order not found")
      case AlreadyPaid(_) => Ok(200, "Payment already processed", None)
      case Confirmed(_, tid) => Ok(200, "Payment verified", Some(tid))
      case Failed(_) => Fail(500, "Payment recording failed");
  }

  /** The success body of `verifyPayment`: the order it settled and, for a
      first confirmation, the transaction it recorded. */
  datatype PaymentEcho = PaymentEcho(orderId: Id, transactionId: Option<Id>)

  /** `verifyPayment`, the client's confirmation: all three ids must be present. */
  method VerifyPayment(db: Database, rid: string, paymentId: string, signature: string,
                       signatureOk: (string, string, string) -> bool, now: int)
    returns (reply: Reply<PaymentEcho>, c: Option<Confirmation>)
    requires db.Valid()
    modifies db`orders, db`transactions, db`history, db`nextId
    ensures db.Valid()
    ensures rid == "" || paymentId == "" || signature == "" ==>
      reply == Fail(400, "Missing payment details") && c.None? && db.Book() == old(db.Book())
    ensures rid != "" && paymentId != "" && signature != "" && !signatureOk(rid, paymentId, signature) ==>
      reply == Fail(400, "Invalid payment signature") && c.None? && db.Book() == old(db.Book())
    ensures rid != "" && paymentId != "" && signature != "" && signatureOk(rid, paymentId, signature) ==>
      c.Some? && (c.value, db.Book()) == ConfirmOn(old(db.Book()), rid, paymentId, now)
    ensures c == Some(NotFound) ==> reply == Fail(404, "Order not found")
    ensures c.Some? && c.value.AlreadyPaid? ==>
      reply == Ok(200, "Payment already verified", PaymentEcho(c.value.orderId, None))
    ensures c.Some? && c.value.Confirmed? ==>
      reply == Ok(200, "Payment verified successfully", PaymentEcho(c.value.orderId, Some(c.value.transactionId)))
    ensures c.Some? && c.value.Failed? ==> reply == Fail(500, "Payment verification failed")
  {
    if rid == "" || paymentId == "" || signature == "" {
      return Fail(400, "Missing payment details"), None;
    }
    if !signatureOk(rid, paymentId, signature) {
      return Fail(400, "Invalid payment signature"), None;
    }
    var outcome := ConfirmPayment(db, rid, paymentId, now);
    c := Some(outcome);
    reply := match outcome
      case NotFound => Fail(404, "Order not found")
      case AlreadyPaid(oid) => Ok(200, "Payment already verified", PaymentEcho(oid, None))
      case Confirmed(oid, tid) => Ok(200, "Payment verified successfully", PaymentEcho(oid, Some(tid)))
      case Failed(_) => Fail(500, "Payment verification failed");
  }
}
