/** What the order handlers promise across calls, stated on the order book:
    nothing is written before the prechecks pass, a coupon loses exactly one use
    when it applies (and does not get it back when a later step fails), the
    expiry callback undoes an unpaid order, and a payment is confirmed at most
    once. */
module OrderLifecycle {
  import opened Common
  import opened Accounts
  import opened OrderModel
  import opened CouponModel
  import opened TransactionModel
  import opened HistoryModel
  import opened Store
  import opened OrderController
  import opened AdminOrderController

  // ------------------------------------------------------------ createOrder

  /** An empty cart or a line out of stock is answered with a 400 before any
      store is read or written. */
  lemma PrecheckFailureWritesNothing(b: OrderBook, users: map<Id, User>, userId: Id, items: seq<ItemInput>,
                                     address: Option<AddressInput>, paymentMethod: string, couponCode: string,
                                     gateway: GatewayRequest -> Option<string>, now: int)
    requires items == [] || exists k :: 0 <= k < |items| && items[k].stockStatus == "outofstock"
    ensures CreateOrderOn(b, users, userId, items, address, paymentMethod, couponCode, gateway, now)
      == (Fail(400, Precheck(items).value), None, b)
  {
  }

  /** A code that finds no active coupon, or one whose purchase range excludes
      the total, is answered with a 400: no order is created and the coupon is
      left as it was. */
  lemma CouponRefusalWritesNothing(b: OrderBook, users: map<Id, User>, userId: Id, items: seq<ItemInput>,
                                   address: Option<AddressInput>, paymentMethod: string, couponCode: string,
                                   gateway: GatewayRequest -> Option<string>, now: int)
    requires Precheck(items).None? && couponCode != ""
    requires var found := Lookup(b.coupons, couponCode);
      found.None? || CouponRefusal(Some(ItemsTotal(items)), found.value.1).Some?
    ensures var (reply, timer, b') := CreateOrderOn(b, users, userId, items, address, paymentMethod, couponCode, gateway, now);
      reply.Fail? && reply.status == 400 && timer.None? && b' == b
  {
    var found := Lookup(b.coupons, couponCode);
    var q := Quote(ItemsTotal(items), couponCode, found);
    assert q.Failure?;
  }

  /** A coupon whose `usageLimit` is 1 passes every check of createOrder and is
      still never applied: taking its last use breaks the schema's `min: 1`, so
      the save throws, the answer is a 500 and nothing is written. */
  lemma SingleUseCouponIsRefused(b: OrderBook, users: map<Id, User>, userId: Id, items: seq<ItemInput>,
                                 address: Option<AddressInput>, paymentMethod: string, couponCode: string,
                                 gateway: GatewayRequest -> Option<string>, now: int)
    requires Precheck(items).None? && couponCode != ""
    requires var found := Lookup(b.coupons, couponCode);
      && found.Some? && CouponRefusal(Some(ItemsTotal(items)), found.value.1).None?
      && found.value.1.usageLimit == 1
    ensures CreateOrderOn(b, users, userId, items, address, paymentMethod, couponCode, gateway, now)
      == (Fail(500, "Validation failed: usageLimit"), None, b)
  {
    var found := Lookup(b.coupons, couponCode);
    var cid := found.value.0;
    assert b.coupons[cid].usageLimit == 1;
    assert !ValidCoupon(b.coupons[cid].(usageLimit := 0));
  }

  /** When a coupon applies and has at least two uses left, it loses exactly one
      use whatever happens afterwards (a later failure does not give it back),
      and a created order charges the discounted total and points at that coupon. */
  lemma AppliedCouponReservesOneUse(b: OrderBook, users: map<Id, User>, userId: Id, items: seq<ItemInput>,
                                    address: Option<AddressInput>, paymentMethod: string, couponCode: string,
                                    gateway: GatewayRequest -> Option<string>, now: int)
    requires BookOk(b) && Precheck(items).None? && couponCode != ""
    requires var found := Lookup(b.coupons, couponCode);
      && found.Some? && CouponRefusal(Some(ItemsTotal(items)), found.value.1).None?
      && found.value.1.usageLimit >= 2
    ensures var cid := Lookup(b.coupons, couponCode).value.0;
      var (reply, timer, b') := CreateOrderOn(b, users, userId, items, address, paymentMethod, couponCode, gateway, now);
      && b'.coupons == Reserve(b.coupons, cid)
      && (reply.Ok? ==>
            && reply.body.orderId in b'.orders
            && b'.orders[reply.body.orderId].couponId == Some(cid)
            && b'.orders[reply.body.orderId].totalAmount
               == Discounted(ItemsTotal(items), b.coupons[cid].discountPercentage))
  {
    var found := Lookup(b.coupons, couponCode);
    var cid := found.value.0;
    var c := b.coupons[cid];
    ReservationNeedsTwoUses(c);
    var p := Priced(Discounted(ItemsTotal(items), c.discountPercentage), Some(cid));
    var b1 := b.(coupons := Reserve(b.coupons, cid));
    assert PriceOn(b, items, couponCode) == (Success(p), b1);
    if address.Some? {
      PlacedOrderStored(b1, users, Document(userId, items, address.value, paymentMethod, p, now), gateway);
    }
  }

  /** Without a code the total is charged as it is, no coupon is touched and the
      order has no `couponId`. */
  lemma NoCodeNoCoupon(b: OrderBook, users: map<Id, User>, userId: Id, items: seq<ItemInput>,
                       address: Option<AddressInput>, paymentMethod: string,
                       gateway: GatewayRequest -> Option<string>, now: int)
    requires Precheck(items).None?
    ensures var (reply, timer, b') := CreateOrderOn(b, users, userId, items, address, paymentMethod, "", gateway, now);
      && b'.coupons == b.coupons
      && (reply.Ok? ==>
            && reply.body.orderId in b'.orders
            && b'.orders[reply.body.orderId].couponId.None?
            && b'.orders[reply.body.orderId].totalAmount == ItemsTotal(items))
  {
    if address.Some? {
      var p := Priced(ItemsTotal(items), None);
      PlacedOrderStored(b, users, Document(userId, items, address.value, paymentMethod, p, now), gateway);
    }
  }

  /** A successful insertion phase stores the document under the id it reports,
      changed at most in its gateway id, and touches no coupon. */
  lemma PlacedOrderStored(b: OrderBook, users: map<Id, User>, o: Order, gateway: GatewayRequest -> Option<string>)
    requires o.razorpayOrderId.None?
    ensures var (reply, timer, b') := PlaceOn(b, users, o, gateway);
      && b'.coupons == b.coupons
      && (reply.Ok? ==>
            && reply.body.orderId == b.nextId && reply.body.orderId in b'.orders
            && b'.orders[reply.body.orderId] == o.(razorpayOrderId := reply.body.razorpayOrderId)
            && b'.orders[reply.body.orderId].razorpayOrderId == reply.body.razorpayOrderId)
  {
    var (reply, timer, b') := PlaceOn(b, users, o, gateway);
    if reply.Ok? && o.paymentMethod == "COD" {
      assert o.(razorpayOrderId := None) == o;
    }
  }

  /** A cash-on-delivery order gets no gateway order and no expiry callback; any
      other created order asked the gateway for its total in paise with its own
      id as the receipt, carries the id the gateway returned, and has its expiry
      callback scheduled with its coupon. */
  lemma GatewayOnlyForOnlineOrders(b: OrderBook, users: map<Id, User>, o: Order, gateway: GatewayRequest -> Option<string>)
    requires o.razorpayOrderId.None?
    ensures var (reply, timer, b') := PlaceOn(b, users, o, gateway);
      reply.Ok? ==>
        var id := reply.body.orderId;
        && id in b'.orders
        && (o.paymentMethod == "COD" ==> timer.None? && reply.body.razorpayOrderId.None? && b'.orders[id] == o)
        && (o.paymentMethod != "COD" ==>
              && timer == Some(ExpiryTimer(id, o.couponId))
              && reply.body.razorpayOrderId.Some?
              && reply.body.razorpayOrderId == gateway(GatewayRequest(o.totalAmount * 100.0, "INR", id))
              && b'.orders[id] == o.(razorpayOrderId := reply.body.razorpayOrderId))
  {
    PlacedOrderStored(b, users, o, gateway);
  }

  /** The gateway-id index refuses a second `null` too.  While some order holds
      no gateway id (a cash-on-delivery order, or an online order not linked
      yet), every createOrder fails: no order is created, and a request that
      got as far as the insert answers 500 with the coupon use it reserved
      not given back. */
  lemma UnlinkedOrderBlocksCreation(b: OrderBook, users: map<Id, User>, userId: Id, items: seq<ItemInput>,
                                    address: Option<AddressInput>, paymentMethod: string, couponCode: string,
                                    gateway: GatewayRequest -> Option<string>, now: int)
    requires forall a :: a in b.orders ==> a < b.nextId
    requires exists a :: a in b.orders && b.orders[a].razorpayOrderId.None?
    ensures var (reply, timer, b') := CreateOrderOn(b, users, userId, items, address, paymentMethod, couponCode, gateway, now);
      && reply.Fail? && timer.None?
      && b'.orders == b.orders && b'.nextId == b.nextId && b'.outbox == b.outbox
      && (Precheck(items).None? && address.Some? && PriceOn(b, items, couponCode).0.Success? ==>
            reply == Fail(500, "Order validation failed") && b'.coupons == PriceOn(b, items, couponCode).1.coupons)
  {
    var a :| a in b.orders && b.orders[a].razorpayOrderId.None?;
    if Precheck(items).None? {
      var (priced, b1) := PriceOn(b, items, couponCode);
      PricingShape(b, items, couponCode);
      if priced.Success? && address.Some? {
        var o := Document(userId, items, address.value, paymentMethod, priced.value, now);
        assert a in b1.orders && a != b1.nextId && b1.orders[a].razorpayOrderId == o.razorpayOrderId;
        assert RazorpayIdClash(b1.orders, b1.nextId, o.razorpayOrderId);
      }
    }
  }

  /** So a cash-on-delivery order blocks the shop: once one is placed, the next
      createOrder, whatever it asks for, creates no order. */
  lemma CodOrderBlocksNextCreation(b: OrderBook, users: map<Id, User>, userId: Id, items: seq<ItemInput>,
                                   address: Option<AddressInput>, couponCode: string,
                                   gateway: GatewayRequest -> Option<string>, now: int,
                                   userId2: Id, items2: seq<ItemInput>, address2: Option<AddressInput>,
                                   paymentMethod2: string, couponCode2: string, now2: int)
    requires forall a :: a in b.orders ==> a < b.nextId
    ensures var (reply, _, b') := CreateOrderOn(b, users, userId, items, address, "COD", couponCode, gateway, now);
      reply.Ok? ==>
        var (reply2, _, b'') := CreateOrderOn(b', users, userId2, items2, address2, paymentMethod2, couponCode2, gateway, now2);
        reply2.Fail? && b''.orders == b'.orders
  {
    var (reply, timer, b') := CreateOrderOn(b, users, userId, items, address, "COD", couponCode, gateway, now);
    if reply.Ok? {
      var (priced, b1) := PriceOn(b, items, couponCode);
      PricingShape(b, items, couponCode);
      var o := Document(userId, items, address.value, "COD", priced.value, now);
      assert (reply, timer, b') == PlaceOn(b1, users, o, gateway);
      assert b'.orders == b.orders[b.nextId := o] && b'.nextId == b.nextId + 1;
      assert b.nextId in b'.orders && b'.orders[b.nextId].razorpayOrderId.None?;
      UnlinkedOrderBlocksCreation(b', users, userId2, items2, address2, paymentMethod2, couponCode2, gateway, now2);
    }
  }

  // ------------------------------------------------------------ expiry

  /** The callback leaves a paid order, and an order already gone, alone. */
  lemma ExpiryOfSettledOrderIsNoOp(b: OrderBook, t: ExpiryTimer)
    requires t.orderId !in b.orders || b.orders[t.orderId].paymentStatus != "Pending"
    ensures ExpireOn(b, t) == b
  {
  }

  /** What a successful pricing phase did: no code leaves the book alone, a
      code reserves one use of the coupon it found; orders are not touched. */
  lemma PricingShape(b: OrderBook, items: seq<ItemInput>, couponCode: string)
    ensures var (r, b1) := PriceOn(b, items, couponCode);
      r.Success? ==>
        && b1.orders == b.orders && b1.nextId == b.nextId
        && (couponCode == "" ==> b1 == b && r.value.couponId.None?)
        && (couponCode != "" ==>
              var cid := Lookup(b.coupons, couponCode).value.0;
              && cid in b.coupons && r.value.couponId == Some(cid)
              && b1 == b.(coupons := Reserve(b.coupons, cid)))
  {
  }

  /** An insertion phase that schedules the expiry callback stored a pending
      order under a fresh id and touched no coupon, so deleting that id gives
      back the orders as they were. */
  lemma PlacementShape(b: OrderBook, users: map<Id, User>, o: Order, gateway: GatewayRequest -> Option<string>)
    requires b.nextId !in b.orders && o.razorpayOrderId.None? && o.paymentStatus == "Pending"
    ensures var (reply, timer, b') := PlaceOn(b, users, o, gateway);
      timer.Some? ==>
        && timer.value == ExpiryTimer(b.nextId, o.couponId)
        && b.nextId in b'.orders && b'.orders[b.nextId].paymentStatus == "Pending"
        && b'.orders - {b.nextId} == b.orders && b'.coupons == b.coupons
  {
    var (reply, timer, b') := PlaceOn(b, users, o, gateway);
    if timer.Some? {
      PlacedOrderStored(b, users, o, gateway);
      var id := b.nextId;
      assert b'.orders == b.orders[id := b'.orders[id]];
      assert b'.orders - {id} == b.orders;
    }
  }

  /** An online order that expires unpaid leaves the orders and the coupons as
      they were before it was created: the order is deleted and the use its
      coupon lost is given back. */
  lemma ExpiryUndoesCreation(b: OrderBook, users: map<Id, User>, userId: Id, items: seq<ItemInput>,
                             address: Option<AddressInput>, paymentMethod: string, couponCode: string,
                             gateway: GatewayRequest -> Option<string>, now: int)
    requires BookOk(b)
    ensures var (reply, timer, b') := CreateOrderOn(b, users, userId, items, address, paymentMethod, couponCode, gateway, now);
      timer.Some? ==> ExpireOn(b', timer.value).orders == b.orders && ExpireOn(b', timer.value).coupons == b.coupons
  {
    var (reply, timer, b') := CreateOrderOn(b, users, userId, items, address, paymentMethod, couponCode, gateway, now);
    if timer.Some? {
      var (priced, b1) := PriceOn(b, items, couponCode);
      PricingShape(b, items, couponCode);
      var o := Document(userId, items, address.value, paymentMethod, priced.value, now);
      assert (reply, timer, b') == PlaceOn(b1, users, o, gateway);
      PlacementShape(b1, users, o, gateway);
      var t := timer.value;
      var id := b.nextId;
      assert t.orderId == id && id in b'.orders && b'.orders[id].paymentStatus == "Pending";
      if couponCode != "" {
        var cid := Lookup(b.coupons, couponCode).value.0;
        ExpiryReturnsReservedUse(b.coupons, b', t, cid);
      } else {
        assert ExpireOn(b', t) == b'.(orders := b'.orders - {id});
      }
    }
  }

  /** The callback for a pending order whose coupon lost one use to it deletes
      the order and gives the use back, so the coupons are as before the reservation. */
  lemma ExpiryReturnsReservedUse(coupons: map<Id, Coupon>, b: OrderBook, t: ExpiryTimer, cid: Id)
    requires t.orderId in b.orders && b.orders[t.orderId].paymentStatus == "Pending"
    requires t.couponId == Some(cid) && cid in coupons && ValidCoupon(coupons[cid])
    requires b.coupons == Reserve(coupons, cid)
    ensures ExpireOn(b, t).orders == b.orders - {t.orderId} && ExpireOn(b, t).coupons == coupons
  {
    var restored := b.coupons[cid].(usageLimit := b.coupons[cid].usageLimit + 1);
    assert restored == coupons[cid];
    assert b.coupons[cid := restored] == coupons;
  }

  // ------------------------------------------------------------ confirmation

  /** A gateway id no order holds is answered "not found" and nothing changes. */
  lemma ConfirmUnknownOrderIsNoOp(b: OrderBook, rid: string, paymentId: string, now: int)
    requires forall a :: a in b.orders ==> b.orders[a].razorpayOrderId != Some(rid)
    ensures ConfirmOn(b, rid, paymentId, now) == (NotFound, b)
  {
  }

  /** The order a confirmation acts on is the one holding the gateway id. */
  lemma ConfirmActsOn(b: OrderBook, rid: string, paymentId: string, now: int, id: Id)
    requires BookOk(b) && id in b.orders && b.orders[id].razorpayOrderId == Some(rid)
    ensures var (c, b') := ConfirmOn(b, rid, paymentId, now);
      && (b.orders[id].paymentStatus == "Paid" ==> c == AlreadyPaid(id) && b' == b)
      && (b.orders[id].paymentStatus != "Paid" ==>
            var paid := b.orders[id].(paymentStatus := "Paid");
            (c, b') == RecordOn(b.(orders := b.orders[id := paid]), id, paid, paymentId, now))
  {
    var chosen :| chosen in b.orders && b.orders[chosen].razorpayOrderId == Some(rid);
    assert chosen == id;
    var paid := b.orders[id].(paymentStatus := "Paid");
    assert ValidOrder(b.orders[id]);
  }

  /** The first confirmation of an unpaid order saves it as paid, records
      exactly one transaction for the payment id and the order's amount, links
      it, and archives one copy of the order, which itself stays live. */
  lemma FirstConfirmationRecordsOnce(b: OrderBook, rid: string, paymentId: string, now: int, id: Id)
    requires BookOk(b) && id in b.orders && b.orders[id].razorpayOrderId == Some(rid)
    requires b.orders[id].paymentStatus != "Paid"
    ensures var (c, b') := ConfirmOn(b, rid, paymentId, now);
      c.Confirmed? ==>
        var tid := c.transactionId;
        var linked := b.orders[id].(paymentStatus := "Paid", transactionId := Some(tid));
        && c.orderId == id && tid !in b.transactions && tid + 1 !in b.history
        && b'.orders == b.orders[id := linked]
        && b'.transactions == b.transactions[tid := PaymentRecord(id, linked, paymentId)]
        && b'.transactions[tid].transactionId == paymentId
        && b'.transactions[tid].amount == b.orders[id].totalAmount
        && b'.history == b.history[tid + 1 := Snapshot(id, linked, now)]
        && b'.history[tid + 1].originalOrderId == id
        && b'.coupons == b.coupons
  {
    ConfirmActsOn(b, rid, paymentId, now, id);
  }

  /** History is written twice for a paid order: the payment confirmation
      archives a copy and leaves the order live, so delivering it later archives
      a second copy.  `originalOrderId` has no unique index, so both are kept. */
  lemma PaidThenDeliveredArchivedTwice(b: OrderBook, rid: string, paymentId: string, now: int, id: Id, now2: int)
    requires BookOk(b) && id in b.orders && b.orders[id].razorpayOrderId == Some(rid)
    requires b.orders[id].paymentStatus != "Paid"
    ensures var (c, b1) := ConfirmOn(b, rid, paymentId, now);
      c.Confirmed? ==>
        var (reply, b2) := UpdateStatusOn(b1, id, "Delivered", now2);
        && reply.Ok? && id !in b2.orders
        && exists h1, h2 :: (h1 in b2.history && h2 in b2.history && h1 != h2
                             && b2.history[h1].originalOrderId == id && b2.history[h2].originalOrderId == id)
  {
    FirstConfirmationRecordsOnce(b, rid, paymentId, now, id);
    ConfirmActsOn(b, rid, paymentId, now, id);
    var (c, b1) := ConfirmOn(b, rid, paymentId, now);
    if c.Confirmed? {
      var tid := c.transactionId;
      var linked := b.orders[id].(paymentStatus := "Paid", transactionId := Some(tid));
      assert tid == b.nextId && b1.nextId == b.nextId + 2;
      assert ValidOrder(b.orders[id]) && ValidOrder(linked);
      assert BookOk(b1) by {
        forall a, a' | a in b1.orders && a' in b1.orders && b1.orders[a].razorpayOrderId == b1.orders[a'].razorpayOrderId
          ensures a == a'
        {
          assert b1.orders[a].razorpayOrderId == b.orders[a].razorpayOrderId;
          assert b1.orders[a'].razorpayOrderId == b.orders[a'].razorpayOrderId;
        }
      }
      SnapshotValidIffPhone(id, linked, now);
      TerminalMovesToHistory(b1, id, "Delivered", now2);
      var (reply, b2) := UpdateStatusOn(b1, id, "Delivered", now2);
      assert tid + 1 in b2.history && b2.history[tid + 1].originalOrderId == id;
      assert b1.nextId in b2.history && b2.history[b1.nextId].originalOrderId == id;
    }
  }

  /** The recording steps keep the order live, paid and holding its gateway
      id, and touch no other order. */
  lemma RecordingKeepsOrderPaid(b: OrderBook, id: Id, paid: Order, paymentId: string, now: int)
    requires id in b.orders && b.orders[id] == paid && paid.paymentStatus == "Paid"
    ensures var b' := RecordOn(b, id, paid, paymentId, now).1;
      && b'.orders.Keys == b.orders.Keys
      && b'.orders[id].paymentStatus == "Paid" && b'.orders[id].razorpayOrderId == paid.razorpayOrderId
      && forall a :: a in b.orders && a != id ==> b'.orders[a] == b.orders[a]
  {
  }

  /** A confirmation of a gateway id held by exactly one, paid, order reports it
      already paid and writes nothing. */
  lemma ConfirmPaidIsNoOp(b: OrderBook, rid: string, paymentId: string, now: int, id: Id)
    requires id in b.orders && b.orders[id].razorpayOrderId == Some(rid) && b.orders[id].paymentStatus == "Paid"
    requires forall a :: a in b.orders && b.orders[a].razorpayOrderId == Some(rid) ==> a == id
    ensures ConfirmOn(b, rid, paymentId, now) == (AlreadyPaid(id), b)
  {
    var chosen :| chosen in b.orders && b.orders[chosen].razorpayOrderId == Some(rid);
    assert chosen == id;
  }

  /** After the first confirmation of an unpaid order, the next one for the same
      gateway id finds it paid. */
  lemma SecondConfirmationIsNoOp(b: OrderBook, rid: string, paymentId: string, now: int, id: Id,
                                 paymentId2: string, now2: int)
    requires BookOk(b) && id in b.orders && b.orders[id].razorpayOrderId == Some(rid)
    requires b.orders[id].paymentStatus != "Paid"
    ensures var b' := ConfirmOn(b, rid, paymentId, now).1;
      ConfirmOn(b', rid, paymentId2, now2) == (AlreadyPaid(id), b')
  {
    ConfirmActsOn(b, rid, paymentId, now, id);
    var paid := b.orders[id].(paymentStatus := "Paid");
    var b1 := b.(orders := b.orders[id := paid]);
    RecordingKeepsOrderPaid(b1, id, paid, paymentId, now);
    var b' := RecordOn(b1, id, paid, paymentId, now).1;
    assert b' == ConfirmOn(b, rid, paymentId, now).1;
    ConfirmPaidIsNoOp(b', rid, paymentId2, now2, id);
  }

  /** A second confirmation of the same gateway order, after any first one that
      found it, reports "already paid" and writes nothing: no second
      transaction and no second archive copy. */
  lemma ConfirmIsIdempotent(b: OrderBook, rid: string, paymentId: string, now: int,
                            paymentId2: string, now2: int)
    requires BookOk(b)
    ensures var (c, b') := ConfirmOn(b, rid, paymentId, now);
      && (c.NotFound? ==> b' == b)
      && (!c.NotFound? ==> ConfirmOn(b', rid, paymentId2, now2) == (AlreadyPaid(c.orderId), b'))
  {
    var (c, b') := ConfirmOn(b, rid, paymentId, now);
    if !c.NotFound? {
      var id :| id in b.orders && b.orders[id].razorpayOrderId == Some(rid);
      ConfirmActsOn(b, rid, paymentId, now, id);
      if b.orders[id].paymentStatus != "Paid" {
        SecondConfirmationIsNoOp(b, rid, paymentId, now, id, paymentId2, now2);
      } else {
        ConfirmPaidIsNoOp(b, rid, paymentId2, now2, id);
      }
    }
  }

  /** An order paid 'ONLINE' is saved as paid and then never recorded: the
      transaction schema spells the method 'Online', so the insert throws, no
      transaction or archive copy is written, and every later confirmation
      reports it already paid. */
  lemma OnlinePaymentIsNeverRecorded(b: OrderBook, rid: string, paymentId: string, now: int, id: Id)
    requires BookOk(b) && id in b.orders && b.orders[id].razorpayOrderId == Some(rid)
    requires b.orders[id].paymentStatus != "Paid" && b.orders[id].paymentMethod == "ONLINE"
    ensures var (c, b') := ConfirmOn(b, rid, paymentId, now);
      && c == Failed(id)
      && b'.orders == b.orders[id := b.orders[id].(paymentStatus := "Paid")]
      && b'.transactions == b.transactions && b'.history == b.history
  {
    ConfirmActsOn(b, rid, paymentId, now, id);
    PaymentRecordValid(id, b.orders[id].(paymentStatus := "Paid"), paymentId);
  }

  /** An order whose address has no phone gets its transaction but no archive
      copy: the history schema requires the phone the order schema leaves optional. */
  lemma OrderWithoutPhoneIsNotArchived(b: OrderBook, rid: string, paymentId: string, now: int, id: Id)
    requires BookOk(b) && id in b.orders && b.orders[id].razorpayOrderId == Some(rid)
    requires b.orders[id].paymentStatus != "Paid" && b.orders[id].shippingAddress.phone == ""
    ensures var (c, b') := ConfirmOn(b, rid, paymentId, now);
      c == Failed(id) && b'.history == b.history
  {
    ConfirmActsOn(b, rid, paymentId, now, id);
    var paid := b.orders[id].(paymentStatus := "Paid");
    assert !ValidHistory(Snapshot(id, paid.(transactionId := Some(b.nextId)), now));
  }
}
