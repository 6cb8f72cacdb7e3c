/** The admin order handlers: the order list newest first, each order cleaned
    for display, and the status update that either saves the order in place or,
    for a final status, moves it to the history archive. */
module AdminOrderController {
  import opened Common
  import opened Text
  import opened OrderModel
  import opened CouponModel
  import opened HistoryModel
  import opened Store

  /** The coupon summary a cleaned order shows. */
  datatype CouponSummary = CouponSummary(name: string, discountPercentage: real)

  /** An order as the admin sees it: `transactionId` and `couponId` are removed,
      the coupon's code and percentage are added when it still exists, and the
      customer's name and phone are copied up from the address. */
  datatype CleanedOrder = CleanedOrder(
    id: Id,
    userId: Id,
    items: seq<OrderItem>,
    totalAmount: real,
    shippingAddress: Address,
    orderStatus: string,
    paymentStatus: string,
    paymentMethod: string,
    razorpayOrderId: Option<string>,
    createdAt: int,
    coupon: Option<CouponSummary>,
    customerName: string,
    customerPhone: string)

  /** `cleanOrder`. */
  function CleanOrder(id: Id, o: Order, coupons: map<Id, Coupon>): (r: CleanedOrder)
    ensures r.id == id && r.userId == o.userId && r.items == o.items && r.totalAmount == o.totalAmount
    ensures r.shippingAddress == o.shippingAddress && r.razorpayOrderId == o.razorpayOrderId
    ensures r.orderStatus == o.orderStatus && r.paymentStatus == o.paymentStatus
    ensures r.paymentMethod == o.paymentMethod && r.createdAt == o.createdAt
    ensures r.coupon.Some? <==> o.couponId.Some? && o.couponId.value in coupons
    ensures r.coupon.Some? ==>
      r.coupon.value == CouponSummary(coupons[o.couponId.value].code, coupons[o.couponId.value].discountPercentage)
    ensures r.customerName == o.shippingAddress.name && r.customerPhone == o.shippingAddress.phone
  {
    var summary :=
      if o.couponId.Some? && o.couponId.value in coupons then
        Some(CouponSummary(coupons[o.couponId.value].code, coupons[o.couponId.value].discountPercentage))
      else None;
    CleanedOrder(id, o.userId, o.items, o.totalAmount, o.shippingAddress, o.orderStatus, o.paymentStatus,
                 o.paymentMethod, o.razorpayOrderId, o.createdAt, summary,
                 o.shippingAddress.name, o.shippingAddress.phone)
  }

  // ------------------------------------------------------------ getPendingOrders

  /** `sort({ createdAt: -1 })`: newest first. */
  predicate NewestFirst(r: seq<CleanedOrder>) {
    forall i, j :: 0 <= i < j < |r| ==> r[i].createdAt >= r[j].createdAt
  }

  /** The same order on ids of stored orders. */
  predicate IdsNewestFirst(orders: map<Id, Order>, ids: seq<Id>)
    requires forall k :: 0 <= k < |ids| ==> ids[k] in orders
  {
    forall i, j :: 0 <= i < j < |ids| ==> orders[ids[i]].createdAt >= orders[ids[j]].createdAt
  }

  /** Every order of a non-empty set of ids is at least as old as one of them. */
  lemma {:induction false} NewestExists(orders: map<Id, Order>, s: set<Id>)
    requires s != {} && s <= orders.Keys
    ensures exists k :: k in s && forall j :: j in s ==> orders[j].createdAt <= orders[k].createdAt
    decreases |s|
  {
    var x :| x in s;
    if s - {x} == {} {
      assert s == {x};
    } else {
      NewestExists(orders, s - {x});
      var k :| k in s - {x} && forall j :: j in s - {x} ==> orders[j].createdAt <= orders[k].createdAt;
      if orders[x].createdAt > orders[k].createdAt {
        assert forall j :: j in s ==> orders[j].createdAt <= orders[x].createdAt;
      } else {
        assert forall j :: j in s ==> orders[j].createdAt <= orders[k].createdAt;
      }
    }
  }

  /** The query `Order.find({}).sort({ createdAt: -1 })`: the ids of all stored
      orders, each once, newest first (orders created at the same time may come
      in any order). */
  method SortNewestFirst(orders: map<Id, Order>) returns (ids: seq<Id>)
    ensures |ids| == |orders|
    ensures forall k :: 0 <= k < |ids| ==> ids[k] in orders
    ensures forall a :: a in orders ==> a in ids
    ensures forall i, j :: 0 <= i < j < |ids| ==> ids[i] != ids[j]
    ensures IdsNewestFirst(orders, ids)
  {
    var remaining := orders.Keys;
    ids := [];
    while remaining != {}
      invariant remaining <= orders.Keys
      invariant forall k :: 0 <= k < |ids| ==> ids[k] in orders && ids[k] !in remaining
      invariant forall a :: a in orders ==> a in remaining || a in ids
      invariant |ids| + |remaining| == |orders|
      invariant forall i, j :: 0 <= i < j < |ids| ==> ids[i] != ids[j]
      invariant IdsNewestFirst(orders, ids)
      invariant forall k, j :: 0 <= k < |ids| && j in remaining ==> orders[j].createdAt <= orders[ids[k]].createdAt
      decreases |remaining|
    {
      NewestExists(orders, remaining);
      var k :| k in remaining && forall j :: j in remaining ==> orders[j].createdAt <= orders[k].createdAt;
      ids := ids + [k];
      remaining := remaining - {k};
    }
  }

  /** `getPendingOrders`: every live order exactly once, cleaned, newest first. */
  method GetPendingOrders(db: Database) returns (r: seq<CleanedOrder>)
    ensures NewestFirst(r)
    ensures |r| == |db.orders|
    ensures forall i, j :: 0 <= i < j < |r| ==> r[i].id != r[j].id
    ensures forall k :: 0 <= k < |r| ==> r[k].id in db.orders && r[k] == CleanOrder(r[k].id, db.orders[r[k].id], db.coupons)
    ensures forall a :: a in db.orders ==> exists k :: 0 <= k < |r| && r[k].id == a
  {
    var orders, coupons := db.orders, db.coupons;
    var ids := SortNewestFirst(orders);
    r := [];
    var n := 0;
    while n < |ids|
      invariant n <= |ids| && |r| == n
      invariant forall k :: 0 <= k < n ==> r[k] == CleanOrder(ids[k], orders[ids[k]], coupons)
    {
      r := r + [CleanOrder(ids[n], orders[ids[n]], coupons)];
      n := n + 1;
    }
    CleanedInOrder(orders, coupons, ids, r);
  }

  /** Cleaning, one by one, the ids of the sorted order list gives a list with
      the same properties, stated on the cleaned orders. */
  lemma CleanedInOrder(orders: map<Id, Order>, coupons: map<Id, Coupon>, ids: seq<Id>, r: seq<CleanedOrder>)
    requires forall k :: 0 <= k < |ids| ==> ids[k] in orders
    requires |ids| == |orders| && |r| == |ids|
    requires forall a :: a in orders ==> a in ids
    requires forall i, j :: 0 <= i < j < |ids| ==> ids[i] != ids[j]
    requires IdsNewestFirst(orders, ids)
    requires forall k :: 0 <= k < |r| ==> r[k] == CleanOrder(ids[k], orders[ids[k]], coupons)
    ensures NewestFirst(r)
    ensures |r| == |orders|
    ensures forall i, j :: 0 <= i < j < |r| ==> r[i].id != r[j].id
    ensures forall k :: 0 <= k < |r| ==> r[k].id in orders && r[k] == CleanOrder(r[k].id, orders[r[k].id], coupons)
    ensures forall a :: a in orders ==> exists k :: 0 <= k < |r| && r[k].id == a
  {
    forall k | 0 <= k < |r|
      ensures r[k].id == ids[k] && r[k].createdAt == orders[ids[k]].createdAt
    {
    }
    forall a | a in orders
      ensures exists k :: 0 <= k < |r| && r[k].id == a
    {
      var k :| 0 <= k < |ids| && ids[k] == a;
      assert r[k].id == a;
    }
  }

  // ------------------------------------------------------------ updateOrderStatus

  /** The final statuses, after which an order leaves the live store. */
  predicate Terminal(status: string) {
    status == "Delivered" || status == "Cancelled"
  }

  /** The order with the requested status; a cash-on-delivery order that is
      delivered is also paid. */
  function WithStatus(o: Order, status: string): (u: Order)
    ensures u.orderStatus == status
    ensures u.paymentStatus == (if o.paymentMethod == "COD" && status == "Delivered" then "Paid" else o.paymentStatus)
    ensures u.(orderStatus := o.orderStatus, paymentStatus := o.paymentStatus) == o
  {
    o.(orderStatus := status,
       paymentStatus := if o.paymentMethod == "COD" && status == "Delivered" then "Paid" else o.paymentStatus)
  }

  /** updateOrderStatus on the order book.  A final status archives the updated
      order (the archive schema may refuse it: a 500, nothing written) and then
      deletes the live order; any other status saves the order in place (the
      order schema may refuse it). */
  function UpdateStatusOn(b: OrderBook, id: Id, status: string, now: int)
    : (Reply<Option<CleanedOrder>>, OrderBook)
  {
    if id !in b.orders then (Fail(404, "Order not found"), b)
    else
      var u := WithStatus(b.orders[id], status);
      if Terminal(status) then
        var h := Snapshot(id, u, now);
        if !ValidHistory(h) then (Fail(500, "Failed to update order"), b)
        else (Ok(200, "Order " + Lower(status) + " and moved to history", None),
              b.(history := b.history[b.nextId := h], nextId := b.nextId + 1, orders := b.orders - {id}))
      else if !ValidOrder(u) then (Fail(500, "Failed to update order"), b)
      else (Ok(200, "Order status updated successfully", Some(CleanOrder(id, u, b.coupons))),
            b.(orders := b.orders[id := u]))
  }

  /** `updateOrderStatus`; `now` is the clock. */
  method UpdateOrderStatus(db: Database, id: Id, status: string, now: int) returns (reply: Reply<Option<CleanedOrder>>)
    requires db.Valid()
    modifies db`orders, db`history, db`nextId
    ensures db.Valid()
    ensures (reply, db.Book()) == UpdateStatusOn(old(db.Book()), id, status, now)
  {
    if id !in db.orders {
      return Fail(404, "Order not found");
    }
    var o := db.orders[id];
    var u := o.(orderStatus := status);
    if o.paymentMethod == "COD" && status == "Delivered" {
      u := u.(paymentStatus := "Paid");
    }
    assert u == WithStatus(o, status);
    if status == "Delivered" || status == "Cancelled" {
      var moved := MoveToHistory(db, id, u, now);
      if !moved {
        return Fail(500, "Failed to update order");
      }
      return Ok(200, "Order " + Lower(status) + " and moved to history", None);
    }
    assert db.OrdersOk();
    var saved := db.SaveOrder(id, u);
    if saved.Failure? {
      return Fail(500, "Failed to update order");
    }
    reply := Ok(200, "Order status updated successfully", Some(CleanOrder(id, u, db.coupons)));
  }

  /** The terminal branch: archive order `id` as `u`, then delete it; a snapshot
      the schema refuses leaves everything as it was. */
  method MoveToHistory(db: Database, id: Id, u: Order, now: int) returns (moved: bool)
    requires db.Valid()
    modifies db`orders, db`history, db`nextId
    ensures db.Valid()
    ensures moved <==> ValidHistory(Snapshot(id, u, now))
    ensures !moved ==> db.Book() == old(db.Book())
    ensures moved ==> db.Book() == old(db.Book()).(history := old(db.history)[old(db.nextId) := Snapshot(id, u, now)],
                                                   nextId := old(db.nextId) + 1, orders := old(db.orders) - {id})
  {
    var archived := db.InsertHistory(Snapshot(id, u, now));
    if archived.Failure? {
      return false;
    }
    db.DeleteOrder(id);
    moved := true;
  }

  // ------------------------------------------------------------ properties

  /** An unknown id is a 404 and nothing changes. */
  lemma UnknownOrderIsNotFound(b: OrderBook, id: Id, status: string, now: int)
    requires id !in b.orders
    ensures UpdateStatusOn(b, id, status, now) == (Fail(404, "Order not found"), b)
  {
  }

  /** The status update writes only orders and the archive: no coupon, no
      transaction and no e-mail (a save of a loaded order and a delete run no
      mailing hook). */
  lemma UpdateTouchesOnlyOrdersAndHistory(b: OrderBook, id: Id, status: string, now: int)
    ensures var b' := UpdateStatusOn(b, id, status, now).1;
      b'.coupons == b.coupons && b'.transactions == b.transactions && b'.outbox == b.outbox
  {
  }

  /** The order written, live or archived, is paid exactly when it is a
      delivered cash-on-delivery order or was paid before. */
  lemma PaidOnlyByDeliveredCod(b: OrderBook, id: Id, status: string, now: int)
    requires id in b.orders
    ensures var (reply, b') := UpdateStatusOn(b, id, status, now);
      var was := b.orders[id].paymentStatus;
      var cod := b.orders[id].paymentMethod == "COD" && status == "Delivered";
      && (reply.Ok? && Terminal(status) ==>
            b'.history[b.nextId].paymentStatus == (if cod then "Paid" else was))
      && (reply.Ok? && !Terminal(status) ==>
            b'.orders[id].paymentStatus == (if cod then "Paid" else was))
  {
  }

  /** A final status archives one copy of the updated order, under a fresh id
      and with the order's id as `originalOrderId`, and removes the live order;
      it fails only when the order's address has no phone. */
  lemma TerminalMovesToHistory(b: OrderBook, id: Id, status: string, now: int)
    requires BookOk(b) && id in b.orders && Terminal(status)
    ensures var (reply, b') := UpdateStatusOn(b, id, status, now);
      && (reply.Ok? <==> b.orders[id].shippingAddress.phone != "")
      && (reply.Ok? ==>
            && b.nextId !in b.history
            && b'.history == b.history[b.nextId := Snapshot(id, WithStatus(b.orders[id], status), now)]
            && b'.history[b.nextId].originalOrderId == id && b'.history[b.nextId].orderStatus == status
            && id !in b'.orders && b'.orders == b.orders - {id})
      && (reply.Fail? ==> reply.status == 500 && b' == b)
  {
    assert ValidOrder(b.orders[id]);
  }

  /** Any other status from the enum keeps the order live with the new status,
      and archives nothing. */
  lemma OtherStatusUpdatesInPlace(b: OrderBook, id: Id, status: string, now: int)
    requires BookOk(b) && id in b.orders && !Terminal(status) && status in OrderStatuses
    ensures var (reply, b') := UpdateStatusOn(b, id, status, now);
      && reply == Ok(200, "Order status updated successfully",
                     Some(CleanOrder(id, WithStatus(b.orders[id], status), b.coupons)))
      && b'.orders == b.orders[id := b.orders[id].(orderStatus := status)]
      && b'.history == b.history
  {
    assert ValidOrder(b.orders[id]);
  }

  /** After an order was moved to history, any further update of it is a 404:
      this handler archives each order at most once. */
  lemma ArchivedAtMostOnce(b: OrderBook, id: Id, status: string, now: int, status2: string, now2: int)
    requires id in b.orders && Terminal(status)
    ensures var (reply, b') := UpdateStatusOn(b, id, status, now);
      reply.Ok? ==> UpdateStatusOn(b', id, status2, now2) == (Fail(404, "Order not found"), b')
  {
  }
}
