/** The order-history schema, the archive a paid or finished order is copied into. */
module HistoryModel {
  import opened Common
  import opened OrderModel

  datatype OrderHistory = OrderHistory(
    originalOrderId: Id,
    userId: Id,
    items: seq<OrderItem>,
    totalAmount: real,
    shippingAddress: Address,
    orderStatus: string,
    paymentStatus: string,
    paymentMethod: string,
    transactionId: Option<Id>,
    completedAt: int)

  /** The schema's validators: valid items, an address with both name and phone,
      and the three status strings present; none of them is restricted to an enum. */
  predicate ValidHistory(h: OrderHistory) {
    && ValidItems(h.items)
    && h.shippingAddress.name != "" && h.shippingAddress.phone != ""
    && h.orderStatus != "" && h.paymentStatus != "" && h.paymentMethod != ""
  }

  /** The archive copy of order `id`: every order path the history schema keeps,
      the order's id as `originalOrderId`, and `completedAt` set to now. */
  function Snapshot(id: Id, o: Order, now: int): (h: OrderHistory)
    ensures h.originalOrderId == id && h.completedAt == now
    ensures h.userId == o.userId && h.items == o.items && h.totalAmount == o.totalAmount
    ensures h.shippingAddress == o.shippingAddress && h.transactionId == o.transactionId
    ensures h.orderStatus == o.orderStatus && h.paymentStatus == o.paymentStatus
    ensures h.paymentMethod == o.paymentMethod
  {
    OrderHistory(id, o.userId, o.items, o.totalAmount, o.shippingAddress,
                 o.orderStatus, o.paymentStatus, o.paymentMethod, o.transactionId, now)
  }

  /** A valid order can be archived exactly when its address carries a phone:
      the order schema leaves phone optional, the history schema requires it. */
  lemma SnapshotValidIffPhone(id: Id, o: Order, now: int)
    requires ValidOrder(o)
    ensures ValidHistory(Snapshot(id, o, now)) <==> o.shippingAddress.phone != ""
  {
  }
}
