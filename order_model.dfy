/** The order schema: its item and address sub-documents, the enums and
    required paths its validators enforce, and the decision logic of its two
    notification hooks. */
module OrderModel {
  import opened Common
  import opened Accounts

  /** An order line.  `productId` is optional here because a request may omit it;
      the schema then refuses the order. */
  datatype OrderItem = OrderItem(productId: Option<Id>, name: string, price: real, quantity: int)

  /** A shipping address; the empty string stands for a path the request left empty. */
  datatype Address = Address(
    name: string, phone: string, street: string, city: string,
    state: string, postalCode: string, country: string)

  datatype Order = Order(
    userId: Id,
    items: seq<OrderItem>,
    totalAmount: real,
    shippingAddress: Address,
    orderStatus: string,
    paymentStatus: string,
    paymentMethod: string,
    couponId: Option<Id>,
    transactionId: Option<Id>,
    razorpayOrderId: Option<string>,
    createdAt: int)

  const OrderStatuses: set<string> := {"Pending", "Processing", "Shipped", "Delivered", "Cancelled"}
  const PaymentStatuses: set<string> := {"Pending", "Paid", "Failed"}
  const PaymentMethods: set<string> := {"UPI", "COD", "Credit Card", "Debit Card", "Net Banking", "ONLINE"}

  /** An item needs a product, a non-empty name and a quantity of at least one. */
  predicate ValidItem(i: OrderItem) {
    i.productId.Some? && i.name != "" && i.quantity >= 1
  }

  /** The item-list validator: at least one item, each of them valid. */
  predicate ValidItems(items: seq<OrderItem>) {
    |items| > 0 && forall k :: 0 <= k < |items| ==> ValidItem(items[k])
  }

  /** Name, city and state are required; Mongoose's `required` refuses the empty string. */
  predicate ValidAddress(a: Address) {
    a.name != "" && a.city != "" && a.state != ""
  }

  /** Everything the order schema's validators check on create and on save. */
  predicate ValidOrder(o: Order) {
    && ValidItems(o.items)
    && ValidAddress(o.shippingAddress)
    && o.orderStatus in OrderStatuses
    && o.paymentStatus in PaymentStatuses
    && o.paymentMethod in PaymentMethods
  }

  /** The document `Order.create` builds: both statuses take their default
      'Pending', and no transaction or gateway order is linked yet. */
  function NewOrder(userId: Id, items: seq<OrderItem>, address: Address, paymentMethod: string,
                    totalAmount: real, couponId: Option<Id>, now: int): (o: Order)
    ensures o.orderStatus == "Pending" && o.paymentStatus == "Pending"
    ensures o.transactionId.None? && o.razorpayOrderId.None?
    ensures ValidOrder(o) <==> ValidItems(items) && ValidAddress(address) && paymentMethod in PaymentMethods
  {
    Order(userId, items, totalAmount, address, "Pending", "Pending", paymentMethod, couponId, None, None, now)
  }

  /** An e-mail the hooks hand to the mail service. */
  datatype Notification = Notification(email: string, orderId: Id, amount: real, status: string)

  /** The pair of save hooks: `pre('save')` remembers whether the document was new,
      `post('save')` mails "Placed" only then, and only to an owner who exists
      and has an e-mail. */
  function PlacedNotification(wasNew: bool, id: Id, o: Order, users: map<Id, User>): (r: Option<Notification>)
    ensures r.Some? <==> wasNew && o.userId in users && users[o.userId].email != ""
    ensures r.Some? ==>
      && r.value.status == "Placed" && r.value.orderId == id
      && r.value.email == users[o.userId].email && r.value.amount == o.totalAmount
  {
    if wasNew && o.userId in users && users[o.userId].email != "" then
      Some(Notification(users[o.userId].email, id, o.totalAmount, "Placed"))
    else None
  }

  /** The update a `findOneAndUpdate` carries: a top-level `orderStatus` and one under `$set`. */
  datatype StatusUpdate = StatusUpdate(top: Option<string>, underSet: Option<string>)

  /** `update.orderStatus || update.$set?.orderStatus`; the empty string means none. */
  function RequestedStatus(u: StatusUpdate): (s: string)
    ensures OrEmpty(u.top) != "" ==> s == OrEmpty(u.top)
    ensures OrEmpty(u.top) == "" ==> s == OrEmpty(u.underSet)
  {
    if OrEmpty(u.top) != "" then OrEmpty(u.top) else OrEmpty(u.underSet)
  }

  /** The pair of findOneAndUpdate hooks: the pre hook captures the matched order
      when the update names a status different from the stored one, the post hook
      mails the new status to the owner. */
  function StatusNotification(u: StatusUpdate, matched: Option<(Id, Order)>, users: map<Id, User>)
    : (r: Option<Notification>)
    ensures r.Some? <==>
      && RequestedStatus(u) != ""
      && matched.Some? && matched.value.1.orderStatus != RequestedStatus(u)
      && matched.value.1.userId in users && users[matched.value.1.userId].email != ""
    ensures r.Some? ==>
      && r.value.status == RequestedStatus(u) && r.value.orderId == matched.value.0
      && r.value.amount == matched.value.1.totalAmount
  {
    var s := RequestedStatus(u);
    if s == "" || matched.None? || matched.value.1.orderStatus == s then None
    else
      var (id, o) := matched.value;
      if o.userId in users && users[o.userId].email != "" then
        Some(Notification(users[o.userId].email, id, o.totalAmount, s))
      else None
  }

  /** A later save of an existing order never mails, whatever changed. */
  lemma OnlyFirstSaveNotifies(id: Id, o: Order, users: map<Id, User>)
    ensures PlacedNotification(false, id, o, users).None?
  {
  }

  /** An update to the status the order already has mails nothing. */
  lemma SameStatusIsSilent(u: StatusUpdate, id: Id, o: Order, users: map<Id, User>)
    requires RequestedStatus(u) == o.orderStatus
    ensures StatusNotification(u, Some((id, o)), users).None?
  {
  }
}
