/** The transaction schema.  Its item sub-schema matches the order's, but its
    payment-method enum spells the online method 'Online'. */
module TransactionModel {
  import opened Common
  import opened OrderModel

  datatype Transaction = Transaction(
    orderId: Id,
    userId: Id,
    items: seq<OrderItem>,
    amount: real,
    paymentMethod: string,
    paymentStatus: string,
    transactionId: string)

  const TransactionMethods: set<string> := {"UPI", "COD", "Credit Card", "Debit Card", "Net Banking", "Online"}
  const TransactionStatuses: set<string> := {"Pending", "Success", "Failed"}

  /** The schema's validators: a non-empty item list of valid items, a method and
      a status from the enums, and a non-empty payment id. */
  predicate ValidTransaction(t: Transaction) {
    && ValidItems(t.items)
    && t.paymentMethod in TransactionMethods
    && t.paymentStatus in TransactionStatuses
    && t.transactionId != ""
  }

  /** The two enums agree on every order payment method except the online one:
      an order paid 'ONLINE' cannot be recorded as a transaction. */
  lemma MethodEnumsDiffer(m: string)
    requires m in PaymentMethods
    ensures m in TransactionMethods <==> m != "ONLINE"
  {
  }
}
