# Shop backend: orders, payments, coupons, carts, OTP sign-up and products

This project models the request handlers and Mongoose schemas of an Express
shop backend, and proves what they guarantee. The backend takes orders that
are paid by cash on delivery or through a Razorpay gateway order. It applies
percentage coupons, keeps one cart per user, gates e-mail sign-up behind an
SMS one-time password, and lets an administrator manage products, coupons
and the status of orders.

The model works as follows:

- **Database.** Every MongoDB collection becomes a map field of one class,
  `Store.Database`. Its collections are the live orders, coupons,
  transactions, order history, carts (keyed by user), products, users and OTP
  entries. The class also holds an `outbox` of the mails the order hooks
  send, and the id allocator that stands in for ObjectIds.
- **Schema checks.** The schema rules (enums, required paths, `min`, unique
  indexes, setters) are predicates checked on every write. A write that breaks
  one fails with `ValidationError` or `DuplicateKey`, as Mongoose's `save`
  and `create` do.
- **Handlers.** Each handler is a method on the database: for example
  `OrderController.CreateOrder` or `CartController.UpdateCart`. Its
  `modifies` clause names exactly the collections it may write. Its
  postcondition says that the reply and the new collections are what a
  specification function of the old state gives (`CreateOrderOn`, `UpdateOn`,
  …). Lemmas about these functions state the properties the backend promises.
- **Schema conflicts.** The conflicts below between the schemas and the
  handlers show up as proved behaviour, not as assumptions:
  - A coupon with `usageLimit` 1 can never be reserved, because the schema's
    `min: 1` rejects the decremented save.
  - The transaction schema spells the online method `'Online'` while the
    order schema spells it `'ONLINE'`. So an order placed with method
    `'ONLINE'` is marked paid but never gets its transaction.
  - An order whose address has no phone is never archived, because the history
    schema requires a phone.
  - The gateway-id index is unique and sparse, yet the path defaults to
    `null`, which a sparse index still indexes. So while one order without a
    gateway id is stored (any cash-on-delivery order), every further order
    creation fails with a duplicate key.
  - The send handler writes OTP entries without the schema's required `otp`,
    `purpose` and `expiresAt`. So verifying a code for such an entry always
    fails when the entry is saved, and answers 500.
  - Payment confirmation writes a history record and leaves the order live.
    Delivering that order later writes a second one, and `originalOrderId`
    has no unique index, so a paid order that is delivered has two history
    records.
- **Pure utilities.** The phone normalisers of the SMS providers and the
  string operations they rely on are pure functions, with their validity,
  shape and idempotence proved.
- **External inputs.** The payment gateway, the SMS provider's verdict, the
  signature check, bcrypt, JWT issuing and image hosting are all parameters
  of the handlers.

Modules follow the repository's layout:

- `Common` and `Text` hold shared vocabulary and the JavaScript string
  operations.
- `Accounts` models the user schema.
- `Fast2Sms` and `Twilio` model `utils/`.
- One module per schema: `OrderModel`, `CouponModel`, `TransactionModel`,
  `HistoryModel`, `CartModel` and `ProductModel`.
- `Store` holds the database class.
- One module per controller.
- `OrderLifecycle` holds the properties that span the order handlers.

## Model

| member | source | states |
|---|---|---|
| Text.DigitsOnly | utils/fast2sms.util.js:8 | the result has only digits, is no longer than the input and is the input itself when that is all digits |
| Text.DigitsOnlyKeepsDigits | utils/fast2sms.util.js:8 | every digit occurs in the result exactly as often as in the input |
| Text.DigitsOnlyAppend | utils/fast2sms.util.js:8 | stripping non-digits distributes over concatenation |
| Text.RemoveSpaces | utils/twilio.js:12 | the result has no whitespace, is no longer than the input and equals an input without whitespace |
| Text.RemoveSpacesKeepsOthers | utils/twilio.js:12 | every non-whitespace character occurs in the result exactly as often as in the input |
| Text.RemoveSpacesAppend | utils/twilio.js:12 | whitespace removal distributes over concatenation |
| Text.StartOfText | models/product.model.js:5-10 | the first position from which the text no longer starts with whitespace: everything skipped is whitespace and the character there is not |
| Text.EndOfText | models/product.model.js:5-10 | the end of the text without its trailing whitespace: everything cut off is whitespace and the last character kept is not |
| Text.Trim | models/product.model.js:5-10 | the result starts and ends with non-whitespace or is empty, and is the input with a whitespace-only prefix and suffix cut off |
| Text.TrimEmptyIffBlank | models/product.model.js:5-10 | `trim()` gives "" exactly for all-whitespace strings |
| Text.TrimShape | models/product.model.js:5-10 | the trimmed string is trimmed and is the slice `s[i..j]` of the input whose cut-off ends `s[..i]` and `s[j..]` are whitespace only |
| Text.TrimFixedIffTrimmed | models/product.model.js:5-10 | `trim()` leaves a string unchanged exactly when it has no surrounding whitespace |
| Text.TrimIdempotent | models/product.model.js:5-10 | trimming twice is trimming once |
| Text.Upper | models/coupon.model.js:4-10 | `toUpperCase` restricted to ASCII letters: keeps the length and maps every character by the ASCII upper-case rule |
| Text.Lower | controllers/user.controller.js:30 | `toLowerCase` restricted to ASCII letters: keeps the length and maps every character by the ASCII lower-case rule |
| Text.BeforeFirst | controllers/product.controller.js:193 | `split(".")[0]`: a prefix with no separator, followed in the input by the separator unless it is the whole input |
| Text.AfterLast | controllers/product.controller.js:193 | `split("/").pop()`: a suffix with no separator, preceded in the input by the separator unless it is the whole input |
| Text.BeforeFirstOfPrefix | controllers/product.controller.js:193 | the text before the first separator of `a + sep + b` is `a` when `a` has no separator |
| Text.AfterLastOfSuffix | controllers/product.controller.js:193 | the text after the last separator of `a + sep + b` is `b` when `b` has no separator |
| Accounts.NormaliseEmail | controllers/user.controller.js:30 | the normalised address is trimmed and has no upper-case ASCII letter |
| Accounts.NormaliseEmailIdempotent | models/user.model.js:14-21 | normalising a normalised address changes nothing, so the schema's `lowercase`/`trim` setters keep what the controller stores |
| Accounts.UserSetters | models/user.model.js:7-21 | the setters trim the name and normalise the e-mail, and change no other path |
| Accounts.TokenInBody | controllers/user.controller.js:80 | the token is in the body exactly outside production, and it is the issued token |
| Fast2Sms.FormatIndianPhone | utils/fast2sms.util.js:5-23 | an accepted number is exactly 10 digits; the "required" error is raised exactly for a missing or empty phone |
| Fast2Sms.FormatIndianPhoneAccepts | utils/fast2sms.util.js:8-22 | a phone is accepted iff it is given and its digits are 10 digits, 12 digits starting with 91, or 11 starting with 0, and the result is the last 10 of those digits |
| Fast2Sms.FormatIndianPhoneIgnoresSeparators | utils/fast2sms.util.js:8 | two phones with the same digits format alike |
| Fast2Sms.FormatIndianPhoneIdempotent | utils/fast2sms.util.js:8-22 | formatting an accepted result returns it unchanged |
| Fast2Sms.FormatIndianPhoneTrunkExample | utils/fast2sms.util.js:14-16 | an 11-digit number with a leading 0 loses the 0 |
| Fast2Sms.FormatIndianPhoneShortExample | utils/fast2sms.util.js:18-20 | a 5-digit number is rejected as invalid |
| Fast2Sms.GetPhoneVariants | utils/fast2sms.util.js:26-30 | succeeds exactly when formatting does, with the same error otherwise; `local` is the formatted number and `e164` is "+91" followed by it (13 characters) |
| Fast2Sms.SendOtpSms | utils/fast2sms.util.js:33-45 | rejects exactly the phones formatting rejects, with the same error; on success reports the normalised local number |
| Fast2Sms.SendOrderStatusSms | utils/fast2sms.util.js:49-74 | rejects exactly the phones formatting rejects; on success reports the normalised number, the order id and the status |
| Twilio.FormatPhoneNumber | utils/twilio.js:11-17 | the result starts with '+' and has no whitespace; it is the whitespace-free input when that starts with '+', otherwise "+91" prepended to it |
| Twilio.FormatPhoneNumberKeepsCharacters | utils/twilio.js:11-17 | no non-whitespace character is dropped, so nothing is rejected; a character the "+91" prefix cannot add occurs exactly as often as in the input |
| Twilio.FormatPhoneNumberIdempotent | utils/twilio.js:12-16 | formatting twice is formatting once |
| Twilio.FormatPhoneNumberOfDigits | utils/twilio.js:11-17 | a number of digits only never starts with '+', so it is always given the +91 prefix |
| Twilio.FormatPhoneNumberExample | utils/twilio.js:13-15 | a bare 10-digit number gets the +91 prefix |
| Twilio.ProviderTarget | utils/twilio.js:24-42 | the number `sendOtp` sends to and `verifyOtp` checks against is the formatted phone, already in normal form |
| Twilio.TargetsAgreeOnNormalisedInput | utils/twilio.js:24-42 | the controllers' extra normalisation before sending or verifying changes nothing |
| OrderModel.NewOrder | models/order.model.js:4-59 | a new order is Pending in both statuses with no transaction and no gateway id, and meets the schema iff its items, address and payment method do |
| OrderModel.PlacedNotification | models/order.model.js:69-92 | the post-save hook mails a "Placed" notice exactly for a new document whose user has an e-mail, with the order's id and amount |
| OrderModel.RequestedStatus | models/order.model.js:95-98 | the status the update asks for is the top-level one when given, else the one under `$set` |
| OrderModel.StatusNotification | models/order.model.js:95-132 | the update hooks mail exactly when a status is requested, an order matched, its status changes and its user has an e-mail; the mail carries the new status, order id and amount |
| OrderModel.OnlyFirstSaveNotifies | models/order.model.js:69-76 | re-saving a stored order sends nothing |
| OrderModel.SameStatusIsSilent | models/order.model.js:98-120 | an update to the status the order already has sends nothing |
| CouponModel.NormaliseCodeShape | models/coupon.model.js:4-10 | a normalised code is upper-case and trimmed, and such codes are their own normal form |
| CouponModel.NormalFormUpperCased | models/coupon.model.js:4-10 | trimming an upper-cased code keeps it upper-case |
| CouponModel.UpperOfUpperCased | models/coupon.model.js:8 | upper-casing an upper-case string changes nothing |
| CouponModel.NormaliseCodeIdempotent | models/coupon.model.js:4-10 | the setters applied twice equal the setters applied once |
| CouponModel.NormalisedEmptyIffBlank | models/coupon.model.js:4-10 | a code normalises to "" exactly when it is all whitespace |
| CouponModel.ReservationNeedsTwoUses | models/coupon.model.js:30-34 | a valid coupon with its usageLimit lowered by one is still valid iff the limit was at least 2 |
| TransactionModel.MethodEnumsDiffer | models/transaction.model.js:52-56 | of the order's payment methods, exactly 'ONLINE' is not a transaction payment method |
| HistoryModel.Snapshot | models/orderhistory.model.js:5-69 | the history record copies every order field, with originalOrderId the order's id |
| HistoryModel.SnapshotValidIffPhone | models/orderhistory.model.js:33-41 | the snapshot of a valid order meets the history schema iff the order's address has a phone |
| CartModel.TotalAppend | models/cart.model.js:37-40 | the cart total is additive over concatenation |
| CartModel.TotalUpdate | controllers/cart.controller.js:143 | replacing one line changes the total by the difference of the two subtotals |
| CartModel.TotalRemove | controllers/cart.controller.js:116-118 | splicing out one line lowers the total by its subtotal |
| CartModel.IndexOf | controllers/cart.controller.js:44-46 | `findIndex`: the first line with the product, or -1 exactly when no line has it |
| CartModel.AddOne | controllers/cart.controller.js:43-70 | a product already in the cart has its line's quantity raised by one; otherwise the new line is appended |
| CartModel.AddOneKeepsDistinct | controllers/cart.controller.js:44-58 | adding keeps at most one line per product, grows the list by at most one and puts the product in the cart |
| CartModel.AddOneTotal | controllers/cart.controller.js:43-75 | adding one unit raises the total by the matched line's price or by the new line's price |
| CartModel.RemoveKeepsDistinct | controllers/cart.controller.js:116-118 | splicing out a line keeps products distinct |
| CartModel.UpdateKeepsDistinct | controllers/cart.controller.js:121-131 | rewriting a line for the same product keeps products distinct |
| ProductModel.Create | controllers/product.controller.js:49-55 | a product is made iff desc and price are given; it has the trimmed name and desc, the uploaded photos in order, and quantity defaulting to 'instock' |
| ProductModel.PublicId | controllers/product.controller.js:193 | the public id has no '/' and no '.' |
| ProductModel.PublicIdOfImageUrl | controllers/product.controller.js:193 | the public id of `prefix/id.ext` is `id` |
| Store.Sent | models/order.model.js:74-92 | a hook sends at most one mail: the notice when there is one, nothing otherwise |
| Store.WithSetters | models/coupon.model.js:4-10 | the coupon as stored: the code normalised, every other path unchanged |
| Store.RazorpayIdClashIgnoresSelf | models/order.model.js:59 | whether a gateway id clashes with another order does not depend on the order's own stored value |
| Store.InsertKeepsCodesUnique | models/coupon.model.js:4-10 | inserting a valid coupon with an unused code under a fresh id keeps codes unique and every coupon valid |
| Store.InsertKeepsRazorpayIdsApart | models/order.model.js:59 | inserting an order whose gateway id (or `null`) no other order holds keeps the unique index on `razorpayOrderId` satisfied |
| Store.UpsertPending | controllers/otp.controller.js:52-56 | the upsert resets the phone's entry to pending, or adds one holding only the phone and the pending status under a fresh id when the phone has none |
| Store.UpsertKeepsPhonesUnique | controllers/otp.controller.js:52-56 | the upsert keeps one entry per phone and every id below the allocator |
| Store.Database.constructor | models/order.model.js:4-59 | an empty database whose invariant holds |
| Store.Database.InsertOrder | models/order.model.js:4-92 | `Order.create`: a validation error exactly for an invalid order, a duplicate-key error exactly when another order holds the same gateway id, `null` included; on success the order is stored under a fresh id and the placed notice is queued |
| Store.Database.SaveOrder | models/order.model.js:4-59 | `order.save()`: the same two errors; on success the stored order is replaced; a valid order that keeps its gateway id always saves |
| Store.Database.DeleteOrder | controllers/adminorder.controller.js:84 | removes exactly that order |
| Store.Database.FindOrderByRazorpayId | controllers/order.controller.js:157-158 | finds the one order with that gateway id, or reports that none has it |
| Store.Database.InsertCoupon | models/coupon.model.js:4-39 | `Coupon.create`: a validation error exactly for an invalid coupon, a duplicate-key error exactly for a taken code; on success stored under a fresh id |
| Store.Database.SaveCoupon | models/coupon.model.js:30-34 | `coupon.save()`: fails with a validation error exactly for an invalid coupon, otherwise replaces it |
| Store.Database.SetCouponStatus | controllers/coupon.controller.js:52-56 | `findByIdAndUpdate` of the status: found iff the id is stored, and then only the status changes |
| Store.Database.DeleteCoupon | controllers/coupon.controller.js:80-84 | `findByIdAndDelete`: found iff the id was stored; afterwards it is gone |
| Store.Database.FindActiveCoupon | controllers/order.controller.js:19-21 | finds an active coupon with the normalised code, or reports that none is active |
| Store.Database.FindCouponByCode | controllers/coupon.controller.js:15-18 | finds a coupon with the normalised code, or reports that none has it |
| Store.Database.InsertTransaction | models/transaction.model.js:3-69 | `TransactionModel.create`: a validation error exactly for an invalid record, a duplicate-key error exactly for a taken transactionId; on success stored under a fresh id |
| Store.Database.InsertHistory | models/orderhistory.model.js:5-69 | `OrderHistory.create`: fails exactly for an invalid record, otherwise stored under a fresh id |
| Store.Database.SaveCart | models/cart.model.js:3-45 | `cart.save()`: fails exactly for an invalid cart, otherwise stores it under its user |
| Store.Database.DeleteCart | controllers/cart.controller.js:134-141 | removes the user's cart, if any |
| Store.Database.InsertProduct | models/product.model.js:5-46 | `Product.create`: a validation error exactly for an invalid product, a duplicate-key error exactly for a taken name; on success stored under a fresh id |
| Store.Database.SaveProduct | controllers/product.controller.js:159 | `product.save()`: the same two errors; on success the product is replaced |
| Store.Database.DeleteProduct | controllers/product.controller.js:197 | removes exactly that product |
| Store.Database.FindProductByName | controllers/product.controller.js:22 | finds a product with that name, or reports that none has it |
| Store.Database.InsertUser | models/user.model.js:7-33 | `User.create`: a validation error exactly for an invalid user, a duplicate-key error exactly for a taken address; on success stored under a fresh id |
| Store.Database.FindUserByEmail | controllers/user.controller.js:47-53 | finds a user with that address, or reports that none has it |
| Store.Database.FindUserByPhone | controllers/otp.controller.js:34 | finds a user with that phone, or reports that none has it |
| Store.Database.UpsertPendingOtp | controllers/otp.controller.js:52-56 | the OTP entries and allocator become what `UpsertPending` gives |
| Store.Database.FindOtpByPhone | controllers/otp.controller.js:135-141 | finds the phone's entry, or reports that it has none |
| Store.Database.FindVerifiedSignupOtp | controllers/user.controller.js:33-44 | finds a verified sign-up entry for the address, or reports that none exists |
| Store.Database.SaveOtp | controllers/otp.controller.js:143-146 | `otpEntry.save()`: a validation error exactly when the entry lacks a required path or breaks an enum of the OTP schema, with nothing written; otherwise the entry is replaced |
| Store.Database.DeleteOtp | controllers/user.controller.js:64 | removes exactly that entry |
| Store.ValidDatabaseBook | models/order.model.js:57-59 | the order-side collections of a valid database satisfy the order book invariant the lifecycle lemmas assume |
| OrderController.ToOrderItems | models/order.model.js:6-11 | each stored line keeps the request line's product, name, price and quantity, in order |
| OrderController.FirstOutOfStock | controllers/order.controller.js:57-60 | the index of the first out-of-stock line, or the length when there is none |
| OrderController.Precheck | controllers/order.controller.js:53-60 | the request passes exactly when it has items and none is out of stock; an empty list gives "Cart is empty" |
| OrderController.ItemsTotalAppend | controllers/order.controller.js:63 | the pre-discount total is additive over concatenation |
| OrderController.ItemsTotalNonNegative | controllers/order.controller.js:63 | prices and quantities that are not negative give a total that is not negative |
| OrderController.CouponRefusal | controllers/order.controller.js:23-27 | a coupon is refused iff the total is outside [minPurchase, maxPurchase] or the usage limit is spent, with the range message for the former |
| OrderController.UsageLimitRefusalUnreachable | models/coupon.model.js:30-34 | a stored coupon never gets the "usage limit reached" refusal, since the schema keeps usageLimit at least 1 |
| OrderController.DiscountedBounds | controllers/order.controller.js:80 | a 0-100% discount gives an amount between 0 and the total: the total at 0%, nothing at 100% |
| OrderController.Lookup | controllers/order.controller.js:68-69 | some active coupon with the normalised code, or none exactly when there is none |
| OrderController.LookupFinds | controllers/order.controller.js:68-69 | codes are unique, so the lookup yields the one matching coupon |
| OrderController.Quote | controllers/order.controller.js:66-85 | no code keeps the total and no coupon; an unknown code and a refused coupon give their messages; an accepted coupon gives the discounted total and that coupon's id |
| OrderController.QuoteWithinTotal | controllers/order.controller.js:80 | a quoted total lies between 0 and the pre-discount total |
| OrderController.Reserve | controllers/order.controller.js:83-84 | only that coupon's usageLimit changes, by exactly one |
| OrderController.Document | controllers/order.controller.js:88-103 | the created order has the request's lines, address, method, the quoted total and coupon, both statuses Pending, and no transaction or gateway id |
| OrderController.VerifyCoupon | controllers/order.controller.js:12-42 | a missing code gives 400; no active coupon gives "Invalid coupon"; otherwise the refusal message or the coupon's code, percentage and range; nothing is written |
| OrderController.FindOutOfStock | controllers/order.controller.js:57-60 | the loop finds the first out-of-stock line |
| OrderController.PriceAndReserve | controllers/order.controller.js:63-85 | the outcome and the coupons are what `PriceOn` gives |
| OrderController.TakeCouponUse | controllers/order.controller.js:83-84 | the reservation save fails with a 500 and leaves the coupons alone exactly when one use fewer breaks the schema, and otherwise takes exactly one use of that coupon |
| OrderController.LinkGatewayOrder | controllers/order.controller.js:105-137 | the reply, the timer and the orders are what `LinkOn` gives |
| OrderController.PlaceOrder | controllers/order.controller.js:88-140 | the reply, the timer and the order-side state are what `PlaceOn` gives |
| OrderController.CreateOrder | controllers/order.controller.js:47-145 | the reply, the expiry timer and the new orders, coupons and outbox are what `CreateOrderOn` gives |
| OrderController.ExpireUnpaidOrder | controllers/order.controller.js:119-137 | the order-side state becomes what `ExpireOn` gives |
| OrderController.PaymentRecord | controllers/order.controller.js:167-175 | the transaction carries the order's id, user, lines, amount and method, status 'Success' and the payment id |
| OrderController.PaymentRecordValid | models/transaction.model.js:52-69 | that transaction meets its schema iff the order's method is not 'ONLINE' and the payment id is given |
| OrderController.RecordPayment | controllers/order.controller.js:167-194 | the result and the state are what `RecordOn` gives |
| OrderController.ArchivePayment | controllers/order.controller.js:183-194 | the order-history copy is written under the next id exactly when the schema accepts it, and nothing else changes |
| OrderController.ConfirmPayment | controllers/order.controller.js:157-194 | the confirmation and the state are what `ConfirmOn` gives |
| OrderController.RazorpayWebhook | controllers/order.controller.js:150-201 | a bad signature gives 400 and writes nothing; otherwise the state is `ConfirmOn`'s, and the reply is 404, "already processed", "Payment verified" with the transaction, or 500 |
| OrderController.VerifyPayment | controllers/order.controller.js:282-342 | a missing id gives 400 and a bad signature gives 400, both writing nothing; otherwise the state is `ConfirmOn`'s, and the reply is 404, "already verified" with the order, success with the order and the transaction, or 500 |
| OrderLifecycle.PrecheckFailureWritesNothing | controllers/order.controller.js:53-60 | an empty or out-of-stock request is refused with 400 before any write |
| OrderLifecycle.CouponRefusalWritesNothing | controllers/order.controller.js:66-79 | a missing, inactive, out-of-range or spent coupon refuses the order, schedules nothing and writes nothing |
| OrderLifecycle.SingleUseCouponIsRefused | controllers/order.controller.js:83-84 | an applicable coupon with usageLimit 1 makes the order fail with 500 and nothing written |
| OrderLifecycle.AppliedCouponReservesOneUse | controllers/order.controller.js:80-102 | an applicable coupon with usageLimit of at least 2 loses one use; the created order names it and costs the discounted total |
| OrderLifecycle.NoCodeNoCoupon | controllers/order.controller.js:66-102 | without a code no coupon changes, and the order has no couponId and the undiscounted total |
| OrderLifecycle.PlacedOrderStored | controllers/order.controller.js:88-116 | the placed order is stored under the fresh id with the gateway id the reply reports |
| OrderLifecycle.UnlinkedOrderBlocksCreation | models/order.model.js:59 | while an order without a gateway id is stored, createOrder creates no order; one that reaches the insert answers 500 and keeps the coupon use it reserved |
| OrderLifecycle.CodOrderBlocksNextCreation | controllers/order.controller.js:88-105 | after a cash-on-delivery order is placed, the next createOrder creates no order |
| OrderLifecycle.GatewayOnlyForOnlineOrders | controllers/order.controller.js:105-119 | a COD order gets no gateway id and no timer; any other order asks the gateway for totalAmount × 100 in INR with the order id as receipt, stores the id returned and gets a timer |
| OrderLifecycle.ExpiryOfSettledOrderIsNoOp | controllers/order.controller.js:121-133 | the callback changes nothing when the order is gone or no longer Pending |
| OrderLifecycle.PricingShape | controllers/order.controller.js:63-85 | successful pricing writes no order; without a code it writes nothing; with one it reserves exactly the found coupon |
| OrderLifecycle.PlacementShape | controllers/order.controller.js:88-119 | a scheduled timer names the new order and its coupon; that order is Pending and the only order added |
| OrderLifecycle.ExpiryUndoesCreation | controllers/order.controller.js:47-137 | running the callback an online order scheduled brings the orders and the coupons back to what they were before createOrder |
| OrderLifecycle.ExpiryReturnsReservedUse | controllers/order.controller.js:121-133 | the callback for a pending order deletes it and gives the reserved use back to its coupon |
| OrderLifecycle.ConfirmUnknownOrderIsNoOp | controllers/order.controller.js:157-158 | an unknown gateway id is "not found" and nothing changes |
| OrderLifecycle.ConfirmActsOn | controllers/order.controller.js:157-164 | a confirmation finds the order with the gateway id; a Paid one is reported and left alone; otherwise it is marked Paid before anything is recorded |
| OrderLifecycle.FirstConfirmationRecordsOnce | controllers/order.controller.js:160-194 | a first confirmation adds exactly one transaction (payment id, order total) and one history record for the order, links the transaction, keeps the order live and leaves coupons alone |
| OrderLifecycle.RecordingKeepsOrderPaid | controllers/order.controller.js:163-178 | whatever recording does, the order stays Paid, keeps its gateway id, and no other order changes |
| OrderLifecycle.ConfirmPaidIsNoOp | controllers/order.controller.js:160-161 | a repeat on a Paid order reports "already paid" and writes nothing |
| OrderLifecycle.SecondConfirmationIsNoOp | controllers/order.controller.js:160-194 | after the first confirmation of an unpaid order, the next one for its gateway id answers "already paid" and writes nothing |
| OrderLifecycle.ConfirmIsIdempotent | controllers/order.controller.js:160-194 | after any confirmation that found the order, the next one for the same gateway id writes nothing |
| OrderLifecycle.OnlinePaymentIsNeverRecorded | models/transaction.model.js:52-56 | confirming an order placed with method 'ONLINE' marks it Paid and then fails, with no transaction and no history |
| OrderLifecycle.PaidThenDeliveredArchivedTwice | controllers/adminorder.controller.js:73-84 | a first payment confirmation followed by a "Delivered" update answers Ok, removes the order and leaves two distinct history records with its id |
| OrderLifecycle.OrderWithoutPhoneIsNotArchived | models/orderhistory.model.js:33-41 | confirming an order whose address has no phone fails without a history record |
| AdminOrderController.CleanOrder | controllers/adminorder.controller.js:9-30 | the view keeps every order field except transactionId and couponId; it has a coupon summary iff the referenced coupon exists; customer name and phone come from the address |
| AdminOrderController.NewestExists | controllers/adminorder.controller.js:37 | every non-empty set of orders has a newest one |
| AdminOrderController.SortNewestFirst | controllers/adminorder.controller.js:37 | the ids of all live orders, each once, by createdAt descending |
| AdminOrderController.GetPendingOrders | controllers/adminorder.controller.js:35-50 | one cleaned view per live order, each once, newest first |
| AdminOrderController.CleanedInOrder | controllers/adminorder.controller.js:35-50 | views built one per id of a newest-first listing are exactly the cleaned live orders, each once, newest first |
| AdminOrderController.WithStatus | controllers/adminorder.controller.js:65-70 | the new status is set; paymentStatus becomes Paid exactly for a COD order set to Delivered; nothing else changes |
| AdminOrderController.UpdateOrderStatus | controllers/adminorder.controller.js:55-109 | the reply and the order-side state are what `UpdateStatusOn` gives |
| AdminOrderController.MoveToHistory | controllers/adminorder.controller.js:73-84 | a terminal status archives the order under the next id and deletes the live one exactly when the snapshot is valid; otherwise nothing changes |
| AdminOrderController.UnknownOrderIsNotFound | controllers/adminorder.controller.js:60-62 | an unknown id gives 404 and nothing changes |
| AdminOrderController.UpdateTouchesOnlyOrdersAndHistory | controllers/adminorder.controller.js:55-109 | a status update never changes coupons, transactions or the outbox |
| AdminOrderController.PaidOnlyByDeliveredCod | controllers/adminorder.controller.js:67-70 | the written paymentStatus is Paid for COD set to Delivered and the old value otherwise, whether archived or updated in place |
| AdminOrderController.TerminalMovesToHistory | controllers/adminorder.controller.js:73-89 | Delivered or Cancelled archives the order with the new status and originalOrderId, then deletes the live order; exactly when the address has no phone it fails with 500 and writes nothing |
| AdminOrderController.OtherStatusUpdatesInPlace | controllers/adminorder.controller.js:92-100 | any other status is saved in place, the cleaned order is returned, and no history is written |
| AdminOrderController.ArchivedAtMostOnce | controllers/adminorder.controller.js:60-84 | after a terminal update succeeds, any further update of that id is 404 and writes nothing; this bounds only the status handler, since the payment handler may already have archived the order once (see `OrderLifecycle.PaidThenDeliveredArchivedTwice`) |
| CartController.EmptyCart | controllers/cart.controller.js:134-141 | the empty shape: the user, no lines, total 0 |
| CartController.CartView | controllers/cart.controller.js:175-193 | the stored cart, or the empty shape when there is none |
| CartController.NewLine | controllers/cart.controller.js:39-69 | the appended line has quantity 1 and the product's price, name and first photo |
| CartController.SaveOn | controllers/cart.controller.js:72-77 | the cart is saved with the total recomputed from its lines exactly when it passes the schema; otherwise 500 and nothing written |
| CartController.AddToCart | controllers/cart.controller.js:5-92 | the reply and the carts are what `AddOn` gives |
| CartController.UpdateCart | controllers/cart.controller.js:96-155 | the reply and the carts are what `UpdateOn` gives |
| CartController.DeleteCart | controllers/cart.controller.js:158-172 | the user's cart is gone and the reply is the empty shape |
| CartController.GetCart | controllers/cart.controller.js:175-193 | the stored cart, or the empty shape without one; nothing is written |
| CartController.AddRefusalWritesNothing | controllers/cart.controller.js:10-37 | a missing or unknown product, one without photos, or one not in stock is refused with nothing written |
| CartController.AddIncrementsOrAppends | controllers/cart.controller.js:43-70 | a product in the cart gets its quantity raised by one with the other lines unchanged; otherwise one line with quantity 1 and the product's price, name and first photo is appended |
| CartController.AddKeepsCartsDistinct | controllers/cart.controller.js:44-58 | every cart keeps at most one line per product |
| CartController.AddRaisesTotalByOneUnit | controllers/cart.controller.js:72-75 | stored totals stay equal to the sum over the lines; a successful add raises the total by the price stored on the product's existing line, or by the catalogue price when the line is new |
| CartController.UpdateRefusalWritesNothing | controllers/cart.controller.js:101-114 | a missing product id, a missing or negative quantity, no cart, or a product not in the cart is refused with nothing written |
| CartController.UpdateToZeroRemovesEntry | controllers/cart.controller.js:116-141 | quantity 0 splices out exactly that line; removing the last one deletes the cart and answers the empty shape |
| CartController.UpdateSetsEntry | controllers/cart.controller.js:121-144 | a positive quantity sets that line's quantity and refreshes its price, and the total moves by the difference |
| CartController.UpdateRefusesOutOfStock | controllers/cart.controller.js:121-131 | a positive quantity for a product not in stock is refused with its name and nothing written |
| CartController.UpdateKeepsInvariants | controllers/cart.controller.js:96-155 | updates keep one line per product and every stored total equal to its lines' sum |
| CartController.DeleteIsIdempotent | controllers/cart.controller.js:158-183 | deleting twice is deleting once, and a deleted cart reads as the empty shape |
| ProductController.OrElse | controllers/product.controller.js:154-157 | `x ?? d`: the default exactly when the value is null or missing, the value otherwise |
| ProductController.Uploads | controllers/product.controller.js:33-44 | one secure URL per file, the k-th being the upload of the k-th file |
| ProductController.UploadAll | controllers/product.controller.js:33-44 | the upload loop pushes exactly the URLs `Uploads` lists, in file order |
| ProductController.AddProduct | controllers/product.controller.js:8-72 | the reply, the products and the next id are what `AddOn` gives |
| ProductController.Insert | controllers/product.controller.js:49-61 | `Product.create` on a free name: the reply and the products are what `Insertion` gives |
| ProductController.UpdateProduct | controllers/product.controller.js:122-174 | the reply and the products are what `UpdateOn` gives |
| ProductController.Save | controllers/product.controller.js:159-172 | `product.save()`: the reply and the products are what `Saving` gives |
| ProductController.DestroyTargets | controllers/product.controller.js:192-195 | one `products/<public id>` per photo, in photo order |
| ProductController.DeleteProduct | controllers/product.controller.js:179-211 | the reply, the products and the destroyed image ids are what `DeleteOn` gives |
| ProductController.AddRefusals | controllers/product.controller.js:15-28 | no image gives 400, a trimmed name already held gives 400, and no refusal writes anything |
| ProductController.AddedProductShape | controllers/product.controller.js:33-61 | an added product has the trimmed name, the uploaded URLs in upload order, 'instock' unless a flag was given, a fresh id, and names stay unique |
| ProductController.InsertKeepsNamesUnique | controllers/product.controller.js:22-28 | storing a product whose name no stored product holds keeps product names unique |
| ProductController.UpdateUnknownIsNotFound | controllers/product.controller.js:126-131 | an unknown id is a 404 and nothing changes |
| ProductController.MergeRule | controllers/product.controller.js:137-157 | each field keeps its stored value exactly when its input is null or missing; old photos are kept and new ones follow them |
| ProductController.UpdateAppendsImages | controllers/product.controller.js:122-165 | a successful update stores the merge with the uploaded images appended and leaves every other product as it was |
| ProductController.DeleteRemovesProductAndImages | controllers/product.controller.js:181-197 | delete succeeds iff the id exists, removes exactly that product and destroys one image per photo by its public id |
| CouponController.OrDefault | controllers/coupon.controller.js:23-24 | `x \|\| d` on a number: the default for a missing value or 0 |
| CouponController.LimitOrOne | controllers/coupon.controller.js:25 | `usageLimit \|\| 1`: 1 for a missing value or 0 |
| CouponController.NewCoupon | controllers/coupon.controller.js:20-27 | the new coupon has the normalised code, the percentage, defaults 0, MAX_SAFE_INTEGER and 1, status active and no uses |
| CouponController.CreatableIffValid | models/coupon.model.js:4-39 | the creation test the handler uses is exactly the coupon schema's verdict |
| CouponController.UpperIdempotent | models/coupon.model.js:8 | upper-casing twice is upper-casing once |
| CouponController.Created | controllers/coupon.controller.js:29-33 | the 201 reply with the coupon, stored under the next id |
| CouponController.CreateCoupon | controllers/coupon.controller.js:7-38 | the reply, coupons and allocator are what `CreateOn` gives |
| CouponController.InsertNew | controllers/coupon.controller.js:20-37 | with the code free, an invalid coupon gives 500 and nothing written, a valid one is created |
| CouponController.UpdateCoupon | controllers/coupon.controller.js:43-71 | the reply and the coupons are what `UpdateOn` gives |
| CouponController.DeleteCoupon | controllers/coupon.controller.js:76-94 | the reply and the coupons are what `DeleteOn` gives |
| CouponController.CreatedCouponShape | controllers/coupon.controller.js:20-33 | a refusal writes nothing; a created coupon is stored under a fresh id with an upper-cased code, the defaults, status active and no uses |
| CouponController.CreateRequiresCodeAndPercentage | controllers/coupon.controller.js:11-13 | a missing code or percentage is refused with 400 and nothing written |
| CouponController.CreateKeepsCodesUnique | controllers/coupon.controller.js:15-21 | creation keeps codes unique |
| CouponController.TakenCodeIsDuplicate | controllers/coupon.controller.js:15-18 | a code whose normal form is stored is refused as a duplicate |
| CouponController.SecondSpellingIsDuplicate | controllers/coupon.controller.js:15-21 | after a creation, any code with the same normal form is refused |
| CouponController.CaseDoesNotMatter | controllers/coupon.controller.js:15-16 | codes that upper-case alike normalise alike |
| CouponController.UpdateChangesOnlyStatus | controllers/coupon.controller.js:48-60 | the update succeeds iff the status is active/inactive and the id exists, changes only that coupon's status, and a refusal writes nothing |
| CouponController.DeleteThenNotFound | controllers/coupon.controller.js:58-84 | delete succeeds iff the id exists; afterwards update and delete of that id are 404 |
| OtpController.SendOtp | controllers/otp.controller.js:21-71 | the reply, entries and allocator are what `SendOn` gives |
| OtpController.ResendOtp | controllers/otp.controller.js:76-109 | the reply, entries and allocator are what `ResendOn` gives |
| OtpController.VerifyOtp | controllers/otp.controller.js:114-195 | for the user the phone lookup returns, the reply and entries are what `VerifyOn` gives, including the 500 when the schema refuses the marked entry |
| OtpController.Approve | controllers/otp.controller.js:143-194 | when the schema refuses the marked entry, the save throws: 500 and nothing written; otherwise the entry is marked verified and, for some user the phone lookup may return, the reply is the answer for an approved code |
| OtpController.SendPurposeRules | controllers/otp.controller.js:16-50 | a send succeeds iff a phone is given, the purpose is valid, the provider sent, and the purpose is signup exactly when no user has the phone; refusals write nothing |
| OtpController.SentCodeIsPending | controllers/otp.controller.js:52-56 | after a send the phone has a pending entry, one per phone, and other phones' entries are untouched |
| OtpController.ResendIgnoresPurposeAndUsers | controllers/otp.controller.js:80-95 | a resend succeeds iff a phone is given, and writes what a successful send would |
| OtpController.UnapprovedVerifyWritesNothing | controllers/otp.controller.js:118-133 | a missing phone or code, an invalid purpose or a verdict other than approved is refused with nothing written |
| OtpController.ApprovedVerifyMarksEntry | controllers/otp.controller.js:135-146 | on approval a phone without an entry gets 404; an entry the schema accepts once marked becomes verified; one it refuses gets 500 and stays as it was |
| OtpController.VerifyOnApproved | controllers/otp.controller.js:135-194 | with the checks passed and a single entry for the phone, verification marks that entry and gives the approved answer when the schema accepts it, and answers 500 with nothing written when it does not |
| OtpController.VerifyIssuesTokenOnlyForKnownUser | controllers/otp.controller.js:149-186 | signup succeeds without a token; login and forgot succeed only for a user, with that user's name and role and the token in the body exactly outside production |
| OtpController.OtpHandlersKeepCodeless | controllers/otp.controller.js:52-56 | send, resend and verify never write an `otp` code into an entry |
| OtpController.CodelessVerifyFails | controllers/otp.controller.js:135-146 | on entries without a code, verify never succeeds and writes nothing; an approved code whose entry exists gets 500 |
| OtpController.SentThenApprovedFails | controllers/otp.controller.js:52-146 | after a send, an approved verify finds the entry but its save is refused: 500, entries as the send left them |
| OtpController.OtpHandlersWriteNoEmail | controllers/otp.controller.js:52-146 | the OTP handlers never write an e-mail into an entry |
| OtpController.UpsertKeepsNoEmails | controllers/otp.controller.js:52-56 | the pending-entry upsert writes no e-mail address |
| OtpController.VerifyKeepsNoEmails | controllers/otp.controller.js:143-146 | verify writes no e-mail address |
| UserController.NewUser | controllers/user.controller.js:56-61 | the created user has the trimmed name, the normalised address, the password, role 'user' and no phone |
| UserController.Registered | controllers/user.controller.js:56-82 | the 201 reply with the user's name, address, role and token in the body outside production; the user is stored under the next id and the entry is deleted |
| UserController.Signup | controllers/user.controller.js:19-90 | for the entry the OTP lookup returns, the reply, users, entries and allocator are what `SignupOn` gives |
| UserController.Register | controllers/user.controller.js:56-89 | with the address free, an invalid user gives 500 and nothing written, a valid one is registered |
| UserController.Signin | controllers/user.controller.js:95-148 | the reply is what `SigninOn` gives; nothing is written |
| UserController.Logout | controllers/user.controller.js:153-168 | whatever the cookie held, it is cleared and the answer is 200 |
| UserController.SignupGate | controllers/user.controller.js:23-64 | a sign-up succeeds only with all fields, a verified sign-up entry for the normalised address and a free address; it adds one valid user with role 'user' and deletes exactly that entry; a refusal writes nothing |
| UserController.SignupKeepsEmailsUnique | controllers/user.controller.js:47-53 | sign-up keeps addresses unique |
| UserController.TakenEmailIsRefused | controllers/user.controller.js:47-53 | an address a user holds is refused |
| UserController.SecondSignupIsRefused | controllers/user.controller.js:30-53 | after a sign-up, another with the same address in any case or spacing is refused |
| UserController.SignupNeedsEmailEntry | controllers/user.controller.js:33-44 | while no entry carries an e-mail, which is all the OTP handlers write, sign-up is always refused |
| UserController.SigninRefusalsAlike | controllers/user.controller.js:108-122 | an unknown address and a wrong password get the identical answer; success iff the address's user has a matching password |
| UserController.SigninSession | controllers/user.controller.js:128-140 | a successful sign-in answers with a stored user's name, address and role, with the token in the body exactly outside production |
| UserController.SigninIgnoresCaseAndSpaces | controllers/user.controller.js:106 | addresses that normalise alike sign in alike |

## Left out

- Password hashing is left out: bcrypt's comparison (`comparePassword`, models/user.model.js:54-56) is the `matches` input of `UserController.Signin`.
- The schema's hashing hook (models/user.model.js:41-51) is not modelled; the stored password is the plain one.
- JWT issuing is abstract: the token is a handler input.
- Cookies are not modelled. `UserController.Logout` models only the clearing.
- The SMS provider is abstract: whether it sent a code (`sent`) and its verdict (`verdict`) are inputs.
- The Razorpay order-creation call (`gateway`) is an input, and so is the HMAC signature check (`signatureOk`).
- Cloudinary is abstract. `upload` maps a file to its URL and cannot fail. `DeleteProduct` returns the list of public ids passed to `destroy` instead of calling it.
- Mail sending is represented by the `outbox` of queued notifications. The mail transport and its failures are left out.
- SMS texts, and the amount formatting inside them, are left out.
- Console logging is left out.
- The OTP schema (models/otp.model.js) is checked only on `save()` (`ValidOtp`): its required paths and enums. Its `timestamps` are not modelled.
- Queries that filter on a path the schema lacks, `User.findOne({ phone })` and `Otp.findOne({ email, … })`, are modelled under `strictQuery: false` (the default from Mongoose 7), where the filter is applied. The source does not pin a Mongoose version; under `strictQuery: true` the unknown key is dropped and `findOne` returns an arbitrary document.
- The OTP TTL index and the history TTL index (models/orderhistory.model.js:77-80) are left out: documents never expire.
- `setTimeout` scheduling is left out. Only the callback body is modelled (`OrderController.ExpireUnpaidOrder`), and the caller chooses when to run it.
- Timestamps (`createdAt`, `completedAt`) come from a `now` input.
- Concurrency and interleaving between requests are left out; each handler runs to completion alone. This matters for the read-modify-write of the coupon reservation.
- Text.Upper, Text.Lower: case mapping is ASCII-only. JavaScript's `toUpperCase` and `toLowerCase` also map other cased Unicode letters and can change the length ("ß" becomes "SS"). CouponModel.NormaliseCode, Accounts.NormaliseEmail and the lemmas built on them (`CouponController.CaseDoesNotMatter`, `CouponController.SecondSpellingIsDuplicate`, `UserController.SigninIgnoresCaseAndSpaces`) hold for ASCII spellings only.
- NormaliseEmail (`Accounts.NormaliseEmail`): lower-cases ASCII letters only, as above.
- CartModel.IndexOf, CartController.AddOn, CartController.UpdateOn: request product ids are assumed to be in canonical form. The source compares `item.productId.toString()` with the raw request string, so an upper-case spelling of an id that `findById` accepts would push a second line in addToCart and get "Product not in cart" in updateCart.
- Money is modelled as exact reals, not IEEE doubles, so rounding of `total * 100` and of the discount is not captured.
- Integers are unbounded; `Number.MAX_SAFE_INTEGER` appears only as the default `maxPurchase`.
- Cast errors for malformed ObjectIds and for non-numeric bodies are left out. Ids are naturals and bodies are typed.
- Missing request strings are modelled as "" wherever the source only tests truthiness.
- The 500 replies carry fixed stand-ins for `error.message`.
- Which document `findOne` returns when several match is not modelled; the lookup result is a parameter constrained by a predicate.
- UserController.Signup: ensures only that SOME verified sign-up entry for the address is the one consumed, because `findOne` may return any match.
- OtpController.VerifyOtp: ensures only that SOME user with the phone is the one answered for, because `findOne` on users may return any match.
- An admin update without `orderStatus` is modelled with the status "", which the order schema's enum refuses. How Mongoose saves an unset `orderStatus` is not modelled.
- The product `photos` URL pattern (models/product.model.js:21-34) is not checked by `ValidProduct`.
- The cart's `cartItems` list is updated as a sequence value stored back into the cart map, not as an array mutated in place.
- Read-only listing handlers are not part of this model: getUserOrders, getOrderDetails, getOrderHistory, getOrderById, getAllCoupons and the product listing handlers.
- TempOrder is not part of this model.
