# Shop backend: route handlers over four collections

This project models the request handlers of a small Express/Mongoose shop
backend that sells physical products and online courses, and it proves
properties of them in Dafny.

- **Store.** The MongoDB collections `orders`, `users`, `courses` and
  `products` are `map<Id, Record>` fields of one `Database.Store` object. The
  mail transport is an `outbox: seq<Email>` that handlers append to.
- **Handlers.** Each route is a method taking the store. It returns a
  `Reply`: either `Ok(code, value)` or `Fail(code, message)`. A route that
  writes says which map entries change and that nothing else does.
- **Validity.** Every writing route keeps `Store.Valid()`:
  - the schema's required fields are present;
  - e-mails are unique (the unique index);
  - every id on a user's `orders` list names a stored order of that user.

The centrepiece is the Razorpay webhook (`PaymentRoutes.Webhook`). It runs
in this order:

1. checks the signature;
2. resolves the target order id from `notes.orderId`, falling back to
   `order_id`;
3. marks the order `paid` and records the payment id, whatever the order's
   prior status;
4. sends one access e-mail per course line item whose course still exists,
   in item order, via the loop `SendAccessEmails`.

What the model describes, section by section:

- **Intent route.** The gateway is called with the order total in paise,
  currency INR, and the order id as receipt.
- **Order routes.** They cover placement, the buyer's order list, the
  owner-or-buyer read check, and the owner's status override. The override
  has no transition table.
- **User routes.** They cover registration with a duplicate-e-mail check,
  login, the forgot/reset token flow with an expiry, profile reads and
  updates, role update and deletion.
- **Course and product routes.** They cover create, read, update and delete.
- **Partial updates.** The update routes all use JavaScript's
  `input || current`. A truthy input replaces the stored value and a falsy
  one keeps it. As a result, a price or stock of 0, or an empty string, can
  never be written through an update.

The model follows the code as written, including where a shop backend
would usually behave otherwise (a payment webhook that tolerates
redelivery, notifications that cannot undo or fail a saved payment):

- **No idempotency guard on the webhook.** A redelivered event re-marks the
  order paid and sends every e-mail again (`PaymentRoutes.Redelivery`).
- **Errors after the save.** An error thrown after the order was saved as
  paid gives 500 while the order stays paid. This covers a mail failure and
  a deleted buyer.
- **Missing requester on placement.** If the requester's user record is
  missing, order placement stores the order and still answers 500.
- **Deleted buyer on read.** If the buyer is deleted, reading an order
  throws for any caller who is not the owner.

## Model

| member | source | states |
|---|---|---|
| OrderModel.ParseStatus | server/model/Order.js:18-22 | the status enum accepts exactly the five status names, and each accepted name maps back to itself |
| OrderModel.StatusRoundTrip | server/model/Order.js:18-22 | every status survives being stored as its name and validated again |
| OrderModel.ParseItemType | server/model/Order.js:9 | the item-type enum accepts exactly "product" and "course" |
| OrderModel.ItemTypeRoundTrip | server/model/Order.js:9 | every item type survives being stored as its name and validated again |
| OrderModel.CastItems | server/model/Order.js:6-14 | the items array passes validation exactly when every item has a non-empty itemId and an itemType in the enum; it then keeps every item in order, with qty defaulting to 1 and no lower bound on qty |
| UserModel.ParseRole | server/models/User.js:7-11 | the role enum accepts exactly "customer" and "owner" |
| UserModel.RoleRoundTrip | server/models/User.js:7-11 | every role survives being stored as its name and validated again |
| Database.Store.constructor | server/models/User.js:3-12 | an empty database satisfies the store invariant: required fields present, unique e-mails, and a user's order references name that user's orders |
| PaymentRoutes.CreateIntent | server/routes/paymentRoutes.js:17-34 | for an unknown or missing order id, the reply is 404 and the gateway is never called; otherwise the gateway receives the total times 100, "INR" and the order id, and its answer becomes 200 with the gateway's id, the key and the amount, or 500 with the gateway's message |
| PaymentRoutes.ResolveOrderId | server/routes/paymentRoutes.js:56 | the target is the notes' order id when it is present and non-empty, and the gateway order id otherwise |
| PaymentRoutes.CourseItems | server/routes/paymentRoutes.js:70 | the filter keeps only course items, each drawn from the order, and drops none of them |
| PaymentRoutes.AccessMessageMentions | server/routes/paymentRoutes.js:76-77 | the access message contains the course title and the group invite link |
| PaymentRoutes.AccessEmail | server/routes/paymentRoutes.js:80-84 | the e-mail goes to the buyer's address with subject "Course Access Link" |
| PaymentRoutes.Webhook | server/routes/paymentRoutes.js:41-95 | on a bad signature, a body without a payment entity, or an unknown target order, the reply is 400, 500 or 404 respectively and the store is unchanged; otherwise only the target order changes, to paid with the entity's payment id whatever its prior status, the outbox grows by exactly the e-mails sent, and the reply is 200, or 500 when sending threw; the store invariant is kept |
| PaymentRoutes.SendAccessEmails | server/routes/paymentRoutes.js:67-94 | the loop appends one access e-mail per course item whose course exists, in item order; it stops with 500 at the first failed send, or at the first existing course when the buyer was deleted |
| PaymentRoutes.Grants | server/routes/paymentRoutes.js:73-75 | the courses an item list grants, in item order, skipping items whose course is not stored; at most one per item (its content is fixed by GrantsOne, GrantsAppend and GrantsSound) |
| PaymentRoutes.Run | server/routes/paymentRoutes.js:73-88 | the e-mail loop as written, item by item with a count of sends; it has no contract of its own and RunAgrees equates it with the run over the granted courses |
| PaymentRoutes.RunAgrees | server/routes/paymentRoutes.js:67-94 | the loop as written, item by item with a count of sends, sends exactly the access e-mails for the stored courses among the items and throws exactly where the declarative run over the granted courses throws |
| PaymentRoutes.RunEmailsCons | server/routes/paymentRoutes.js:73-88 | when the first send succeeds, the run over the granted courses is that e-mail followed by the run over the rest, with the failing send counted one earlier |
| PaymentRoutes.GrantsAppend | server/routes/paymentRoutes.js:73-75 | the courses granted for two item lists in sequence are the grants of the first followed by those of the second |
| PaymentRoutes.GrantsSound | server/routes/paymentRoutes.js:73-75 | every granted course is the stored course of some item in the list |
| PaymentRoutes.CourseItemsAppend | server/routes/paymentRoutes.js:70 | the course filter distributes over concatenation |
| PaymentRoutes.SingleItemGrant | server/routes/paymentRoutes.js:70-75 | an order with one item sends one e-mail when that item is a stored course, and none when it is a product or a missing course |
| PaymentRoutes.SettlementEmails | server/routes/paymentRoutes.js:67-88 | a settlement sends at most one e-mail per item, every e-mail goes to the buyer with the access subject, and each one mentions the title and invite link of a stored course named by a course item of the order |
| PaymentRoutes.NoCourseNoEmail | server/routes/paymentRoutes.js:70-75 | an order whose course items name no stored course sends no e-mail |
| PaymentRoutes.Redelivery | server/routes/paymentRoutes.js:54-91 | delivering the same valid event twice answers 200 both times, leaves the order paid, and sends the same e-mail sequence twice |
| OrderRoutes.PlaceOrder | server/routes/orderRoutes.js:13-40 | missing or empty items give 400 and no change; items or a total the schema rejects give 500 and no change; otherwise exactly one pending order is added for the requester, with the cast items, the total and the payment method (default "razorpay"), and its id is appended to the requester's orders; if the requester's record is gone, the order is still stored but the reply is 500 |
| OrderRoutes.MyOrders | server/routes/orderRoutes.js:47-54 | the reply holds exactly the stored orders whose buyer is the requester, including every order on the requester's list |
| OrderRoutes.MayView | server/routes/orderRoutes.js:81 | the access rule for one order: the owner, or the buyer who placed it; GetOrder answers 200 only when it holds |
| OrderRoutes.GetOrder | server/routes/orderRoutes.js:75-89 | an unknown id gives 404; a 200 reply only ever goes to the owner or to the order's buyer, and any other caller gets 403; a deleted buyer gives 500 for a caller who is not the owner |
| OrderRoutes.UpdateOrderStatus | server/routes/orderRoutes.js:96-108 | an unknown id gives 404 and no change; a truthy status outside the enum gives 500 and no change; otherwise the status is replaced by any valid status, with no transition table, or kept when the input is falsy, and nothing else changes |
| UserRoutes.RegisteredRole | server/routes/userRoutes.js:17-23 | the stored role is the role the client named when the enum accepts the name, a name outside the enum stores none, and "customer" is stored when none is sent |
| UserRoutes.Register | server/routes/userRoutes.js:10-35 | a taken e-mail gives 400 and no new user; a missing name, e-mail or password, or an unknown role, gives 400 and no change; otherwise exactly one user is added with the request's fields, an empty order list and no reset token, and the reply is 201 with its id, name, e-mail and role |
| UserRoutes.Login | server/routes/userRoutes.js:39-58 | the reply is 200 exactly when some user has that e-mail and the password matches, and it then describes that user; otherwise it is 401 |
| UserRoutes.ResetEmail | server/routes/userRoutes.js:75-83 | the reset e-mail goes to the user with subject "Password Reset Request" |
| UserRoutes.ResetEmailLink | server/routes/userRoutes.js:75-76 | the reset e-mail contains the link made of the client URL, "/reset-password/" and the raw token |
| UserRoutes.ForgotPassword | server/routes/userRoutes.js:63-95 | an unknown e-mail gives 404 and no change; otherwise that user alone gets the hashed token and the expiry, and the reset e-mail is queued; if sending fails, the token and expiry are cleared again and the reply is 500 |
| UserRoutes.ResetPassword | server/routes/userRoutes.js:100-124 | with no user holding the hashed token unexpired, the reply is 400 and nothing changes; with such a user but a missing or empty password, the reply is 500 and nothing changes; otherwise one such user gets the new password and loses the token and expiry |
| UserRoutes.ForgotThenReset | server/routes/userRoutes.js:63-124 | a token e-mailed by forgot-password can be redeemed before its expiry |
| UserRoutes.Populate | server/routes/userRoutes.js:133 | populating an order list yields at most one order per reference, and every order it yields is a stored order |
| UserRoutes.PopulateAll | server/routes/userRoutes.js:133 | when every referenced order is stored, population returns all of them, in list order |
| UserRoutes.GetProfile | server/routes/userRoutes.js:131-139 | an unknown caller gives 404; otherwise the reply is 200 with the caller's profile without the password, and all of the caller's orders, each one placed by the caller |
| UserRoutes.GetUser | server/routes/userRoutes.js:190-198 | an unknown id gives 404; otherwise the reply is 200 with the profile without the password and with the populated orders |
| UserRoutes.UpdateProfile | server/routes/userRoutes.js:145-167 | an unknown caller gives 404 and no change; otherwise name, phone and password are replaced only by truthy inputs, e-mail and role never change, and no other record changes |
| UserRoutes.UpdateRole | server/routes/userRoutes.js:205-222 | an unknown id gives 404 and no change; a truthy role outside the enum gives 500 and no change; otherwise the role is replaced, or kept when the input is falsy, and nothing else changes |
| UserRoutes.DeleteUser | server/routes/userRoutes.js:229-239 | an unknown id gives 404 and no change; otherwise exactly that user is removed |
| CourseRoutes.NewCourse | server/routes/courseRoutes.js:33-36 | a created course has exactly the request's title, level, description, price and group link, and passes validation |
| CourseRoutes.MergeCourse | server/routes/courseRoutes.js:50-54 | title, level, description, price and group link are each replaced only by a truthy input, so a 0 price keeps the old price; the creation time is kept and a valid course stays valid |
| CourseRoutes.MergeIdempotent | server/routes/courseRoutes.js:50-54 | repeating an update changes nothing further |
| CourseRoutes.MergeNothing | server/routes/courseRoutes.js:50-54 | an update whose fields are all falsy leaves the course as it was |
| CourseRoutes.PriceNeverZeroed | server/routes/courseRoutes.js:53 | a non-zero price cannot be set to 0 through an update |
| CourseRoutes.GetCourse | server/routes/courseRoutes.js:20-28 | an unknown id gives 404; otherwise the reply is 200 with the stored course |
| CourseRoutes.CreateCourse | server/routes/courseRoutes.js:32-41 | a missing or empty title or group link, or a missing price, gives 400 and no change; otherwise exactly that course is added and returned with 201 |
| CourseRoutes.UpdateCourse | server/routes/courseRoutes.js:45-61 | an unknown id gives 404 and no change; otherwise only that course changes, to the field-by-field merge, and the reply is 200 |
| CourseRoutes.DeleteCourse | server/routes/courseRoutes.js:65-75 | an unknown id gives 404 and no change; otherwise exactly that course is removed |
| CourseRoutes.CreateThenGet | server/routes/courseRoutes.js:20-41 | a created course reads back as the course the request described |
| ProductRoutes.MergeProduct | server/routes/productRoutes.js:59-64 | title, description, category, price and stock are each replaced only by a truthy input; any images array, even an empty one, replaces the stored list |
| ProductRoutes.MergeIdempotent | server/routes/productRoutes.js:59-64 | repeating an update changes nothing further |
| ProductRoutes.MergeNeverClears | server/routes/productRoutes.js:59-64 | an update never clears a title, description, category, price or stock that is set, and a non-zero stock cannot become 0; the images list is the exception, since an empty array replaces it |
| ProductRoutes.GetProduct | server/routes/productRoutes.js:19-27 | an unknown id gives 404; otherwise the reply is 200 with the stored product |
| ProductRoutes.CreateProduct | server/routes/productRoutes.js:31-49 | the product is stored with exactly the six fields sent and returned with 201; nothing else changes |
| ProductRoutes.UpdateProduct | server/routes/productRoutes.js:53-71 | an unknown id gives 404 and no change; otherwise only that product changes, to the field-by-field merge |
| ProductRoutes.DeleteProduct | server/routes/productRoutes.js:75-85 | an unknown id gives 404 and no change; otherwise exactly that product is removed |

## Left out

- **Webhook signature.** The HMAC-SHA256 over `JSON.stringify(body)` is the
  parameter `expected` of `Webhook`, compared with plain equality as the
  route does. `Redelivery` computes it with a function `hmac(secret, body)`,
  so the same body yields the same signature. The route's `express.raw` body parser, which would hand the handler
  a byte buffer rather than an object, is not modelled.
- **Hashing helpers.** The SHA-256 digest of the reset token
  (`hashedToken`), the password check (`matchPassword`) and the token
  generator's outputs are parameters. `ForgotThenReset` derives the digest
  with a function `sha256`, so both routes see the same digest.
  The user schema in server/models/User.js defines neither
  `matchPassword`, `getResetPasswordToken`, nor the reset-token fields. The
  model adds `resetToken` and `resetExpire` to `User` and treats the helpers
  as given.
- **Foreign services.** The Razorpay client is the parameter `gateway`.
  `sendEmail` is an append to the outbox, and its failures are the
  parameters `mailFailsAt` and `mailFails`. `generateToken`/JWT and the
  `token` field of login, registration and profile replies are not modelled.
- **Mongoose.**
  - Persistence, `populate` and `select("-password")` are modelled as map
    reads.
  - Cast errors are not modelled: an id that is not an ObjectId, or a price
    that is not a number. The same goes for the `{ message: err.message }`
    texts of thrown errors, which appear as the stand-ins
    `ValidationError`, `TypeError` and `MailError`.
  - `product.remove()` is modelled as a removal.
- **Product schema.** server/models/Product.js is not part of this model, so
  product fields carry no validation and product saves never fail.
- **Middleware.** `protect` and `ownerOnly` are modelled only as the
  `Requester` passed to the routes that read it. Owner-only routes do not
  check the role themselves.
- **List-all routes.** `GET /` for orders, users, courses and products has
  no branches; it returns a whole collection.
- **Login, Register, ForgotPassword:** an absent `email` in the request body
  is modelled as the empty string.
- **Time.** `Date.now()` is the parameter `now`; expiry is compared as
  integers.
- **Floating-point amounts.** `totalAmount`, prices and quantities are
  integers, so `Paise` does not model floating-point rounding.
- **Concurrency.** Concurrent deliveries of the webhook, and interleavings
  of any two requests, are not modelled: each route runs to completion.
- **Build defects.** The payment route (server/routes/paymentRoutes.js:4)
  and the order route (server/routes/orderRoutes.js:2) both import the
  order model from `../models/Order.js`, while the file lives in
  `server/model/`.
  server/routes/userRoutes.js does not import `crypto` or `sendEmail`.
  server/server.js does not mount the routers. The model describes the
  handlers as if these resolved.
- **Webhook, missing payload.** The only malformed-body case modelled is a
  missing `payload.payment.entity`, which gives 500. A payment entity with
  a missing `id` or `order_id` is not modelled.
