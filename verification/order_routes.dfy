/** The order routes: placing an order, listing the caller's orders, reading
    one order, and the owner's status override. */
module OrderRoutes {
  import opened Base
  import opened OrderModel
  import opened UserModel
  import opened Database

  /** Places an order for `requester`. `newId` is the ObjectId the database
      assigns to the new order. Empty or missing `items` are refused; items or
      a total the schema rejects make the save throw. After the save the
      order id is pushed onto the requester's `orders` list; when the
      requester's user record is gone that push throws, after the order was
      stored. */
  method PlaceOrder(db: Store, requester: Requester, items: Option<seq<ItemInput>>,
                    totalAmount: Option<int>, paymentMethod: Option<string>, newId: Id, now: int)
    returns (reply: Reply<Order>)
    requires db.Valid()
    requires newId !in db.orders
    modifies db
    ensures db.Valid()
    ensures items.None? || items.value == [] ==>
              reply == Fail(400, "No items in order") && unchanged(db)
    ensures items.Some? && items.value != [] && (CastItems(items.value).None? || totalAmount.None?) ==>
              reply == Fail(500, ValidationError) && unchanged(db)
    ensures items.Some? && items.value != [] && CastItems(items.value).Some? && totalAmount.Some? ==>
              var order := Order(requester.id, CastItems(items.value).value, totalAmount.value, Pending, None,
                                 if paymentMethod.Some? then paymentMethod.value else DefaultPaymentMethod, now);
              && db.orders == old(db.orders)[newId := order]
              && db.courses == old(db.courses) && db.products == old(db.products)
              && db.outbox == old(db.outbox)
              && (requester.id in old(db.users) ==>
                    var u := old(db.users)[requester.id];
                    db.users == old(db.users)[requester.id := u.(orders := u.orders + [newId])]
                    && reply == Ok(201, order))
              && (requester.id !in old(db.users) ==>
                    db.users == old(db.users) && reply == Fail(500, TypeError))
  {
    if items.None? || items.value == [] {
      return Fail(400, "No items in order");
    }
    var cast := CastItems(items.value);
    if cast.None? || totalAmount.None? {
      return Fail(500, ValidationError);
    }
    var payWith := if paymentMethod.Some? then paymentMethod.value else DefaultPaymentMethod;
    var order := Order(requester.id, cast.value, totalAmount.value, Pending, None, payWith, now);
    AddOrder(db.orders, db.users, db.courses, newId, order);
    db.orders := db.orders[newId := order];

    if requester.id !in db.users {
      return Fail(500, TypeError);
    }
    var user := db.users[requester.id];
    user := user.(orders := user.orders + [newId]);
    LinkOrder(db.orders, db.users, db.courses, requester.id, newId);
    db.users := db.users[requester.id := user];
    reply := Ok(201, order);
  }

  /** `Order.find({ user })`: every stored order of `user`, and nothing else. */
  method MyOrders(db: Store, requester: Requester) returns (reply: Reply<map<Id, Order>>)
    requires db.Valid()
    ensures reply.Ok? && reply.code == 200
    ensures forall id :: id in reply.value <==> id in db.orders && db.orders[id].user == requester.id
    ensures forall id :: id in reply.value ==> reply.value[id] == db.orders[id]
    ensures requester.id in db.users ==>
              forall o :: o in db.users[requester.id].orders ==> o in reply.value
  {
    var mine := map id | id in db.orders && db.orders[id].user == requester.id :: db.orders[id];
    reply := Ok(200, mine);
  }

  /** Who may read an order: the owner, or the buyer who placed it. */
  predicate MayView(requester: Requester, order: Order)
  {
    requester.role == Owner || order.user == requester.id
  }

  /** `GET /:id`. The buyer is populated before the access check, so for a
      caller who is not the owner a deleted buyer makes `order.user._id`
      throw. */
  method GetOrder(db: Store, requester: Requester, id: Id) returns (reply: Reply<Order>)
    ensures id !in db.orders ==> reply == Fail(404, "Order not found")
    ensures id in db.orders && requester.role != Owner && db.orders[id].user !in db.users ==>
              reply == Fail(500, TypeError)
    ensures id in db.orders && (requester.role == Owner || db.orders[id].user in db.users) ==>
              reply == if MayView(requester, db.orders[id]) then Ok(200, db.orders[id])
                       else Fail(403, "Not authorized")
    ensures reply.Ok? ==> id in db.orders && MayView(requester, db.orders[id])
  {
    if id !in db.orders {
      return Fail(404, "Order not found");
    }
    var order := db.orders[id];
    if requester.role != Owner {
      if order.user !in db.users {
        return Fail(500, TypeError);
      }
      if order.user != requester.id {
        return Fail(403, "Not authorized");
      }
    }
    reply := Ok(200, order);
  }

  /** `PUT /:id/status`: a truthy status replaces the old one, whatever the
      old one was; a falsy one keeps it; a name outside the enum fails
      validation on save. */
  method UpdateOrderStatus(db: Store, id: Id, status: Option<string>) returns (reply: Reply<Order>)
    requires db.Valid()
    modifies db
    ensures db.Valid()
    ensures id !in old(db.orders) ==> reply == Fail(404, "Order not found") && unchanged(db)
    ensures id in old(db.orders) && TruthyText(status) && ParseStatus(status.value).None? ==>
              reply == Fail(500, ValidationError) && unchanged(db)
    ensures id in old(db.orders) && !(TruthyText(status) && ParseStatus(status.value).None?) ==>
              var o := old(db.orders)[id];
              var updated := o.(status := if TruthyText(status) then ParseStatus(status.value).value else o.status);
              && db.orders == old(db.orders)[id := updated]
              && db.users == old(db.users) && db.courses == old(db.courses)
              && db.products == old(db.products) && db.outbox == old(db.outbox)
              && reply == Ok(200, updated)
  {
    if id !in db.orders {
      return Fail(404, "Order not found");
    }
    var order := db.orders[id];
    if TruthyText(status) {
      var parsed := ParseStatus(status.value);
      if parsed.None? {
        return Fail(500, ValidationError);
      }
      order := order.(status := parsed.value);
    }
    SwapOrder(db.orders, db.users, db.courses, id, order);
    db.orders := db.orders[id := order];
    reply := Ok(200, order);
  }
}
