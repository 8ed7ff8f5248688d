/** The payment routes: creating a Razorpay order for a stored order, and the
    Razorpay webhook that settles an order and e-mails course access links. */
module PaymentRoutes {
  import opened Base
  import opened OrderModel
  import opened UserModel
  import opened CourseModel
  import opened Database

  // ---------------------------------------------------------------------------
  // POST /razorpay
  // ---------------------------------------------------------------------------

  /** The options handed to `razorpay.orders.create`. */
  datatype IntentRequest = IntentRequest(amount: int, currency: string, receipt: Id)

  /** What the gateway answers: the order it created, or the error it threw. */
  datatype GatewayReply = Created(id: string, amount: int) | Refused(message: string)

  /** The `{ orderId, key, amount }` reply. */
  datatype IntentView = IntentView(orderId: string, key: string, amount: int)

  /** Rupees to paise. */
  function Paise(rupees: int): int
  {
    rupees * 100
  }

  /** Creates a gateway order for the stored order `orderId`. `sent` is the
      request passed to the gateway, if any; `keyId` is the public key from
      the environment. */
  method CreateIntent(db: Store, orderId: Option<Id>, keyId: string,
                      gateway: IntentRequest -> GatewayReply)
    returns (reply: Reply<IntentView>, sent: Option<IntentRequest>)
    ensures orderId.None? || orderId.value !in db.orders ==>
              reply == Fail(404, "Order not found") && sent.None?
    ensures orderId.Some? && orderId.value in db.orders ==>
              var request := IntentRequest(db.orders[orderId.value].totalAmount * 100, "INR", orderId.value);
              && sent == Some(request)
              && match gateway(request)
                 case Created(id, amount) => reply == Ok(200, IntentView(id, keyId, amount))
                 case Refused(message) => reply == Fail(500, message)
  {
    if orderId.None? || orderId.value !in db.orders {
      return Fail(404, "Order not found"), None;
    }
    var order := db.orders[orderId.value];
    var request := IntentRequest(Paise(order.totalAmount), "INR", orderId.value);
    sent := Some(request);
    match gateway(request)
    case Created(id, amount) =>
      reply := Ok(200, IntentView(id, keyId, amount));
    case Refused(message) =>
      reply := Fail(500, message);
  }

  // ---------------------------------------------------------------------------
  // POST /webhook
  // ---------------------------------------------------------------------------

  datatype Notes = Notes(orderId: Option<string>)

  /** `payload.payment.entity`: the gateway's payment id, the gateway order id
      (`order_id`) and the optional notes carrying our own order id. */
  datatype PaymentEntity = PaymentEntity(id: string, gatewayOrderId: string, notes: Option<Notes>)

  /** The parsed webhook body; `entity` is absent when the body lacks
      `payload.payment.entity`. */
  datatype WebhookBody = WebhookBody(entity: Option<PaymentEntity>)

  /** `notes?.orderId || order_id`: the order id from the notes when it is
      present and not empty, the gateway order id otherwise. */
  function ResolveOrderId(e: PaymentEntity): (id: Id)
    ensures e.notes.Some? && TruthyText(e.notes.value.orderId) ==> id == e.notes.value.orderId.value
    ensures !(e.notes.Some? && TruthyText(e.notes.value.orderId)) ==> id == e.gatewayOrderId
  {
    if e.notes.Some? && TruthyText(e.notes.value.orderId) then e.notes.value.orderId.value
    else e.gatewayOrderId
  }

  /** `order.items.filter(i => i.itemType === "course")`. */
  function CourseItems(items: seq<OrderItem>): (r: seq<OrderItem>)
    ensures |r| <= |items|
    ensures forall k :: 0 <= k < |r| ==> r[k].itemType == CourseItem && r[k] in items
    ensures forall k :: 0 <= k < |items| && items[k].itemType == CourseItem ==> items[k] in r
  {
    if items == [] then []
    else (if items[0].itemType == CourseItem then [items[0]] else []) + CourseItems(items[1..])
  }

  /** The courses that a list of items grants access to, in item order: one
      per item whose course is still stored. */
  function Grants(items: seq<OrderItem>, courses: map<Id, Course>): (r: seq<Course>)
    ensures |r| <= |items|
  {
    if items == [] then []
    else (if items[0].itemId in courses then [courses[items[0].itemId]] else []) + Grants(items[1..], courses)
  }

  const AccessGreeting := "Hi "
  const AccessThanks := ", thanks for purchasing "
  const AccessJoin := ". \nJoin the WhatsApp group here: "
  const AccessSubject := "Course Access Link"

  /** The access message: greeting, course title and the group invite link. */
  function AccessMessage(name: string, title: string, link: string): string
  {
    AccessGreeting + name + AccessThanks + title + AccessJoin + link
  }

  /** The access message names the course and carries its invite link. */
  lemma AccessMessageMentions(name: string, title: string, link: string)
    ensures Mentions(AccessMessage(name, title, link), title)
    ensures Mentions(AccessMessage(name, title, link), link)
  {
    var m := AccessMessage(name, title, link);
    var before := AccessGreeting + name + AccessThanks;
    assert m == before + title + AccessJoin + link;
    assert m[|before|..] == title + AccessJoin + link;
    MentionsAt(m, title, |before|);
    assert m[|before + title + AccessJoin|..] == link;
    MentionsAt(m, link, |before + title + AccessJoin|);
  }

  /** The e-mail sent to `buyer` for one purchased course. */
  function AccessEmail(buyer: User, course: Course): (e: Email)
    ensures e.to == buyer.email && e.subject == AccessSubject
  {
    Email(buyer.email, AccessSubject, AccessMessage(buyer.name, course.title, course.groupLink))
  }

  /** One access e-mail per granted course, in order. */
  function AccessEmails(buyer: User, grants: seq<Course>): seq<Email>
  {
    seq(|grants|, k requires 0 <= k < |grants| => AccessEmail(buyer, grants[k]))
  }

  /** How the e-mail loop ends: every send done, or an error thrown after the
      e-mails in `sent` went out. */
  datatype EmailRun = Finished(sent: seq<Email>) | Threw(sent: seq<Email>, error: string)

  /** The e-mail loop over the granted courses. A deleted buyer makes the
      first granted course throw (`user.name` of `null`); otherwise the send
      attempt numbered `failAt`, if there is one, throws. */
  function RunEmails(buyer: Option<User>, grants: seq<Course>, failAt: Option<nat>): EmailRun
  {
    if grants == [] then Finished([])
    else if buyer.None? then Threw([], TypeError)
    else
      var all := AccessEmails(buyer.value, grants);
      if failAt.Some? && failAt.value < |all| then Threw(all[..failAt.value], MailError)
      else Finished(all)
  }

  /** The webhook's reply once the order has been saved as paid. */
  function RunReply(run: EmailRun): Reply<string>
  {
    match run
    case Finished(_) => Ok(200, "ok")
    case Threw(_, error) => Fail(500, error)
  }

  /** `pre` sent before `run` started. */
  function Extend(pre: seq<Email>, run: EmailRun): EmailRun
  {
    match run
    case Finished(sent) => Finished(pre + sent)
    case Threw(sent, error) => Threw(pre + sent, error)
  }

  /** The e-mail loop as the route runs it: item by item, looking each course
      up, with `attempts` sends already made. */
  function Run(buyer: Option<User>, items: seq<OrderItem>, courses: map<Id, Course>,
               failAt: Option<nat>, attempts: nat): EmailRun
    decreases |items|
  {
    if items == [] then Finished([])
    else if items[0].itemId !in courses then Run(buyer, items[1..], courses, failAt, attempts)
    else if buyer.None? then Threw([], TypeError)
    else if failAt == Some(attempts) then Threw([], MailError)
    else Extend([AccessEmail(buyer.value, courses[items[0].itemId])],
                Run(buyer, items[1..], courses, failAt, attempts + 1))
  }

  /** The failing attempt counted from the `n`-th send on. */
  function Remaining(failAt: Option<nat>, n: nat): Option<nat>
    requires failAt.Some? ==> n <= failAt.value
  {
    if failAt.None? then None else Some(failAt.value - n)
  }

  /** The item-by-item loop sends exactly the access e-mails for the granted
      courses, and fails where `RunEmails` says it fails. */
  lemma {:induction false} RunAgrees(buyer: Option<User>, items: seq<OrderItem>, courses: map<Id, Course>,
                                     failAt: Option<nat>, n: nat)
    requires failAt.Some? ==> n <= failAt.value
    ensures Run(buyer, items, courses, failAt, n) == RunEmails(buyer, Grants(items, courses), Remaining(failAt, n))
    decreases |items|
  {
    if items != [] {
      var rest := Grants(items[1..], courses);
      if items[0].itemId !in courses {
        assert Grants(items, courses) == rest;
        RunAgrees(buyer, items[1..], courses, failAt, n);
      } else {
        var course := courses[items[0].itemId];
        assert Grants(items, courses) == [course] + rest;
        if buyer.Some? && failAt == Some(n) {
          assert |AccessEmails(buyer.value, [course] + rest)| > 0;
        } else if buyer.Some? {
          RunAgrees(buyer, items[1..], courses, failAt, n + 1);
          RunEmailsCons(buyer.value, course, rest, Remaining(failAt, n));
          assert Remaining(Remaining(failAt, n), 1) == Remaining(failAt, n + 1);
        }
      }
    }
  }

  /** Peeling the first grant off the e-mail run. */
  lemma RunEmailsCons(buyer: User, course: Course, grants: seq<Course>, failAt: Option<nat>)
    requires failAt != Some(0)
    ensures RunEmails(Some(buyer), [course] + grants, failAt) ==
              Extend([AccessEmail(buyer, course)], RunEmails(Some(buyer), grants, Remaining(failAt, 1)))
  {
    var email := AccessEmail(buyer, course);
    AccessEmailsPrefix(buyer, [course], grants);
    assert AccessEmails(buyer, [course]) == [email];
    var all := AccessEmails(buyer, [course] + grants);
    if grants == [] {
      assert all == [email];
    } else if failAt.Some? && failAt.value < |all| {
      assert all[..failAt.value] == [email] + AccessEmails(buyer, grants)[..failAt.value - 1];
    }
  }

  /** Two extensions in a row are one. */
  lemma ExtendTwice(a: seq<Email>, b: seq<Email>, run: EmailRun)
    ensures Extend(a, Extend(b, run)) == Extend(a + b, run)
  {
    Regroup(a, b, run.sent);
  }

  /** The order after settlement: paid, with the gateway's payment id. */
  function Settled(o: Order, paymentId: string): Order
  {
    o.(status := Paid, paymentId := Some(paymentId))
  }

  /** Handles one delivery of the Razorpay webhook. `expected` is the hex
      HMAC-SHA256 of the serialised body under the webhook secret, as the
      route computes it; `signature` is the `x-razorpay-signature` header;
      `mailFailsAt` is the send attempt, if any, at which the mail transport
      throws. */
  method Webhook(db: Store, expected: string, signature: Option<string>, body: WebhookBody,
                 mailFailsAt: Option<nat>)
    returns (reply: Reply<string>)
    requires db.Valid()
    modifies db
    ensures db.Valid()
    ensures signature != Some(expected) ==>
              reply == Fail(400, "Invalid signature") && unchanged(db)
    ensures signature == Some(expected) && body.entity.None? ==>
              reply == Fail(500, TypeError) && unchanged(db)
    ensures signature == Some(expected) && body.entity.Some? &&
            ResolveOrderId(body.entity.value) !in old(db.orders) ==>
              reply == Fail(404, "Order not found") && unchanged(db)
    ensures signature == Some(expected) && body.entity.Some? &&
            ResolveOrderId(body.entity.value) in old(db.orders) ==>
              var target := ResolveOrderId(body.entity.value);
              var order := old(db.orders)[target];
              var run := RunEmails(Lookup(old(db.users), order.user),
                                   Grants(CourseItems(order.items), old(db.courses)), mailFailsAt);
              && db.orders == old(db.orders)[target := Settled(order, body.entity.value.id)]
              && db.users == old(db.users) && db.courses == old(db.courses)
              && db.products == old(db.products)
              && db.outbox == old(db.outbox) + run.sent
              && reply == RunReply(run)
  {
    if signature != Some(expected) {
      return Fail(400, "Invalid signature");
    }
    if body.entity.None? {
      return Fail(500, TypeError);
    }
    var payment := body.entity.value;
    var target := ResolveOrderId(payment);
    if target !in db.orders {
      return Fail(404, "Order not found");
    }

    var order := db.orders[target];
    order := order.(status := Paid);
    order := order.(paymentId := Some(payment.id));
    SwapOrder(db.orders, db.users, db.courses, target, order);
    db.orders := db.orders[target := order];

    var buyer := Lookup(db.users, order.user);
    reply := SendAccessEmails(db, buyer, CourseItems(order.items), mailFailsAt);
  }

  /** The loop `for (const c of courseItems)`: look the course up, skip it
      when it is gone, otherwise e-mail the buyer its title and invite link.
      The first error thrown ends the loop and the request with 500. */
  method SendAccessEmails(db: Store, buyer: Option<User>, courseItems: seq<OrderItem>,
                          mailFailsAt: Option<nat>)
    returns (reply: Reply<string>)
    modifies db`outbox
    ensures var run := RunEmails(buyer, Grants(courseItems, db.courses), mailFailsAt);
            db.outbox == old(db.outbox) + run.sent && reply == RunReply(run)
  {
    var courses := db.courses;
    ghost var run := Run(buyer, courseItems, courses, mailFailsAt, 0);
    RunAgrees(buyer, courseItems, courses, mailFailsAt, 0);
    var i, attempts := 0, 0;
    ghost var sent: seq<Email> := [];
    while i < |courseItems|
      invariant 0 <= i <= |courseItems|
      invariant db.outbox == old(db.outbox) + sent
      invariant run == Extend(sent, Run(buyer, courseItems[i..], courses, mailFailsAt, attempts))
    {
      var item := courseItems[i];
      assert courseItems[i..][1..] == courseItems[i + 1..];
      if item.itemId in courses {
        var course := courses[item.itemId];
        if buyer.None? {
          return Fail(500, TypeError);
        }
        if mailFailsAt == Some(attempts) {
          return Fail(500, MailError);
        }
        var email := AccessEmail(buyer.value, course);
        ExtendTwice(sent, [email], Run(buyer, courseItems[i + 1..], courses, mailFailsAt, attempts + 1));
        Regroup(old(db.outbox), sent, [email]);
        db.outbox := db.outbox + [email];
        sent := sent + [email];
        attempts := attempts + 1;
      }
      i := i + 1;
    }
    reply := Ok(200, "ok");
  }

  lemma Regroup<T>(a: seq<T>, b: seq<T>, c: seq<T>)
    ensures a + (b + c) == (a + b) + c
  {
  }

  lemma GrantsOne(x: OrderItem, courses: map<Id, Course>)
    ensures Grants([x], courses) == if x.itemId in courses then [courses[x.itemId]] else []
  {
    assert [x][1..] == [];
  }

  // ---------------------------------------------------------------------------
  // Properties of the settlement e-mails
  // ---------------------------------------------------------------------------

  /** Grants are computed item by item. */
  lemma {:induction false} GrantsAppend(a: seq<OrderItem>, b: seq<OrderItem>, courses: map<Id, Course>)
    ensures Grants(a + b, courses) == Grants(a, courses) + Grants(b, courses)
  {
    if a == [] {
      assert a + b == b;
    } else {
      assert (a + b)[1..] == a[1..] + b;
      GrantsAppend(a[1..], b, courses);
    }
  }

  /** `c` is the stored course of some item in `items`. */
  ghost predicate FromItem(c: Course, items: seq<OrderItem>, courses: map<Id, Course>)
  {
    exists i :: 0 <= i < |items| && items[i].itemId in courses && c == courses[items[i].itemId]
  }

  /** Every granted course is the stored course of some item. */
  lemma {:induction false} GrantsSound(items: seq<OrderItem>, courses: map<Id, Course>)
    ensures forall k :: 0 <= k < |Grants(items, courses)| ==> FromItem(Grants(items, courses)[k], items, courses)
  {
    if items != [] {
      GrantsSound(items[1..], courses);
      var r := Grants(items, courses);
      var rest := Grants(items[1..], courses);
      var h := if items[0].itemId in courses then 1 else 0;
      assert r == r[..h] + rest;
      forall k | 0 <= k < |r|
        ensures FromItem(r[k], items, courses)
      {
        if k < h {
          assert items[0].itemId in courses && r[k] == courses[items[0].itemId];
        } else {
          assert r[k] == rest[k - h];
          assert FromItem(rest[k - h], items[1..], courses);
          var j :| 0 <= j < |items[1..]| && items[1..][j].itemId in courses && rest[k - h] == courses[items[1..][j].itemId];
          assert items[1..][j] == items[j + 1];
        }
      }
    }
  }

  /** The course filter works item by item, keeping the order. */
  lemma {:induction false} CourseItemsAppend(a: seq<OrderItem>, b: seq<OrderItem>)
    ensures CourseItems(a + b) == CourseItems(a) + CourseItems(b)
  {
    if a == [] {
      assert a + b == b;
    } else {
      assert (a + b)[1..] == a[1..] + b;
      CourseItemsAppend(a[1..], b);
    }
  }

  lemma AccessEmailsPrefix(buyer: User, a: seq<Course>, b: seq<Course>)
    ensures |AccessEmails(buyer, a + b)| == |a| + |b|
    ensures AccessEmails(buyer, a + b)[..|a|] == AccessEmails(buyer, a)
    ensures AccessEmails(buyer, a + b) == AccessEmails(buyer, a) + AccessEmails(buyer, b)
  {
    var all := AccessEmails(buyer, a + b);
    assert all[..|a|] == AccessEmails(buyer, a);
    assert all == AccessEmails(buyer, a) + AccessEmails(buyer, b);
  }

  /** A single item grants its course exactly when the course is still stored
      and the item is a course item; with `GrantsAppend` and
      `CourseItemsAppend` this fixes the e-mail sequence item by item. */
  lemma SingleItemGrant(item: OrderItem, courses: map<Id, Course>)
    ensures Grants(CourseItems([item]), courses) ==
              if item.itemType == CourseItem && item.itemId in courses then [courses[item.itemId]] else []
  {
    assert [item][1..] == [];
  }

  /** What a completed settlement e-mails: at most one message per item, every
      one to the buyer with the subject "Course Access Link", each naming the
      title and invite link of a stored course that some course item of the
      order refers to. */
  lemma SettlementEmails(buyer: User, items: seq<OrderItem>, courses: map<Id, Course>)
    ensures var emails := AccessEmails(buyer, Grants(CourseItems(items), courses));
            && |emails| <= |items|
            && forall k :: 0 <= k < |emails| ==>
                 && emails[k].to == buyer.email
                 && emails[k].subject == AccessSubject
                 && exists i :: 0 <= i < |items| && items[i].itemType == CourseItem && items[i].itemId in courses
                                && Mentions(emails[k].message, courses[items[i].itemId].title)
                                && Mentions(emails[k].message, courses[items[i].itemId].groupLink)
  {
    var courseItems := CourseItems(items);
    var grants := Grants(courseItems, courses);
    var emails := AccessEmails(buyer, grants);
    GrantsSound(courseItems, courses);
    forall k | 0 <= k < |emails|
      ensures exists i :: 0 <= i < |items| && items[i].itemType == CourseItem && items[i].itemId in courses
                          && Mentions(emails[k].message, courses[items[i].itemId].title)
                          && Mentions(emails[k].message, courses[items[i].itemId].groupLink)
    {
      assert FromItem(grants[k], courseItems, courses);
      var j :| 0 <= j < |courseItems| && courseItems[j].itemId in courses && grants[k] == courses[courseItems[j].itemId];
      assert courseItems[j] in items;
      var i :| 0 <= i < |items| && items[i] == courseItems[j];
      assert emails[k] == AccessEmail(buyer, grants[k]);
      AccessMessageMentions(buyer.name, grants[k].title, grants[k].groupLink);
    }
  }

  /** An order with no course items, or whose courses are all gone, e-mails nobody. */
  lemma {:induction false} NoCourseNoEmail(items: seq<OrderItem>, courses: map<Id, Course>)
    requires forall i :: 0 <= i < |items| && items[i].itemType == CourseItem ==> items[i].itemId !in courses
    ensures Grants(CourseItems(items), courses) == []
  {
    if items != [] {
      var head := if items[0].itemType == CourseItem then [items[0]] else [];
      assert CourseItems(items) == head + CourseItems(items[1..]);
      GrantsAppend(head, CourseItems(items[1..]), courses);
      if head != [] {
        GrantsOne(items[0], courses);
      }
      assert forall i :: 0 <= i < |items[1..]| ==> items[1..][i] == items[i + 1];
      NoCourseNoEmail(items[1..], courses);
    }
  }

  /** Redelivering the same signed event: there is no guard, so the order is
      settled again and the buyer gets the same e-mails a second time. */
  method Redelivery(db: Store, secret: string, hmac: (string, WebhookBody) -> string, body: WebhookBody)
    returns (first: Reply<string>, second: Reply<string>)
    requires db.Valid()
    requires body.entity.Some? && ResolveOrderId(body.entity.value) in db.orders
    requires db.orders[ResolveOrderId(body.entity.value)].user in db.users
    modifies db
    ensures var order := old(db.orders)[ResolveOrderId(body.entity.value)];
            var emails := AccessEmails(old(db.users)[order.user], Grants(CourseItems(order.items), old(db.courses)));
            && first == Ok(200, "ok") && second == Ok(200, "ok")
            && db.orders == old(db.orders)[ResolveOrderId(body.entity.value) := Settled(order, body.entity.value.id)]
            && db.outbox == old(db.outbox) + emails + emails
  {
    var expected := hmac(secret, body);
    first := Webhook(db, expected, Some(expected), body, None);
    second := Webhook(db, expected, Some(expected), body, None);
  }
}
