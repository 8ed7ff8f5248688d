/** The database the route handlers share: the four MongoDB collections as
    maps from ObjectId to record, and the mail transport as the list of
    e-mails handed to it so far. */
module Database {
  import opened Base
  import opened OrderModel
  import opened UserModel
  import opened CourseModel
  import opened ProductModel

  /** The unique index on `email`: no two users share an address. */
  ghost predicate UniqueEmails(users: map<Id, User>)
  {
    forall a, b :: a in users && b in users && a != b ==> users[a].email != users[b].email
  }

  /** `User.findOne({ email })` finds someone. */
  predicate EmailTaken(users: map<Id, User>, email: string)
  {
    exists id :: id in users && users[id].email == email
  }

  /** What every stored record satisfies: schema validation passed when it
      was saved, e-mails are unique, and every id in a user's `orders` list
      names a stored order placed by that user. */
  ghost predicate Consistent(orders: map<Id, Order>, users: map<Id, User>, courses: map<Id, Course>)
  {
    && UniqueEmails(users)
    && (forall id :: id in users ==> ValidUser(users[id]))
    && (forall id :: id in courses ==> ValidCourse(courses[id]))
    && (forall id :: id in orders ==> |orders[id].items| > 0)
    && (forall u, o :: u in users && o in users[u].orders ==> o in orders && orders[o].user == u)
  }

  /** Replacing a user's record by one with the same e-mail and the same
      `orders` list, and still passing validation, keeps the tables
      consistent. */
  lemma SwapUser(orders: map<Id, Order>, users: map<Id, User>, courses: map<Id, Course>, id: Id, v: User)
    requires Consistent(orders, users, courses)
    requires id in users && ValidUser(v)
    requires v.email == users[id].email && v.orders == users[id].orders
    ensures Consistent(orders, users[id := v], courses)
  {
  }

  /** Registering a user with a fresh id, an unused e-mail and no orders. */
  lemma AddUser(orders: map<Id, Order>, users: map<Id, User>, courses: map<Id, Course>, id: Id, v: User)
    requires Consistent(orders, users, courses)
    requires id !in users && ValidUser(v) && v.orders == [] && !EmailTaken(users, v.email)
    ensures Consistent(orders, users[id := v], courses)
  {
  }

  /** Removing a user. */
  lemma DropUser(orders: map<Id, Order>, users: map<Id, User>, courses: map<Id, Course>, id: Id)
    requires Consistent(orders, users, courses)
    ensures Consistent(orders, users - {id}, courses)
  {
  }

  /** Storing an order under an id nobody refers to yet. */
  lemma AddOrder(orders: map<Id, Order>, users: map<Id, User>, courses: map<Id, Course>, id: Id, o: Order)
    requires Consistent(orders, users, courses)
    requires id !in orders && |o.items| > 0
    ensures Consistent(orders[id := o], users, courses)
  {
  }

  /** Appending a stored order of `uid` to that user's order list. */
  lemma LinkOrder(orders: map<Id, Order>, users: map<Id, User>, courses: map<Id, Course>, uid: Id, oid: Id)
    requires Consistent(orders, users, courses)
    requires uid in users && oid in orders && orders[oid].user == uid
    ensures Consistent(orders, users[uid := users[uid].(orders := users[uid].orders + [oid])], courses)
  {
  }

  /** Replacing an order by one with the same buyer and some items. */
  lemma SwapOrder(orders: map<Id, Order>, users: map<Id, User>, courses: map<Id, Course>, id: Id, o: Order)
    requires Consistent(orders, users, courses)
    requires id in orders && o.user == orders[id].user && |o.items| > 0
    ensures Consistent(orders[id := o], users, courses)
  {
  }

  /** Storing a course that passes validation. */
  lemma PutCourse(orders: map<Id, Order>, users: map<Id, User>, courses: map<Id, Course>, id: Id, c: Course)
    requires Consistent(orders, users, courses)
    requires ValidCourse(c)
    ensures Consistent(orders, users, courses[id := c])
  {
  }

  /** Removing a course. */
  lemma DropCourse(orders: map<Id, Order>, users: map<Id, User>, courses: map<Id, Course>, id: Id)
    requires Consistent(orders, users, courses)
    ensures Consistent(orders, users, courses - {id})
  {
  }

  class Store {
    var orders: map<Id, Order>
    var users: map<Id, User>
    var courses: map<Id, Course>
    var products: map<Id, Product>
    var outbox: seq<Email>

    /** What every stored record satisfies; see `Consistent`. */
    ghost predicate Valid()
      reads this
    {
      Consistent(orders, users, courses)
    }

    constructor ()
      ensures Valid()
      ensures orders == map[] && users == map[] && courses == map[] && products == map[]
      ensures outbox == []
    {
      orders, users, courses, products := map[], map[], map[], map[];
      outbox := [];
    }
  }
}
