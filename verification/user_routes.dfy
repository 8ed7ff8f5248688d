/** The user routes: registration, login, the forgot/reset password flow,
    the caller's profile, and the owner's user administration. */
module UserRoutes {
  import opened Base
  import opened OrderModel
  import opened UserModel
  import opened Database

  // ---------------------------------------------------------------------------
  // Registration and login
  // ---------------------------------------------------------------------------

  /** The role a registration stores: the schema default when none is sent,
      otherwise the sent name if the enum accepts it. */
  function RegisteredRole(role: Option<string>): (r: Option<Role>)
    ensures role.None? ==> r == Some(Customer)
    ensures role.Some? ==> (r.Some? <==> role.value == "customer" || role.value == "owner")
    ensures role.Some? && r.Some? ==> RoleName(r.value) == role.value
  {
    if role.None? then Some(DefaultRole) else ParseRole(role.value)
  }

  /** The fields of a registration pass the schema: name, email and password
      present and not empty, role in the enum. */
  predicate Admissible(name: Option<string>, email: string, password: Option<string>, role: Option<string>)
  {
    TruthyText(name) && email != "" && TruthyText(password) && RegisteredRole(role).Some?
  }

  /** `POST /register`. The role comes from the request; `newId` is the
      ObjectId the database assigns. */
  method Register(db: Store, name: Option<string>, email: string, phone: Option<string>,
                  password: Option<string>, role: Option<string>, newId: Id, now: int)
    returns (reply: Reply<UserView>)
    requires db.Valid()
    requires newId !in db.users
    modifies db
    ensures db.Valid()
    ensures EmailTaken(old(db.users), email) ==>
              reply == Fail(400, "User already exists") && unchanged(db)
    ensures !EmailTaken(old(db.users), email) && !Admissible(name, email, password, role) ==>
              reply == Fail(400, ValidationError) && unchanged(db)
    ensures !EmailTaken(old(db.users), email) && Admissible(name, email, password, role) ==>
              var u := User(name.value, email, phone, password.value, RegisteredRole(role).value, [], None, None, now);
              && db.users == old(db.users)[newId := u]
              && db.orders == old(db.orders) && db.courses == old(db.courses)
              && db.products == old(db.products) && db.outbox == old(db.outbox)
              && reply == Ok(201, ViewOf(newId, u))
  {
    if EmailTaken(db.users, email) {
      return Fail(400, "User already exists");
    }
    if !Admissible(name, email, password, role) {
      return Fail(400, ValidationError);
    }
    var user := User(name.value, email, phone, password.value, RegisteredRole(role).value, [], None, None, now);
    AddUser(db.orders, db.users, db.courses, newId, user);
    db.users := db.users[newId := user];
    reply := Ok(201, ViewOf(newId, user));
  }

  /** `POST /login`. `matchPassword(stored, candidate)` is the user model's
      password check. */
  method Login(db: Store, email: string, password: string, matchPassword: (string, string) -> bool)
    returns (reply: Reply<UserView>)
    requires db.Valid()
    ensures reply.Ok? <==> exists id :: id in db.users && db.users[id].email == email
                                       && matchPassword(db.users[id].password, password)
    ensures reply.Ok? ==> reply.code == 200 && reply.value.id in db.users
                          && reply.value == ViewOf(reply.value.id, db.users[reply.value.id])
                          && db.users[reply.value.id].email == email
    ensures reply.Fail? ==> reply == Fail(401, "Invalid email or password")
  {
    if EmailTaken(db.users, email) {
      var id :| id in db.users && db.users[id].email == email;
      if matchPassword(db.users[id].password, password) {
        return Ok(200, ViewOf(id, db.users[id]));
      }
    }
    reply := Fail(401, "Invalid email or password");
  }

  // ---------------------------------------------------------------------------
  // Password reset
  // ---------------------------------------------------------------------------

  const ResetIntro := "You requested a password reset. Please click this link: \n\n "
  const ResetPath := "/reset-password/"
  const ResetSubject := "Password Reset Request"

  /** The reset e-mail: the client's reset page with the raw token appended. */
  function ResetEmail(to: string, clientUrl: string, token: string): (e: Email)
    ensures e.to == to && e.subject == ResetSubject
  {
    Email(to, ResetSubject, ResetIntro + (clientUrl + ResetPath + token))
  }

  /** The reset e-mail carries the link to the reset page for that token. */
  lemma ResetEmailLink(to: string, clientUrl: string, token: string)
    ensures Mentions(ResetEmail(to, clientUrl, token).message, clientUrl + ResetPath + token)
  {
    var url := clientUrl + ResetPath + token;
    var message := ResetEmail(to, clientUrl, token).message;
    assert message[|ResetIntro|..] == url;
    MentionsAt(message, url, |ResetIntro|);
  }

  /** `POST /forgot`. `rawToken`, its SHA-256 digest `hashedToken` and
      `expiry` are what the user model's token generator hands out; the user
      stores the digest and the e-mail carries the raw token. `mailFails`
      says whether the mail transport throws; if it does, the token and
      expiry are cleared again. */
  method ForgotPassword(db: Store, email: string, rawToken: string, hashedToken: string,
                        expiry: int, clientUrl: string, mailFails: bool)
    returns (reply: Reply<string>)
    requires db.Valid()
    modifies db
    ensures db.Valid()
    ensures !EmailTaken(old(db.users), email) ==>
              reply == Fail(404, "User not found") && unchanged(db)
    ensures forall id :: id in old(db.users) && old(db.users)[id].email == email ==>
              var u := old(db.users)[id];
              && db.orders == old(db.orders) && db.courses == old(db.courses)
              && db.products == old(db.products)
              && (mailFails ==>
                    && db.users == old(db.users)[id := u.(resetToken := None, resetExpire := None)]
                    && db.outbox == old(db.outbox)
                    && reply == Fail(500, "Email could not be sent"))
              && (!mailFails ==>
                    && db.users == old(db.users)[id := u.(resetToken := Some(hashedToken),
                                                          resetExpire := Some(expiry))]
                    && db.outbox == old(db.outbox) + [ResetEmail(u.email, clientUrl, rawToken)]
                    && reply == Ok(200, "Email sent"))
  {
    if !EmailTaken(db.users, email) {
      return Fail(404, "User not found");
    }
    var id :| id in db.users && db.users[id].email == email;

    var user := db.users[id];
    user := user.(resetToken := Some(hashedToken), resetExpire := Some(expiry));
    if mailFails {
      user := user.(resetToken := None, resetExpire := None);
      SwapUser(db.orders, db.users, db.courses, id, user);
      db.users := db.users[id := user];
      return Fail(500, "Email could not be sent");
    }
    SwapUser(db.orders, db.users, db.courses, id, user);
    db.users := db.users[id := user];
    db.outbox := db.outbox + [ResetEmail(user.email, clientUrl, rawToken)];
    reply := Ok(200, "Email sent");
  }

  /** The user holds the hashed token `hashed` and it has not expired at `now`. */
  predicate TokenLive(u: User, hashed: string, now: int)
  {
    u.resetToken == Some(hashed) && u.resetExpire.Some? && u.resetExpire.value > now
  }

  /** `PUT /reset/:token`: `hashedToken` is the SHA-256 digest of the token
      in the URL. Finds a user holding it that has not expired, stores the new
      password and clears the token; a missing or empty password fails
      validation on save. */
  method ResetPassword(db: Store, hashedToken: string, password: Option<string>, now: int)
    returns (reply: Reply<string>)
    requires db.Valid()
    modifies db
    ensures db.Valid()
    ensures !(exists id :: id in old(db.users) && TokenLive(old(db.users)[id], hashedToken, now)) ==>
              reply == Fail(400, "Invalid or expired token") && unchanged(db)
    ensures (exists id :: id in old(db.users) && TokenLive(old(db.users)[id], hashedToken, now))
            && !TruthyText(password) ==>
              reply == Fail(500, ValidationError) && unchanged(db)
    ensures (exists id :: id in old(db.users) && TokenLive(old(db.users)[id], hashedToken, now))
            && TruthyText(password) ==>
              && reply == Ok(200, "Password reset successful")
              && db.orders == old(db.orders) && db.courses == old(db.courses)
              && db.products == old(db.products) && db.outbox == old(db.outbox)
              && exists id :: id in old(db.users) && TokenLive(old(db.users)[id], hashedToken, now)
                             && db.users == old(db.users)[id := old(db.users)[id].(password := password.value,
                                                                                   resetToken := None,
                                                                                   resetExpire := None)]
  {
    if !exists id :: id in db.users && TokenLive(db.users[id], hashedToken, now) {
      return Fail(400, "Invalid or expired token");
    }
    var id :| id in db.users && TokenLive(db.users[id], hashedToken, now);
    if !TruthyText(password) {
      return Fail(500, ValidationError);
    }
    var user := db.users[id];
    user := user.(password := password.value);
    user := user.(resetToken := None, resetExpire := None);
    SwapUser(db.orders, db.users, db.courses, id, user);
    db.users := db.users[id := user];
    reply := Ok(200, "Password reset successful");
  }

  /** A reset e-mailed by `ForgotPassword` can be redeemed before it expires:
      the same raw token with a new password succeeds. */
  method ForgotThenReset(db: Store, email: string, rawToken: string, sha256: string -> string,
                         expiry: int, clientUrl: string, newPassword: string, now: int)
    returns (forgot: Reply<string>, reset: Reply<string>)
    requires db.Valid()
    requires EmailTaken(db.users, email)
    requires now < expiry && newPassword != ""
    modifies db
    ensures forgot == Ok(200, "Email sent")
    ensures reset == Ok(200, "Password reset successful")
  {
    var hashed := sha256(rawToken);
    forgot := ForgotPassword(db, email, rawToken, hashed, expiry, clientUrl, false);
    ghost var id :| id in old(db.users) && old(db.users)[id].email == email;
    assert TokenLive(db.users[id], hashed, now);
    reset := ResetPassword(db, sha256(rawToken), Some(newPassword), now);
  }

  // ---------------------------------------------------------------------------
  // Profiles and administration
  // ---------------------------------------------------------------------------

  /** A user as the profile routes show it: no password, orders populated. */
  datatype Profile = Profile(id: Id, name: string, email: string, phone: Option<string>, role: Role,
                             orders: seq<Order>)

  /** `populate("orders")`: each referenced order in list order; a reference
      to an order that is not stored is dropped. */
  function Populate(ids: seq<Id>, orders: map<Id, Order>): (r: seq<Order>)
    ensures |r| <= |ids|
    ensures forall k :: 0 <= k < |r| ==> r[k] in orders.Values
  {
    if ids == [] then []
    else (if ids[0] in orders then [orders[ids[0]]] else []) + Populate(ids[1..], orders)
  }

  /** When every reference is stored, population keeps them all, in order. */
  lemma {:induction false} PopulateAll(ids: seq<Id>, orders: map<Id, Order>)
    requires forall k :: 0 <= k < |ids| ==> ids[k] in orders
    ensures |Populate(ids, orders)| == |ids|
    ensures forall k :: 0 <= k < |ids| ==> Populate(ids, orders)[k] == orders[ids[k]]
  {
    if ids != [] {
      assert forall k :: 0 <= k < |ids[1..]| ==> ids[1..][k] == ids[k + 1];
      PopulateAll(ids[1..], orders);
    }
  }

  function ProfileOf(id: Id, u: User, orders: map<Id, Order>): Profile
  {
    Profile(id, u.name, u.email, u.phone, u.role, Populate(u.orders, orders))
  }

  /** `GET /profile`: the caller's own record, with every order it placed. */
  method GetProfile(db: Store, requester: Requester) returns (reply: Reply<Profile>)
    requires db.Valid()
    ensures requester.id !in db.users ==> reply == Fail(404, "User not found")
    ensures requester.id in db.users ==>
              var u := db.users[requester.id];
              && reply == Ok(200, ProfileOf(requester.id, u, db.orders))
              && |reply.value.orders| == |u.orders|
              && forall k :: 0 <= k < |u.orders| ==>
                   reply.value.orders[k] == db.orders[u.orders[k]] && reply.value.orders[k].user == requester.id
  {
    if requester.id !in db.users {
      return Fail(404, "User not found");
    }
    var user := db.users[requester.id];
    PopulateAll(user.orders, db.orders);
    reply := Ok(200, ProfileOf(requester.id, user, db.orders));
  }

  /** `GET /:id` (owner only). */
  method GetUser(db: Store, id: Id) returns (reply: Reply<Profile>)
    ensures id !in db.users ==> reply == Fail(404, "User not found")
    ensures id in db.users ==> reply == Ok(200, ProfileOf(id, db.users[id], db.orders))
  {
    if id !in db.users {
      return Fail(404, "User not found");
    }
    reply := Ok(200, ProfileOf(id, db.users[id], db.orders));
  }

  /** `PUT /profile`: a truthy name, phone or password replaces the stored
      one; e-mail, role and orders never change. */
  method UpdateProfile(db: Store, requester: Requester, name: Option<string>, phone: Option<string>,
                       password: Option<string>)
    returns (reply: Reply<UserView>)
    requires db.Valid()
    modifies db
    ensures db.Valid()
    ensures requester.id !in old(db.users) ==> reply == Fail(404, "User not found") && unchanged(db)
    ensures requester.id in old(db.users) ==>
              var u := old(db.users)[requester.id];
              var updated := u.(name := OrText(name, u.name), phone := OrOptText(phone, u.phone),
                                password := OrText(password, u.password));
              && db.users == old(db.users)[requester.id := updated]
              && db.users[requester.id].email == u.email && db.users[requester.id].role == u.role
              && db.orders == old(db.orders) && db.courses == old(db.courses)
              && db.products == old(db.products) && db.outbox == old(db.outbox)
              && reply == Ok(200, ViewOf(requester.id, updated))
  {
    if requester.id !in db.users {
      return Fail(404, "User not found");
    }
    var user := db.users[requester.id];
    user := user.(name := OrText(name, user.name));
    user := user.(phone := OrOptText(phone, user.phone));
    if TruthyText(password) {
      user := user.(password := password.value);
    }
    SwapUser(db.orders, db.users, db.courses, requester.id, user);
    db.users := db.users[requester.id := user];
    reply := Ok(200, ViewOf(requester.id, user));
  }

  /** `PUT /:id` (owner only): a truthy role replaces the stored one when the
      enum accepts it and fails validation otherwise; a falsy one keeps it. */
  method UpdateRole(db: Store, id: Id, role: Option<string>) returns (reply: Reply<UserView>)
    requires db.Valid()
    modifies db
    ensures db.Valid()
    ensures id !in old(db.users) ==> reply == Fail(404, "User not found") && unchanged(db)
    ensures id in old(db.users) && TruthyText(role) && ParseRole(role.value).None? ==>
              reply == Fail(500, ValidationError) && unchanged(db)
    ensures id in old(db.users) && !(TruthyText(role) && ParseRole(role.value).None?) ==>
              var u := old(db.users)[id];
              var updated := u.(role := if TruthyText(role) then ParseRole(role.value).value else u.role);
              && db.users == old(db.users)[id := updated]
              && db.orders == old(db.orders) && db.courses == old(db.courses)
              && db.products == old(db.products) && db.outbox == old(db.outbox)
              && reply == Ok(200, ViewOf(id, updated))
  {
    if id !in db.users {
      return Fail(404, "User not found");
    }
    var user := db.users[id];
    if TruthyText(role) {
      var parsed := ParseRole(role.value);
      if parsed.None? {
        return Fail(500, ValidationError);
      }
      user := user.(role := parsed.value);
    }
    SwapUser(db.orders, db.users, db.courses, id, user);
    db.users := db.users[id := user];
    reply := Ok(200, ViewOf(id, user));
  }

  /** `DELETE /:id` (owner only): removes exactly that user. The orders it
      placed stay, still naming it as their buyer. */
  method DeleteUser(db: Store, id: Id) returns (reply: Reply<string>)
    requires db.Valid()
    modifies db
    ensures db.Valid()
    ensures id !in old(db.users) ==> reply == Fail(404, "User not found") && unchanged(db)
    ensures id in old(db.users) ==>
              && db.users == old(db.users) - {id}
              && db.orders == old(db.orders) && db.courses == old(db.courses)
              && db.products == old(db.products) && db.outbox == old(db.outbox)
              && reply == Ok(200, "User removed")
  {
    if id !in db.users {
      return Fail(404, "User not found");
    }
    DropUser(db.orders, db.users, db.courses, id);
    db.users := db.users - {id};
    reply := Ok(200, "User removed");
  }
}
