/** The user schema (server/models/User.js): the role enumeration and its
    default, the required fields and the list of order references. */
module UserModel {
  import opened Base

  datatype Role = Customer | Owner

  const DefaultRole: Role := Customer

  function RoleName(r: Role): string
  {
    match r
    case Customer => "customer"
    case Owner => "owner"
  }

  /** The enum validator on `role`: accepts exactly "customer" and "owner". */
  function ParseRole(name: string): (r: Option<Role>)
    ensures r.Some? ==> RoleName(r.value) == name
    ensures r.None? ==> forall x: Role :: RoleName(x) != name
  {
    if name == "customer" then Some(Customer)
    else if name == "owner" then Some(Owner)
    else None
  }

  /** Round trip of the role enum. */
  lemma RoleRoundTrip(r: Role)
    ensures ParseRole(RoleName(r)) == Some(r)
  {
  }

  /** A stored user. `resetToken` holds the SHA-256 of the last reset token
      handed out and `resetExpire` its expiry time. */
  datatype User = User(name: string, email: string, phone: Option<string>, password: string,
                       role: Role, orders: seq<Id>, resetToken: Option<string>,
                       resetExpire: Option<int>, createdAt: int)

  /** The schema's required fields: a required string may not be empty. */
  predicate ValidUser(u: User)
  {
    u.name != "" && u.email != "" && u.password != ""
  }

  /** The `{ _id, name, email, role }` object several routes reply with. */
  datatype UserView = UserView(id: Id, name: string, email: string, role: Role)

  function ViewOf(id: Id, u: User): UserView
  {
    UserView(id, u.name, u.email, u.role)
  }

  /** The authenticated caller that the `protect` middleware attaches to a request. */
  datatype Requester = Requester(id: Id, role: Role)
}
