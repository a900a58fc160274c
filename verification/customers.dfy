/**
  The customer controller: registration with a uniqueness check, login by
  email, profile read, profile update, profile deletion and the
  administrators' listing, each as a pure function from a store and the
  request fields to the new store and the HTTP reply. Password hashing,
  hash comparison and token signing are parameters.
 */
module Customers {
  import opened Options
  import opened JsValue
  import opened Store
  import Request

  /** A stored customer document; `password` holds the hash only. */
  datatype Customer = Customer(
    email: Value,
    username: Value,
    password: string,
    phone: Value,
    image: Option<string>,
    createdAt: nat)

  type CustomerDb = Db<Customer>

  /** The identity claims a login token carries. */
  datatype Claims = Claims(customerId: nat, email: Value, username: Value, phone: Value, image: Option<string>)

  /** The password hashing, hash comparison and token signing the handlers
      call out to. */
  datatype Crypto = Crypto(
    hash: Value -> string,
    matches: (Value, string) -> bool,
    sign: Claims -> string)

  /** The customer summary returned by register. */
  datatype Summary = Summary(customerId: nat, email: Value, username: Value, createdAt: nat)

  /** The customer card returned by login and by profile update. */
  datatype Card = Card(customerId: nat, email: Value, username: Value, phone: Value, image: Option<string>)

  /** The profile returned by getProfile. */
  datatype Profile = Profile(customerId: nat, email: Value, username: Value, phone: Value,
                             image: Option<string>, createdAt: nat)

  datatype Body =
    | Registered(message: string, summary: Summary)
    | LoggedIn(message: string, card: Card, token: string)
    | ProfileFound(profile: Profile)
    | ProfileUpdated(message: string, card: Card)
    | Everyone(list: map<nat, Customer>)
    | Message(message: string)
    | Error(error: string)

  datatype Reply = Reply(status: nat, body: Body)

  /** The store after a handler ran, and the reply it sent. */
  datatype Outcome = Outcome(db: CustomerDb, reply: Reply)

  datatype RegisterFields = RegisterFields(email: Value, username: Value, password: Value)
  datatype LoginFields = LoginFields(email: Value, password: Value)
  datatype ProfileFields = ProfileFields(username: Value, email: Value, phone: Value, password: Value)

  const AllFieldsRequired := "All fields are required"
  const AlreadyExists := "Customer already exists"
  const RegisteredMessage := "Customer registered successfully"
  const CredentialsRequired := "Email and password required"
  const InvalidCredentials := "Invalid email or password"
  const LoginMessage := "Login successful"
  const NotFound := "Customer not found"
  const UpdatedMessage := "Profile updated successfully"
  const DeletedMessage := "Profile deleted successfully"
  const AccessDenied := "Access denied"

  /** No two customers share an email, and no two share a username. */
  ghost predicate UniqueIdentities(rows: map<nat, Customer>) {
    forall i, j :: i in rows && j in rows && i != j ==>
      rows[i].email != rows[j].email && rows[i].username != rows[j].username
  }

  /** Some stored customer has this email or this username. */
  predicate Taken(db: CustomerDb, email: Value, username: Value) {
    exists k :: k in db.rows && (db.rows[k].email == email || db.rows[k].username == username)
  }

  /** The first customer, in id order from `from` up to `bound`, with this
      email. */
  function FirstWithEmail(rows: map<nat, Customer>, email: Value, from: nat, bound: nat): (r: Option<nat>)
    decreases bound - from
    ensures r.Some? ==>
              && from <= r.value < bound && r.value in rows && rows[r.value].email == email
              && forall k :: from <= k < r.value && k in rows ==> rows[k].email != email
    ensures r.None? ==> forall k :: from <= k < bound && k in rows ==> rows[k].email != email
  {
    if from >= bound then None
    else if from in rows && rows[from].email == email then Some(from)
    else FirstWithEmail(rows, email, from + 1, bound)
  }

  /** `Customer.findOne({ email })`: the earliest-created customer with this
      email, or none when no customer has it. */
  function FindByEmail(db: CustomerDb, email: Value): (r: Option<nat>)
    ensures r.None? <==> forall k :: k in db.rows ==> db.rows[k].email != email
    ensures r.Some? ==>
              && r.value in db.rows && db.rows[r.value].email == email
              && forall k :: k in db.rows && k < r.value ==> db.rows[k].email != email
  {
    FirstWithEmail(db.rows, email, 0, db.nextId)
  }

  /** `register`. Missing fields give 400, an email or username already in
      use gives 409, and neither changes the store; otherwise exactly one
      customer is added under a fresh id, with the hashed password, no
      phone and a null image, and the reply carries its summary. */
  function Register(db: CustomerDb, body: RegisterFields, now: nat, crypto: Crypto): (out: Outcome)
    ensures !(Truthy(body.email) && Truthy(body.username) && Truthy(body.password)) ==>
              out == Outcome(db, Reply(400, Message(AllFieldsRequired)))
    ensures Truthy(body.email) && Truthy(body.username) && Truthy(body.password) ==>
              (out.reply.status == 409 <==> Taken(db, body.email, body.username))
    ensures out.reply.status == 409 ==> out == Outcome(db, Reply(409, Message(AlreadyExists)))
    ensures (Truthy(body.email) && Truthy(body.username) && Truthy(body.password)
             && !Taken(db, body.email, body.username)) ==> out.reply.status == 201
    ensures out.reply.status == 201 ==>
              && out.reply.body.Registered?
              && var id := out.reply.body.summary.customerId;
                 && id !in db.rows
                 && out.db.rows == db.rows[id := Customer(body.email, body.username, crypto.hash(body.password),
                                                          Undefined, None, now)]
                 && out.reply.body == Registered(RegisteredMessage, Summary(id, body.email, body.username, now))
    ensures out.reply.status in {400, 409, 201}
  {
    if !Truthy(body.email) || !Truthy(body.username) || !Truthy(body.password) then
      Outcome(db, Reply(400, Message(AllFieldsRequired)))
    else if Taken(db, body.email, body.username) then
      Outcome(db, Reply(409, Message(AlreadyExists)))
    else
      var c := Customer(body.email, body.username, crypto.hash(body.password), Undefined, None, now);
      var (db', id) := Insert(db, c);
      Outcome(db', Reply(201, Registered(RegisteredMessage, Summary(id, c.email, c.username, c.createdAt))))
  }

  /** `login`. Missing email or password gives 400. The customer is looked
      up by email only; an unknown email and a password that does not match
      the stored hash both give 401 with the same message. On success the
      token signs the customer's id, email, username, phone and image, and
      the reply carries the same five fields and the token. */
  function Login(db: CustomerDb, body: LoginFields, crypto: Crypto): (r: Reply)
    ensures !(Truthy(body.email) && Truthy(body.password)) ==> r == Reply(400, Message(CredentialsRequired))
    ensures Truthy(body.email) && Truthy(body.password) ==>
              (r == Reply(401, Message(InvalidCredentials)) <==>
                 (forall k :: k in db.rows ==> db.rows[k].email != body.email)
                 || !crypto.matches(body.password, db.rows[FindByEmail(db, body.email).value].password))
    ensures (Truthy(body.email) && Truthy(body.password) && FindByEmail(db, body.email).Some?
             && crypto.matches(body.password, db.rows[FindByEmail(db, body.email).value].password))
            ==> r.status == 200
    ensures r.status == 200 ==>
              && Truthy(body.email) && Truthy(body.password)
              && var id := FindByEmail(db, body.email).value;
                 && id in db.rows
                 && var c := db.rows[id];
                    && c.email == body.email
                    && crypto.matches(body.password, c.password)
                    && r.body == LoggedIn(LoginMessage, Card(id, c.email, c.username, c.phone, c.image),
                                          crypto.sign(Claims(id, c.email, c.username, c.phone, c.image)))
    ensures r.status in {400, 401, 200}
  {
    if !Truthy(body.email) || !Truthy(body.password) then
      Reply(400, Message(CredentialsRequired))
    else
      match FindByEmail(db, body.email)
      case None => Reply(401, Message(InvalidCredentials))
      case Some(id) =>
        var c := db.rows[id];
        if !crypto.matches(body.password, c.password) then
          Reply(401, Message(InvalidCredentials))
        else
          var claims := Claims(id, c.email, c.username, c.phone, c.image);
          Reply(200, LoggedIn(LoginMessage, Card(id, c.email, c.username, c.phone, c.image), crypto.sign(claims)))
  }

  /** `getProfile` for the customer id taken from the token: the public
      profile fields, or 404. */
  function GetProfile(db: CustomerDb, id: nat): (r: Reply)
    ensures id !in db.rows ==> r == Reply(404, Message(NotFound))
    ensures id in db.rows ==>
              var c := db.rows[id];
              r == Reply(200, ProfileFound(Profile(id, c.email, c.username, c.phone, c.image, c.createdAt)))
  {
    if id !in db.rows then Reply(404, Message(NotFound))
    else
      var c := db.rows[id];
      Reply(200, ProfileFound(Profile(id, c.email, c.username, c.phone, c.image, c.createdAt)))
  }

  /** The customer after the profile-update payload is applied. */
  function ApplyProfile(c: Customer, body: ProfileFields, upload: Option<string>, crypto: Crypto): Customer {
    var c1 := if Truthy(body.password) then c.(password := crypto.hash(body.password)) else c;
    var c2 := if Truthy(body.username) then c1.(username := body.username) else c1;
    var c3 := if Truthy(body.email) then c2.(email := body.email) else c2;
    var c4 := if Truthy(body.phone) then c3.(phone := body.phone) else c3;
    if upload.Some? then c4.(image := upload) else c4
  }

  /** `update` of a profile. An unknown id gives 404 and changes nothing.
      Otherwise only that customer changes: username, email and phone are
      overwritten only by truthy values, the password only by the hash of a
      truthy one, the image only by an upload; no uniqueness check is made. */
  function UpdateProfile(db: CustomerDb, id: nat, body: ProfileFields, upload: Option<string>,
                         crypto: Crypto): (out: Outcome)
    ensures id !in db.rows ==> out == Outcome(db, Reply(404, Message(NotFound)))
    ensures id in db.rows ==>
              && out.db.rows.Keys == db.rows.Keys
              && (forall k :: k in db.rows && k != id ==> out.db.rows[k] == db.rows[k])
              && var before, c := db.rows[id], out.db.rows[id];
                 && (Truthy(body.username) ==> c.username == body.username)
                 && (!Truthy(body.username) ==> c.username == before.username)
                 && (Truthy(body.email) ==> c.email == body.email)
                 && (!Truthy(body.email) ==> c.email == before.email)
                 && (Truthy(body.phone) ==> c.phone == body.phone)
                 && (!Truthy(body.phone) ==> c.phone == before.phone)
                 && (Truthy(body.password) ==> c.password == crypto.hash(body.password))
                 && (!Truthy(body.password) ==> c.password == before.password)
                 && (upload.Some? ==> c.image == upload)
                 && (upload.None? ==> c.image == before.image)
                 && c.createdAt == before.createdAt
                 && out.reply == Reply(200, ProfileUpdated(UpdatedMessage,
                                                           Card(id, c.email, c.username, c.phone, c.image)))
  {
    if id !in db.rows then Outcome(db, Reply(404, Message(NotFound)))
    else
      var c := ApplyProfile(db.rows[id], body, upload, crypto);
      Outcome(Put(db, id, c), Reply(200, ProfileUpdated(UpdatedMessage, Card(id, c.email, c.username, c.phone, c.image))))
  }

  /** `deleteProfile`: 404 and no change for an unknown id; otherwise
      exactly that customer is removed. */
  function DeleteProfile(db: CustomerDb, id: nat): (out: Outcome)
    ensures id !in db.rows ==> out == Outcome(db, Reply(404, Message(NotFound)))
    ensures id in db.rows ==>
              && out.reply == Reply(200, Message(DeletedMessage))
              && out.db.rows.Keys == db.rows.Keys - {id}
              && (forall k :: k in out.db.rows ==> out.db.rows[k] == db.rows[k])
  {
    if id !in db.rows then Outcome(db, Reply(404, Message(NotFound)))
    else Outcome(Delete(db, id), Reply(200, Message(DeletedMessage)))
  }

  /** `req.user?.is_admin` is truthy. */
  predicate IsAdmin(user: Option<Request.User>) {
    user.Some? && Truthy(user.value.isAdmin)
  }

  /** `getAll`: 403 unless the request's user carries a truthy admin claim;
      otherwise every stored customer record. */
  function ListAll(db: CustomerDb, user: Option<Request.User>): (r: Reply)
    ensures r.status == 403 <==> !IsAdmin(user)
    ensures !IsAdmin(user) ==> r.body == Error(AccessDenied)
    ensures IsAdmin(user) ==> r == Reply(200, Everyone(db.rows))
  {
    if !IsAdmin(user) then Reply(403, Error(AccessDenied))
    else Reply(200, Everyone(db.rows))
  }
}
