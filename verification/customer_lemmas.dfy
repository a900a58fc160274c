/**
  Properties of the customer controller that relate several calls: the
  uniqueness invariant (kept by register and delete, not by profile
  update), register followed by login, the uniform login failure, and that
  no reply except the administrators' listing depends on a stored
  password hash.
 */
module CustomerLemmas {
  import opened Options
  import opened JsValue
  import opened Store
  import opened Customers
  import Request

  /** A successful or refused registration leaves emails and usernames
      unique. */
  lemma RegisterPreservesUniqueness(db: CustomerDb, body: RegisterFields, now: nat, crypto: Crypto)
    requires UniqueIdentities(db.rows)
    ensures UniqueIdentities(Register(db, body, now, crypto).db.rows)
  {
  }

  /** Deleting a profile leaves emails and usernames unique. */
  lemma DeletePreservesUniqueness(db: CustomerDb, id: nat)
    requires UniqueIdentities(db.rows)
    ensures UniqueIdentities(DeleteProfile(db, id).db.rows)
  {
  }

  /** After a registration succeeds, a second one reusing its email or its
      username is refused with 409, whatever the other fields are. */
  lemma SecondRegistrationConflicts(db: CustomerDb, first: RegisterFields, second: RegisterFields,
                                    now: nat, later: nat, crypto: Crypto)
    requires Register(db, first, now, crypto).reply.status == 201
    requires Truthy(second.email) && Truthy(second.username) && Truthy(second.password)
    requires second.email == first.email || second.username == first.username
    ensures Register(Register(db, first, now, crypto).db, second, later, crypto).reply
            == Reply(409, Message(AlreadyExists))
  {
    var db' := Register(db, first, now, crypto).db;
    var id := Register(db, first, now, crypto).reply.body.summary.customerId;
    assert id in db'.rows && (db'.rows[id].email == second.email || db'.rows[id].username == second.username);
  }

  /** Registering and then logging in with the same email and password
      succeeds for the new customer, provided the hash comparison accepts
      a password against its own hash. */
  lemma RegisterThenLogin(db: CustomerDb, body: RegisterFields, now: nat, crypto: Crypto)
    requires Register(db, body, now, crypto).reply.status == 201
    requires crypto.matches(body.password, crypto.hash(body.password))
    ensures var out := Register(db, body, now, crypto);
            var r := Login(out.db, LoginFields(body.email, body.password), crypto);
            && r.status == 200
            && r.body.card.customerId == out.reply.body.summary.customerId
            && r.body.card.email == body.email
            && r.body.card.username == body.username
  {
    var out := Register(db, body, now, crypto);
    var id := out.reply.body.summary.customerId;
    assert forall k :: k in db.rows ==> db.rows[k].email != body.email;
    assert id in out.db.rows && out.db.rows[id].email == body.email;
    assert FindByEmail(out.db, body.email) == Some(id);
  }

  /** An unknown email and a wrong password for a known one get the same
      reply, so the reply does not tell which accounts exist. */
  lemma LoginFailuresLookAlike(unknown: CustomerDb, known: CustomerDb, body: LoginFields, crypto: Crypto)
    requires Truthy(body.email) && Truthy(body.password)
    requires forall k :: k in unknown.rows ==> unknown.rows[k].email != body.email
    requires exists k :: k in known.rows && known.rows[k].email == body.email
    requires forall k :: k in known.rows && known.rows[k].email == body.email ==>
               !crypto.matches(body.password, known.rows[k].password)
    ensures Login(unknown, body, crypto) == Login(known, body, crypto)
    ensures Login(unknown, body, crypto) == Reply(401, Message(InvalidCredentials))
  {
  }

  /** A profile update may give a customer an email another customer
      already has: unlike register, the handler makes no uniqueness
      check. */
  lemma ProfileUpdateCanDuplicateEmail(crypto: Crypto)
    ensures var db: CustomerDb := Table(map[0 := Customer(Str("a@x"), Str("a"), "h", Undefined, None, 0),
                                            1 := Customer(Str("b@x"), Str("b"), "h", Undefined, None, 0)], 2);
            var out := UpdateProfile(db, 1, ProfileFields(Undefined, Str("a@x"), Undefined, Undefined), None, crypto);
            && UniqueIdentities(db.rows)
            && out.reply.status == 200
            && !UniqueIdentities(out.db.rows)
  {
    var db: CustomerDb := Table(map[0 := Customer(Str("a@x"), Str("a"), "h", Undefined, None, 0),
                                    1 := Customer(Str("b@x"), Str("b"), "h", Undefined, None, 0)], 2);
    var out := UpdateProfile(db, 1, ProfileFields(Undefined, Str("a@x"), Undefined, Undefined), None, crypto);
    assert out.db.rows[0].email == out.db.rows[1].email;
  }

  /** Two stores that differ at most in the stored password hashes. */
  ghost predicate SameButPasswords(db1: CustomerDb, db2: CustomerDb) {
    && db1.nextId == db2.nextId
    && db1.rows.Keys == db2.rows.Keys
    && forall k :: k in db1.rows ==> db1.rows[k].(password := "") == db2.rows[k].(password := "")
  }

  /** The profile reply does not depend on the stored password hash. */
  lemma ProfileHidesPassword(db1: CustomerDb, db2: CustomerDb, id: nat)
    requires SameButPasswords(db1, db2)
    ensures GetProfile(db1, id) == GetProfile(db2, id)
  {
  }

  /** The profile-update reply depends neither on the stored password hash
      nor on the new password. */
  lemma UpdateReplyHidesPassword(db1: CustomerDb, db2: CustomerDb, id: nat,
                                 body: ProfileFields, password: Value, upload: Option<string>, crypto: Crypto)
    requires SameButPasswords(db1, db2)
    ensures UpdateProfile(db1, id, body, upload, crypto).reply
            == UpdateProfile(db2, id, body.(password := password), upload, crypto).reply
  {
  }

  /** The registration reply does not depend on the password, beyond
      whether one was given. */
  lemma RegisterReplyHidesPassword(db: CustomerDb, body: RegisterFields, password: Value, now: nat, crypto: Crypto)
    requires Truthy(password) <==> Truthy(body.password)
    ensures Register(db, body, now, crypto).reply == Register(db, body.(password := password), now, crypto).reply
  {
  }

  /** The login reply depends on the stored hash only through whether the
      comparison accepts the password: the card and token carry none of it. */
  lemma LoginRevealsOnlyTheMatch(db1: CustomerDb, db2: CustomerDb, body: LoginFields, crypto: Crypto)
    requires SameButPasswords(db1, db2)
    requires forall k :: k in db1.rows ==>
               crypto.matches(body.password, db1.rows[k].password)
               == crypto.matches(body.password, db2.rows[k].password)
    ensures Login(db1, body, crypto) == Login(db2, body, crypto)
  {
  }

  /** The administrators' listing carries stored password hashes: for an
      administrator, two stores that differ only in one customer's hash
      give different replies, and a non-administrator gets the same 403
      from both. */
  lemma ListAllExposesHashes(db: CustomerDb, id: nat, otherHash: string, user: Option<Request.User>)
    requires id in db.rows && db.rows[id].password != otherHash
    ensures var db2: CustomerDb := Table(db.rows[id := db.rows[id].(password := otherHash)], db.nextId);
            && (IsAdmin(user) ==> ListAll(db, user) != ListAll(db2, user))
            && (!IsAdmin(user) ==> ListAll(db, user) == ListAll(db2, user) == Reply(403, Error(AccessDenied)))
  {
    var db2: CustomerDb := Table(db.rows[id := db.rows[id].(password := otherHash)], db.nextId);
    if IsAdmin(user) {
      assert db2.rows[id].password != db.rows[id].password;
    }
  }
}
