/**
 * The user collection behind the two controllers, standing in for the
 * Mongoose `User` model (models/User.js is not part of this model). Records
 * live in an in-memory table keyed by id; the operations are the Mongoose
 * calls the controllers make: `findOne({ email })`, `findById`, `save`,
 * `findByIdAndUpdate` with `$set`, and `findOneAndRemove`.
 */
module UserDb {
  import opened Wrappers

  /** Mongo's `_id`; a fresh one is drawn for every saved record. */
  type UserId = nat

  /**
   * The stored password. The model's pre-save hook hashes with bcrypt; here
   * the hash keeps the password itself and a salt, and the salt is a
   * parameter because bcrypt draws it at random.
   */
  datatype PasswordHash = Hashed(secret: string, salt: nat)

  /** The pre-save hook's hash: whatever the salt, it accepts the password it was made from. */
  function HashPassword(password: string, salt: nat): (hash: PasswordHash)
    ensures ComparePassword(hash, password)
  {
    Hashed(password, salt)
  }

  /** `user.comparePassword(candidate)`: bcrypt's compare against the stored hash. */
  predicate ComparePassword(hash: PasswordHash, candidate: string)
  {
    hash.secret == candidate
  }

  datatype User = User(id: UserId, username: string, email: string, password: PasswordHash)

  /** A record as sent to clients: `.select('-password')`. */
  datatype PublicUser = PublicUser(id: UserId, username: string, email: string)

  function WithoutPassword(u: User): (p: PublicUser)
    ensures p.id == u.id && p.username == u.username && p.email == u.email
  {
    PublicUser(u.id, u.username, u.email)
  }

  /** The `$set` document of a profile update: only the fields present are written. */
  datatype UserFields = UserFields(username: Option<string>, email: Option<string>)

  /** The record after `$set: fields`; the id and the password are never among the fields. */
  function ApplyFields(u: User, fields: UserFields): (r: User)
    ensures r.id == u.id && r.password == u.password
    ensures r.username == (if fields.username.Some? then fields.username.value else u.username)
    ensures r.email == (if fields.email.Some? then fields.email.value else u.email)
  {
    var u1 := if fields.username.Some? then u.(username := fields.username.value) else u;
    if fields.email.Some? then u1.(email := fields.email.value) else u1
  }

  /** Some record in the table has this email. */
  ghost predicate EmailTaken(users: map<UserId, User>, email: string)
  {
    exists id :: id in users && users[id].email == email
  }

  /** No two records share an email (the uniqueness `register` enforces). */
  ghost predicate EmailsUnique(users: map<UserId, User>)
  {
    forall i, j :: i in users && j in users && users[i].email == users[j].email ==> i == j
  }

  /**
   * `findOne({ email })` scans in natural order, which for this table is
   * increasing id: the first id in [from, bound) whose record has the email.
   */
  function FindByEmailFrom(users: map<UserId, User>, email: string, from: nat, bound: nat): (r: Option<UserId>)
    decreases bound - from
    ensures r.Some? ==> from <= r.value < bound && r.value in users && users[r.value].email == email
    ensures r.Some? ==> forall id :: from <= id < r.value && id in users ==> users[id].email != email
    ensures r.None? ==> forall id :: from <= id < bound && id in users ==> users[id].email != email
  {
    if from >= bound then None
    else if from in users && users[from].email == email then Some(from)
    else FindByEmailFrom(users, email, from + 1, bound)
  }

  class Database {
    var users: map<UserId, User>
    /** Every id ever handed out is below this one. */
    var nextId: UserId

    ghost predicate Valid()
      reads this
    {
      forall id :: id in users ==> id < nextId && users[id].id == id
    }

    constructor ()
      ensures Valid() && users == map[] && nextId == 0
    {
      users := map[];
      nextId := 0;
    }

    /** `User.findOne({ email })`: the oldest record with that email, if any. */
    function FindOneByEmail(email: string): (r: Option<User>)
      reads this
      requires Valid()
      ensures r.Some? ==> r.value.id in users && users[r.value.id] == r.value && r.value.email == email
      ensures r.Some? ==> forall id :: id in users && id < r.value.id ==> users[id].email != email
      ensures r.None? <==> !EmailTaken(users, email)
    {
      match FindByEmailFrom(users, email, 0, nextId)
      case None => None
      case Some(id) => Some(users[id])
    }

    /** `User.findById(id)`. */
    function FindById(id: UserId): (r: Option<User>)
      reads this
      ensures r.Some? <==> id in users
      ensures r.Some? ==> r.value == users[id]
    {
      if id in users then Some(users[id]) else None
    }

    /** `new User({...}).save()`: inserts one record under a fresh id, hashing the password. */
    method Save(username: string, email: string, password: string, salt: nat) returns (id: UserId)
      requires Valid()
      modifies this
      ensures Valid()
      ensures id !in old(users) && id == old(nextId)
      ensures users == old(users)[id := User(id, username, email, HashPassword(password, salt))]
    {
      id := nextId;
      users := users[id := User(id, username, email, HashPassword(password, salt))];
      nextId := nextId + 1;
    }

    /** `User.findByIdAndUpdate(id, { $set: fields }, { new: true })`. */
    method FindByIdAndUpdate(id: UserId, fields: UserFields) returns (r: Option<User>)
      requires Valid()
      modifies this
      ensures Valid() && nextId == old(nextId)
      ensures id !in old(users) ==> r == None && users == old(users)
      ensures id in old(users) ==> r == Some(ApplyFields(old(users)[id], fields)) && users == old(users)[id := r.value]
    {
      if id in users {
        var updated := ApplyFields(users[id], fields);
        users := users[id := updated];
        r := Some(updated);
      } else {
        r := None;
      }
    }

    /** `User.findOneAndRemove({ _id: id })`: removes the record if there is one. */
    method FindOneAndRemove(id: UserId)
      requires Valid()
      modifies this
      ensures Valid() && nextId == old(nextId)
      ensures users == old(users) - {id}
    {
      users := users - {id};
    }
  }
}

/**
 * `jwt.sign(payload, process.env.JWT_SECRET, { expiresIn: '1h' }, cb)`. The
 * signature itself (RFC 7519, inside jsonwebtoken) is not modelled: a token is
 * the id in its payload and its absolute expiry.
 */
module Tokens {
  import opened Wrappers
  import opened UserDb

  /** `expiresIn: '1h'`, in seconds. */
  const TokenLifetime: nat := 3600

  /** The payload `{ user: { id } }` and its `exp` claim. */
  datatype Token = Token(userId: UserId, expiresAt: nat)

  /**
   * Signing at time `now` (seconds). jsonwebtoken reports an error to the
   * callback when the secret is missing or empty.
   */
  function Sign(userId: UserId, secret: Option<string>, now: nat): (r: Option<Token>)
    ensures r.Some? <==> Truthy(secret)
    ensures r.Some? ==> r.value.userId == userId && r.value.expiresAt == now + TokenLifetime
  {
    if Truthy(secret) then Some(Token(userId, now + TokenLifetime)) else None
  }
}

/** The JSON replies of the Express handlers. */
module Http {
  import opened Wrappers
  import opened UserDb
  import opened Tokens

  datatype Body =
    | Message(text: string)
    | TokenBody(token: Token)
    | UserBody(user: PublicUser)
    /** `res.json(null)` */
    | NullBody

  /** `res.status(status).json(body)`; `res.json` alone is status 200. */
  datatype Reply = Reply(status: nat, body: Body)

  /** The replies both controllers send: a missing record, and the catch-all of every handler. */
  const UserNotFound := Reply(404, Message("User not found"))
  const ServerError := Reply(500, Message("Server error"))

  /** The callback of `jwt.sign`: the token, or 500 when signing failed. */
  function TokenReply(userId: UserId, secret: Option<string>, now: nat): (r: Reply)
    ensures r.status == 200 <==> Truthy(secret)
    ensures r.status == 200 ==> r.body == TokenBody(Token(userId, now + TokenLifetime))
    ensures r.status != 200 ==> r == Reply(500, Message("Error generating token"))
  {
    match Sign(userId, secret, now)
    case Some(token) => Reply(200, TokenBody(token))
    case None => Reply(500, Message("Error generating token"))
  }
}
