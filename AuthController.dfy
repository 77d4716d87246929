/**
 * backend/controllers/authController.js: registration, login and the
 * current-user lookup. Each handler is a sequence of early-return checks;
 * only a successful registration writes to the store.
 *
 * `req.user` is set by an authentication middleware that is not part of this
 * model: the caller's id is a parameter, `None` when `req.user` is missing
 * (reading `.id` of it throws, and the handler's catch replies 500). The
 * clock (`now`) and bcrypt's salt are parameters as well; `secret` is
 * `process.env.JWT_SECRET`.
 */
module AuthController {
  import opened Wrappers
  import opened UserDb
  import opened Tokens
  import opened Http

  datatype RegisterBody = RegisterBody(username: Option<string>, email: Option<string>, password: Option<string>)
  datatype LoginBody = LoginBody(email: Option<string>, password: Option<string>)

  const MissingFields := Reply(400, Message("Please provide all required fields"))
  const UserExists := Reply(400, Message("User already exists"))
  const MissingCredentials := Reply(400, Message("Please provide both email and password"))
  /** The one reply for an unknown email and for a wrong password alike. */
  const InvalidCredentials := Reply(400, Message("Invalid credentials"))

  /** `exports.register` (lines 6-59). */
  method Register(db: Database, body: RegisterBody, secret: Option<string>, salt: nat, now: nat)
    returns (reply: Reply)
    requires db.Valid()
    modifies db
    ensures db.Valid()
    ensures !(Truthy(body.username) && Truthy(body.email) && Truthy(body.password)) ==>
      reply == MissingFields && db.users == old(db.users)
    ensures Truthy(body.username) && Truthy(body.email) && Truthy(body.password) && EmailTaken(old(db.users), body.email.value) ==>
      reply == UserExists && db.users == old(db.users)
    ensures Truthy(body.username) && Truthy(body.email) && Truthy(body.password) && !EmailTaken(old(db.users), body.email.value) ==>
      var id := old(db.nextId);
      && id !in old(db.users)
      && db.users == old(db.users)[id := User(id, body.username.value, body.email.value, HashPassword(body.password.value, salt))]
      && reply == TokenReply(id, secret, now)
    ensures db.users != old(db.users) ==> |db.users| == |old(db.users)| + 1
    ensures EmailsUnique(old(db.users)) ==> EmailsUnique(db.users)
  {
    if !Truthy(body.username) || !Truthy(body.email) || !Truthy(body.password) {
      return MissingFields;
    }
    var username, email, password := body.username.value, body.email.value, body.password.value;

    var existing := db.FindOneByEmail(email);
    if existing.Some? {
      return UserExists;
    }

    ghost var before := db.users;
    var id := db.Save(username, email, password, salt);
    assert db.users.Keys == before.Keys + {id};
    reply := TokenReply(id, secret, now);
  }

  /** `exports.login` (lines 62-113). It only reads the store. */
  method Login(db: Database, body: LoginBody, secret: Option<string>, now: nat) returns (reply: Reply)
    requires db.Valid()
    ensures !(Truthy(body.email) && Truthy(body.password)) ==> reply == MissingCredentials
    ensures Truthy(body.email) && Truthy(body.password) ==>
      match db.FindOneByEmail(body.email.value)
      case None => reply == InvalidCredentials
      case Some(u) =>
        reply == if ComparePassword(u.password, body.password.value) then TokenReply(u.id, secret, now) else InvalidCredentials
    ensures reply.status == 200 ==>
      && Truthy(body.email) && Truthy(body.password) && Truthy(secret)
      && exists id :: id in db.users && db.users[id].email == body.email.value
                      && ComparePassword(db.users[id].password, body.password.value)
                      && reply.body == TokenBody(Token(id, now + TokenLifetime))
    ensures EmailsUnique(db.users) && Truthy(body.email) && Truthy(body.password) && Truthy(secret) ==>
      (reply.status == 200 <==>
        exists id :: id in db.users && db.users[id].email == body.email.value
                     && ComparePassword(db.users[id].password, body.password.value))
  {
    if !Truthy(body.email) || !Truthy(body.password) {
      return MissingCredentials;
    }
    var email, password := body.email.value, body.password.value;

    var user := db.FindOneByEmail(email);
    if user.None? {
      return InvalidCredentials;
    }

    var isMatch := ComparePassword(user.value.password, password);
    if !isMatch {
      return InvalidCredentials;
    }

    reply := TokenReply(user.value.id, secret, now);
  }

  /** `exports.getCurrentUser` (lines 116-130). */
  method GetCurrentUser(db: Database, caller: Option<UserId>) returns (reply: Reply)
    requires db.Valid()
    ensures caller.None? ==> reply == ServerError
    ensures caller.Some? && caller.value !in db.users ==> reply == UserNotFound
    ensures caller.Some? && caller.value in db.users ==>
      reply == Reply(200, UserBody(WithoutPassword(db.users[caller.value])))
    ensures reply.status == 200 ==> reply.body.UserBody? && reply.body.user.id == caller.value
  {
    if caller.None? {
      return ServerError;
    }
    var user := db.FindById(caller.value);
    if user.None? {
      return UserNotFound;
    }
    reply := Reply(200, UserBody(WithoutPassword(user.value)));
  }
}
