/**
 * backend/controllers/userController.js: the caller's own profile. The
 * router in backend/routes/user.js attaches no authentication middleware, and
 * backend/server.js installs only `cors()` and `express.json()` before it, so
 * as wired `req.user` is never set. The caller's id is still a parameter,
 * `None` when `req.user` is missing (the handler then throws and its catch
 * replies 500 "Server error"), so that the handlers' other branches are
 * modelled too.
 */
module UserController {
  import opened Wrappers
  import opened UserDb
  import opened Http

  datatype ProfileBody = ProfileBody(username: Option<string>, email: Option<string>)

  const UserDeleted := Reply(200, Message("User deleted"))

  /** `exports.getProfile` (lines 4-12): the record without its password, or `null`. */
  method GetProfile(db: Database, caller: Option<UserId>) returns (reply: Reply)
    requires db.Valid()
    ensures caller.None? ==> reply == ServerError
    ensures caller.Some? && caller.value in db.users ==>
      reply == Reply(200, UserBody(WithoutPassword(db.users[caller.value])))
    ensures caller.Some? && caller.value !in db.users ==> reply == Reply(200, NullBody)
  {
    if caller.None? {
      return ServerError;
    }
    var user := db.FindById(caller.value);
    match user
    case Some(u) => reply := Reply(200, UserBody(WithoutPassword(u)));
    case None => reply := Reply(200, NullBody);
  }

  /**
   * The `$set` document of lines 18-22: a field is written only when the
   * request supplies it with a truthy value.
   */
  function ProfileFields(body: ProfileBody): (fields: UserFields)
    ensures fields.username.Some? <==> Truthy(body.username)
    ensures fields.email.Some? <==> Truthy(body.email)
    ensures fields.username.Some? ==> fields.username == body.username
    ensures fields.email.Some? ==> fields.email == body.email
  {
    UserFields(
      if Truthy(body.username) then body.username else None,
      if Truthy(body.email) then body.email else None)
  }

  /**
   * `exports.updateProfile` (lines 15-35). The new email is not checked
   * against the other records.
   */
  method UpdateProfile(db: Database, caller: Option<UserId>, body: ProfileBody) returns (reply: Reply)
    requires db.Valid()
    modifies db
    ensures db.Valid()
    ensures caller.None? ==> reply == ServerError && db.users == old(db.users)
    ensures caller.Some? && caller.value !in old(db.users) ==> reply == UserNotFound && db.users == old(db.users)
    ensures caller.Some? && caller.value in old(db.users) ==>
      var id := caller.value;
      var before := old(db.users)[id];
      && id in db.users
      && var after := db.users[id];
      && db.users == old(db.users)[id := after]
      && after.id == id && after.password == before.password
      && after.username == (if Truthy(body.username) then body.username.value else before.username)
      && after.email == (if Truthy(body.email) then body.email.value else before.email)
      && reply == Reply(200, UserBody(WithoutPassword(after)))
  {
    var fields := ProfileFields(body);
    if caller.None? {
      return ServerError;
    }
    var id := caller.value;
    var user := db.FindById(id);
    if user.None? {
      return UserNotFound;
    }
    var updated := db.FindByIdAndUpdate(id, fields);
    reply := Reply(200, UserBody(WithoutPassword(updated.value)));
  }

  /**
   * `exports.deleteAccount` (lines 38-52): the caller's record is gone
   * afterwards, and the reply is the same whether or not it existed.
   */
  method DeleteAccount(db: Database, caller: Option<UserId>) returns (reply: Reply)
    requires db.Valid()
    modifies db
    ensures db.Valid()
    ensures caller.None? ==> reply == ServerError && db.users == old(db.users)
    ensures caller.Some? ==> reply == UserDeleted && db.users == old(db.users) - {caller.value}
  {
    if caller.None? {
      return ServerError;
    }
    db.FindOneAndRemove(caller.value);
    reply := UserDeleted;
  }

  /**
   * A profile update can give a record another record's email: updating
   * record `i` with the (non-empty) email of a different record `j` leaves
   * two records with that email, whatever the table held before.
   */
  lemma UpdateCanDuplicateEmail(users: map<UserId, User>, i: UserId, j: UserId)
    requires i in users && j in users && i != j && users[j].email != ""
    ensures !EmailsUnique(users[i := ApplyFields(users[i], ProfileFields(ProfileBody(None, Some(users[j].email))))])
  {
    var updated := users[i := ApplyFields(users[i], ProfileFields(ProfileBody(None, Some(users[j].email))))];
    assert updated[i].email == updated[j].email;
  }
}
