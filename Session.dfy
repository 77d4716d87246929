/**
 * The client-side session (frontend/src/context/UserContext.jsx): the current
 * `user` and the browser's `localStorage`, which holds the serialised user
 * under "user" and the bearer token under "token".
 *
 * `JSON.parse` is foreign to this model: the restore step receives it as a
 * function. The profile request of `fetchUserProfile` is the network; its
 * outcome is a parameter of the step that handles it.
 */
module Session {
  import opened Wrappers

  const UserKey := "user"
  const TokenKey := "token"

  /**
   * A JSON object received from the backend, already parsed (`response.data`),
   * as its string-valued fields in order. Its keys are therefore distinct, as
   * in any JavaScript object; lookups take the first field with a key, which
   * is then the only one.
   */
  datatype UserData = UserData(fields: seq<(string, string)>)

  /** `JSON.stringify` of a user value; `null` for a missing one. Escaping of quotes is not modelled. */
  function Stringify(d: Option<UserData>): (json: string)
    ensures json == "null" <==> d.None?
    ensures d.Some? ==> |json| >= 2 && json[0] == '{' && json[|json| - 1] == '}'
  {
    match d
    case None => "null"
    case Some(data) => "{" + Members(data.fields) + "}"
  }

  function Members(fields: seq<(string, string)>): string
  {
    if fields == [] then ""
    else
      var member := "\"" + fields[0].0 + "\":\"" + fields[0].1 + "\"";
      if |fields| == 1 then member else member + "," + Members(fields[1..])
  }

  /**
   * What `JSON.parse` makes of a stored string: a parse error (it throws), or
   * a value; `Parsed(None)` is a falsy value such as `null`.
   */
  datatype ParseResult = ParseError | Parsed(value: Option<UserData>)

  /** The settled profile request: failed (any axios error), or the response body. */
  datatype ProfileFetch = FetchFailed | Fetched(data: Option<UserData>)

  /** `localStorage.getItem(key)` is truthy: present and not the empty string. */
  predicate Stored(storage: map<string, string>, key: string)
  {
    key in storage && storage[key] != ""
  }

  class UserSession {
    var user: Option<UserData>
    var loading: bool
    /** `localStorage` */
    var storage: map<string, string>

    /** `useState(null)`, `useState(true)` over the browser's existing storage. */
    constructor (browserStorage: map<string, string>)
      ensures user == None && loading && storage == browserStorage
    {
      user := None;
      loading := true;
      storage := browserStorage;
    }

    /** `isAuthenticated` (lines 56-58): `!!user`. */
    predicate IsAuthenticated(): (authenticated: bool)
      reads this
      ensures authenticated <==> user.Some?
    {
      user.Some?
    }

    /** `login(userData)` (lines 45-48). */
    method Login(d: UserData)
      modifies this`user, this`storage
      ensures user == Some(d) && IsAuthenticated()
      ensures storage == old(storage)[UserKey := Stringify(Some(d))]
    {
      user := Some(d);
      storage := storage[UserKey := Stringify(Some(d))];
    }

    /** `logout` (lines 50-54): both keys go, every other key stays. */
    method Logout()
      modifies this`user, this`storage
      ensures user == None && !IsAuthenticated()
      ensures storage == old(storage) - {UserKey, TokenKey}
      ensures forall k :: k != UserKey && k != TokenKey ==> (k in storage <==> k in old(storage))
    {
      user := None;
      storage := storage - {UserKey, TokenKey};
    }

    /**
     * The mount effect (lines 10-28). When a stored user and a token are both
     * present and the user parses, it becomes the session's user and a profile
     * request is started with the token, which is returned; a parse error
     * clears both keys. Loading ends in every case.
     */
    method Restore(parse: string -> ParseResult) returns (profileRequest: Option<string>)
      modifies this`user, this`storage, this`loading
      ensures !loading
      ensures !(Stored(old(storage), UserKey) && Stored(old(storage), TokenKey)) ==>
        user == old(user) && storage == old(storage) && profileRequest == None
      ensures Stored(old(storage), UserKey) && Stored(old(storage), TokenKey) ==>
        match parse(old(storage)[UserKey])
        case ParseError =>
          user == old(user) && storage == old(storage) - {UserKey, TokenKey} && profileRequest == None
        case Parsed(v) =>
          user == v && storage == old(storage) && profileRequest == Some(old(storage)[TokenKey])
      ensures IsAuthenticated() && !old(IsAuthenticated()) ==>
        Stored(old(storage), UserKey) && Stored(old(storage), TokenKey)
    {
      profileRequest := None;
      if Stored(storage, UserKey) && Stored(storage, TokenKey) {
        var storedUser, token := storage[UserKey], storage[TokenKey];
        match parse(storedUser) {
          case Parsed(parsedUser) =>
            user := parsedUser;
            profileRequest := Some(token);
          case ParseError =>
            storage := storage - {UserKey};
            storage := storage - {TokenKey};
        }
      }
      loading := false;
    }

    /** The end of `fetchUserProfile` (lines 30-43): fresh data replaces the user; a failure logs out. */
    method ProfileFetched(outcome: ProfileFetch)
      modifies this`user, this`storage
      ensures outcome.FetchFailed? ==> user == None && storage == old(storage) - {UserKey, TokenKey}
      ensures outcome.Fetched? ==>
        user == outcome.data && storage == old(storage)[UserKey := Stringify(outcome.data)]
    {
      match outcome {
        case Fetched(data) =>
          user := data;
          storage := storage[UserKey := Stringify(data)];
        case FetchFailed =>
          Logout();
      }
    }
  }
}
