/**
 * The sign-up form (frontend/src/pages/SignupPage.jsx): `handleSubmit`
 * validates the two passwords, then posts the registration and, on success,
 * stores the returned token and logs the returned data into the session.
 *
 * The POST itself is the network: its settled outcome is a parameter.
 * Navigation after success is not modelled.
 */
module SignupForm {
  import opened Wrappers
  import opened Session

  const MinPasswordLength: nat := 6

  const MismatchError := "Passwords do not match"
  const LengthError := "Password must be at least 6 characters long"
  const DefaultServerError := "Server error occurred"
  const NoResponseError := "No response from server. Please check if the backend server is running."
  const SetupError := "Error setting up the request. Please try again."

  /** How the axios POST settled (lines 36-63). */
  datatype RegisterOutcome =
    | Succeeded(data: UserData)
    /** `error.response`: the server answered outside 2xx; `message` is `error.response.data.message`. */
    | ServerRejected(message: Option<string>)
    /** `error.request`: no response arrived. */
    | NoResponse
    /** Anything else: the request could not be set up. */
    | SetupFailed

  /** The UTF-16 code units of one character: itself, or a surrogate pair outside the BMP. */
  function Utf16Units(c: char): seq<int>
  {
    var v := c as int;
    if v < 0x1_0000 then [v] else [0xD800 + (v - 0x1_0000) / 0x400, 0xDC00 + (v - 0x1_0000) % 0x400]
  }

  /** The UTF-16 encoding of a string, character by character. */
  function Utf16Encode(s: string): seq<int>
  {
    if s == [] then [] else Utf16Units(s[0]) + Utf16Encode(s[1..])
  }

  /** `password.length`: JavaScript counts UTF-16 code units, so a character outside the BMP counts twice. */
  function Utf16Length(s: string): (n: nat)
    ensures n == |Utf16Encode(s)|
    ensures |s| <= n <= 2 * |s|
  {
    if s == [] then 0 else (if s[0] as int >= 0x1_0000 then 2 else 1) + Utf16Length(s[1..])
  }

  /** The message shown for a failed request (lines 53-63). */
  function FailureMessage(outcome: RegisterOutcome): (msg: string)
    requires !outcome.Succeeded?
    ensures msg != ""
    ensures outcome.ServerRejected? && Truthy(outcome.message) ==> msg == outcome.message.value
    ensures outcome.ServerRejected? && !Truthy(outcome.message) ==> msg == DefaultServerError
    ensures outcome.NoResponse? ==> msg == NoResponseError
    ensures outcome.SetupFailed? ==> msg == SetupError
  {
    match outcome
    case ServerRejected(m) => if Truthy(m) then m.value else DefaultServerError
    case NoResponse => NoResponseError
    case SetupFailed => SetupError
  }

  /** `data[key]`: the value of the first field with that name, if the object has one. */
  function Lookup(data: UserData, key: string): Option<string>
  {
    LookupIn(data.fields, key)
  }

  function LookupIn(fields: seq<(string, string)>, key: string): (r: Option<string>)
    ensures r.Some? <==> exists i :: 0 <= i < |fields| && fields[i].0 == key
    ensures r.Some? ==> exists i :: 0 <= i < |fields| && fields[i] == (key, r.value) && forall j :: 0 <= j < i ==> fields[j].0 != key
  {
    if fields == [] then None
    else if fields[0].0 == key then Some(fields[0].1)
    else LookupIn(fields[1..], key)
  }

  /** `localStorage.setItem('token', response.data.token)`: a missing token is stored as "undefined". */
  function TokenToStore(data: UserData): (stored: string)
    ensures (exists i :: 0 <= i < |data.fields| && data.fields[i].0 == "token") ==>
      exists i :: 0 <= i < |data.fields| && data.fields[i] == ("token", stored)
    ensures (forall i :: 0 <= i < |data.fields| ==> data.fields[i].0 != "token") ==> stored == "undefined"
  {
    match Lookup(data, "token")
    case Some(t) => t
    case None => "undefined"
  }

  class SignupPage {
    var name: string
    var email: string
    var password: string
    var confirmPassword: string
    var error: string
    var loading: bool
    const session: UserSession

    constructor (session: UserSession)
      ensures this.session == session
      ensures name == "" && email == "" && password == "" && confirmPassword == ""
      ensures error == "" && !loading
    {
      this.session := session;
      name, email, password, confirmPassword := "", "", "", "";
      error := "";
      loading := false;
    }

    /**
     * `handleSubmit` (lines 18-67). `requested` tells whether the POST was
     * made; it is made exactly when the passwords agree and are long enough.
     */
    method HandleSubmit(outcome: RegisterOutcome) returns (requested: bool)
      modifies this`error, this`loading, session`user, session`storage
      ensures requested <==> password == confirmPassword && Utf16Length(password) >= MinPasswordLength
      ensures password != confirmPassword ==> error == MismatchError
      ensures password == confirmPassword && Utf16Length(password) < MinPasswordLength ==> error == LengthError
      ensures !requested ==>
        loading == old(loading) && session.user == old(session.user) && session.storage == old(session.storage)
      ensures requested ==> !loading
      ensures requested && outcome.Succeeded? ==>
        && error == ""
        && session.user == Some(outcome.data)
        && session.storage == old(session.storage)[TokenKey := TokenToStore(outcome.data)][UserKey := Stringify(Some(outcome.data))]
      ensures requested && !outcome.Succeeded? ==>
        error == FailureMessage(outcome) && session.user == old(session.user) && session.storage == old(session.storage)
    {
      error := "";

      if password != confirmPassword {
        error := MismatchError;
        return false;
      }

      if Utf16Length(password) < MinPasswordLength {
        error := LengthError;
        return false;
      }

      loading := true;
      requested := true;
      match outcome {
        case Succeeded(data) =>
          session.storage := session.storage[TokenKey := TokenToStore(data)];
          session.Login(data);
        case _ =>
          error := FailureMessage(outcome);
      }
      loading := false;
    }
  }
}
