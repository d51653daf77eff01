/**
 * The session store of `client/js/auth.js`: class `Auth` keeps the bearer
 * token and the user profile in memory and in local storage.
 */
module Session {
  import opened Wrappers
  import opened Strings
  import opened Records
  import opened Browser
  import opened Http

  const LoginFailedMessage := "Login fehlgeschlagen"
  const RegisterFailedMessage := "Registrierung fehlgeschlagen"
  const NetworkErrorMessage := "Netzwerkfehler"

  /** The members of an auth reply body the client reads; absent members are `None`. */
  datatype AuthData = AuthData(token: Option<string>, user: Option<User>, message: Option<string>)

  /** An auth reply body: JSON, or something `response.json()` rejects. */
  datatype AuthBody = Unparsable | Parsed(data: AuthData)

  /** The outcome of the auth `fetch`: a reply with its status class, or no reply at all. */
  datatype AuthReply = Answered(ok: bool, body: AuthBody) | Unreachable

  /** What `login` and `register` resolve to: `{success: true, data}` or `{success: false, message}`. */
  datatype AuthResult = Succeeded(data: AuthData) | Rejected(message: string)

  /** `response.json().catch(() => ({}))`: an unparsable body reads as the empty object. */
  function BodyData(body: AuthBody): (d: AuthData)
    ensures body.Parsed? ==> d == body.data
    ensures body.Unparsable? ==> d.token.None? && d.user.None? && !Truthy(d.message)
  {
    match body
    case Unparsable => AuthData(None, None, None)
    case Parsed(data) => data
  }

  /** `data.message || fallback`. */
  function FailureMessage(message: Option<string>, fallback: string): (m: string)
    ensures fallback != "" ==> m != ""
  {
    if Truthy(message) then message.value else fallback
  }

  /** `setItem(key, value)` stores `String(value)`, so an undefined token is stored as "undefined". */
  function StoredToken(token: Option<string>): (text: string)
    ensures token.Some? ==> text == token.value
    ensures Truthy(Some(text)) <==> token != Some("")
  {
    token.GetOr("undefined")
  }

  /** `JSON.stringify` of the user; `setItem` turns an undefined result into "undefined". */
  function StoredUser(user: Option<User>): (text: string)
    ensures user.Some? ==> DecodeUser(text) == user
    ensures user.None? ==> text == "undefined" && DecodeUser(text).None?
  {
    match user
    case Some(u) => DecodeEncodeUser(u); EncodeUser(u)
    case None => "undefined"
  }

  /** What a freshly constructed `Auth` reads back from storage. */
  function RestoredToken(items: map<string, string>): Option<string> {
    Lookup(items, TokenKey)
  }

  function RestoredUser(items: map<string, string>): Option<User> {
    match Lookup(items, UserKey)
    case Some(text) => DecodeUser(text)
    case None => None
  }

  /** Writing a session with a token and a profile and reading it back gives the same session. */
  lemma RestoreAfterWrite(items: map<string, string>, token: string, user: User)
    ensures var written := items[TokenKey := StoredToken(Some(token))][UserKey := StoredUser(Some(user))];
      RestoredToken(written) == Some(token) && RestoredUser(written) == Some(user)
  {
    var written := items[TokenKey := StoredToken(Some(token))][UserKey := StoredUser(Some(user))];
    assert Lookup(written, UserKey) == Some(EncodeUser(user));
    DecodeEncodeUser(user);
  }

  /**
   * A 2xx reply without a profile leaves the text "undefined" under the user
   * key, which is not JSON: a reload cannot restore a profile from it.
   */
  lemma MissingUserStoresUndefined(items: map<string, string>, token: Option<string>)
    ensures var written := items[TokenKey := StoredToken(token)][UserKey := StoredUser(None)];
      Lookup(written, UserKey) == Some("undefined") && RestoredUser(written).None?
  {
  }

  /** A 2xx reply without a token leaves the text "undefined" behind, which reads back as a token. */
  lemma MissingTokenRestoresAsText(items: map<string, string>, user: Option<User>)
    ensures var written := items[TokenKey := StoredToken(None)][UserKey := StoredUser(user)];
      RestoredToken(written) == Some("undefined") && Truthy(RestoredToken(written))
  {
  }

  class Auth {
    /** `this.token` and `this.user`; `None` is null or undefined. */
    var token: Option<string>
    var user: Option<User>
    const storage: LocalStorage

    /** Memory and storage agree: a reload would restore exactly this session. */
    ghost predicate Persisted()
      reads this, storage
    {
      token == RestoredToken(storage.items) && user == RestoredUser(storage.items)
    }

    /** `isLoggedIn`: `!!this.token`. */
    predicate IsLoggedIn()
      reads this
      ensures token.None? || token == Some("") ==> !IsLoggedIn()
      ensures token == Some("null") || token == Some("undefined") ==> IsLoggedIn()
    {
      Truthy(token)
    }

    /** The constructor restores the session from storage. */
    constructor (storage: LocalStorage)
      ensures this.storage == storage
      ensures token == RestoredToken(storage.items) && user == RestoredUser(storage.items)
      ensures Persisted()
    {
      this.storage := storage;
      token := RestoredToken(storage.items);
      user := RestoredUser(storage.items);
    }

    /** The shared body of `login` and `register`: post `credentials` to `path` and act on the reply. */
    method Authenticate(path: string, credentials: Object, fallback: string, reply: AuthReply)
      returns (result: AuthResult, sent: seq<Request>)
      modifies this, storage
      ensures sent == [Request(Post, path, None, Some(credentials))]
      ensures match reply
        case Answered(ok, body) =>
          var d := BodyData(body);
          if ok then
            && result == Succeeded(d) && token == d.token && user == d.user
            && storage.items == old(storage.items)[TokenKey := StoredToken(d.token)][UserKey := StoredUser(d.user)]
          else
            result == Rejected(FailureMessage(d.message, fallback))
        case Unreachable => result == Rejected(NetworkErrorMessage)
      ensures result.Rejected? ==> unchanged(this, storage)
      ensures result.Succeeded? && result.data.token.Some? && result.data.user.Some? ==> Persisted()
      ensures result.Rejected? && old(Persisted()) ==> Persisted()
    {
      sent := [Request(Post, path, None, Some(credentials))];
      match reply {
        case Unreachable =>
          result := Rejected(NetworkErrorMessage);
        case Answered(ok, body) =>
          var d := BodyData(body);
          if ok {
            token := d.token;
            user := d.user;
            storage.SetItem(TokenKey, StoredToken(token));
            storage.SetItem(UserKey, StoredUser(user));
            if d.token.Some? && d.user.Some? {
              RestoreAfterWrite(old(storage.items), d.token.value, d.user.value);
            }
            result := Succeeded(d);
          } else {
            result := Rejected(FailureMessage(d.message, fallback));
          }
      }
    }

    /** `login(email, password)`. */
    method Login(email: string, password: string, reply: AuthReply)
      returns (result: AuthResult, sent: seq<Request>)
      modifies this, storage
      ensures sent == [Request(Post, "/auth/login", None, Some(map["email" := Str(email), "password" := Str(password)]))]
      ensures match reply
        case Answered(ok, body) =>
          var d := BodyData(body);
          if ok then
            && result == Succeeded(d) && token == d.token && user == d.user
            && storage.items == old(storage.items)[TokenKey := StoredToken(d.token)][UserKey := StoredUser(d.user)]
          else
            result == Rejected(FailureMessage(d.message, LoginFailedMessage))
        case Unreachable => result == Rejected(NetworkErrorMessage)
      ensures result.Rejected? ==> unchanged(this, storage)
      ensures result.Succeeded? && result.data.token.Some? && result.data.user.Some? ==> Persisted()
      ensures result.Succeeded? ==> (IsLoggedIn() <==> Truthy(result.data.token))
    {
      var credentials := map["email" := Str(email), "password" := Str(password)];
      result, sent := Authenticate("/auth/login", credentials, LoginFailedMessage, reply);
    }

    /** `register(username, email, password)`. */
    method Register(username: string, email: string, password: string, reply: AuthReply)
      returns (result: AuthResult, sent: seq<Request>)
      modifies this, storage
      ensures sent == [Request(Post, "/auth/register", None,
        Some(map["username" := Str(username), "email" := Str(email), "password" := Str(password)]))]
      ensures match reply
        case Answered(ok, body) =>
          var d := BodyData(body);
          if ok then
            && result == Succeeded(d) && token == d.token && user == d.user
            && storage.items == old(storage.items)[TokenKey := StoredToken(d.token)][UserKey := StoredUser(d.user)]
          else
            result == Rejected(FailureMessage(d.message, RegisterFailedMessage))
        case Unreachable => result == Rejected(NetworkErrorMessage)
      ensures result.Rejected? ==> unchanged(this, storage)
      ensures result.Succeeded? && result.data.token.Some? && result.data.user.Some? ==> Persisted()
      ensures result.Succeeded? ==> (IsLoggedIn() <==> Truthy(result.data.token))
    {
      var credentials := map["username" := Str(username), "email" := Str(email), "password" := Str(password)];
      result, sent := Authenticate("/auth/register", credentials, RegisterFailedMessage, reply);
    }

    /** `logout`: forget the session and the current tournament pointer; nothing else. */
    method Logout()
      modifies this, storage
      ensures token == None && user == None
      ensures storage.items == old(storage.items) - {TokenKey, UserKey, CurrentIdKey}
      ensures !IsLoggedIn() && Persisted()
    {
      token := None;
      user := None;
      storage.RemoveItem(TokenKey);
      storage.RemoveItem(UserKey);
      storage.RemoveItem(CurrentIdKey);
    }
  }
}
