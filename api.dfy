/**
 * The tournament state cache of `client/js/api.js`: the module-level current
 * tournament and user, the `currentTournamentId` pointer in local storage and
 * the calls that refresh them from the backend.
 */
module Api {
  import opened Wrappers
  import opened Strings
  import opened Records
  import opened Browser
  import opened Http
  import Session

  const NotLoggedInMessage := "Nicht eingeloggt: Token fehlt. Bitte neu einloggen."
  const NotJwtMessage := "Token sieht nicht wie ein JWT aus. Bitte neu einloggen."
  const CreateFailedMessage := "Fehler beim Erstellen des Turniers"
  const LoadFailedMessage := "Fehler beim Laden des Turniers"
  const SaveMatchFailedMessage := "Fehler beim Speichern des Matches"
  const SavePlayoffFailedMessage := "Fehler beim Speichern des Playoff-Matches"

  /** What an API call throws: an `Error` with a message, or the error of `fetch` itself. */
  datatype Failure = Thrown(message: string) | FetchFailed

  /** The stored token counts as missing: null, empty, or the text of null or undefined. */
  predicate TokenMissing(stored: Option<string>)
    ensures !TokenMissing(stored) ==> Truthy(stored)
    ensures stored == Some("null") || stored == Some("undefined") ==> TokenMissing(stored)
  {
    !Truthy(stored) || stored.value == "null" || stored.value == "undefined"
  }

  /** A signed token's first segment is base64 JSON, so it starts with `eyJ`. */
  predicate LooksLikeJwt(token: string)
    ensures LooksLikeJwt(token) <==> |token| >= 3 && token == "eyJ" + token[3..]
    ensures LooksLikeJwt(token) ==> !TokenMissing(Some(token))
  {
    var prefixed := |token| >= 3 && token[..3] == "eyJ";
    assert prefixed ==> token[0] == 'e';
    prefixed
  }

  /**
   * The message `createTournament` throws for a non-2xx reply: the server's
   * `message` if the body is JSON with a truthy one, else the body text if it
   * is not JSON (or is `null`) and not empty, else the default.
   */
  function CreateErrorMessage(text: string, json: ErrorJson): (msg: string)
    ensures msg != ""
  {
    match json
    case Json(message) => if Truthy(message) then message.value else CreateFailedMessage
    case _ => if text != "" then text else CreateFailedMessage
  }

  /** What a tournament call returns for a reply, given the message it throws for a non-2xx one. */
  function Received(reply: Reply<Tournament>, notOk: string): (r: Result<Tournament, Failure>)
    ensures r.Success? <==> reply.Ok?
  {
    match reply
    case Ok(t) => Success(t)
    case NotOk(_, _) => Failure(Thrown(notOk))
    case NetworkError => Failure(FetchFailed)
  }

  /** What `loadUserTournaments` returns: the list on a 2xx reply, otherwise nothing. */
  function Listed(reply: Reply<seq<Tournament>>): (list: seq<Tournament>)
    ensures reply.Ok? ==> list == reply.value
    ensures !reply.Ok? ==> list == []
  {
    if reply.Ok? then reply.value else []
  }

  /** The tournament `initializeApp` opens: the stored id if truthy, else the first listed one. */
  function SelectedId(stored: Option<string>, list: seq<Tournament>): (id: string)
    requires |list| > 0
    ensures Truthy(stored) ==> id == stored.value
    ensures !Truthy(stored) ==> id == list[0].id
  {
    if Truthy(stored) then stored.value else list[0].id
  }

  /** The requests, each with the bearer header of the token as stored. */
  function CreateRequest(token: Option<string>, payload: Object): Request {
    Request(Post, "/tournaments", Some(Bearer(token)), Some(payload))
  }

  function LoadRequest(token: Option<string>, id: string): Request {
    Request(Get, "/tournaments/" + id, Some(Bearer(token)), None)
  }

  function ListRequest(token: Option<string>): Request {
    Request(Get, "/tournaments", Some(Bearer(token)), None)
  }

  function MatchRequest(token: Option<string>, id: string, stage: string, matchData: Object): Request {
    Request(Post, "/tournaments/" + id + "/" + stage, Some(Bearer(token)), Some(matchData))
  }

  class TournamentCache {
    /** `currentTournament` and `currentUser` of the module; `None` is null. */
    var currentTournament: Option<Tournament>
    var currentUser: Option<User>
    const storage: LocalStorage
    const window: Window

    /** The cache and the session use the page's one `localStorage`. */
    predicate SharesStorage(auth: Session.Auth) {
      auth.storage == storage
    }

    /** The cached tournament is the one whose id is persisted. */
    ghost predicate Consistent()
      reads this, storage
    {
      currentTournament.Some? ==> Lookup(storage.items, CurrentIdKey) == Some(currentTournament.value.id)
    }

    /** `t` is the current tournament in the cache, on the page and in storage, which was `before`. */
    ghost predicate Adopted(t: Tournament, before: map<string, string>)
      reads this, storage, window
    {
      && currentTournament == Some(t)
      && window.tournamentData == Some(AsObject(t))
      && storage.items == before[CurrentIdKey := t.id]
    }

    constructor (storage: LocalStorage, window: Window)
      ensures this.storage == storage && this.window == window
      ensures currentTournament == None && currentUser == None
      ensures Consistent()
    {
      this.storage := storage;
      this.window := window;
      currentTournament := None;
      currentUser := None;
    }

    /** Make `t` the current tournament in the cache, on the page and in storage. */
    method Adopt(t: Tournament)
      modifies this`currentTournament, storage, window
      ensures Adopted(t, old(storage.items))
      ensures Consistent()
    {
      currentTournament := Some(t);
      window.tournamentData := Some(AsObject(t));
      storage.SetItem(CurrentIdKey, t.id);
    }

    /** Send `request`; on a 2xx reply adopt the tournament it carries. */
    method Exchange(request: Request, reply: Reply<Tournament>, notOk: string)
      returns (result: Result<Tournament, Failure>, sent: seq<Request>)
      modifies this`currentTournament, storage, window
      ensures sent == [request]
      ensures result == Received(reply, notOk)
      ensures result.Success? ==> Adopted(result.value, old(storage.items))
      ensures result.Failure? ==> unchanged(this, storage, window)
      ensures old(Consistent()) ==> Consistent()
    {
      sent := [request];
      result := Received(reply, notOk);
      if result.Success? {
        Adopt(result.value);
      }
    }

    /**
     * `createTournament`: refuse to send without a plausible token, otherwise
     * post the payload and adopt the created tournament.
     */
    method CreateTournament(payload: Object, reply: Reply<Tournament>)
      returns (result: Result<Tournament, Failure>, sent: seq<Request>)
      modifies this`currentTournament, storage, window
      ensures var token := old(Lookup(storage.items, TokenKey));
        if TokenMissing(token) then result == Failure(Thrown(NotLoggedInMessage)) && sent == []
        else if !LooksLikeJwt(token.value) then result == Failure(Thrown(NotJwtMessage)) && sent == []
        else sent == [CreateRequest(token, payload)] && match reply
          case Ok(t) => result == Success(t)
          case NotOk(text, json) => result == Failure(Thrown(CreateErrorMessage(text, json)))
          case NetworkError => result == Failure(FetchFailed)
      ensures result.Success? ==> Adopted(result.value, old(storage.items))
      ensures result.Failure? ==> unchanged(this, storage, window)
      ensures old(Consistent()) ==> Consistent()
    {
      var token := storage.GetItem(TokenKey);
      if TokenMissing(token) {
        return Failure(Thrown(NotLoggedInMessage)), [];
      }
      if !LooksLikeJwt(token.value) {
        return Failure(Thrown(NotJwtMessage)), [];
      }
      var notOk := if reply.NotOk? then CreateErrorMessage(reply.text, reply.json) else CreateFailedMessage;
      result, sent := Exchange(CreateRequest(token, payload), reply, notOk);
    }

    /** `loadTournament`: fetch a tournament by id and adopt it. */
    method LoadTournament(id: string, reply: Reply<Tournament>)
      returns (result: Result<Tournament, Failure>, sent: seq<Request>)
      modifies this`currentTournament, storage, window
      ensures sent == [LoadRequest(old(Lookup(storage.items, TokenKey)), id)]
      ensures result == Received(reply, LoadFailedMessage)
      ensures result.Success? ==> Adopted(result.value, old(storage.items))
      ensures result.Failure? ==> unchanged(this, storage, window)
      ensures old(Consistent()) ==> Consistent()
    {
      var token := storage.GetItem(TokenKey);
      result, sent := Exchange(LoadRequest(token, id), reply, LoadFailedMessage);
    }

    /** `loadUserTournaments`: never fails; anything but a 2xx reply gives an empty list. */
    method LoadUserTournaments(reply: Reply<seq<Tournament>>)
      returns (list: seq<Tournament>, sent: seq<Request>)
      ensures sent == [ListRequest(Lookup(storage.items, TokenKey))]
      ensures list == Listed(reply)
    {
      sent := [ListRequest(storage.GetItem(TokenKey))];
      match reply {
        case Ok(tournaments) =>
          list := tournaments;
        case NotOk(_, _) =>
          list := [];
        case NetworkError =>
          list := [];
      }
    }

    /** `saveMatchResult`: post a group-stage result and adopt the updated tournament. */
    method SaveMatchResult(id: string, matchData: Object, reply: Reply<Tournament>)
      returns (result: Result<Tournament, Failure>, sent: seq<Request>)
      modifies this`currentTournament, storage, window
      ensures sent == [MatchRequest(old(Lookup(storage.items, TokenKey)), id, "matches", matchData)]
      ensures result == Received(reply, SaveMatchFailedMessage)
      ensures result.Success? ==> Adopted(result.value, old(storage.items))
      ensures result.Failure? ==> unchanged(this, storage, window)
      ensures old(Consistent()) ==> Consistent()
    {
      var token := storage.GetItem(TokenKey);
      result, sent := Exchange(MatchRequest(token, id, "matches", matchData), reply, SaveMatchFailedMessage);
    }

    /** `savePlayoffMatchResult`: post a playoff result and adopt the updated tournament. */
    method SavePlayoffMatchResult(id: string, matchData: Object, reply: Reply<Tournament>)
      returns (result: Result<Tournament, Failure>, sent: seq<Request>)
      modifies this`currentTournament, storage, window
      ensures sent == [MatchRequest(old(Lookup(storage.items, TokenKey)), id, "playoffs", matchData)]
      ensures result == Received(reply, SavePlayoffFailedMessage)
      ensures result.Success? ==> Adopted(result.value, old(storage.items))
      ensures result.Failure? ==> unchanged(this, storage, window)
      ensures old(Consistent()) ==> Consistent()
    {
      var token := storage.GetItem(TokenKey);
      result, sent := Exchange(MatchRequest(token, id, "playoffs", matchData), reply, SavePlayoffFailedMessage);
    }

    /**
     * `initializeApp`: with a stored token and user, list the user's
     * tournaments and open the stored one (unchecked against the list) or the
     * first; with none listed, forget the current tournament. A failed load is
     * caught and changes nothing.
     */
    method InitializeApp(listReply: Reply<seq<Tournament>>, loadReply: Reply<Tournament>)
      returns (sent: seq<Request>)
      modifies this, storage, window
      ensures var token := old(Lookup(storage.items, TokenKey));
        var user := DecodeUser(old(Lookup(storage.items, UserKey)).GetOr("null"));
        var list := Listed(listReply);
        if !(Truthy(token) && user.Some?) then
          && sent == []
          && currentUser == old(currentUser) && currentTournament == old(currentTournament)
          && window.tournamentData == old(window.tournamentData) && storage.items == old(storage.items)
        else if list == [] then
          && sent == [ListRequest(token)]
          && currentUser == user && currentTournament == None && window.tournamentData == None
          && storage.items == old(storage.items) - {CurrentIdKey}
        else
          var id := SelectedId(old(Lookup(storage.items, CurrentIdKey)), list);
          && sent == [ListRequest(token), LoadRequest(token, id)]
          && currentUser == user
          && match loadReply
            case Ok(t) => Adopted(t, old(storage.items))
            case _ =>
              && currentTournament == old(currentTournament)
              && window.tournamentData == old(window.tournamentData) && storage.items == old(storage.items)
      ensures old(Consistent()) ==> Consistent()
    {
      var token := storage.GetItem(TokenKey);
      var user := DecodeUser(storage.GetItem(UserKey).GetOr("null"));
      sent := [];
      if Truthy(token) && user.Some? {
        currentUser := user;
        var tournaments, listSent := LoadUserTournaments(listReply);
        sent := listSent;
        if |tournaments| > 0 {
          var id := SelectedId(storage.GetItem(CurrentIdKey), tournaments);
          var result, loadSent := LoadTournament(id, loadReply);
          sent := sent + loadSent;
          if result.Success? {
            currentTournament := Some(result.value);
          }
        } else {
          currentTournament := None;
          window.tournamentData := None;
          storage.RemoveItem(CurrentIdKey);
        }
      }
    }

    /** `refreshTournament`: reload the stored tournament; without a stored id, null. */
    method RefreshTournament(reply: Reply<Tournament>)
      returns (result: Result<Option<Tournament>, Failure>, sent: seq<Request>)
      modifies this`currentTournament, storage, window
      ensures var id := old(Lookup(storage.items, CurrentIdKey));
        if !Truthy(id) then result == Success(None) && sent == []
        else
          && sent == [LoadRequest(old(Lookup(storage.items, TokenKey)), id.value)]
          && match reply
            case Ok(t) => result == Success(Some(t)) && Adopted(t, old(storage.items))
            case NotOk(_, _) => result == Failure(Thrown(LoadFailedMessage))
            case NetworkError => result == Failure(FetchFailed)
      ensures result.Failure? || result == Success(None) ==> unchanged(this, storage, window)
      ensures old(Consistent()) ==> Consistent()
    {
      var id := storage.GetItem(CurrentIdKey);
      if !Truthy(id) {
        return Success(None), [];
      }
      var loaded;
      loaded, sent := LoadTournament(id.value, reply);
      result := if loaded.Success? then Success(Some(loaded.value)) else Failure(loaded.error);
    }
  }

  /** The stored texts "null" and "undefined" count as logged in but not as a token. */
  lemma StringifiedNullIsTruthy()
    ensures Truthy(Some("undefined")) && TokenMissing(Some("undefined"))
    ensures Truthy(Some("null")) && TokenMissing(Some("null"))
  {
  }

  /** The stored id wins even when it names no listed tournament. */
  lemma StoredIdNotCheckedAgainstList(stored: string, list: seq<Tournament>)
    requires stored != "" && |list| > 0
    ensures SelectedId(Some(stored), list) == stored
  {
  }
}
