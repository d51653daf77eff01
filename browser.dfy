/** The two pieces of browser state the client shares between its modules. */
module Browser {
  import opened Wrappers
  import opened Records

  /** The storage keys the client uses. */
  const TokenKey := "token"
  const UserKey := "user"
  const CurrentIdKey := "currentTournamentId"

  /** Lookup in a storage map: `getItem`, with `None` for null. */
  function Lookup(items: map<string, string>, key: string): (r: Option<string>)
    ensures r.Some? <==> key in items
    ensures r.Some? ==> r.value == items[key]
  {
    if key in items then Some(items[key]) else None
  }

  /** `window.localStorage`: durable string storage shared by every module of the page. */
  class LocalStorage {
    var items: map<string, string>

    constructor (initial: map<string, string>)
      ensures items == initial
    {
      items := initial;
    }

    function GetItem(key: string): Option<string>
      reads this
    {
      Lookup(items, key)
    }

    method SetItem(key: string, value: string)
      modifies this
      ensures items == old(items)[key := value]
    {
      items := items[key := value];
    }

    method RemoveItem(key: string)
      modifies this
      ensures items == old(items) - {key}
    {
      items := items - {key};
    }
  }

  /** The page's global object, as far as the client uses it: `window.tournamentData`. */
  class Window {
    /** The creation draft or the current tournament record; `None` is null. */
    var tournamentData: Option<Object>

    constructor (data: Option<Object>)
      ensures tournamentData == data
    {
      tournamentData := data;
    }
  }
}
