/**
 * The JSON values the client passes around. Tournament records and user
 * profiles are owned by the backend; the client only copies them, so they are
 * kept opaque apart from the members it reads.
 */
module Records {
  import opened Wrappers

  /** A member value of a JavaScript object, as far as the client tells values apart. */
  datatype Value =
    | Str(s: string)
    | Num(n: int)
    | Names(names: seq<string>)     // an array of strings, e.g. `teamNames`
    | Teams(teams: seq<string>)     // an array of `{ name }` objects, e.g. `teams`
    | Opaque(tag: nat)              // anything the client only passes through (groups, schedule, ...)

  /** A plain JavaScript object: member name to value. */
  type Object = map<string, Value>

  /** A tournament record as the backend returns it: its `_id` and its other members. */
  datatype Tournament = Tournament(id: string, members: Object)

  /** The object the record is in JavaScript: its members with `_id` among them. */
  function AsObject(t: Tournament): (o: Object)
    ensures "_id" in o && o["_id"] == Str(t.id)
    ensures o.Keys == t.members.Keys + {"_id"}
    ensures forall k :: k in t.members && k != "_id" ==> o[k] == t.members[k]
  {
    t.members["_id" := Str(t.id)]
  }

  /** A user profile, kept as the text of its JSON object members. */
  datatype User = User(members: string)

  /** `JSON.stringify` of a user profile. */
  function EncodeUser(u: User): (s: string)
    ensures |s| >= 2 && s[0] == '{' && s[|s| - 1] == '}'
  {
    "{" + u.members + "}"
  }

  /**
   * `JSON.parse` of stored user text: an object gives a profile; `"null"` and
   * every other text give no profile.
   */
  function DecodeUser(s: string): (u: Option<User>)
    ensures u.Some? ==> EncodeUser(u.value) == s
    ensures s == "null" || s == "undefined" ==> u.None?
  {
    if |s| >= 2 && s[0] == '{' && s[|s| - 1] == '}' then Some(User(s[1..|s| - 1])) else None
  }

  /** A profile survives being written to storage and read back. */
  lemma DecodeEncodeUser(u: User)
    ensures DecodeUser(EncodeUser(u)) == Some(u)
  {
    var s := EncodeUser(u);
    assert s[1..|s| - 1] == u.members;
  }
}
