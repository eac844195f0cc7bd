/**
 * The persisted session: the one storage key `devops.auth`, what is
 * written there at login and how it is read back at start-up.
 */
module Session {
  import opened Wrappers
  import opened Js

  /** The one storage key the client uses. */
  const AuthStorageKey := "devops.auth"

  /** A record is a session when both its `user` and its `token` are truthy. */
  predicate HasSession(record: Json) {
    TruthyValue(Field(record, "user")) && TruthyValue(Field(record, "token"))
  }

  /**
   * `getSavedAuth()`, given what storage holds for the key (None when the
   * key is absent) and `JSON.parse` (None when it throws). A corrupt record
   * reads as "no session" and is never an error.
   */
  function SavedAuth(stored: Option<string>, parse: string -> Option<Json>): (r: Option<Json>)
    ensures r.Some? <==> (stored.Some? && stored.value != "" && parse(stored.value).Some?
                          && HasSession(parse(stored.value).value))
    ensures r.Some? ==> parse(stored.value) == r
  {
    if stored.None? || stored.value == "" then None
    else match parse(stored.value)
      case None => None
      case Some(parsed) => if HasSession(parsed) then Some(parsed) else None
  }

  /**
   * `{ token: data.token, user: data.user }` as a value: a property that
   * `data` lacks is `undefined`, which `JSON.stringify` drops and every read
   * treats as absent.
   */
  function NextAuth(data: Json): (r: Json)
    ensures r.JObj? && r.fields.Keys <= {"token", "user"}
    ensures Field(r, "token") == Field(data, "token") && Field(r, "user") == Field(data, "user")
  {
    var withToken := if Field(data, "token").Some? then map["token" := Field(data, "token").value] else map[];
    JObj(if Field(data, "user").Some? then withToken["user" := Field(data, "user").value] else withToken)
  }

  /**
   * Restoring what a login stored: when the stored text parses back to the
   * record, restoring gives that record exactly when its token and user are
   * truthy, and no session otherwise.
   */
  lemma RestoreAfterLogin(data: Json, stored: string, parse: string -> Option<Json>)
    requires stored != "" && parse(stored) == Some(NextAuth(data))
    ensures SavedAuth(Some(stored), parse) == Some(NextAuth(data))
      <==> (TruthyValue(Field(data, "token")) && TruthyValue(Field(data, "user")))
    ensures SavedAuth(Some(stored), parse).None?
      <==> !(TruthyValue(Field(data, "token")) && TruthyValue(Field(data, "user")))
  {
  }
}
