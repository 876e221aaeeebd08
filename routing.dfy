/** The request-routing rules the HTTP handlers share: reading the `{id}`
    path variable with `strconv.ParseInt(vars["id"], 10, 64)`, dispatching on
    the request method, and reading the optional `game_id` query filter.
    Missing map entries read as the empty string, as `mux.Vars` and
    `url.Values.Get` do. */
module HttpRouting {
  import opened Foundation
  import opened Errors
  import opened Decimal

  /** The handler operation a request is dispatched to. */
  datatype Action = GetByID | List | Create | Update

  /** What `ServeHTTP` does with a request: write an error response, or hand
      the request to one of the handler's operations (with the parsed path id
      on an item route). */
  datatype Route = Reject(status: int, code: ClientCode) | Handle(action: Action, id: Option<int>)

  /** `mux.Vars(r)[name]`: a missing variable reads as "". */
  function PathVar(vars: map<string, string>, name: string): string {
    if name in vars then vars[name] else ""
  }

  /** `url.Values.Get(name)`: the first value given for `name`, or "". */
  function QueryGet(query: map<string, seq<string>>, name: string): (v: string)
    ensures name !in query || query[name] == [] ==> v == ""
    ensures name in query && query[name] != [] ==> v == query[name][0]
  {
    if name in query && query[name] != [] then query[name][0] else ""
  }

  /** The `switch r.Method` of a handler: the listed methods go to their
      operation, every other method is answered 405 METHOD_NOT_ALLOWED. */
  function Dispatch(verb: string, verbs: map<string, Action>, id: Option<int>): (r: Route)
    ensures verb in verbs ==> r == Handle(verbs[verb], id)
    ensures verb !in verbs ==> r == Reject(StatusMethodNotAllowed, MethodNotAllowed)
  {
    if verb in verbs then Handle(verbs[verb], id) else Reject(StatusMethodNotAllowed, MethodNotAllowed)
  }

  /** `ServeHTTP` of an item handler (`/…/{id}`): an `id` that is not a
      base-10 signed 64-bit integer is answered 400 with the handler's
      invalid-id code whatever the method; otherwise the method is
      dispatched with the parsed id. */
  function ServeItem(vars: map<string, string>, verb: string, invalidID: ClientCode,
                     verbs: map<string, Action>): (r: Route)
    ensures ParseInt64(PathVar(vars, "id")).None? ==> r == Reject(StatusBadRequest, invalidID)
    ensures ParseInt64(PathVar(vars, "id")).Some? ==>
              r == Dispatch(verb, verbs, Some(ParseInt64(PathVar(vars, "id")).value))
    ensures r.Handle? ==> r.id.Some? && IsInt64(r.id.value) && verb in verbs
  {
    match ParseInt64(PathVar(vars, "id"))
    case None => Reject(StatusBadRequest, invalidID)
    case Some(id) => Dispatch(verb, verbs, Some(id))
  }

  /** Every signed 64-bit id written in decimal reaches the handler
      operation unchanged, for each method the handler serves. */
  lemma ServeItemIDRoundTrip(n: int, verb: string, invalidID: ClientCode, verbs: map<string, Action>)
    requires IsInt64(n) && verb in verbs
    ensures ServeItem(map["id" := FormatInt(n)], verb, invalidID, verbs) == Handle(verbs[verb], Some(n))
  {
    ParseFormatRoundTrip(n);
    assert PathVar(map["id" := FormatInt(n)], "id") == FormatInt(n);
  }

  /** A missing `{id}` is the empty string, which is never an integer. */
  lemma MissingIDRejected(vars: map<string, string>, verb: string, invalidID: ClientCode, verbs: map<string, Action>)
    requires "id" !in vars
    ensures ServeItem(vars, verb, invalidID, verbs) == Reject(StatusBadRequest, invalidID)
  {
  }

  /** The `game_id` filter of the list handlers: missing or empty means no
      filter (0); a base-10 signed 64-bit integer is used as given (zero and
      negative values included); anything else is INVALID_GAME_ID with 0. */
  function GameIDFilter(query: map<string, seq<string>>): (r: Ret<int, ClientCode>)
    ensures QueryGet(query, "game_id") == "" ==> r == Ret(0, None)
    ensures QueryGet(query, "game_id") != "" && ParseInt64(QueryGet(query, "game_id")).Some?
            ==> r == Ret(ParseInt64(QueryGet(query, "game_id")).value, None)
    ensures QueryGet(query, "game_id") != "" && ParseInt64(QueryGet(query, "game_id")).None?
            ==> r == Ret(0, Some(InvalidGameID))
    ensures r.err.Some? ==> r.err == Some(InvalidGameID)
    ensures r.Ok() ==> IsInt64(r.value)
  {
    var s := QueryGet(query, "game_id");
    if s == "" then Ret(0, None)
    else
      match ParseInt64(s)
      case None => Ret(0, Some(InvalidGameID))
      case Some(id) => Ret(id, None)
  }

  /** Every signed 64-bit game id written in decimal as the first `game_id`
      value comes back as the filter, whatever values follow it. */
  lemma GameIDFilterRoundTrip(n: int, rest: seq<string>)
    requires IsInt64(n)
    ensures GameIDFilter(map["game_id" := [FormatInt(n)] + rest]) == Ret(n, None)
  {
    ParseFormatRoundTrip(n);
    FormatNatDigits(if n < 0 then -n else n);
    assert QueryGet(map["game_id" := [FormatInt(n)] + rest], "game_id") == FormatInt(n);
  }
}
