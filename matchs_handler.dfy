/** The collection handler for `/matchs` (internal/match/handler/http/matchs.go):
    method routing, the `game_id` list filter, and
    `parseMatchFromCreateRequest`, which builds a new match from a request. */
module MatchsHandler {
  import opened Foundation
  import opened Errors
  import opened Decimal
  import opened HttpRouting
  import opened MatchDomain
  import opened MatchHelper
  import MatchHandler

  /** `matchsHandler.ServeHTTP`. */
  function ServeHTTP(verb: string): (r: Route)
    ensures verb == "GET" ==> r == Handle(List, None)
    ensures verb == "POST" ==> r == Handle(Create, None)
    ensures verb != "GET" && verb != "POST" ==> r == Reject(StatusMethodNotAllowed, MethodNotAllowed)
  {
    Dispatch(verb, map["GET" := List, "POST" := Create], None)
  }

  /** `parseGetMatchsFilter`: the `game_id` filter. */
  function ParseGetMatchsFilter(query: map<string, seq<string>>): (r: Ret<int, ClientCode>)
    ensures QueryGet(query, "game_id") == "" ==> r == Ret(0, None)
    ensures r.err.Some? <==> QueryGet(query, "game_id") != "" && ParseInt64(QueryGet(query, "game_id")).None?
    ensures r.err.Some? ==> r == Ret(0, Some(InvalidGameID))
    // a decimal game id is the filter value
    ensures r.err.None? && QueryGet(query, "game_id") != "" ==>
              r.value == ParseInt64(QueryGet(query, "game_id")).value
  {
    GameIDFilter(query)
  }

  /** `parseMatchFromCreateRequest`: a new match is upcoming, whatever the
      request says; present fields are copied, absent ones stay zero; the id,
      the winner and the status are never taken from the request. A bad date
      is the only error. */
  function ParseMatchFromCreateRequest(mh: MatchHTTP, parseDate: DateParser): (r: Ret<Match, ClientCode>)
    ensures r.err.Some? <==> OverrideDate(mh.date, ZeroTime, parseDate).None?
    ensures r.err.Some? ==> r == Ret(ZeroMatch, Some(InvalidTimeFormat))
    ensures r.err.None? ==>
              && r.value.status == StatusUpcoming
              && r.value.id == 0 && r.value.winner == 0
              && r.value.tournamentNames == mh.tournamentNames.GetOr("")
              && r.value.gameID == mh.gameID.GetOr(0)
              && r.value.teamAID == mh.teamAID.GetOr(0) && r.value.teamBID == mh.teamBID.GetOr(0)
              && r.value.teamAOdds == mh.teamAOdds.GetOr(0.0) && r.value.teamBOdds == mh.teamBOdds.GetOr(0.0)
              && r.value.matchLink == mh.matchLink.GetOr("")
              && (mh.date.None? || mh.date.value == "" ==> r.value.date == ZeroTime)
              && (mh.date.Some? && mh.date.value != "" ==> Some(r.value.date) == parseDate(mh.date.value))
  {
    match OverrideDate(mh.date, ZeroTime, parseDate)
    case None => Ret(ZeroMatch, Some(InvalidTimeFormat))
    case Some(date) =>
      Ret(ZeroMatch.(status := StatusUpcoming,
                     tournamentNames := mh.tournamentNames.GetOr(""),
                     gameID := mh.gameID.GetOr(0),
                     teamAID := mh.teamAID.GetOr(0),
                     teamBID := mh.teamBID.GetOr(0),
                     teamAOdds := mh.teamAOdds.GetOr(0.0),
                     teamBOdds := mh.teamBOdds.GetOr(0.0),
                     date := date,
                     matchLink := mh.matchLink.GetOr("")),
          None)
  }

  /** Creating from a request is updating an upcoming zero match with the
      same request once its status and winner are dropped. */
  lemma CreateIsUpdateOfUpcomingZero(mh: MatchHTTP, parseDate: DateParser)
    ensures ParseMatchFromCreateRequest(mh, parseDate)
            == MatchHandler.ParseMatchFromUpdateRequest(mh.(status := None, winner := None),
                                                        ZeroMatch.(status := StatusUpcoming), parseDate)
  {
  }
}
