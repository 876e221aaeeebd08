/** The match handlers' request/response object and the helpers of
    internal/match/handler/http/helper.go: `parseStatus`, the inverse of
    `Status.String` on the valid statuses, and `formatMatch`. */
module MatchHelper {
  import opened Foundation
  import opened Errors
  import opened MatchDomain

  /** `matchHTTP` (internal/match/handler/http/http.go:116-131): every field
      is a pointer that may be nil. It carries the union of the fields the
      handlers use: `formatMatch` also fills `BlockChainID`, `GameIcons`,
      `TeamAIcons` and `TeamBIcons`, which the declaration lacks. */
  datatype MatchHTTP = MatchHTTP(
    id: Option<int>, blockChainID: Option<nat>, tournamentNames: Option<string>,
    gameID: Option<int>, gameNames: Option<string>, gameIcons: Option<string>,
    teamAID: Option<int>, teamANames: Option<string>, teamAIcons: Option<string>, teamAOdds: Option<real>,
    teamBID: Option<int>, teamBNames: Option<string>, teamBIcons: Option<string>, teamBOdds: Option<real>,
    date: Option<string>, matchLink: Option<string>, status: Option<string>, winner: Option<int>)

  /** A request body with every field absent. */
  const EmptyMatchHTTP := MatchHTTP(None, None, None, None, None, None, None, None, None, None,
                                    None, None, None, None, None, None, None, None)

  /** `parseStatus`: the status whose name is `req`; any other string (the
      empty one and other casings included) is INVALID_STATUS with the
      unknown status. */
  function ParseStatus(req: string): (r: Ret<Status, ClientCode>)
    ensures r.err.None? ==> r.value in StatusList && r.value.String() == req
    ensures r.err.Some? ==> r == Ret(StatusUnknown, Some(InvalidStatus))
    ensures r.err.Some? <==> forall s :: s in StatusList ==> s.String() != req
  {
    if req == StatusUpcoming.String() then Ret(StatusUpcoming, None)
    else if req == StatusOngoing.String() then Ret(StatusOngoing, None)
    else if req == StatusCompleted.String() then Ret(StatusCompleted, None)
    else Ret(StatusUnknown, Some(InvalidStatus))
  }

  /** Every valid status survives `String` then `parseStatus`. */
  lemma ParseStatusRoundTrip(s: Status)
    requires s in StatusList
    ensures ParseStatus(s.String()) == Ret(s, None)
  {
  }

  /** A status without a name formats as "", which `parseStatus` refuses. */
  lemma UnknownStatusDoesNotRoundTrip(s: Status)
    requires s !in StatusList
    ensures ParseStatus(s.String()) == Ret(StatusUnknown, Some(InvalidStatus))
  {
  }

  /** `time.Time.Format("2 January 2006")`, abstract here. */
  type DateFormatter = Time -> string

  /** `formatMatch`: every field of the match, the date formatted and the
      status by name; it never fails. */
  function FormatMatch(m: Match, formatDate: DateFormatter): (r: Ret<MatchHTTP, ClientCode>)
    ensures r.err.None?
    ensures r.value.status == Some(m.status.String())
    ensures r.value.date == Some(formatDate(m.date))
    ensures r.value.id == Some(m.id) && r.value.blockChainID == Some(m.blockChainID)
    ensures r.value.tournamentNames == Some(m.tournamentNames) && r.value.gameID == Some(m.gameID)
    ensures r.value.teamAID == Some(m.teamAID) && r.value.teamBID == Some(m.teamBID)
    ensures r.value.teamAOdds == Some(m.teamAOdds) && r.value.teamBOdds == Some(m.teamBOdds)
    ensures r.value.matchLink == Some(m.matchLink) && r.value.winner == Some(m.winner)
    ensures r.value.gameNames == Some(m.gameNames) && r.value.gameIcons == Some(m.gameIcons)
    ensures r.value.teamANames == Some(m.teamANames) && r.value.teamAIcons == Some(m.teamAIcons)
    ensures r.value.teamBNames == Some(m.teamBNames) && r.value.teamBIcons == Some(m.teamBIcons)
  {
    Ret(MatchHTTP(Some(m.id), Some(m.blockChainID), Some(m.tournamentNames),
                  Some(m.gameID), Some(m.gameNames), Some(m.gameIcons),
                  Some(m.teamAID), Some(m.teamANames), Some(m.teamAIcons), Some(m.teamAOdds),
                  Some(m.teamBID), Some(m.teamBNames), Some(m.teamBIcons), Some(m.teamBOdds),
                  Some(formatDate(m.date)), Some(m.matchLink), Some(m.status.String()), Some(m.winner)),
        None)
  }
}
