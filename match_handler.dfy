/** The item handler for `/matchs/{id}` (internal/match/handler/http/match.go):
    the id and method routing of `ServeHTTP`, and `parseMatchFromUpdateRequest`,
    which merges a partial request into the stored match. */
module MatchHandler {
  import opened Foundation
  import opened Errors
  import opened Decimal
  import opened HttpRouting
  import opened MatchDomain
  import opened MatchHelper

  /** `matchHandler.ServeHTTP`. */
  function ServeHTTP(vars: map<string, string>, verb: string): (r: Route)
    ensures ParseInt64(PathVar(vars, "id")).None? ==> r == Reject(StatusBadRequest, InvalidMatchID)
    ensures ParseInt64(PathVar(vars, "id")).Some? ==>
              var id := ParseInt64(PathVar(vars, "id")).value;
              && (verb == "GET" ==> r == Handle(GetByID, Some(id)))
              && (verb == "PATCH" ==> r == Handle(Update, Some(id)))
              && (verb != "GET" && verb != "PATCH" ==> r == Reject(StatusMethodNotAllowed, MethodNotAllowed))
  {
    ServeItem(vars, verb, InvalidMatchID, map["GET" := GetByID, "PATCH" := Update])
  }

  /** `parseMatchFromUpdateRequest`: start from `current`; each non-nil
      field overwrites its counterpart; a non-empty date is parsed and a
      status is read by `parseStatus`. A bad date (checked first) or a bad
      status gives the zero match and the error. */
  function ParseMatchFromUpdateRequest(mh: MatchHTTP, current: Match, parseDate: DateParser): (r: Ret<Match, ClientCode>)
    // the errors, in order
    ensures r.err == Some(InvalidTimeFormat) <==> OverrideDate(mh.date, current.date, parseDate).None?
    ensures r.err == Some(InvalidStatus) <==>
              OverrideDate(mh.date, current.date, parseDate).Some? && mh.status.Some? && ParseStatus(mh.status.value).err.Some?
    // a readable or absent date and a valid or absent status always succeed
    ensures r.err.None? <==>
              OverrideDate(mh.date, current.date, parseDate).Some?
              && (mh.status.None? || ParseStatus(mh.status.value).err.None?)
    ensures r.err.Some? ==> r.value == ZeroMatch
    // present fields overwrite, absent fields keep the current value
    ensures r.err.None? ==>
              && r.value.tournamentNames == mh.tournamentNames.GetOr(current.tournamentNames)
              && r.value.gameID == mh.gameID.GetOr(current.gameID)
              && r.value.teamAID == mh.teamAID.GetOr(current.teamAID)
              && r.value.teamBID == mh.teamBID.GetOr(current.teamBID)
              && r.value.teamAOdds == mh.teamAOdds.GetOr(current.teamAOdds)
              && r.value.teamBOdds == mh.teamBOdds.GetOr(current.teamBOdds)
              && r.value.matchLink == mh.matchLink.GetOr(current.matchLink)
              && r.value.winner == mh.winner.GetOr(current.winner)
              && (mh.date.None? || mh.date.value == "" ==> r.value.date == current.date)
              && (mh.date.Some? && mh.date.value != "" ==> Some(r.value.date) == parseDate(mh.date.value))
              && (mh.status.None? ==> r.value.status == current.status)
              && (mh.status.Some? ==> r.value.status in StatusList && r.value.status.String() == mh.status.value)
    // what the request never changes
    ensures r.err.None? ==>
              && r.value.id == current.id && r.value.blockChainID == current.blockChainID
              && r.value.gameNames == current.gameNames && r.value.gameIcons == current.gameIcons
              && r.value.teamANames == current.teamANames && r.value.teamAIcons == current.teamAIcons
              && r.value.teamBNames == current.teamBNames && r.value.teamBIcons == current.teamBIcons
              && r.value.createTime == current.createTime && r.value.updateTime == current.updateTime
  {
    match OverrideDate(mh.date, current.date, parseDate)
    case None => Ret(ZeroMatch, Some(InvalidTimeFormat))
    case Some(date) =>
      var status := if mh.status.Some? then ParseStatus(mh.status.value) else Ret(current.status, None);
      if status.err.Some? then Ret(ZeroMatch, status.err)
      else
        Ret(current.(tournamentNames := mh.tournamentNames.GetOr(current.tournamentNames),
                     gameID := mh.gameID.GetOr(current.gameID),
                     teamAID := mh.teamAID.GetOr(current.teamAID),
                     teamBID := mh.teamBID.GetOr(current.teamBID),
                     teamAOdds := mh.teamAOdds.GetOr(current.teamAOdds),
                     teamBOdds := mh.teamBOdds.GetOr(current.teamBOdds),
                     date := date,
                     status := status.value,
                     matchLink := mh.matchLink.GetOr(current.matchLink),
                     winner := mh.winner.GetOr(current.winner)),
            None)
  }

  /** A request with every field absent changes nothing. */
  lemma EmptyUpdateKeepsCurrent(current: Match, parseDate: DateParser)
    ensures ParseMatchFromUpdateRequest(EmptyMatchHTTP, current, parseDate) == Ret(current, None)
  {
  }

  /** Applying the same request twice is the same as applying it once. */
  lemma UpdateIdempotent(mh: MatchHTTP, current: Match, parseDate: DateParser)
    requires ParseMatchFromUpdateRequest(mh, current, parseDate).err.None?
    ensures var once := ParseMatchFromUpdateRequest(mh, current, parseDate).value;
            ParseMatchFromUpdateRequest(mh, once, parseDate) == Ret(once, None)
  {
    var once := ParseMatchFromUpdateRequest(mh, current, parseDate).value;
    if mh.status.Some? {
      ParseStatusRoundTrip(once.status);
    }
  }

  /** What `formatMatch` writes, sent back as an update of the same match,
      reproduces it exactly, provided the date format reads back and the
      status is a valid one (an unknown status formats as "", which the
      update refuses). */
  lemma FormatThenUpdateRoundTrip(m: Match, formatDate: DateFormatter, parseDate: DateParser)
    requires parseDate(formatDate(m.date)) == Some(m.date)
    requires m.status in StatusList
    ensures ParseMatchFromUpdateRequest(FormatMatch(m, formatDate).value, m, parseDate) == Ret(m, None)
  {
    ParseStatusRoundTrip(m.status);
  }
}
