/** The match service (internal/match/service/method.go): validation of a
    match, the Create and Update flows around the store, the winner rule of
    an update, and the list pass-through. The clock reading `timeNow()` is
    the parameter `now`. */
module MatchService {
  import opened Foundation
  import opened Errors
  import opened GuardChain
  import opened Store
  import opened MatchDomain

  /** The checks of `validateMatch`, in the order they run. */
  function MatchRules(m: Match): seq<Rule<Error>> {
    [ Rule(m.tournamentNames != "", MatchInvalidTournamentNames),
      Rule(m.gameID > 0, MatchInvalidGameID),
      Rule(m.teamAID > 0, MatchInvalidTeamID),
      Rule(m.teamBID > 0, MatchInvalidTeamID),
      Rule(m.teamAOdds > 0.0, MatchInvalidTeamOdds),
      Rule(m.teamBOdds > 0.0, MatchInvalidTeamOdds),
      Rule(!m.date.IsZero(), MatchInvalidDate),
      Rule(m.status in StatusList, MatchInvalidStatus),
      Rule(m.matchLink != "", MatchInvalidMatchLink) ]
  }

  /** A match the service accepts. */
  predicate MatchValid(m: Match) {
    && m.tournamentNames != ""
    && m.gameID > 0
    && m.teamAID > 0 && m.teamBID > 0
    && m.teamAOdds > 0.0 && m.teamBOdds > 0.0
    && !m.date.IsZero()
    && m.status in StatusList
    && m.matchLink != ""
  }

  /** `validateMatch`: nil exactly for a valid match; otherwise one of the
      match errors. */
  function ValidateMatch(m: Match): (r: Option<Error>)
    ensures r.None? <==> MatchValid(m)
    ensures r.Some? ==> r.value in {MatchInvalidTournamentNames, MatchInvalidGameID, MatchInvalidTeamID,
                                    MatchInvalidTeamOdds, MatchInvalidDate, MatchInvalidStatus,
                                    MatchInvalidMatchLink}
  {
    var rs := MatchRules(m);
    NilIffAllHold(rs);
    FailureIsSomeRuleError(rs);
    assert AllHold(rs) <==> rs[0].holds && rs[1].holds && rs[2].holds && rs[3].holds && rs[4].holds
                            && rs[5].holds && rs[6].holds && rs[7].holds && rs[8].holds;
    FirstFailure(rs)
  }

  /** The checks run in order and the first failing one decides the error,
      whatever the later fields hold. */
  lemma {:induction false} ValidateMatchPrecedence(m: Match)
    ensures m.tournamentNames == "" ==> ValidateMatch(m) == Some(MatchInvalidTournamentNames)
    ensures m.tournamentNames != "" && m.gameID <= 0 ==> ValidateMatch(m) == Some(MatchInvalidGameID)
    ensures m.tournamentNames != "" && m.gameID > 0 && (m.teamAID <= 0 || m.teamBID <= 0)
            ==> ValidateMatch(m) == Some(MatchInvalidTeamID)
    ensures m.tournamentNames != "" && m.gameID > 0 && m.teamAID > 0 && m.teamBID > 0
            && (m.teamAOdds <= 0.0 || m.teamBOdds <= 0.0)
            ==> ValidateMatch(m) == Some(MatchInvalidTeamOdds)
    ensures m.tournamentNames != "" && m.gameID > 0 && m.teamAID > 0 && m.teamBID > 0
            && m.teamAOdds > 0.0 && m.teamBOdds > 0.0 && m.date.IsZero()
            ==> ValidateMatch(m) == Some(MatchInvalidDate)
    ensures m.tournamentNames != "" && m.gameID > 0 && m.teamAID > 0 && m.teamBID > 0
            && m.teamAOdds > 0.0 && m.teamBOdds > 0.0 && !m.date.IsZero() && m.status !in StatusList
            ==> ValidateMatch(m) == Some(MatchInvalidStatus)
    // an empty link is reported only when every earlier check passes
    ensures MatchValid(m.(matchLink := "x")) && m.matchLink == "" ==> ValidateMatch(m) == Some(MatchInvalidMatchLink)
  {
    var rs := MatchRules(m);
    if !rs[0].holds { FirstFailingDecides(rs, 0); }
    else if !rs[1].holds { FirstFailingDecides(rs, 1); }
    else if !rs[2].holds { FirstFailingDecides(rs, 2); }
    else if !rs[3].holds { FirstFailingDecides(rs, 3); }
    else if !rs[4].holds { FirstFailingDecides(rs, 4); }
    else if !rs[5].holds { FirstFailingDecides(rs, 5); }
    else if !rs[6].holds { FirstFailingDecides(rs, 6); }
    else if !rs[7].holds { FirstFailingDecides(rs, 7); }
    else if !rs[8].holds { FirstFailingDecides(rs, 8); }
  }

  /** A completed match's winner: a positive id that is one of the two
      teams. */
  predicate WinnerValid(m: Match) {
    m.winner > 0 && (m.winner == m.teamAID || m.winner == m.teamBID)
  }

  /** The winner rule of `UpdateMatch`: only a completed match is checked. */
  function WinnerCheck(m: Match): (r: Option<Error>)
    ensures r.None? <==> m.status != StatusCompleted || WinnerValid(m)
    ensures r.Some? ==> r.value == MatchInvalidWinner
  {
    if m.status == StatusCompleted && ((m.winner != m.teamAID && m.winner != m.teamBID) || m.winner <= 0)
    then Some(MatchInvalidWinner) else None
  }

  /** After validation the `Winner <= 0` test is redundant: the team ids are
      positive, so a winner equal to one of them is positive too. */
  lemma WinnerPositivityImplied(m: Match)
    requires MatchValid(m)
    ensures WinnerCheck(m).None? <==> m.status != StatusCompleted || m.winner == m.teamAID || m.winner == m.teamBID
  {
  }

  /** `CreateMatch`: validate; stamp `CreateTime`; `NewClient(false)`;
      insert. */
  function CreateMatch(m: Match, now: Time, backend: Backend<Match>): (r: Run<int, Match>)
    ensures !MatchValid(m) ==> r.calls == [] && r.err == ValidateMatch(m) && r.err.Some? && r.value == 0
    ensures r.err.Some? ==> r.value == 0
    ensures forall c :: c in r.calls && c.Create? ==> c.record == m.(createTime := now)
    ensures r.err.None? <==> MatchValid(m) && backend.newClient(false).None?
                             && backend.create(m.(createTime := now)).err.None?
    ensures r.err.None? ==> r.calls == [NewClient(false), Create(m.(createTime := now))]
                            && r.value == backend.create(m.(createTime := now)).value
    // a client or insert error is returned unchanged; no insert follows a failed client
    ensures MatchValid(m) && backend.newClient(false).Some? ==> r == Run(0, backend.newClient(false), [NewClient(false)])
    ensures MatchValid(m) && backend.newClient(false).None? && backend.create(m.(createTime := now)).err.Some?
            ==> r == Run(0, backend.create(m.(createTime := now)).err, [NewClient(false), Create(m.(createTime := now))])
  {
    CreateWith(ValidateMatch(m), m.(createTime := now), false, backend)
  }

  /** `UpdateMatch`: validate; stamp `UpdateTime`; `NewClient(false)`; the
      winner rule; update. */
  function UpdateMatch(m: Match, now: Time, backend: Backend<Match>): (r: Run<(), Match>)
    ensures !MatchValid(m) ==> r.calls == [] && r.err == ValidateMatch(m) && r.err.Some?
    ensures forall c :: c in r.calls && c.Update? ==> c.record == m.(updateTime := now)
    // the store is only updated with a valid match whose winner rule holds
    ensures Update(m.(updateTime := now)) in r.calls ==>
              MatchValid(m) && (m.status == StatusCompleted ==> WinnerValid(m))
    // the winner rule is checked after the client is obtained
    ensures MatchValid(m) && backend.newClient(false).None? && m.status == StatusCompleted && !WinnerValid(m)
            ==> r == Run((), Some(MatchInvalidWinner), [NewClient(false)])
    ensures r.err.None? <==> MatchValid(m) && (m.status == StatusCompleted ==> WinnerValid(m))
                             && backend.newClient(false).None? && backend.update(m.(updateTime := now)).None?
    // a client or update error is returned unchanged
    ensures MatchValid(m) && backend.newClient(false).Some? ==> r == Run((), backend.newClient(false), [NewClient(false)])
    ensures MatchValid(m) && backend.newClient(false).None? && (m.status == StatusCompleted ==> WinnerValid(m))
            ==> r == Run((), backend.update(m.(updateTime := now)), [NewClient(false), Update(m.(updateTime := now))])
  {
    UpdateWith(ValidateMatch(m), m.(updateTime := now), WinnerCheck(m.(updateTime := now)), backend)
  }

  /** `GetAllMatchs`: `NewClient(false)`, then the store's list for the
      same game id and status. */
  function GetAllMatchs(gameID: int, status: Status, clientErr: Option<Error>,
                        list: (int, Status) -> Ret<seq<Match>, Error>): (r: Ret<seq<Match>, Error>)
    ensures clientErr.Some? ==> r == Ret([], clientErr)
    ensures clientErr.None? && list(gameID, status).err.None? ==> r == list(gameID, status)
    ensures clientErr.None? && list(gameID, status).err.Some? ==> r == Ret([], list(gameID, status).err)
  {
    ListWith(clientErr, list(gameID, status))
  }
}
