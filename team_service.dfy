/** The team service (internal/team/service/method.go): validation of a team
    and the Create flow around the store. The clock reading `timeNow()` is
    the parameter `now`. */
module TeamService {
  import opened Foundation
  import opened Errors
  import opened GuardChain
  import opened Store
  import opened TeamDomain

  /** The checks of `validateTeam`, in the order they run; the icons are not
      checked. */
  function TeamRules(t: Team): seq<Rule<Error>> {
    [ Rule(t.teamNames != "", TeamInvalidTeamNames),
      Rule(t.gameID > 0, TeamInvalidGameID) ]
  }

  /** A team the service accepts. */
  predicate TeamValid(t: Team) {
    t.teamNames != "" && t.gameID > 0
  }

  /** `validateTeam`: nil exactly for a valid team; an empty name is
      reported before a bad game id. */
  function ValidateTeam(t: Team): (r: Option<Error>)
    ensures r.None? <==> TeamValid(t)
    ensures r.Some? ==> r.value in {TeamInvalidTeamNames, TeamInvalidGameID}
  {
    var rs := TeamRules(t);
    NilIffAllHold(rs);
    FailureIsSomeRuleError(rs);
    assert AllHold(rs) <==> rs[0].holds && rs[1].holds;
    FirstFailure(rs)
  }

  /** The name is checked first; the icons never decide anything. */
  lemma {:induction false} ValidateTeamPrecedence(t: Team, icons: string)
    ensures t.teamNames == "" ==> ValidateTeam(t) == Some(TeamInvalidTeamNames)
    ensures t.teamNames != "" && t.gameID <= 0 ==> ValidateTeam(t) == Some(TeamInvalidGameID)
    ensures ValidateTeam(t.(teamIcons := icons)) == ValidateTeam(t)
  {
    var rs := TeamRules(t);
    if !rs[0].holds { FirstFailingDecides(rs, 0); }
    else if !rs[1].holds { FirstFailingDecides(rs, 1); }
    assert TeamRules(t.(teamIcons := icons)) == rs;
  }

  /** `CreateTeam`: validate; stamp `CreateTime`; `NewClient(false)`;
      insert. */
  function CreateTeam(t: Team, now: Time, backend: Backend<Team>): (r: Run<int, Team>)
    ensures !TeamValid(t) ==> r.calls == [] && r.err == ValidateTeam(t) && r.err.Some? && r.value == 0
    ensures r.err.Some? ==> r.value == 0
    ensures forall c :: c in r.calls && c.Create? ==> c.record == t.(createTime := now)
    ensures r.err.None? <==> TeamValid(t) && backend.newClient(false).None?
                             && backend.create(t.(createTime := now)).err.None?
    ensures r.err.None? ==> r.calls == [NewClient(false), Create(t.(createTime := now))]
                            && r.value == backend.create(t.(createTime := now)).value
    // a client or insert error is returned unchanged; no insert follows a failed client
    ensures TeamValid(t) && backend.newClient(false).Some? ==> r == Run(0, backend.newClient(false), [NewClient(false)])
    ensures TeamValid(t) && backend.newClient(false).None? && backend.create(t.(createTime := now)).err.Some?
            ==> r == Run(0, backend.create(t.(createTime := now)).err, [NewClient(false), Create(t.(createTime := now))])
  {
    CreateWith(ValidateTeam(t), t.(createTime := now), false, backend)
  }
}
