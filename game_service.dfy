/** The game service (internal/game/service/method.go): validation of a game
    and the Create flow around the store. The clock reading `timeNow()` is
    the parameter `now`. */
module GameService {
  import opened Foundation
  import opened Errors
  import opened GuardChain
  import opened Store
  import opened GameDomain

  /** The checks of `validateGame`, in the order they run. */
  function GameRules(g: Game): seq<Rule<Error>> {
    [ Rule(g.gameNames != "", GameInvalidGameNames),
      Rule(g.gameIcons != "", GameInvalidGameIcons) ]
  }

  /** A game the service accepts. */
  predicate GameValid(g: Game) {
    g.gameNames != "" && g.gameIcons != ""
  }

  /** `validateGame`: nil exactly when names and icons are both non-empty;
      otherwise one of the two game errors. */
  function ValidateGame(g: Game): (r: Option<Error>)
    ensures r.None? <==> GameValid(g)
    ensures r.Some? ==> r.value in {GameInvalidGameNames, GameInvalidGameIcons}
  {
    var rs := GameRules(g);
    NilIffAllHold(rs);
    FailureIsSomeRuleError(rs);
    assert AllHold(rs) <==> rs[0].holds && rs[1].holds;
    FirstFailure(rs)
  }

  /** The names are checked before the icons. */
  lemma {:induction false} ValidateGamePrecedence(g: Game)
    ensures g.gameNames == "" ==> ValidateGame(g) == Some(GameInvalidGameNames)
    ensures g.gameNames != "" && g.gameIcons == "" ==> ValidateGame(g) == Some(GameInvalidGameIcons)
  {
    var rs := GameRules(g);
    if !rs[0].holds { FirstFailingDecides(rs, 0); }
    else if !rs[1].holds { FirstFailingDecides(rs, 1); }
  }

  /** `CreateGame`: validate; stamp `CreateTime`; `NewClient(true)`, a
      transactional client; insert. */
  function CreateGame(g: Game, now: Time, backend: Backend<Game>): (r: Run<int, Game>)
    ensures !GameValid(g) ==> r.calls == [] && r.err == ValidateGame(g) && r.err.Some? && r.value == 0
    ensures r.err.Some? ==> r.value == 0
    ensures forall c :: c in r.calls && c.Create? ==> c.record == g.(createTime := now)
    ensures r.err.None? <==> GameValid(g) && backend.newClient(true).None?
                             && backend.create(g.(createTime := now)).err.None?
    ensures r.err.None? ==> r.calls == [NewClient(true), Create(g.(createTime := now))]
                            && r.value == backend.create(g.(createTime := now)).value
    // a client or insert error is returned unchanged; no insert follows a failed client
    ensures GameValid(g) && backend.newClient(true).Some? ==> r == Run(0, backend.newClient(true), [NewClient(true)])
    ensures GameValid(g) && backend.newClient(true).None? && backend.create(g.(createTime := now)).err.Some?
            ==> r == Run(0, backend.create(g.(createTime := now)).err, [NewClient(true), Create(g.(createTime := now))])
  {
    CreateWith(ValidateGame(g), g.(createTime := now), true, backend)
  }

  /** The transaction `CreateGame` opens is never ended: whatever the store
      answers, neither Commit nor Rollback is called. */
  lemma CreateGameLeavesTransactionOpen(g: Game, now: Time, backend: Backend<Game>)
    requires GameValid(g)
    ensures NewClient(true) in CreateGame(g, now, backend).calls
    ensures Commit !in CreateGame(g, now, backend).calls && Rollback !in CreateGame(g, now, backend).calls
  {
  }
}
