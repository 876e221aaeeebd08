/** The query-building part of the match store
    (internal/match/store/postgresql/method.go): the optional filters of
    `GetAllMatchs` and the clause of `GetMatchByID`. Running the query and
    scanning rows is not modelled. */
module MatchStore {
  import opened Foundation
  import opened SqlClause
  import opened MatchDomain

  /** The filters `GetAllMatchs` applies, in order: by game when the game id
      is positive, then by status when the status is positive. */
  function MatchConditions(gameID: int, status: Status): seq<Condition> {
    (if gameID > 0 then [Eq("m.game_id", "game_id")] else [])
    + (if status.Value() > 0 then [Eq("m.status", "status")] else [])
  }

  /** The filter part of `GetAllMatchs`: grows the condition list and the
      named-argument map, then joins the conditions into the clause that is
      substituted into the list query. */
  method GetAllMatchsFilter(gameID: int, status: Status) returns (clause: string, argsKV: map<string, SqlArg>)
    ensures clause == WhereClause(MatchConditions(gameID, status))
    ensures clause == "" <==> gameID <= 0 && status.Value() <= 0
    // exactly the placeholders of the clause are bound, to the given values
    ensures argsKV.Keys == Params(MatchConditions(gameID, status))
    ensures "game_id" in argsKV ==> argsKV["game_id"] == IntArg(gameID)
    ensures "status" in argsKV ==> argsKV["status"] == IntArg(status.Value())
  {
    argsKV := map[];
    var addConditions: seq<Condition> := [];

    if gameID > 0 {
      ParamsAppend(addConditions, Eq("m.game_id", "game_id"));
      addConditions := addConditions + [Eq("m.game_id", "game_id")];
      argsKV := argsKV["game_id" := IntArg(gameID)];
    }

    assert argsKV.Keys == Params(addConditions);
    if status.Value() > 0 {
      ParamsAppend(addConditions, Eq("m.status", "status"));
      addConditions := addConditions + [Eq("m.status", "status")];
      argsKV := argsKV["status" := IntArg(status.Value())];
    }

    clause := Join(Texts(addConditions), " AND ");
    if |addConditions| > 0 {
      clause := "WHERE " + clause;
    }
    WhereClauseEmptyIff(addConditions);
  }

  /** With both filters the clause is the game condition, then the status
      condition, joined by one ` AND `. */
  lemma BothFiltersClause(gameID: int, status: Status)
    requires gameID > 0 && status.Value() > 0
    ensures WhereClause(MatchConditions(gameID, status))
            == "WHERE " + "m.game_id = :game_id" + " AND " + "m.status = :status"
  {
    var a, b := Eq("m.game_id", "game_id"), Eq("m.status", "status");
    assert MatchConditions(gameID, status) == [a, b];
    WhereClauseOfTwo(a, b);
    assert a.Text() == "m.game_id = :game_id";
    assert b.Text() == "m.status = :status";
  }

  /** With one filter the clause is that condition alone. */
  lemma OneFilterClause(gameID: int, status: Status)
    ensures gameID > 0 && status.Value() <= 0
            ==> WhereClause(MatchConditions(gameID, status)) == "WHERE " + "m.game_id = :game_id"
    ensures gameID <= 0 && status.Value() > 0
            ==> WhereClause(MatchConditions(gameID, status)) == "WHERE " + "m.status = :status"
  {
    if gameID > 0 && status.Value() <= 0 {
      var a := Eq("m.game_id", "game_id");
      assert MatchConditions(gameID, status) == [a];
      WhereClauseOfOne(a);
      assert a.Text() == "m.game_id = :game_id";
    } else if gameID <= 0 && status.Value() > 0 {
      var b := Eq("m.status", "status");
      assert MatchConditions(gameID, status) == [b];
      WhereClauseOfOne(b);
      assert b.Text() == "m.status = :status";
    }
  }

  /** The clause `GetMatchByID` substitutes: the id, bound positionally. */
  const MatchByIDClause := "WHERE m.id = $1"

  /** The by-id clause filters on the id alone, with the positional `$1`
      rather than a named placeholder, so it binds no named argument; it is
      never a clause the list filters produce. */
  lemma MatchByIDClauseShape(gameID: int, status: Status)
    ensures MatchByIDClause == "WHERE " + "m.id = $1"
    ensures MatchByIDClause != WhereClause(MatchConditions(gameID, status))
  {
    if gameID > 0 && status.Value() > 0 {
      BothFiltersClause(gameID, status);
      assert MatchByIDClause[8] != WhereClause(MatchConditions(gameID, status))[8];
    } else if gameID > 0 || status.Value() > 0 {
      assert MatchByIDClause[8] != WhereClause(MatchConditions(gameID, status))[8];
    }
  }
}
