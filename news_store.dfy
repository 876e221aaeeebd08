/** The query-building part of the news store
    (internal/news/store/postgresql/method.go): the optional game filter of
    `GetAllNews`, the clause of `GetNewsByID`, and the named arguments that
    `CreateNews` and `UpdateNews` bind. */
module NewsStore {
  import opened Foundation
  import opened SqlClause
  import opened NewsDomain

  /** The filters `GetAllNews` applies: by game when the game id is positive. */
  function NewsConditions(gameID: int): seq<Condition> {
    if gameID > 0 then [Eq("n.game_id", "game_id")] else []
  }

  /** The filter part of `GetAllNews`. */
  method GetAllNewsFilter(gameID: int) returns (clause: string, argsKV: map<string, SqlArg>)
    ensures clause == WhereClause(NewsConditions(gameID))
    ensures gameID > 0 ==> clause == "WHERE " + "n.game_id = :game_id" && argsKV == map["game_id" := IntArg(gameID)]
    ensures gameID <= 0 ==> clause == "" && argsKV == map[]
    ensures argsKV.Keys == Params(NewsConditions(gameID))
  {
    argsKV := map[];
    var addConditions: seq<Condition> := [];

    if gameID > 0 {
      ParamsAppend(addConditions, Eq("n.game_id", "game_id"));
      addConditions := addConditions + [Eq("n.game_id", "game_id")];
      argsKV := argsKV["game_id" := IntArg(gameID)];
    }

    clause := Join(Texts(addConditions), " AND ");
    if |addConditions| > 0 {
      clause := "WHERE " + clause;
    }
  }

  /** The clause `GetNewsByID` substitutes: the id, bound positionally. */
  const NewsByIDClause := "WHERE n.id = $1"

  /** The named placeholders of the insert and update statements
      (internal/news/store/postgresql/query.go). */
  const CreateNewsPlaceholders: set<string> := {"title", "game_id", "description", "image_news", "date", "create_time"}
  const UpdateNewsPlaceholders: set<string> := CreateNewsPlaceholders + {"update_time", "id"}

  /** The arguments `CreateNews` binds. */
  function CreateNewsArgs(n: News): (args: map<string, SqlArg>)
    ensures args.Keys == CreateNewsPlaceholders
    ensures "id" !in args
    // each placeholder is bound to the field of the same name
    ensures args["title"] == TextArg(n.title) && args["game_id"] == IntArg(n.gameID)
    ensures args["description"] == TextArg(n.description) && args["image_news"] == TextArg(n.imageNews)
    ensures args["date"] == TimeArg(n.date) && args["create_time"] == TimeArg(n.createTime)
  {
    map["title" := TextArg(n.title), "game_id" := IntArg(n.gameID), "description" := TextArg(n.description),
        "image_news" := TextArg(n.imageNews), "date" := TimeArg(n.date), "create_time" := TimeArg(n.createTime)]
  }

  /** The arguments `UpdateNews` binds. */
  function UpdateNewsArgs(n: News): (args: map<string, SqlArg>)
    ensures args.Keys == UpdateNewsPlaceholders
    // each placeholder is bound to the field of the same name
    ensures args["id"] == IntArg(n.id)
    ensures args["title"] == TextArg(n.title) && args["game_id"] == IntArg(n.gameID)
    ensures args["description"] == TextArg(n.description) && args["image_news"] == TextArg(n.imageNews)
    ensures args["date"] == TimeArg(n.date) && args["create_time"] == TimeArg(n.createTime)
    ensures args["update_time"] == TimeArg(n.updateTime)
  {
    map["id" := IntArg(n.id), "title" := TextArg(n.title), "game_id" := IntArg(n.gameID),
        "description" := TextArg(n.description), "image_news" := TextArg(n.imageNews), "date" := TimeArg(n.date),
        "create_time" := TimeArg(n.createTime), "update_time" := TimeArg(n.updateTime)]
  }

  /** The update binds everything the insert binds, to the same values, plus
      the id and the update time; the insert never binds the id, which the
      database assigns. */
  lemma UpdateArgsExtendCreateArgs(n: News)
    ensures forall k :: k in CreateNewsArgs(n) ==> k in UpdateNewsArgs(n) && UpdateNewsArgs(n)[k] == CreateNewsArgs(n)[k]
    ensures UpdateNewsArgs(n).Keys - CreateNewsArgs(n).Keys == {"id", "update_time"}
    ensures UpdateNewsArgs(n)["id"] == IntArg(n.id) && UpdateNewsArgs(n)["update_time"] == TimeArg(n.updateTime)
  {
  }

  /** The id clause is not a clause the list filter produces. */
  lemma NewsByIDClauseShape(gameID: int)
    ensures NewsByIDClause != WhereClause(NewsConditions(gameID))
  {
    if gameID > 0 {
      assert WhereClause(NewsConditions(gameID)) == "WHERE " + "n.game_id = :game_id";
      assert NewsByIDClause[8] != WhereClause(NewsConditions(gameID))[8];
    }
  }
}
