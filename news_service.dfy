/** The news service (internal/news/service/method.go): validation of a
    news item, the Create and Update flows around the store, and the list
    pass-through. The clock reading `timeNow()` is the parameter `now`. */
module NewsService {
  import opened Foundation
  import opened Errors
  import opened GuardChain
  import opened Store
  import opened NewsDomain

  /** The checks of `validateNews`, in the order they run. */
  function NewsRules(n: News): seq<Rule<Error>> {
    [ Rule(n.title != "", NewsInvalidTitle),
      Rule(n.gameID > 0, NewsInvalidGameID),
      Rule(n.description != "", NewsInvalidDescription),
      Rule(n.imageNews != "", NewsInvalidImageNews),
      Rule(!n.date.IsZero(), NewsInvalidDate) ]
  }

  /** A news item the service accepts. */
  predicate NewsValid(n: News) {
    n.title != "" && n.gameID > 0 && n.description != "" && n.imageNews != "" && !n.date.IsZero()
  }

  /** `validateNews`: nil exactly for a valid item; otherwise one of the five
      field errors. */
  function ValidateNews(n: News): (r: Option<Error>)
    ensures r.None? <==> NewsValid(n)
    ensures r.Some? ==> r.value in {NewsInvalidTitle, NewsInvalidGameID, NewsInvalidDescription,
                                    NewsInvalidImageNews, NewsInvalidDate}
  {
    var rs := NewsRules(n);
    NilIffAllHold(rs);
    FailureIsSomeRuleError(rs);
    assert AllHold(rs) <==> rs[0].holds && rs[1].holds && rs[2].holds && rs[3].holds && rs[4].holds;
    FirstFailure(rs)
  }

  /** The checks run in the order title, game id, description, image, date,
      and the first failing one decides the error. */
  lemma {:induction false} ValidateNewsPrecedence(n: News)
    ensures n.title == "" ==> ValidateNews(n) == Some(NewsInvalidTitle)
    ensures n.title != "" && n.gameID <= 0 ==> ValidateNews(n) == Some(NewsInvalidGameID)
    ensures n.title != "" && n.gameID > 0 && n.description == "" ==> ValidateNews(n) == Some(NewsInvalidDescription)
    ensures n.title != "" && n.gameID > 0 && n.description != "" && n.imageNews == ""
            ==> ValidateNews(n) == Some(NewsInvalidImageNews)
    ensures n.title != "" && n.gameID > 0 && n.description != "" && n.imageNews != "" && n.date.IsZero()
            ==> ValidateNews(n) == Some(NewsInvalidDate)
  {
    var rs := NewsRules(n);
    if !rs[0].holds { FirstFailingDecides(rs, 0); }
    else if !rs[1].holds { FirstFailingDecides(rs, 1); }
    else if !rs[2].holds { FirstFailingDecides(rs, 2); }
    else if !rs[3].holds { FirstFailingDecides(rs, 3); }
    else if !rs[4].holds { FirstFailingDecides(rs, 4); }
  }

  /** `CreateNews`: validate; stamp `CreateTime`; `NewClient(false)`; insert. */
  function CreateNews(n: News, now: Time, backend: Backend<News>): (r: Run<int, News>)
    ensures !NewsValid(n) ==> r.calls == [] && r.err == ValidateNews(n) && r.err.Some? && r.value == 0
    ensures r.err.Some? ==> r.value == 0
    ensures forall c :: c in r.calls && c.Create? ==> c.record == n.(createTime := now)
    ensures r.err.None? <==> NewsValid(n) && backend.newClient(false).None?
                             && backend.create(n.(createTime := now)).err.None?
    ensures r.err.None? ==> r.calls == [NewClient(false), Create(n.(createTime := now))]
                            && r.value == backend.create(n.(createTime := now)).value
    // a client or insert error is returned unchanged; no insert follows a failed client
    ensures NewsValid(n) && backend.newClient(false).Some? ==> r == Run(0, backend.newClient(false), [NewClient(false)])
    ensures NewsValid(n) && backend.newClient(false).None? && backend.create(n.(createTime := now)).err.Some?
            ==> r == Run(0, backend.create(n.(createTime := now)).err, [NewClient(false), Create(n.(createTime := now))])
  {
    CreateWith(ValidateNews(n), n.(createTime := now), false, backend)
  }

  /** `UpdateNews`: validate; stamp `UpdateTime`; `NewClient(false)`; update. */
  function UpdateNews(n: News, now: Time, backend: Backend<News>): (r: Run<(), News>)
    ensures !NewsValid(n) ==> r.calls == [] && r.err == ValidateNews(n) && r.err.Some?
    ensures forall c :: c in r.calls && c.Update? ==> c.record == n.(updateTime := now)
    ensures Update(n.(updateTime := now)) in r.calls ==> NewsValid(n)
    ensures r.err.None? <==> NewsValid(n) && backend.newClient(false).None? && backend.update(n.(updateTime := now)).None?
    // a client or update error is returned unchanged
    ensures NewsValid(n) && backend.newClient(false).Some? ==> r == Run((), backend.newClient(false), [NewClient(false)])
    ensures NewsValid(n) && backend.newClient(false).None?
            ==> r == Run((), backend.update(n.(updateTime := now)), [NewClient(false), Update(n.(updateTime := now))])
  {
    UpdateWith(ValidateNews(n), n.(updateTime := now), None, backend)
  }

  /** `GetAllNews`: `NewClient(false)`, then the store's list for the same
      game id. */
  function GetAllNews(gameID: int, clientErr: Option<Error>, list: int -> Ret<seq<News>, Error>): (r: Ret<seq<News>, Error>)
    ensures clientErr.Some? ==> r == Ret([], clientErr)
    ensures clientErr.None? && list(gameID).err.None? ==> r == list(gameID)
    ensures clientErr.None? && list(gameID).err.Some? ==> r == Ret([], list(gameID).err)
  {
    ListWith(clientErr, list(gameID))
  }
}
