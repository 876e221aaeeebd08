/** The thread service (internal/thread/service/method.go): validation of a
    thread and the Create and Update flows around the store. The clock
    reading `timeNow()` is the parameter `now`. */
module ThreadService {
  import opened Foundation
  import opened Errors
  import opened GuardChain
  import opened Store
  import opened ThreadDomain

  /** The checks of `validateThread`, in the order they run. */
  function ThreadRules(t: Thread): seq<Rule<Error>> {
    [ Rule(t.title != "", ThreadInvalidTitle),
      Rule(t.gameID > 0, ThreadInvalidGameID),
      Rule(t.description != "", ThreadInvalidDescription),
      Rule(t.imageThread != "", ThreadInvalidImageThread),
      Rule(!t.date.IsZero(), ThreadInvalidDate) ]
  }

  /** A thread the service accepts. */
  predicate ThreadValid(t: Thread) {
    t.title != "" && t.gameID > 0 && t.description != "" && t.imageThread != "" && !t.date.IsZero()
  }

  /** `validateThread`: nil exactly for a valid item; otherwise one of the five
      field errors. */
  function ValidateThread(t: Thread): (r: Option<Error>)
    ensures r.None? <==> ThreadValid(t)
    ensures r.Some? ==> r.value in {ThreadInvalidTitle, ThreadInvalidGameID, ThreadInvalidDescription,
                                    ThreadInvalidImageThread, ThreadInvalidDate}
  {
    var rs := ThreadRules(t);
    NilIffAllHold(rs);
    FailureIsSomeRuleError(rs);
    assert AllHold(rs) <==> rs[0].holds && rs[1].holds && rs[2].holds && rs[3].holds && rs[4].holds;
    FirstFailure(rs)
  }

  /** The checks run in the order title, game id, description, image, date,
      and the first failing one decides the error. */
  lemma {:induction false} ValidateThreadPrecedence(t: Thread)
    ensures t.title == "" ==> ValidateThread(t) == Some(ThreadInvalidTitle)
    ensures t.title != "" && t.gameID <= 0 ==> ValidateThread(t) == Some(ThreadInvalidGameID)
    ensures t.title != "" && t.gameID > 0 && t.description == "" ==> ValidateThread(t) == Some(ThreadInvalidDescription)
    ensures t.title != "" && t.gameID > 0 && t.description != "" && t.imageThread == ""
            ==> ValidateThread(t) == Some(ThreadInvalidImageThread)
    ensures t.title != "" && t.gameID > 0 && t.description != "" && t.imageThread != "" && t.date.IsZero()
            ==> ValidateThread(t) == Some(ThreadInvalidDate)
  {
    var rs := ThreadRules(t);
    if !rs[0].holds { FirstFailingDecides(rs, 0); }
    else if !rs[1].holds { FirstFailingDecides(rs, 1); }
    else if !rs[2].holds { FirstFailingDecides(rs, 2); }
    else if !rs[3].holds { FirstFailingDecides(rs, 3); }
    else if !rs[4].holds { FirstFailingDecides(rs, 4); }
  }

  /** `CreateThread`: validate; stamp `CreateTime`; `NewClient(false)`; insert. */
  function CreateThread(t: Thread, now: Time, backend: Backend<Thread>): (r: Run<int, Thread>)
    ensures !ThreadValid(t) ==> r.calls == [] && r.err == ValidateThread(t) && r.err.Some? && r.value == 0
    ensures r.err.Some? ==> r.value == 0
    ensures forall c :: c in r.calls && c.Create? ==> c.record == t.(createTime := now)
    ensures r.err.None? <==> ThreadValid(t) && backend.newClient(false).None?
                             && backend.create(t.(createTime := now)).err.None?
    ensures r.err.None? ==> r.calls == [NewClient(false), Create(t.(createTime := now))]
                            && r.value == backend.create(t.(createTime := now)).value
    // a client or insert error is returned unchanged; no insert follows a failed client
    ensures ThreadValid(t) && backend.newClient(false).Some? ==> r == Run(0, backend.newClient(false), [NewClient(false)])
    ensures ThreadValid(t) && backend.newClient(false).None? && backend.create(t.(createTime := now)).err.Some?
            ==> r == Run(0, backend.create(t.(createTime := now)).err, [NewClient(false), Create(t.(createTime := now))])
  {
    CreateWith(ValidateThread(t), t.(createTime := now), false, backend)
  }

  /** `UpdateThread`: validate; stamp `UpdateTime`; `NewClient(false)`; update. */
  function UpdateThread(t: Thread, now: Time, backend: Backend<Thread>): (r: Run<(), Thread>)
    ensures !ThreadValid(t) ==> r.calls == [] && r.err == ValidateThread(t) && r.err.Some?
    ensures forall c :: c in r.calls && c.Update? ==> c.record == t.(updateTime := now)
    ensures Update(t.(updateTime := now)) in r.calls ==> ThreadValid(t)
    ensures r.err.None? <==> ThreadValid(t) && backend.newClient(false).None? && backend.update(t.(updateTime := now)).None?
    // a client or update error is returned unchanged
    ensures ThreadValid(t) && backend.newClient(false).Some? ==> r == Run((), backend.newClient(false), [NewClient(false)])
    ensures ThreadValid(t) && backend.newClient(false).None?
            ==> r == Run((), backend.update(t.(updateTime := now)), [NewClient(false), Update(t.(updateTime := now))])
  {
    UpdateWith(ValidateThread(t), t.(updateTime := now), None, backend)
  }
}
