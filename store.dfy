/** The PostgreSQL store as the services see it: an abstract collaborator.
    A service call is modelled by what it returns together with the ordered
    list of store calls it made, so that "validation happens before any
    store call" and "the record written carries the new timestamp" are
    properties of the result. The Create and Update control flow shared by
    the match, news, thread, team and game services is defined once here. */
module Store {
  import opened Foundation
  import opened Errors

  /** A call on the store; `GetAll` and `GetByID` arguments are not traced. */
  datatype Call<R> =
    | NewClient(useTx: bool)
    | Create(record: R)
    | Update(record: R)
    | GetUserByEmail(email: string)
    | Commit
    | Rollback

  /** How the store answers: whether `NewClient(useTx)` fails, and what
      `Create` and `Update` return for a record. */
  datatype Backend<!R> = Backend(
    newClient: bool -> Option<Error>,
    create: R -> Ret<int, Error>,
    update: R -> Option<Error>)

  /** A service result: Go's `(value, err)` plus the store calls made. */
  datatype Run<T, R> = Run(value: T, err: Option<Error>, calls: seq<Call<R>>)

  /** `Create*`: validate; on failure return `(0, err)`; otherwise stamp the
      record, get a client with `NewClient(useTx)`, insert, and return the new
      id. Every failure returns the id 0. */
  function CreateWith<R>(validation: Option<Error>, stamped: R, useTx: bool, backend: Backend<R>): (r: Run<int, R>)
    ensures validation.Some? ==> r == Run(0, validation, [])
    ensures validation.None? ==> r.calls != [] && r.calls[0] == NewClient(useTx)
    ensures forall c :: c in r.calls ==> c == NewClient(useTx) || c == Create(stamped)
    ensures r.err.Some? ==> r.value == 0
    ensures r.err.None? <==> validation.None? && backend.newClient(useTx).None? && backend.create(stamped).err.None?
    ensures r.err.None? ==> r.value == backend.create(stamped).value
                            && r.calls == [NewClient(useTx), Create(stamped)]
    // a client or insert error is returned unchanged; no insert follows a failed client
    ensures validation.None? && backend.newClient(useTx).Some? ==> r == Run(0, backend.newClient(useTx), [NewClient(useTx)])
    ensures validation.None? && backend.newClient(useTx).None? && backend.create(stamped).err.Some?
            ==> r == Run(0, backend.create(stamped).err, [NewClient(useTx), Create(stamped)])
  {
    if validation.Some? then Run(0, validation, [])
    else
      var clientErr := backend.newClient(useTx);
      if clientErr.Some? then Run(0, clientErr, [NewClient(useTx)])
      else
        var created := backend.create(stamped);
        if created.err.Some? then Run(0, created.err, [NewClient(useTx), Create(stamped)])
        else Run(created.value, None, [NewClient(useTx), Create(stamped)])
  }

  /** `Update*`: validate; on failure return the error; otherwise stamp the
      record, get a client with `NewClient(false)`, apply a final check to the
      stamped record (`None` for the services that have none), and update. */
  function UpdateWith<R>(validation: Option<Error>, stamped: R, finalCheck: Option<Error>, backend: Backend<R>): (r: Run<(), R>)
    ensures validation.Some? ==> r == Run((), validation, [])
    ensures validation.None? ==> r.calls != [] && r.calls[0] == NewClient(false)
    ensures forall c :: c in r.calls ==> c == NewClient(false) || c == Update(stamped)
    ensures Update(stamped) in r.calls ==> validation.None? && finalCheck.None?
    ensures validation.None? && backend.newClient(false).None? && finalCheck.Some? ==> r.err == finalCheck
    ensures r.err.None? <==> validation.None? && backend.newClient(false).None? && finalCheck.None?
                             && backend.update(stamped).None?
    // a client or update error is returned unchanged
    ensures validation.None? && backend.newClient(false).Some? ==> r == Run((), backend.newClient(false), [NewClient(false)])
    ensures validation.None? && backend.newClient(false).None? && finalCheck.None?
            ==> r == Run((), backend.update(stamped), [NewClient(false), Update(stamped)])
  {
    if validation.Some? then Run((), validation, [])
    else
      var clientErr := backend.newClient(false);
      if clientErr.Some? then Run((), clientErr, [NewClient(false)])
      else if finalCheck.Some? then Run((), finalCheck, [NewClient(false)])
      else Run((), backend.update(stamped), [NewClient(false), Update(stamped)])
  }

  /** `GetAll*`: get a client with `NewClient(false)` and return the store's
      answer, or `(nil, err)`. */
  function ListWith<R>(clientErr: Option<Error>, listed: Ret<seq<R>, Error>): (r: Ret<seq<R>, Error>)
    ensures clientErr.Some? ==> r == Ret([], clientErr)
    ensures clientErr.None? && listed.err.None? ==> r == listed
    ensures clientErr.None? && listed.err.Some? ==> r == Ret([], listed.err)
    ensures r.err.Some? ==> r.value == []
  {
    if clientErr.Some? then Ret([], clientErr)
    else if listed.err.Some? then Ret([], listed.err)
    else listed
  }
}
