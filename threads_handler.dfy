/** The collection handler for threads (internal/thread/handler/http/threads.go):
    `parseThreadFromCreateRequest`. */
module ThreadsHandler {
  import opened Foundation
  import opened Errors
  import opened ThreadDomain
  import ThreadHandler

  /** `parseThreadFromCreateRequest`: present fields are copied into the zero
      item, absent ones stay zero; a bad date is the only error. */
  function ParseThreadFromCreateRequest(nh: ThreadHTTP, parseDate: DateParser): (r: Ret<Thread, ClientCode>)
    ensures r.err.Some? <==> OverrideDate(nh.date, ZeroTime, parseDate).None?
    ensures r.err.Some? ==> r == Ret(ZeroThread, Some(InvalidTimeFormat))
    ensures r.err.None? ==>
              && r.value.id == 0 && r.value.gameNames == "" && r.value.gameIcons == ""
              && r.value.title == nh.title.GetOr("")
              && r.value.gameID == nh.gameID.GetOr(0)
              && r.value.description == nh.description.GetOr("")
              && r.value.imageThread == nh.imageThread.GetOr("")
              && (nh.date.None? || nh.date.value == "" ==> r.value.date == ZeroTime)
              && (nh.date.Some? && nh.date.value != "" ==> Some(r.value.date) == parseDate(nh.date.value))
  {
    match OverrideDate(nh.date, ZeroTime, parseDate)
    case None => Ret(ZeroThread, Some(InvalidTimeFormat))
    case Some(date) =>
      Ret(ZeroThread.(title := nh.title.GetOr(""),
                    gameID := nh.gameID.GetOr(0),
                    description := nh.description.GetOr(""),
                    imageThread := nh.imageThread.GetOr(""),
                    date := date),
          None)
  }

  /** Creating from a request is updating the zero item with it. */
  lemma CreateIsUpdateOfZero(nh: ThreadHTTP, parseDate: DateParser)
    ensures ParseThreadFromCreateRequest(nh, parseDate) == ThreadHandler.ParseThreadFromUpdateRequest(nh, ZeroThread, parseDate)
  {
  }
}
