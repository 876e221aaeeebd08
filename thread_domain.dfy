/** The thread record (internal/thread/thread.go). */
module ThreadDomain {
  import opened Foundation

  /** `thread.Thread`; the game's names and icons are derived by the store from
      the game id. */
  datatype Thread = Thread(
    id: int, title: string, gameID: int, gameNames: string, gameIcons: string,
    description: string, imageThread: string, date: Time, createTime: Time, updateTime: Time)

  /** `thread.Thread{}`. */
  const ZeroThread := Thread(0, "", 0, "", "", "", "", ZeroTime, ZeroTime, ZeroTime)

  /** `threadHTTP`, the request/response object: every field may be nil. */
  datatype ThreadHTTP = ThreadHTTP(
    id: Option<int>, title: Option<string>, gameID: Option<int>, gameNames: Option<string>,
    gameIcons: Option<string>, description: Option<string>, imageThread: Option<string>, date: Option<string>)

  /** A request body with every field absent. */
  const EmptyThreadHTTP := ThreadHTTP(None, None, None, None, None, None, None, None)
}
