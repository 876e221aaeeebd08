/** The news record (internal/news/news.go). */
module NewsDomain {
  import opened Foundation

  /** `news.News`; the game's names and icons are derived by the store from
      the game id. */
  datatype News = News(
    id: int, title: string, gameID: int, gameNames: string, gameIcons: string,
    description: string, imageNews: string, date: Time, createTime: Time, updateTime: Time)

  /** `news.News{}`. */
  const ZeroNews := News(0, "", 0, "", "", "", "", ZeroTime, ZeroTime, ZeroTime)

  /** `newsHTTP`, the request/response object: every field may be nil. */
  datatype NewsHTTP = NewsHTTP(
    id: Option<int>, title: Option<string>, gameID: Option<int>, gameNames: Option<string>,
    gameIcons: Option<string>, description: Option<string>, imageNews: Option<string>, date: Option<string>)

  /** A request body with every field absent. */
  const EmptyNewsHTTP := NewsHTTP(None, None, None, None, None, None, None, None)
}
