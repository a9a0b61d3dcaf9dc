/**
 * The process-wide status written by the live monitor and read by the HTTP
 * layer (`shared_state.CURRENT_LIVE_CHAT_ID`, `YOUTUBE_SERVICE`,
 * `CURRENT_VIDEO_ID`).
 */
module SharedState {
  import opened Common

  /**
   * `liveChatId` is `CURRENT_LIVE_CHAT_ID`, `service` says whether
   * `YOUTUBE_SERVICE` holds a client, `currentVideoId` is `CURRENT_VIDEO_ID`.
   */
  datatype Status = Status(liveChatId: Option<string>, service: bool, currentVideoId: Option<string>)

  /** Every field empty, as at process start. */
  const Initial := Status(None, false, None)
}
