/**
 * The HTTP endpoints of app.py that decide something: the send-message
 * validation cascade, the liveness flag of the status endpoint and the
 * chat-log passthrough. Flask itself is not modelled: a request is its
 * decoded JSON body, a response is a status code and a body, and the one
 * side effect, the call of `send_message`, is returned as a value.
 */
module App {
  import opened Common
  import opened PyStr
  import opened Json
  import opened SharedState
  import Chat
  import LiveMonitor

  const KeyMissingError := "Message key is missing or data is not a valid JSON."
  const EmptyMessageError := "Message cannot be empty."
  const NoSessionError := "Bot is not currently in a live chat session."
  const SendFailedError := "An internal error occurred while sending the message."
  const SentMessage := "Message sent successfully."

  /** A JSON response body; `Unhandled` is the 500 page Flask serves for an uncaught exception. */
  datatype Body = ErrorBody(error: string) | SuccessBody(message: string) | Unhandled

  datatype Response = Response(status: nat, body: Body)

  /** The response together with the `send_message` call made on the way, if any. */
  datatype Outcome = Outcome(response: Response, call: Option<Chat.ChatInsert>)

  /**
   * `not data or "message" not in data` followed by `data.get("message")`,
   * on every JSON shape: `Returned(None)` when the key check fails,
   * `Returned(Some(m))` when it passes, `Raised` when Python raises. A list
   * tests its elements, a string its substrings, and neither has `.get`;
   * a number or `true` does not support `in` at all.
   */
  function MessageField(data: Value): (r: Try<Option<Value>>)
    ensures !Truthy(data) ==> r == Returned(None)
    ensures r.Returned? && r.value.Some? <==> data.JObject? && "message" in data.fields
    ensures r.Returned? && r.value.Some? ==> r.value.value == data.fields["message"]
    ensures r.Raised? <==>
      && Truthy(data)
      && (|| data.JNumber? || data.JBool?
          || (data.JArray? && JString("message") in data.items)
          || (data.JString? && Contains(data.s, "message")))
  {
    if !Truthy(data) then Returned(None)
    else
      match data
      case JObject(fields) => if "message" in fields then Returned(Some(fields["message"])) else Returned(None)
      case JArray(items) => if JString("message") in items then Raised else Returned(None)
      case JString(s) => if Contains(s, "message") then Raised else Returned(None)
      case _ => Raised
  }

  /** Lines 49-52: a session is open when the chat id is truthy and the service is set. */
  function InSession(shared: Status): (open: bool)
    ensures open <==> shared.liveChatId.Some? && Truthy(JString(shared.liveChatId.value)) && shared.service
    ensures open ==> BotStatus(shared).isLive
  {
    shared.liveChatId.Some? && shared.liveChatId.value != "" && shared.service
  }

  /**
   * `handle_send_message` (lines 36-63) on the body `data`, the shared status
   * `shared`, and `sendOk`, whether `send_message` returns without raising.
   */
  function HandleSendMessage(data: Value, shared: Status, sendOk: bool): (r: Outcome)
    ensures r.response.status in {200, 400, 404, 500}
    ensures r.response.status == 400 <==>
      MessageField(data).Returned? && (MessageField(data).value.None? || !Truthy(MessageField(data).value.value))
    ensures r.response.status == 400 ==> r.call.None?
    ensures !Truthy(data) ==> r.response == Response(400, ErrorBody(KeyMissingError))
    ensures data.JObject? && "message" in data.fields && !Truthy(data.fields["message"]) ==>
      r.response == Response(400, ErrorBody(EmptyMessageError))
    ensures r.response.status == 404 ==> r.call.None? && !InSession(shared)
    ensures r.call.Some? <==> data.JObject? && "message" in data.fields && Truthy(data.fields["message"]) && InSession(shared)
    ensures r.call.Some? ==> r.call.value == Chat.SendMessage(shared.liveChatId.value, data.fields["message"])
    ensures r.response.status == 200 <==> r.call.Some? && sendOk
    ensures r.response.status == 200 ==> r.response.body == SuccessBody(SentMessage)
    ensures r.call.Some? && !sendOk ==> r.response == Response(500, ErrorBody(SendFailedError))
    ensures r.response.status == 500 && r.call.None? <==> MessageField(data).Raised?
    ensures MessageField(data) == Returned(None) ==> r.response == Response(400, ErrorBody(KeyMissingError))
    ensures r.response.status == 404 ==> r.response.body == ErrorBody(NoSessionError)
    ensures MessageField(data).Raised? ==> r.response == Response(500, Unhandled)
  {
    match MessageField(data)
    case Raised => Outcome(Response(500, Unhandled), None)
    case Returned(None) => Outcome(Response(400, ErrorBody(KeyMissingError)), None)
    case Returned(Some(message)) =>
      if !Truthy(message) then Outcome(Response(400, ErrorBody(EmptyMessageError)), None)
      else if !InSession(shared) then Outcome(Response(404, ErrorBody(NoSessionError)), None)
      else
        var call := Chat.SendMessage(shared.liveChatId.value, message);
        if sendOk then Outcome(Response(200, SuccessBody(SentMessage)), Some(call))
        else Outcome(Response(500, ErrorBody(SendFailedError)), Some(call))
  }

  /** The body checks come first: a 400 does not depend on the session or on the send. */
  lemma ValidationPrecedesSession(data: Value, shared: Status, sendOk: bool, shared2: Status, sendOk2: bool)
    requires HandleSendMessage(data, shared, sendOk).response.status == 400
    ensures HandleSendMessage(data, shared2, sendOk2) == HandleSendMessage(data, shared, sendOk)
  {
  }

  /** The session check comes before the send: a 404 does not depend on how the send would go. */
  lemma SessionPrecedesSend(data: Value, shared: Status, sendOk: bool, sendOk2: bool)
    requires HandleSendMessage(data, shared, sendOk).response.status == 404
    ensures HandleSendMessage(data, shared, sendOk2) == HandleSendMessage(data, shared, sendOk)
  {
  }

  /** A list body that holds the string "message" passes the key check and then fails on `.get`. */
  lemma ListBodyIsUnhandled(shared: Status, sendOk: bool)
    ensures HandleSendMessage(JArray([JString("message")]), shared, sendOk) == Outcome(Response(500, Unhandled), None)
  {
    assert JString("message") in [JString("message")];
  }

  /** The status endpoint's body. */
  datatype StatusBody = StatusBody(botRunning: bool, isLive: bool, videoId: Option<string>)

  /** `bot_status` (lines 24-27). */
  function BotStatus(shared: Status): (r: StatusBody)
    ensures r.botRunning
    ensures r.isLive <==> shared.liveChatId != None
    ensures r.videoId == shared.currentVideoId
  {
    StatusBody(true, shared.liveChatId.Some?, shared.currentVideoId)
  }

  /**
   * The two endpoints test the chat id differently: an empty id reads as
   * live on the status endpoint and still refuses a send with 404.
   */
  lemma EmptyChatIdLiveButUnsendable(shared: Status, message: string, sendOk: bool)
    requires shared.liveChatId == Some("")
    requires message != ""
    ensures BotStatus(shared).isLive
    ensures HandleSendMessage(JObject(map["message" := JString(message)]), shared, sendOk) ==
      Outcome(Response(404, ErrorBody(NoSessionError)), None)
  {
  }

  /**
   * What the status endpoint reports once `monitor_live_stream` has returned
   * or raised: live after a failed greeting or while the loop still runs,
   * not live after no-live or the end of the live, and as before when the
   * detection raised.
   */
  lemma StatusAfterMonitor(d: Try<Chat.Detection>, startSendOk: bool, cycles: seq<LiveMonitor.Cycle>, before: Status)
    ensures var exit := LiveMonitor.SessionExit(d, startSendOk, cycles);
      var after := before.(service := true, liveChatId := LiveMonitor.Published(exit, d, before.liveChatId));
      BotStatus(after).isLive <==>
        exit == LiveMonitor.StartRaised || exit == LiveMonitor.StillRunning
        || (exit == LiveMonitor.DetectionRaised && before.liveChatId.Some?)
  {
  }

  /** `chat_log` (lines 30-32): the cache contents, unchanged, newest last. */
  function ChatLog(log: LiveMonitor.LogCache): (r: seq<LiveMonitor.LogEntry>)
    reads log
    requires log.Valid()
    ensures |r| <= LiveMonitor.LogCapacity
    ensures r == LiveMonitor.Window(log.history)
    ensures log.history != [] ==> r != [] && r[|r| - 1] == log.history[|log.history| - 1]
  {
    log.Latest()
  }
}
