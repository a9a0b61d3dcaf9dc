# YouTube live-chat bot: a verified model of its core

The bot watches a channel for a live stream. It joins the stream's live chat
and greets it. It then polls the chat and answers each new message, either
with a fixed command reply (`!こんにちは`, `!今何時`, `!占い`) or with the
output of a text generator. It keeps a bounded log of what it answered and
says goodbye when the live ends. A small HTTP API reports whether the bot is
live, returns the chat log, and lets an operator post a message into the
current chat.

The Dafny modules follow the source files:

- `PyStr` (`pystr.dfy`): the Python `str` operations the bot uses, over code
  points. These are `isspace`, `strip`, single-character `replace`,
  `startswith`, and `in` between strings.
- `Json` (`json.dfy`): decoded JSON values, with Python truthiness.
- `Common` (`common.dfy`): `Option`, and `Try` (a call that returns a value
  or raises).
- `SharedState` (`shared_state.dfy`): the status the monitor publishes and
  the API reads. It holds the current live chat id, whether the YouTube
  service is set, and the current video id.
- `Chat` (`chat.dfy`): `youtube/chat.py`. It covers live-chat detection, the
  text-message filter of a poll, and the sanitising and truncation of an
  outbound message. Every API call is replaced by the response it would
  return, or by `Raised`.
- `LiveMonitor` (`live_monitor.dfy`): `youtube/live_monitor.py`.
  - `LogCache` is a class over the 50-entry log. Its ghost `history` keeps
    every entry ever appended.
  - The command table and `is_live_ended` are pure functions.
  - The dispatch of one poll batch is specified by a ledger function,
    `BatchEffect`, and the monitor loop over its passes by `SessionEffect`.
    The deduplication lemmas are proved about these ledgers.
  - `Monitor` is a class that holds the published status, the seen-id set,
    the sends made and the log. Its methods run the session and are proved
    against the ledger and the pure decisions.
- `App` (`app.dfy`): the decisions of `app.py`. These are the validation
  cascade of `handle_send_message`, the `is_live` flag of `bot_status`, and
  the `chat_log` passthrough. Each is a pure function of the decoded request
  body and the shared status.

The monitor's inputs are all parameters. These are the clock reading, the
fortune draw, the generator's output, whether each send succeeds, the log
timestamps, and every API response. A per-message input is keyed by the
message id. The endless monitor loop is run over a finite list of passes
(`Cycle`). When the list runs out, the model reports `StillRunning`.

## Model

| member | source | states |
|---|---|---|
| PyStr.ReplaceChar | youtube/chat.py:55 | The length is kept. Every occurrence of the character is replaced and every other character is kept in place. |
| PyStr.LStrip | youtube/chat.py:55 | The result is a suffix of the input. Only whitespace was dropped, and the result does not start with whitespace. |
| PyStr.RStrip | youtube/chat.py:55 | The result is a prefix of the input. Only whitespace was dropped, and the result does not end with whitespace. |
| PyStr.Strip | youtube/chat.py:55 | `strip()` returns the slice between the leading and the trailing whitespace. Everything cut off is whitespace, and the result has none at either end. |
| PyStr.StripKeepsTrimmed | youtube/chat.py:55 | A string with no whitespace at either end is its own `strip()`. |
| PyStr.StripAllSpace | youtube/chat.py:55 | A string made only of whitespace strips to "". |
| Chat.GetLiveChatId | youtube/chat.py:6-21 | An empty search gives exactly `(None, None)`. Otherwise the video id is the first search hit and the chat id is that video's `activeLiveChatId`, which may be None while the video id is present. A failed call, a video response without items, or an item without details raises. |
| Chat.ToMessage | youtube/chat.py:42-46 | The message keeps the item's id and author. A missing `messageText` reads as "". |
| Chat.TextMessages | youtube/chat.py:31-47 | The filter of a poll response is never longer than the response. |
| Chat.TextMessagesAppend | youtube/chat.py:31-47 | Filtering a concatenation is the concatenation of the filtered parts, so the input order is kept. |
| Chat.TextMessagesLength | youtube/chat.py:31-47 | The output is never longer than the input. When every item is a text event, the output maps them one to one. |
| Chat.TextMessagesMembers | youtube/chat.py:38-46 | A message is in the output if and only if some input item is a text event that reads as that message. A text event is an item whose `textMessageDetails` is present and non-empty (`IsTextEvent`, the `if not text_details: continue` test at lines 38-40). |
| Chat.PollChatMessages | youtube/chat.py:24-47 | A failed list call raises. Otherwise the result is exactly the text events of the response, in order. |
| Chat.SpacedPointwise | youtube/chat.py:55 | The two replacements turn `\n` and `\r` into spaces and keep every other character in place. |
| Chat.SpacedKeepsSpace | youtube/chat.py:55 | A character that reads as whitespace after the replacement was whitespace before it. |
| Chat.SpacedSlice | youtube/chat.py:55 | A slice of the replaced text holds no line breaks and is the replaced form of the same slice of the original. |
| Chat.SpacedMargins | youtube/chat.py:55 | What `strip()` cuts from the replaced text was whitespace in the original too. |
| Chat.StripCollapses | youtube/chat.py:55 | Stripping the replaced text gives a trimmed string without line breaks, no longer than the original, which is the replaced form of one slice of the original with only whitespace around it. |
| Chat.Collapse | youtube/chat.py:55 | The result has no `\n` or `\r` and no whitespace at either end. It is a slice of the input with its line breaks turned into spaces, and everything of the input outside that slice is whitespace. |
| Chat.Truncate | youtube/chat.py:58-59 | The result is at most 200 long. A text of at most 200 is unchanged. A longer one becomes its first 197 characters plus "...", exactly 200 long. |
| Chat.TruncateAddsNoBreak | youtube/chat.py:58-59 | Truncation brings in no line break. |
| Chat.ReplaceAbsent | youtube/chat.py:55 | Replacing a character that does not occur changes nothing. |
| Chat.FallbackIsClean | youtube/chat.py:51-59 | The fallback text comes through sanitising unchanged. |
| Chat.OutboundText | youtube/chat.py:50-59 | Empty or non-string text is replaced by the fallback before sanitising. The sent text has no `\n` or `\r` and is at most 200 long. |
| Chat.SendMessage | youtube/chat.py:50-72 | There is one insert, carrying the given chat id, type `textMessageEvent`, and the sanitised text `OutboundText(text)`, which is at most 200 long with no line breaks. |
| Chat.CleanTextSentUnchanged | youtube/chat.py:50-72 | A non-empty text that is at most 200 long, has no line break and no surrounding whitespace is sent exactly as given. |
| Chat.TruncateKeepsTrimmed | youtube/chat.py:55-59 | Truncating a stripped non-empty text leaves it non-empty and stripped. |
| Chat.FallbackStable | youtube/chat.py:51-59 | Sending the fallback text as the text sends it unchanged. |
| Chat.OutboundTextStable | youtube/chat.py:50-59 | Sanitising is idempotent. Sending the sent text again sends the same text, except that "" turns into the fallback. |
| Chat.TrimmedTextStable | youtube/chat.py:51-59 | A capped clean text passes through `send_message` unchanged. |
| Chat.BlankTextSentEmpty | youtube/chat.py:51-55 | A non-empty text of only whitespace passes the fallback check and is sent as "". |
| Chat.SendMessageExample | tests/test_youtube_api.py:14-30 | In the unit test's case, the insert carries "test_chat_id", `textMessageEvent` and the text unchanged. |
| LiveMonitor.WindowIsSuffix | youtube/live_monitor.py:95-107 | The window holds min(n, 50) entries and is the suffix of the history of that length, in order. |
| LiveMonitor.WindowSlides | youtube/live_monitor.py:97-107 | Appending to the history appends to the window. A full window also loses exactly its first entry. |
| LiveMonitor.LogCache.constructor | youtube/live_monitor.py:95 | The cache starts empty. |
| LiveMonitor.LogCache.Append | youtube/live_monitor.py:97-107 | The new entry is last. A full cache loses exactly its oldest entry. The cache always equals the last at most 50 entries appended. |
| LiveMonitor.LogCache.Latest | youtube/live_monitor.py:109-110 | Returns at most 50 entries: the newest entries appended, in order, or all of them while there are at most 50. |
| LiveMonitor.CommandsExclusive | youtube/live_monitor.py:53-64 | No text starts with two of the three command prefixes. |
| LiveMonitor.CommandReply | youtube/live_monitor.py:51-67 | Each command prefix gives its own reply, and that reply is both sent and logged. Any other text gets the generator's output, sent with the `{author}さん：` prefix and logged without it. |
| LiveMonitor.CommandIgnoresResponder | youtube/live_monitor.py:53-66 | A command's reply does not depend on the generator's output. |
| LiveMonitor.OtherBangTextUsesResponder | youtube/live_monitor.py:65-67 | "!help" is answered by the generator. |
| LiveMonitor.FortunesDistinct | youtube/live_monitor.py:61 | The seven fortunes are pairwise different. |
| LiveMonitor.FortuneReplyEmbedsOne | youtube/live_monitor.py:60-63 | The slot of a fortune reply equals fortune j if and only if j is the drawn index. So it embeds exactly one of the seven. |
| LiveMonitor.IsLiveEnded | youtube/live_monitor.py:80-92 | A failed call means not ended. A response without items means ended. Otherwise the live has ended exactly when the first item's details carry `actualEndTime`. |
| LiveMonitor.MessageStep | youtube/live_monitor.py:47-71 | A seen id, or a batch already stopped by a raised send, changes nothing. A new id is added to the seen set and dispatched, and gets exactly one send of the chosen reply. A failed send stops the batch. The log gains the reply, with the original text and the un-prefixed response, exactly when the send succeeded and the response is non-empty. Otherwise the log is unchanged. |
| LiveMonitor.BatchEffect | youtube/live_monitor.py:46-71 | The seen set only grows over a batch, and a batch that starts stopped changes nothing. |
| LiveMonitor.BatchDispatchesOnce | youtube/live_monitor.py:46-71 | In a batch no id is dispatched twice and no already-seen id is dispatched. The seen set is the old set plus the ids dispatched. Each dispatch sends once. Only non-empty replies are logged. |
| LiveMonitor.StepKeepsDeduplicated | youtube/live_monitor.py:47-71 | Handling one message keeps those dedup facts. |
| LiveMonitor.StepGrowsSeen | youtube/live_monitor.py:47-49 | The seen set only grows. A handled message whose send does not raise is in it afterwards. |
| LiveMonitor.CompletedBatchSeesAll | youtube/live_monitor.py:46-49 | After a batch with no failed send, every id of the batch is seen. |
| LiveMonitor.SeenBatchIsNoOp | youtube/live_monitor.py:46-48 | A batch whose ids are all seen changes nothing. |
| LiveMonitor.RepeatedBatchIsNoOp | youtube/live_monitor.py:33-49 | Polling the same batch again after it was handled dispatches and sends nothing, whatever the new inputs. |
| LiveMonitor.BatchEffectStep | youtube/live_monitor.py:46-71 | The ledger of the first i+1 messages is one more step on the ledger of the first i. |
| LiveMonitor.RaisedStopsBatch | youtube/live_monitor.py:46-77 | After a send raises, the rest of the batch is not handled. |
| LiveMonitor.HasLiveChat | youtube/live_monitor.py:19 | A live chat is found exactly when the chat id is present and truthy. |
| LiveMonitor.SessionExit | youtube/live_monitor.py:13-43 | A raised detection, no live chat, a failed greeting, and the end of the live are each told apart by exactly the condition that causes them. |
| LiveMonitor.EarlyExitIgnoresLoop | youtube/live_monitor.py:17-33 | An exit before the loop does not depend on the loop's passes. |
| LiveMonitor.Published | youtube/live_monitor.py:17-42 | A raised detection leaves the published chat id as it was. No live chat, or the end of the live, clears it. After a failed greeting, or while the loop runs, it is the detected chat id. |
| LiveMonitor.FarewellStep | youtube/live_monitor.py:37-43 | The farewell is always sent. It is logged, and stops the loop, only if the send succeeds. The seen set and the dispatched ids are unchanged. |
| LiveMonitor.Pass | youtube/live_monitor.py:35-77 | A stopped loop makes no more changes. Otherwise the pass stops the loop exactly when the live has ended and the farewell send returns. One farewell is attempted exactly when the live has ended, and such a pass neither marks nor dispatches any id. |
| LiveMonitor.PollStep | youtube/live_monitor.py:45-71 | A failed poll changes nothing. Otherwise the pass appends the batch ledger of the poll's text messages, started from the seen set as it stands. |
| LiveMonitor.SessionEffect | youtube/live_monitor.py:35-77 | The seen set, the sends and the log only grow over the passes, and a stopped loop makes no more changes. |
| LiveMonitor.SessionEffectStep | youtube/live_monitor.py:35-77 | The session ledger of the first i+1 passes is one more pass on the ledger of the first i. |
| LiveMonitor.EndedSessionStays | youtube/live_monitor.py:35-43 | Once the loop has stopped, later passes change nothing. |
| LiveMonitor.PassEnds | youtube/live_monitor.py:35-45 | A pass stops the loop exactly when it sees the end of the live and the farewell send succeeds. The farewell is then the last send and the last log entry. |
| LiveMonitor.SessionEnds | youtube/live_monitor.py:35-43 | The loop stops exactly when some pass sees the end of the live and gets the farewell out. |
| LiveMonitor.FarewellIsLast | youtube/live_monitor.py:37-43 | A loop that has stopped sent the farewell last, and its last log entry is the bot's farewell entry: author "Bot", text "（終了）" and the farewell message as the response. |
| LiveMonitor.SessionOutcome | youtube/live_monitor.py:35-43 | Seen from the whole send list and log, the loop stops exactly when some pass ends the session, and then the farewell is the last send and the bot's farewell entry (author, text and response) is the last log entry. |
| LiveMonitor.SeenOnceMeans | youtube/live_monitor.py:33-49 | The monitor's invariant holds exactly when no id was dispatched twice and the seen set is the set of dispatched ids. |
| LiveMonitor.SeenOnceAdd | youtube/live_monitor.py:47-49 | Marking a new id seen and dispatching it keeps that invariant. |
| LiveMonitor.PassKeepsDeduplicated | youtube/live_monitor.py:45-71 | One pass keeps the session's dedup facts: no id dispatched twice, no id seen at the start dispatched, the seen set equal to the start set plus the ids dispatched, and one send per dispatch or farewell. |
| LiveMonitor.SessionDispatchesOnce | youtube/live_monitor.py:33-71 | Over a whole session no id is dispatched twice and no id seen when the session started is dispatched. The seen set is the start set plus the ids dispatched, and every send is a dispatch or a farewell. |
| LiveMonitor.Monitor.Respond | youtube/live_monitor.py:47-71 | A new id is marked seen and gets exactly one send of the chosen reply. The reply is logged with the original text and the un-prefixed response, but only if the send succeeded and the reply is non-empty. The new state is one `MessageStep` further along the batch ledger. |
| LiveMonitor.Monitor.ProcessBatch | youtube/live_monitor.py:45-71 | The loop over a batch leaves seen ids, sends and log exactly as the ledger `BatchEffect` says, and reports whether a send raised. |
| LiveMonitor.Monitor.PollAndProcess | youtube/live_monitor.py:45-77 | A failed poll changes nothing. Otherwise the state follows the ledger of the poll's text messages, and the session ledger advances by `PollStep`. The seen set is never reset. |
| LiveMonitor.Monitor.Farewell | youtube/live_monitor.py:37-43 | The farewell is always sent. It is logged, and the chat id cleared, only if the send succeeds. The session ledger advances by `FarewellStep`. |
| LiveMonitor.Monitor.RunPass | youtube/live_monitor.py:36-77 | One pass of the loop keeps the invariant and advances the state by exactly one `Pass` of the session ledger. It reports a stop exactly when that pass ends the session, and clears the chat id then. |
| LiveMonitor.Monitor.RunSession | youtube/live_monitor.py:35-77 | The seen set, the dispatched ids, the sends and the log end exactly as the session ledger `SessionEffect` of the passes says. The loop ends exactly when some pass sees the end of the live and gets the farewell out. Then the chat id is cleared and the last send and log entry are the farewell. Otherwise the id stays published. |
| LiveMonitor.Monitor.Greet | youtube/live_monitor.py:25-33 | The chat id is published before the greeting is sent. A failed greeting is not logged. Otherwise it is logged and the seen set starts empty. |
| LiveMonitor.Monitor.MonitorLiveStream | youtube/live_monitor.py:13-77 | The exit follows `SessionExit` and the published chat id follows `Published`. No live chat, or a failed detection, sends and logs nothing. A failed greeting is the only send and logs nothing. Once the loop runs, the sends are the greeting followed by the session ledger's sends, the log is the greeting's entry followed by the ledger's entries, and no message id is dispatched twice. |
| App.MessageField | app.py:37-44 | A falsy body fails the key check. Only an object holding "message" passes it and yields its value. A number, `true`, a list holding "message", or a string containing it raises. |
| App.InSession | app.py:49-53 | A session is open exactly when the chat id is present and truthy and the service is set. An open session reads as live on the status endpoint. |
| App.HandleSendMessage | app.py:36-63 | The status is 200, 400, 404 or 500. There is a 400 for a missing key or a falsy message, and a 404 for a falsy chat id or missing service. `send_message` is called, exactly once, with the current chat id and the message, if and only if all checks pass. The status is 200 if and only if that call succeeds; a failed call gives the 500 error body. Every body is fixed: a missing key gives the key-missing error, a falsy message the empty-message error, a 404 the no-session error, and a raising key check Flask's unhandled 500. |
| App.ValidationPrecedesSession | app.py:37-53 | A 400 does not depend on the session or the send. |
| App.SessionPrecedesSend | app.py:49-57 | A 404 does not depend on how the send would go. |
| App.ListBodyIsUnhandled | app.py:37-44 | The body `["message"]` passes the key check, fails on `.get`, and gives a 500 without a send. |
| App.BotStatus | app.py:23-27 | `bot_running` is always true. `is_live` is true exactly when a chat id is set. The video id is passed through. |
| App.EmptyChatIdLiveButUnsendable | app.py:25-53 | An empty chat id reads as live, yet a valid send request gets 404 and no send. |
| App.StatusAfterMonitor | youtube/live_monitor.py:17-43 | After the monitor returns or raises, the status reads live exactly after a failed greeting, while the loop still runs, or, when detection raised, if it was live before. |
| App.ChatLog | app.py:30-32 | Returns the log cache unchanged: at most 50 entries, the newest last. |

## Left out

- OAuth and building the Google client (`youtube/auth.py`) are not modelled. The monitor's service is only a flag in the shared status.
- SQLite storage (`database.py`) is not part of this model.
- The Gemini call (`gemini/responder.py`) is not modelled. Its output is an arbitrary string per message, possibly empty.
- The restart loop of `bot_runner.py` is not modelled. Flask routing, CORS, threading, `app.run`, `debug_check_live` and the `health_check` route are not modelled either.
- `time.sleep`, `logging` and `datetime.now()` are left out. Clock readings and log timestamps are parameters.
- `random.choice` is replaced by an injected index into the seven fortunes.
- `shared_state.py` is not part of this model. `youtube/live_monitor.py` imports an object `shared_state` from it, while `app.py` imports the module itself. The model assumes both read and write one status, starting with no chat id.
- `CURRENT_VIDEO_ID` is never assigned in `app.py`, `youtube/chat.py` or `youtube/live_monitor.py`. The status endpoint passes it through, and the monitor leaves it as it was.
- `youtube/live_monitor.py:8` imports `is_live_ended` from `youtube.chat`, which does not define it. That import raises `ImportError`, so as written `youtube/live_monitor.py` cannot be loaded, and neither can `app.py` or `bot_runner.py`, which import it. The model assumes the import is dropped and uses the local definition at line 80.
- LiveMonitor.Monitor.MonitorLiveStream: the endless loop is run over a finite list of passes, and `StillRunning` stands for "not stopped yet".
- LiveMonitor.Monitor.MonitorLiveStream: when it leaves before the loop, its contract does not state the seen set. In the source that set is a local variable of the call.
- Sends are recorded as `SendCall(chatId, text)` attempts, including those that raise. The insert each makes is `Chat.SendMessage(chatId, JString(text))`.
- Chat.GetLiveChatId: a search item without `id.videoId` (a `KeyError`) is not modelled. The search response is reduced to its list of video ids.
- Chat.PollChatMessages: an item without `authorDetails` (a `KeyError` that aborts the poll) is not modelled. Each item carries its author.
- Chat.PollChatMessages: an item without `id` (a `KeyError` at `youtube/chat.py:33` that aborts the poll) is not modelled. Each item carries its id.
- Chat.ToMessage: a `messageText` of JSON `null` is not modelled; every message text is a string. In the source, `text_details.get` at `youtube/chat.py:42` then returns `None`, and `text.startswith` at `youtube/live_monitor.py:53` raises after the id was already marked seen, so that message is skipped for good and the rest of its batch is abandoned.
- The body of `request.get_json()` is taken as already decoded. Flask's own 400 and 415 replies to bodies that are not JSON are left out.
- JSON numbers are integers only. Floats and their truthiness (`0.0`) are not modelled.
- App.HandleSendMessage: the 500 for an uncaught exception is only a status and the marker body `Unhandled`. Flask's error page is not modelled.
