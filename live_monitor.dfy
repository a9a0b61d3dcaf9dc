/**
 * The live-session engine: the bounded log cache, the command table, the
 * end-of-live check, per-batch deduplication and dispatch, and the session
 * lifecycle that publishes and clears the current live chat id.
 */
module LiveMonitor {
  import opened Common
  import opened PyStr
  import opened Json
  import Chat
  import opened SharedState

  /** The log cache keeps the 50 most recent entries. */
  const LogCapacity := 50

  const BotAuthor := "Bot"
  const StartMessage := "🎉 Botが参加しました！こんにちは！"
  const StartLogText := "（参加）"
  const EndMessage := "🎤 配信おつかれさまでした！また次回お会いしましょう！"
  const EndLogText := "（終了）"

  const GreetCommand := "!こんにちは"
  const TimeCommand := "!今何時"
  const FortuneCommand := "!占い"
  const Fortunes: seq<string> := ["大吉 ✨", "中吉 😊", "小吉 🙂", "吉 😉", "末吉 🤔", "凶 😥", "大凶 😱"]
  const FortuneOpen := "さんの今日の運勢は...【"
  const FortuneClose := "】です！"

  /** The position `random.choice` draws from the seven fortunes. */
  type FortuneIndex = i: nat | i < 7

  /** One entry of the log cache: `{author, message, response, timestamp}`. */
  datatype LogEntry = LogEntry(author: string, message: string, response: string, timestamp: string)

  // ---------------------------------------------------------------- log cache

  /** The last at most 50 entries of `history`, oldest first. */
  function Window(history: seq<LogEntry>): seq<LogEntry> {
    if |history| <= LogCapacity then history else history[|history| - LogCapacity..]
  }

  /** The window holds min(n, 50) entries and is a suffix of the history. */
  lemma WindowIsSuffix(history: seq<LogEntry>)
    ensures |Window(history)| == if |history| <= LogCapacity then |history| else LogCapacity
    ensures Window(history) == history[|history| - |Window(history)|..]
  {
  }

  /**
   * Appending to the window and dropping its first entry once it is over
   * capacity gives the window of the extended history.
   */
  lemma WindowSlides(history: seq<LogEntry>, e: LogEntry)
    ensures |Window(history)| < LogCapacity ==> Window(history + [e]) == Window(history) + [e]
    ensures |Window(history)| == LogCapacity ==> Window(history + [e]) == Window(history)[1..] + [e]
  {
    var h := history + [e];
    if |history| < LogCapacity {
      assert Window(h) == h;
    } else {
      assert Window(h) == h[|h| - LogCapacity..];
      assert Window(history)[1..] == history[|history| - LogCapacity + 1..];
      assert h[|h| - LogCapacity..] == history[|history| - LogCapacity + 1..] + [e];
    }
  }

  /** `chat_log_cache` with `append_log` and `get_latest_logs`. */
  class LogCache {
    var entries: seq<LogEntry>
    /** Every entry ever appended, oldest first. */
    ghost var history: seq<LogEntry>

    ghost predicate Valid()
      reads this
    {
      entries == Window(history)
    }

    constructor ()
      ensures Valid() && history == [] && entries == []
    {
      entries := [];
      history := [];
    }

    /** `append_log`: append the entry, then drop the oldest if there are more than 50. */
    method Append(author: string, message: string, response: string, timestamp: string)
      requires Valid()
      modifies this
      ensures Valid()
      ensures history == old(history) + [LogEntry(author, message, response, timestamp)]
      ensures |old(entries)| < LogCapacity ==>
        entries == old(entries) + [LogEntry(author, message, response, timestamp)]
      ensures |old(entries)| == LogCapacity ==>
        entries == old(entries)[1..] + [LogEntry(author, message, response, timestamp)]
    {
      var e := LogEntry(author, message, response, timestamp);
      WindowSlides(history, e);
      entries := entries + [e];
      if |entries| > LogCapacity {
        entries := entries[1..];
      }
      history := history + [e];
    }

    /** `get_latest_logs`: the cache as it stands. */
    function Latest(): (logs: seq<LogEntry>)
      reads this
      requires Valid()
      ensures |logs| <= LogCapacity
      ensures logs == Window(history)
      ensures |history| <= LogCapacity ==> logs == history
    {
      entries
    }
  }

  // ------------------------------------------------------------ command table

  function GreetReply(author: string): string {
    author + "さん、こんにちは！"
  }

  function TimeReply(author: string, now: string): string {
    author + "さん、今は " + now + " です！"
  }

  function FortuneReply(author: string, i: FortuneIndex): string {
    author + FortuneOpen + Fortunes[i] + FortuneClose
  }

  /** What precedes the responder's text in the message sent for free text. */
  function ResponderPrefix(author: string): string {
    author + "さん："
  }

  predicate IsCommand(text: string) {
    StartsWith(text, GreetCommand) || StartsWith(text, TimeCommand) || StartsWith(text, FortuneCommand)
  }

  /** The three command prefixes share their second character with no other: a text matches at most one. */
  lemma CommandsExclusive(text: string)
    ensures !(StartsWith(text, GreetCommand) && StartsWith(text, TimeCommand))
    ensures !(StartsWith(text, GreetCommand) && StartsWith(text, FortuneCommand))
    ensures !(StartsWith(text, TimeCommand) && StartsWith(text, FortuneCommand))
  {
    if StartsWith(text, GreetCommand) {
      assert text[1] == GreetCommand[1];
    }
    if StartsWith(text, TimeCommand) {
      assert text[1] == TimeCommand[1];
    }
  }

  /** The reply to one message: `response` is what is logged, `sent` what is sent. */
  datatype Reply = Reply(response: string, sent: string)

  /**
   * The `if`/`elif` command table. `now` is the clock reading, `fortune` the
   * draw of `random.choice`, `generated` what `generate_response` returns
   * for `text` (possibly empty).
   */
  function CommandReply(author: string, text: string, now: string, fortune: FortuneIndex, generated: string): (r: Reply)
    ensures IsCommand(text) ==> r.sent == r.response
    ensures StartsWith(text, GreetCommand) ==> r.response == GreetReply(author)
    ensures StartsWith(text, TimeCommand) ==> r.response == TimeReply(author, now)
    ensures StartsWith(text, FortuneCommand) ==> r.response == FortuneReply(author, fortune)
    ensures !IsCommand(text) ==> r.response == generated && r.sent == ResponderPrefix(author) + generated
  {
    CommandsExclusive(text);
    if StartsWith(text, GreetCommand) then
      var reply := GreetReply(author); Reply(reply, reply)
    else if StartsWith(text, TimeCommand) then
      var reply := TimeReply(author, now); Reply(reply, reply)
    else if StartsWith(text, FortuneCommand) then
      var reply := FortuneReply(author, fortune); Reply(reply, reply)
    else
      Reply(generated, ResponderPrefix(author) + generated)
  }

  /** A command's reply does not depend on the responder's output. */
  lemma CommandIgnoresResponder(author: string, text: string, now: string, fortune: FortuneIndex, g1: string, g2: string)
    requires IsCommand(text)
    ensures CommandReply(author, text, now, fortune, g1) == CommandReply(author, text, now, fortune, g2)
  {
  }

  /** Other text, even text starting with "!", is answered by the responder. */
  lemma OtherBangTextUsesResponder(author: string, generated: string)
    ensures CommandReply(author, "!help", "", 0, generated) == Reply(generated, ResponderPrefix(author) + generated)
  {
    assert !StartsWith("!help", GreetCommand) by { assert "!help"[1] != GreetCommand[1]; }
    assert !StartsWith("!help", TimeCommand) by { assert "!help"[1] != TimeCommand[1]; }
    assert !StartsWith("!help", FortuneCommand) by { assert "!help"[1] != FortuneCommand[1]; }
  }

  /** The part of a fortune reply between the fixed opening and closing text. */
  function FortuneSlot(author: string, reply: string): string
    requires |author| + |FortuneOpen| + |FortuneClose| <= |reply|
  {
    reply[|author| + |FortuneOpen|..|reply| - |FortuneClose|]
  }

  /** The seven fortunes are pairwise different. */
  lemma FortunesDistinct(i: FortuneIndex, j: FortuneIndex)
    requires i != j
    ensures Fortunes[i] != Fortunes[j]
  {
    var firsts := ['大', '中', '小', '吉', '末', '凶', '大'];
    assert forall k: FortuneIndex :: Fortunes[k][0] == firsts[k];
    if |Fortunes[i]| == |Fortunes[j]| && {i, j} == {0, 6} {
      assert Fortunes[0][1] != Fortunes[6][1];
    }
  }

  /** A fortune reply embeds exactly one of the seven fortunes: the one drawn. */
  lemma {:induction false} FortuneReplyEmbedsOne(author: string, i: FortuneIndex, j: FortuneIndex)
    ensures |author| + |FortuneOpen| + |FortuneClose| <= |FortuneReply(author, i)|
    ensures FortuneSlot(author, FortuneReply(author, i)) == Fortunes[j] <==> i == j
  {
    var reply := FortuneReply(author, i);
    var start := |author| + |FortuneOpen|;
    assert reply == (author + FortuneOpen) + Fortunes[i] + FortuneClose;
    assert FortuneSlot(author, reply) == reply[start..start + |Fortunes[i]|];
    assert reply[start..start + |Fortunes[i]|] == Fortunes[i];
    if i != j {
      FortunesDistinct(i, j);
    }
  }

  // ---------------------------------------------------------- end-of-live check

  /**
   * `is_live_ended` on the response of `videos().list` for the session's
   * video: no items means ended, otherwise an `actualEndTime` does; an
   * exception (including a missing `liveStreamingDetails`) means not ended.
   */
  function IsLiveEnded(response: Try<seq<Chat.VideoItem>>): (ended: bool)
    ensures response.Raised? ==> !ended
    ensures response == Returned([]) ==> ended
    ensures response.Returned? && response.value != [] ==>
      (ended <==> Chat.FirstDetails(response).Some? && Chat.FirstDetails(response).value.actualEndTime.Some?)
  {
    match response
    case Raised => false
    case Returned(items) =>
      if items == [] then true
      else
        match items[0].liveStreamingDetails
        case None => false
        case Some(details) => details.actualEndTime.Some?
  }

  // ------------------------------------------------------ per-batch dispatch

  /**
   * What the outside world supplies while one message is handled: the clock
   * reading, the fortune draw, the responder's output, whether the send
   * succeeds, and the timestamp of the log entry.
   */
  datatype Injected = Injected(now: string, fortune: FortuneIndex, generated: string, sendOk: bool, stamp: string)

  /**
   * The effect of handling a sequence of messages: the seen-id set, the ids
   * dispatched, the inserts sent, the log entries appended, and whether a
   * send raised (which abandons the rest of the batch).
   */
  datatype Effect = Effect(seen: set<string>, dispatched: seq<string>, sends: seq<SendCall>, logs: seq<LogEntry>, raised: bool)

  /**
   * One call `send_message(youtube, liveChatId, text)`; what it puts on the
   * wire is `Chat.SendMessage(liveChatId, JString(text))`.
   */
  datatype SendCall = SendCall(liveChatId: string, text: string)

  /** `a` is `b` followed by zero or more further elements. */
  ghost predicate Extends<T>(a: seq<T>, b: seq<T>) {
    |a| >= |b| && a[..|b|] == b
  }

  /** Nothing handled yet, with `seen` already seen. */
  function Start(seen: set<string>): Effect {
    Effect(seen, [], [], [], false)
  }

  /** One pass of the loop body for message `m`. */
  function MessageStep(chatId: string, e: Effect, m: Chat.Message, inj: Injected): (r: Effect)
    ensures e.raised || m.id in e.seen ==> r == e
    ensures !e.raised && m.id !in e.seen ==>
      && r.seen == e.seen + {m.id} && r.dispatched == e.dispatched + [m.id]
      && r.sends == e.sends + [SendCall(chatId, CommandReply(m.author, m.text, inj.now, inj.fortune, inj.generated).sent)]
      && r.raised == !inj.sendOk
      && r.logs == e.logs + (var response := CommandReply(m.author, m.text, inj.now, inj.fortune, inj.generated).response;
                             if inj.sendOk && response != "" then [LogEntry(m.author, m.text, response, inj.stamp)] else [])
  {
    if e.raised || m.id in e.seen then e
    else
      var reply := CommandReply(m.author, m.text, inj.now, inj.fortune, inj.generated);
      var sent := e.(seen := e.seen + {m.id}, dispatched := e.dispatched + [m.id],
                     sends := e.sends + [SendCall(chatId, reply.sent)]);
      if !inj.sendOk then sent.(raised := true)
      else if reply.response != "" then sent.(logs := sent.logs + [LogEntry(m.author, m.text, reply.response, inj.stamp)])
      else sent
  }

  /** The loop over one poll batch, `env` giving the outside inputs for each message id. */
  function BatchEffect(chatId: string, e: Effect, msgs: seq<Chat.Message>, env: string -> Injected): (r: Effect)
    ensures e.seen <= r.seen
    ensures e.raised ==> r == e
    decreases |msgs|
  {
    if msgs == [] then e
    else
      var m := msgs[|msgs| - 1];
      MessageStep(chatId, BatchEffect(chatId, e, msgs[..|msgs| - 1], env), m, env(m.id))
  }

  /**
   * The ledger a batch leaves, started from `Start(seen)`, has the dedup shape.
   * A batch sends once per dispatch and logs only non-empty replies;
   * `SessionDeduplicated` is the session's version, which also counts farewells.
   */
  ghost predicate Deduplicated(seen: set<string>, eff: Effect) {
    && NoDuplicates(eff.dispatched)
    && (forall id :: id in eff.dispatched ==> id !in seen)
    && (forall id :: id in eff.seen <==> id in seen || id in eff.dispatched)
    && |eff.sends| == |eff.dispatched|
    && |eff.logs| <= |eff.dispatched|
    && (forall k :: 0 <= k < |eff.logs| ==> eff.logs[k].response != "")
  }

  /**
   * At-most-once dispatch: within a batch no id is dispatched twice, none that
   * was already seen is dispatched, each dispatch sends exactly one message,
   * and only non-empty replies are logged.
   */
  lemma {:induction false} BatchDispatchesOnce(chatId: string, seen: set<string>, msgs: seq<Chat.Message>, env: string -> Injected)
    ensures Deduplicated(seen, BatchEffect(chatId, Start(seen), msgs, env))
    decreases |msgs|
  {
    if msgs != [] {
      var prefix := msgs[..|msgs| - 1];
      var m := msgs[|msgs| - 1];
      BatchDispatchesOnce(chatId, seen, prefix, env);
      StepKeepsDeduplicated(chatId, seen, BatchEffect(chatId, Start(seen), prefix, env), m, env(m.id));
    }
  }

  /** One step keeps the dedup shape of the ledger. */
  lemma StepKeepsDeduplicated(chatId: string, seen: set<string>, e: Effect, m: Chat.Message, inj: Injected)
    requires Deduplicated(seen, e)
    ensures Deduplicated(seen, MessageStep(chatId, e, m, inj))
  {
    if !e.raised && m.id !in e.seen {
      var reply := CommandReply(m.author, m.text, inj.now, inj.fortune, inj.generated);
      var after := MessageStep(chatId, e, m, inj);
      assert after.dispatched == e.dispatched + [m.id];
      assert |after.sends| == |e.sends| + 1;
      assert after.logs == e.logs || (after.logs == e.logs + [LogEntry(m.author, m.text, reply.response, inj.stamp)] && reply.response != "");
    }
  }

  /** One step only ever adds to the seen set, and adds the message it handled unless it raised. */
  lemma StepGrowsSeen(chatId: string, e: Effect, m: Chat.Message, inj: Injected)
    ensures var after := MessageStep(chatId, e, m, inj);
      && e.seen <= after.seen
      && (e.raised ==> after.raised)
      && (!after.raised ==> m.id in after.seen)
  {
  }

  /** A batch that completes leaves every one of its ids in the seen set. */
  lemma {:induction false} CompletedBatchSeesAll(chatId: string, e: Effect, msgs: seq<Chat.Message>, env: string -> Injected)
    requires !BatchEffect(chatId, e, msgs, env).raised
    ensures e.seen <= BatchEffect(chatId, e, msgs, env).seen
    ensures forall k :: 0 <= k < |msgs| ==> msgs[k].id in BatchEffect(chatId, e, msgs, env).seen
    decreases |msgs|
  {
    if msgs != [] {
      var prefix := msgs[..|msgs| - 1];
      var m := msgs[|msgs| - 1];
      var before := BatchEffect(chatId, e, prefix, env);
      assert BatchEffect(chatId, e, msgs, env) == MessageStep(chatId, before, m, env(m.id));
      CompletedBatchSeesAll(chatId, e, prefix, env);
      StepGrowsSeen(chatId, before, m, env(m.id));
      assert forall k :: 0 <= k < |prefix| ==> prefix[k] == msgs[k];
    }
  }

  /** A batch whose ids have all been seen changes nothing. */
  lemma {:induction false} SeenBatchIsNoOp(chatId: string, e: Effect, msgs: seq<Chat.Message>, env: string -> Injected)
    requires forall k :: 0 <= k < |msgs| ==> msgs[k].id in e.seen
    ensures BatchEffect(chatId, e, msgs, env) == e
    decreases |msgs|
  {
    if msgs != [] {
      SeenBatchIsNoOp(chatId, e, msgs[..|msgs| - 1], env);
    }
  }

  /**
   * Overlapping polls: once a batch has been handled without a send raising,
   * handling the same batch again, whatever the outside inputs, dispatches
   * and sends nothing.
   */
  lemma RepeatedBatchIsNoOp(chatId: string, seen: set<string>, msgs: seq<Chat.Message>, env: string -> Injected, env2: string -> Injected)
    requires !BatchEffect(chatId, Start(seen), msgs, env).raised
    ensures var again := Start(BatchEffect(chatId, Start(seen), msgs, env).seen);
      BatchEffect(chatId, again, msgs, env2) == again
  {
    var first := BatchEffect(chatId, Start(seen), msgs, env);
    CompletedBatchSeesAll(chatId, Start(seen), msgs, env);
    SeenBatchIsNoOp(chatId, Start(first.seen), msgs, env2);
  }

  /** The ledger of one more message is one more step. */
  lemma BatchEffectStep(chatId: string, e: Effect, msgs: seq<Chat.Message>, i: nat, env: string -> Injected)
    requires i < |msgs|
    ensures BatchEffect(chatId, e, msgs[..i + 1], env) == MessageStep(chatId, BatchEffect(chatId, e, msgs[..i], env), msgs[i], env(msgs[i].id))
  {
    assert msgs[..i + 1][..i] == msgs[..i];
  }

  /** Once a send has raised, the rest of the batch is not handled. */
  lemma {:induction false} RaisedStopsBatch(chatId: string, e: Effect, msgs: seq<Chat.Message>, i: nat, env: string -> Injected)
    requires i <= |msgs|
    requires BatchEffect(chatId, e, msgs[..i], env).raised
    ensures BatchEffect(chatId, e, msgs, env) == BatchEffect(chatId, e, msgs[..i], env)
    decreases |msgs| - i
  {
    if i < |msgs| {
      var next := msgs[..i + 1];
      assert next[..i] == msgs[..i];
      assert BatchEffect(chatId, e, next, env) == BatchEffect(chatId, e, msgs[..i], env);
      RaisedStopsBatch(chatId, e, msgs, i + 1, env);
    } else {
      assert msgs[..i] == msgs;
    }
  }

  // ------------------------------------------------------------- the session

  /**
   * The outside world during one pass of the monitor loop: the response of
   * the end-of-live check, whether sending the farewell succeeds and the log
   * timestamp it gets, the poll response, and the inputs per message id.
   */
  datatype Cycle = Cycle(endCheck: Try<seq<Chat.VideoItem>>, endSendOk: bool, endStamp: string,
                         poll: Try<seq<Chat.ChatItem>>, env: string -> Injected)

  /**
   * How `monitor_live_stream` finishes: no live chat found, the live ended,
   * an exception escaped (from the detection or from sending the greeting),
   * or the cycles supplied ran out while the loop was still going.
   */
  datatype Exit = NoLive | LiveEnded | DetectionRaised | StartRaised | StillRunning

  /** `if not live_chat_id`: a missing or empty chat id means no live chat. */
  function HasLiveChat(d: Chat.Detection): (b: bool)
    ensures b <==> d.liveChatId.Some? && Truthy(JString(d.liveChatId.value))
  {
    d.liveChatId.Some? && d.liveChatId.value != ""
  }

  /** A pass of the loop that sees the end of the live and gets the farewell out. */
  predicate EndsSession(c: Cycle) {
    IsLiveEnded(c.endCheck) && c.endSendOk
  }

  /** How a call of `monitor_live_stream` ends, given the detection, the greeting's send and the passes. */
  function SessionExit(d: Try<Chat.Detection>, startSendOk: bool, cycles: seq<Cycle>): (r: Exit)
    ensures r == DetectionRaised <==> d.Raised?
    ensures r == NoLive <==> d.Returned? && !HasLiveChat(d.value)
    ensures r == StartRaised <==> d.Returned? && HasLiveChat(d.value) && !startSendOk
    ensures r == LiveEnded <==>
      d.Returned? && HasLiveChat(d.value) && startSendOk && exists k :: 0 <= k < |cycles| && EndsSession(cycles[k])
  {
    if d.Raised? then DetectionRaised
    else if !HasLiveChat(d.value) then NoLive
    else if !startSendOk then StartRaised
    else if exists k :: 0 <= k < |cycles| && EndsSession(cycles[k]) then LiveEnded
    else StillRunning
  }

  /** The passes matter only once the greeting is out: every earlier exit is decided before the loop. */
  lemma EarlyExitIgnoresLoop(d: Try<Chat.Detection>, startSendOk: bool, cycles: seq<Cycle>, others: seq<Cycle>)
    requires SessionExit(d, startSendOk, cycles) != LiveEnded && SessionExit(d, startSendOk, cycles) != StillRunning
    ensures SessionExit(d, startSendOk, others) == SessionExit(d, startSendOk, cycles)
  {
  }

  /**
   * `CURRENT_LIVE_CHAT_ID` after the call: untouched when detection raised,
   * cleared when there was no live chat or the live ended, the detected chat
   * id otherwise.
   */
  function Published(exit: Exit, d: Try<Chat.Detection>, before: Option<string>): (r: Option<string>)
    ensures exit == DetectionRaised ==> r == before
    ensures exit == NoLive || exit == LiveEnded ==> r == None
    ensures (exit == StartRaised || exit == StillRunning) && d.Returned? ==> r == d.value.liveChatId
  {
    match exit
    case DetectionRaised => before
    case NoLive => None
    case LiveEnded => None
    case _ => if d.Returned? then d.value.liveChatId else before
  }

  // ----------------------------------------------------------- session ledger

  /**
   * The effect of the monitor loop so far: the seen-id set, the ids
   * dispatched, every send attempted, the entries logged, how many farewells
   * were attempted, and whether the loop has stopped.
   */
  datatype Ledger = Ledger(seen: set<string>, dispatched: seq<string>, sends: seq<SendCall>,
                           logs: seq<LogEntry>, farewells: nat, ended: bool)

  /** The loop about to start, with `seen` as its seen set. */
  function SessionStart(seen: set<string>): Ledger {
    Ledger(seen, [], [], [], 0, false)
  }

  /** Lines 37-43: the farewell is sent; only a send that returns is logged and stops the loop. */
  function FarewellStep(chatId: string, l: Ledger, sendOk: bool, stamp: string): (r: Ledger)
    ensures r.seen == l.seen && r.dispatched == l.dispatched && r.farewells == l.farewells + 1
    ensures r.sends == l.sends + [SendCall(chatId, EndMessage)]
    ensures r.ended <==> l.ended || sendOk
    ensures sendOk ==> r.logs == l.logs + [LogEntry(BotAuthor, EndLogText, EndMessage, stamp)]
    ensures !sendOk ==> r.logs == l.logs
  {
    var sent := l.(sends := l.sends + [SendCall(chatId, EndMessage)], farewells := l.farewells + 1);
    if sendOk then sent.(logs := sent.logs + [LogEntry(BotAuthor, EndLogText, EndMessage, stamp)], ended := true)
    else sent
  }

  /**
   * Lines 45-71: a poll that raises changes nothing; one that returns hands
   * its text messages to the batch loop, which starts from the seen set as it
   * stands (the set is never reset inside the loop).
   */
  function PollStep(chatId: string, l: Ledger, c: Cycle): (r: Ledger)
    ensures r.ended == l.ended && r.farewells == l.farewells && l.seen <= r.seen
    ensures c.poll.Raised? ==> r == l
    ensures c.poll.Returned? ==>
      var b := BatchEffect(chatId, Start(l.seen), Chat.TextMessages(c.poll.value), c.env);
      && r.seen == b.seen && r.dispatched == l.dispatched + b.dispatched
      && r.sends == l.sends + b.sends && r.logs == l.logs + b.logs
  {
    if c.poll.Raised? then l
    else
      var b := BatchEffect(chatId, Start(l.seen), Chat.TextMessages(c.poll.value), c.env);
      l.(seen := b.seen, dispatched := l.dispatched + b.dispatched, sends := l.sends + b.sends, logs := l.logs + b.logs)
  }

  /** One pass of the `while True` loop (lines 35-77); a stopped loop makes no more passes. */
  function Pass(chatId: string, l: Ledger, c: Cycle): (r: Ledger)
    ensures l.ended ==> r == l
    ensures !l.ended ==> (r.ended <==> IsLiveEnded(c.endCheck) && c.endSendOk)
    ensures r.farewells == l.farewells + (if !l.ended && IsLiveEnded(c.endCheck) then 1 else 0)
    ensures IsLiveEnded(c.endCheck) ==> r.seen == l.seen && r.dispatched == l.dispatched
  {
    if l.ended then l
    else if IsLiveEnded(c.endCheck) then FarewellStep(chatId, l, c.endSendOk, c.endStamp)
    else PollStep(chatId, l, c)
  }

  /** The loop run over the passes `cycles`, from the ledger `l`. */
  function SessionEffect(chatId: string, l: Ledger, cycles: seq<Cycle>): (r: Ledger)
    ensures l.seen <= r.seen
    ensures |l.sends| <= |r.sends| && r.sends[..|l.sends|] == l.sends
    ensures |l.logs| <= |r.logs| && r.logs[..|l.logs|] == l.logs
    ensures l.ended ==> r == l
    decreases |cycles|
  {
    if cycles == [] then l
    else Pass(chatId, SessionEffect(chatId, l, cycles[..|cycles| - 1]), cycles[|cycles| - 1])
  }

  /** The ledger of the first i+1 passes is one more pass on the ledger of the first i. */
  lemma SessionEffectStep(chatId: string, l: Ledger, cycles: seq<Cycle>, i: nat)
    requires i < |cycles|
    ensures SessionEffect(chatId, l, cycles[..i + 1]) == Pass(chatId, SessionEffect(chatId, l, cycles[..i]), cycles[i])
  {
    assert cycles[..i + 1][..i] == cycles[..i];
  }

  /** Once the loop has stopped, the remaining passes change nothing. */
  lemma {:induction false} EndedSessionStays(chatId: string, l: Ledger, cycles: seq<Cycle>, i: nat)
    requires i <= |cycles|
    requires SessionEffect(chatId, l, cycles[..i]).ended
    ensures SessionEffect(chatId, l, cycles) == SessionEffect(chatId, l, cycles[..i])
    decreases |cycles| - i
  {
    if i < |cycles| {
      SessionEffectStep(chatId, l, cycles, i);
      EndedSessionStays(chatId, l, cycles, i + 1);
    } else {
      assert cycles[..i] == cycles;
    }
  }

  /** A pass stops a running loop exactly when it sees the end and gets the farewell out. */
  lemma PassEnds(chatId: string, l: Ledger, c: Cycle)
    requires !l.ended
    ensures var r := Pass(chatId, l, c);
      && (r.ended <==> EndsSession(c))
      && (r.ended ==> r.sends == l.sends + [SendCall(chatId, EndMessage)]
                      && r.logs == l.logs + [LogEntry(BotAuthor, EndLogText, EndMessage, c.endStamp)])
  {
  }

  /** The loop stops exactly when some pass sees the end of the live and gets the farewell out. */
  lemma {:induction false} SessionEnds(chatId: string, l: Ledger, cycles: seq<Cycle>)
    requires !l.ended
    ensures SessionEffect(chatId, l, cycles).ended <==> exists k :: 0 <= k < |cycles| && EndsSession(cycles[k])
    decreases |cycles|
  {
    if cycles != [] {
      var prefix := cycles[..|cycles| - 1];
      var c := cycles[|cycles| - 1];
      SessionEnds(chatId, l, prefix);
      var before := SessionEffect(chatId, l, prefix);
      assert SessionEffect(chatId, l, cycles) == Pass(chatId, before, c);
      assert forall k :: 0 <= k < |prefix| ==> prefix[k] == cycles[k];
      if !before.ended {
        PassEnds(chatId, before, c);
      }
    }
  }

  /** A loop that has stopped sent and logged the farewell last. */
  lemma {:induction false} FarewellIsLast(chatId: string, l: Ledger, cycles: seq<Cycle>)
    requires !l.ended
    ensures var r := SessionEffect(chatId, l, cycles);
      && (r.ended ==> |r.sends| > |l.sends| && r.sends[|r.sends| - 1] == SendCall(chatId, EndMessage))
      && (r.ended ==> (|r.logs| > |l.logs| && r.logs[|r.logs| - 1].author == BotAuthor
                       && r.logs[|r.logs| - 1].message == EndLogText && r.logs[|r.logs| - 1].response == EndMessage))
    decreases |cycles|
  {
    if cycles != [] {
      var prefix := cycles[..|cycles| - 1];
      FarewellIsLast(chatId, l, prefix);
      var before := SessionEffect(chatId, l, prefix);
      assert SessionEffect(chatId, l, cycles) == Pass(chatId, before, cycles[|cycles| - 1]);
      if !before.ended {
        PassEnds(chatId, before, cycles[|cycles| - 1]);
      }
    }
  }

  /**
   * What a monitor whose sends and log follow the session ledger of the
   * passes can tell from outside: the loop stopped exactly when some pass
   * ended the session, and then the farewell is the last send and log entry.
   */
  lemma SessionOutcome(chatId: string, seen0: set<string>, cycles: seq<Cycle>, sends0: seq<SendCall>,
                       logs0: seq<LogEntry>, sends: seq<SendCall>, logs: seq<LogEntry>)
    requires sends == sends0 + SessionEffect(chatId, SessionStart(seen0), cycles).sends
    requires logs == logs0 + SessionEffect(chatId, SessionStart(seen0), cycles).logs
    ensures var ended := SessionEffect(chatId, SessionStart(seen0), cycles).ended;
      && (ended <==> exists k :: 0 <= k < |cycles| && EndsSession(cycles[k]))
      && (ended ==> |sends| > |sends0| && sends[|sends| - 1] == SendCall(chatId, EndMessage))
      && (ended ==> (|logs| > |logs0| && logs[|logs| - 1].author == BotAuthor
                     && logs[|logs| - 1].message == EndLogText && logs[|logs| - 1].response == EndMessage))
  {
    var r := SessionEffect(chatId, SessionStart(seen0), cycles);
    SessionEnds(chatId, SessionStart(seen0), cycles);
    FarewellIsLast(chatId, SessionStart(seen0), cycles);
    if r.ended {
      LastOfAppend(sends0, r.sends);
      LastOfAppend(logs0, r.logs);
    }
  }

  /**
   * The dedup shape of a session ledger started from the seen set `seen0`.
   * Unlike a batch's `Deduplicated`, the sends include one per farewell attempt.
   */
  ghost predicate SessionDeduplicated(seen0: set<string>, l: Ledger) {
    && NoDuplicates(l.dispatched)
    && (forall id :: id in l.dispatched ==> id !in seen0)
    && (forall id :: id in l.seen <==> id in seen0 || id in l.dispatched)
    && |l.sends| == |l.dispatched| + l.farewells
  }

  /** One pass keeps the dedup shape of the session ledger. */
  lemma PassKeepsDeduplicated(chatId: string, seen0: set<string>, l: Ledger, c: Cycle)
    requires SessionDeduplicated(seen0, l)
    ensures SessionDeduplicated(seen0, Pass(chatId, l, c))
  {
    if !l.ended && !IsLiveEnded(c.endCheck) && c.poll.Returned? {
      var msgs := Chat.TextMessages(c.poll.value);
      var b := BatchEffect(chatId, Start(l.seen), msgs, c.env);
      BatchDispatchesOnce(chatId, l.seen, msgs, c.env);
      NoDuplicatesAppend(l.dispatched, b.dispatched);
    }
  }

  /**
   * At-most-once dispatch over a whole session: across all passes, however
   * their batches overlap and whichever sends or polls raise, no id is
   * dispatched twice and no id seen before the loop is dispatched; every send
   * is either one dispatch's reply or a farewell.
   */
  lemma {:induction false} SessionDispatchesOnce(chatId: string, seen0: set<string>, cycles: seq<Cycle>)
    ensures SessionDeduplicated(seen0, SessionEffect(chatId, SessionStart(seen0), cycles))
    decreases |cycles|
  {
    if cycles != [] {
      var prefix := cycles[..|cycles| - 1];
      SessionDispatchesOnce(chatId, seen0, prefix);
      PassKeepsDeduplicated(chatId, seen0, SessionEffect(chatId, SessionStart(seen0), prefix), cycles[|cycles| - 1]);
    }
  }

  /**
   * `seen` holds exactly the ids of `dispatched`, and `dispatched` holds each
   * id once: peeling off the last dispatch leaves the same shape one id smaller.
   * This is the monitor's own invariant. `SeenOnceMeans` shows it equals the
   * quantified form of the ledger predicates; the recursive form keeps the
   * solver from instantiating quantifiers at every state change of the class.
   */
  ghost predicate SeenOnce(seen: set<string>, dispatched: seq<string>)
    decreases |dispatched|
  {
    if dispatched == [] then seen == {}
    else
      var last := dispatched[|dispatched| - 1];
      last in seen && SeenOnce(seen - {last}, dispatched[..|dispatched| - 1])
  }

  /** `SeenOnce` says no id is dispatched twice and the seen set is the set of dispatched ids. */
  lemma {:induction false} SeenOnceMeans(seen: set<string>, dispatched: seq<string>)
    ensures SeenOnce(seen, dispatched) <==>
      NoDuplicates(dispatched) && forall id :: id in seen <==> id in dispatched
    decreases |dispatched|
  {
    if dispatched != [] {
      var last := dispatched[|dispatched| - 1];
      var prefix := dispatched[..|dispatched| - 1];
      SeenOnceMeans(seen - {last}, prefix);
      assert dispatched == prefix + [last];
      if NoDuplicates(dispatched) && forall id :: id in seen <==> id in dispatched {
        assert last !in prefix by {
          forall k | 0 <= k < |prefix| ensures prefix[k] != last {
            assert prefix[k] == dispatched[k];
          }
        }
        assert NoDuplicates(prefix) by {
          forall i, j | 0 <= i < j < |prefix| ensures prefix[i] != prefix[j] {
            assert prefix[i] == dispatched[i] && prefix[j] == dispatched[j];
          }
        }
      }
      if SeenOnce(seen, dispatched) {
        assert last !in prefix;
        NoDuplicatesAppend(prefix, [last]);
      }
    }
  }

  /** Dispatching an id not yet seen keeps the shape. */
  lemma SeenOnceAdd(seen: set<string>, dispatched: seq<string>, id: string)
    requires SeenOnce(seen, dispatched) && id !in seen
    ensures SeenOnce(seen + {id}, dispatched + [id])
  {
    assert (dispatched + [id])[..|dispatched|] == dispatched;
    assert (seen + {id}) - {id} == seen;
  }

  /** The state of the live monitor and of the status it publishes. */
  class Monitor {
    var shared: Status
    const log: LogCache
    /** `seen_msg_ids` of the current call. */
    var seen: set<string>
    /** Every insert `send_message` was called with, in order. */
    var sends: seq<SendCall>
    /** The message ids dispatched since the seen set was last created. */
    ghost var dispatched: seq<string>

    ghost predicate Valid()
      reads this, log
    {
      && log.Valid()
      && SeenOnce(seen, dispatched)
    }

    constructor (log: LogCache)
      requires log.Valid()
      ensures Valid() && this.log == log
      ensures shared == Initial && seen == {} && sends == [] && dispatched == []
    {
      this.log := log;
      shared := Initial;
      seen := {};
      sends := [];
      dispatched := [];
    }

    /**
     * The monitor's state is the state it had when the ledger started
     * (`dispatched0`, `sends0`, `history0`) extended by the ledger `eff`.
     * `Tracks` is the same relation for the session ledger, whose type also
     * counts farewells and the stop.
     */
    ghost predicate Follows(dispatched0: seq<string>, sends0: seq<SendCall>, history0: seq<LogEntry>, eff: Effect)
      reads this, log
    {
      && seen == eff.seen
      && dispatched == dispatched0 + eff.dispatched
      && sends == sends0 + eff.sends
      && log.history == history0 + eff.logs
    }

    /**
     * The monitor's state is the state it had when the loop started
     * (`dispatched0`, `sends0`, `history0`) extended by the session ledger `l`.
     */
    ghost predicate Tracks(dispatched0: seq<string>, sends0: seq<SendCall>, history0: seq<LogEntry>, l: Ledger)
      reads this, log
    {
      && seen == l.seen
      && dispatched == dispatched0 + l.dispatched
      && sends == sends0 + l.sends
      && log.history == history0 + l.logs
    }

    /**
     * The body of the loop over a batch for a message whose id has not been
     * seen: mark it seen, reply, send, and log a non-empty reply.
     */
    method Respond(chatId: string, m: Chat.Message, inj: Injected, ghost dispatched0: seq<string>,
                   ghost sends0: seq<SendCall>, ghost history0: seq<LogEntry>, ghost eff: Effect) returns (raised: bool)
      requires Valid() && m.id !in seen
      requires Follows(dispatched0, sends0, history0, eff) && !eff.raised
      modifies this, log
      ensures Follows(dispatched0, sends0, history0, MessageStep(chatId, eff, m, inj))
      ensures Valid() && shared == old(shared)
      ensures seen == old(seen) + {m.id} && dispatched == old(dispatched) + [m.id]
      ensures var reply := CommandReply(m.author, m.text, inj.now, inj.fortune, inj.generated);
        && sends == old(sends) + [SendCall(chatId, reply.sent)]
        && log.history == old(log.history) + (if inj.sendOk && reply.response != ""
                                               then [LogEntry(m.author, m.text, reply.response, inj.stamp)] else [])
      ensures raised == !inj.sendOk
    {
      SeenOnceAdd(seen, dispatched, m.id);
      seen := seen + {m.id};
      dispatched := dispatched + [m.id];
      var reply := CommandReply(m.author, m.text, inj.now, inj.fortune, inj.generated);
      sends := sends + [SendCall(chatId, reply.sent)];
      raised := !inj.sendOk;
      if !raised && reply.response != "" {
        log.Append(m.author, m.text, reply.response, inj.stamp);
      }
    }

    /**
     * The `for` loop over one poll batch (lines 46-71): each message is
     * handled in turn; a send that raises ends the batch.
     */
    method ProcessBatch(chatId: string, msgs: seq<Chat.Message>, env: string -> Injected) returns (raised: bool)
      requires Valid()
      modifies this, log
      ensures Valid() && shared == old(shared)
      ensures Follows(old(dispatched), old(sends), old(log.history), BatchEffect(chatId, Start(old(seen)), msgs, env))
      ensures raised == BatchEffect(chatId, Start(old(seen)), msgs, env).raised
    {
      ghost var start := Start(seen);
      ghost var eff := start;
      raised := false;
      var i := 0;
      while i < |msgs| && !raised
        invariant 0 <= i <= |msgs|
        invariant Valid() && shared == old(shared)
        invariant eff == BatchEffect(chatId, start, msgs[..i], env)
        invariant Follows(old(dispatched), old(sends), old(log.history), eff)
        invariant raised == eff.raised
      {
        var m := msgs[i];
        BatchEffectStep(chatId, start, msgs, i, env);
        ghost var prev := eff;
        eff := MessageStep(chatId, eff, m, env(m.id));
        if m.id !in seen {
          raised := Respond(chatId, m, env(m.id), old(dispatched), old(sends), old(log.history), prev);
        }
        i := i + 1;
      }
      if raised {
        RaisedStopsBatch(chatId, start, msgs, i, env);
      } else {
        assert msgs[..i] == msgs;
      }
    }

    /**
     * Lines 45-71: poll the chat and handle the batch. An exception from the
     * poll abandons the pass; one from a send abandons the rest of the batch.
     */
    method PollAndProcess(chatId: string, cycle: Cycle, ghost dispatched0: seq<string>,
                          ghost sends0: seq<SendCall>, ghost history0: seq<LogEntry>, ghost l: Ledger)
      requires Valid() && Tracks(dispatched0, sends0, history0, l)
      modifies this, log
      ensures Valid() && shared == old(shared)
      ensures cycle.poll.Raised? ==> seen == old(seen) && sends == old(sends) && log.history == old(log.history)
      ensures cycle.poll.Returned? ==>
        Follows(old(dispatched), old(sends), old(log.history),
                BatchEffect(chatId, Start(old(seen)), Chat.TextMessages(cycle.poll.value), cycle.env))
      ensures Tracks(dispatched0, sends0, history0, PollStep(chatId, l, cycle))
    {
      var polled := Chat.PollChatMessages(cycle.poll);
      if polled.Returned? {
        ghost var b := BatchEffect(chatId, Start(seen), Chat.TextMessages(cycle.poll.value), cycle.env);
        var _ := ProcessBatch(chatId, polled.value, cycle.env);
        AppendAssoc(dispatched0, l.dispatched, b.dispatched);
        AppendAssoc(sends0, l.sends, b.sends);
        AppendAssoc(history0, l.logs, b.logs);
      }
    }

    /**
     * Lines 37-43 once the live has ended: send the farewell; only when the
     * send succeeds is it logged and the published chat id cleared.
     */
    method Farewell(chatId: string, sendOk: bool, stamp: string, ghost dispatched0: seq<string>,
                    ghost sends0: seq<SendCall>, ghost history0: seq<LogEntry>, ghost l: Ledger)
      requires Valid() && Tracks(dispatched0, sends0, history0, l)
      modifies this, log
      ensures Valid() && seen == old(seen)
      ensures sends == old(sends) + [SendCall(chatId, EndMessage)]
      ensures sendOk ==> shared == old(shared).(liveChatId := None)
      ensures sendOk ==> log.history == old(log.history) + [LogEntry(BotAuthor, EndLogText, EndMessage, stamp)]
      ensures !sendOk ==> shared == old(shared) && log.history == old(log.history)
      ensures Tracks(dispatched0, sends0, history0, FarewellStep(chatId, l, sendOk, stamp))
    {
      ghost var r := FarewellStep(chatId, l, sendOk, stamp);
      sends := sends + [SendCall(chatId, EndMessage)];
      assert sends == sends0 + r.sends;
      if sendOk {
        log.Append(BotAuthor, EndLogText, EndMessage, stamp);
        shared := shared.(liveChatId := None);
        assert log.history == history0 + r.logs;
      }
    }

    /**
     * Pass `i` of the `while True` loop (lines 36-77): on end of live send
     * the farewell, and stop if it went out; otherwise poll and handle the
     * batch. An exception abandons this pass only. The session ledger of the
     * passes so far advances by one pass.
     */
    method RunPass(chatId: string, cycles: seq<Cycle>, i: nat, ghost start: Ledger, ghost dispatched0: seq<string>,
                   ghost sends0: seq<SendCall>, ghost history0: seq<LogEntry>) returns (stop: bool)
      requires i < |cycles| && Valid() && shared.liveChatId == Some(chatId)
      requires Tracks(dispatched0, sends0, history0, SessionEffect(chatId, start, cycles[..i]))
      requires !SessionEffect(chatId, start, cycles[..i]).ended
      modifies this, log
      ensures Valid() && shared == old(shared).(liveChatId := if stop then None else Some(chatId))
      ensures Tracks(dispatched0, sends0, history0, SessionEffect(chatId, start, cycles[..i + 1]))
      ensures stop == SessionEffect(chatId, start, cycles[..i + 1]).ended
    {
      ghost var l := SessionEffect(chatId, start, cycles[..i]);
      SessionEffectStep(chatId, start, cycles, i);
      var cycle := cycles[i];
      if IsLiveEnded(cycle.endCheck) {
        Farewell(chatId, cycle.endSendOk, cycle.endStamp, dispatched0, sends0, history0, l);
        stop := cycle.endSendOk;
      } else {
        PollAndProcess(chatId, cycle, dispatched0, sends0, history0, l);
        stop := false;
      }
    }

    /**
     * The `while True` loop of `monitor_live_stream` (lines 35-77) over the
     * passes supplied, until a pass stops it. The seen set survives an
     * exception.
     */
    method RunSession(chatId: string, cycles: seq<Cycle>) returns (ended: bool)
      requires Valid() && shared.liveChatId == Some(chatId)
      modifies this, log
      ensures Valid()
      ensures var s := SessionEffect(chatId, SessionStart(old(seen)), cycles);
        Tracks(old(dispatched), old(sends), old(log.history), s) && ended == s.ended
      ensures ended <==> exists k :: 0 <= k < |cycles| && EndsSession(cycles[k])
      ensures shared == old(shared).(liveChatId := if ended then None else Some(chatId))
      ensures ended ==> |sends| > |old(sends)| && sends[|sends| - 1] == SendCall(chatId, EndMessage)
      ensures ended ==> (|log.history| > |old(log.history)| && log.history[|log.history| - 1].author == BotAuthor
                         && log.history[|log.history| - 1].message == EndLogText
                         && log.history[|log.history| - 1].response == EndMessage)
    {
      ghost var start := SessionStart(seen);
      assert cycles[..0] == [];
      ended := false;
      var i := 0;
      while i < |cycles| && !ended
        invariant 0 <= i <= |cycles|
        invariant Valid() && shared == old(shared).(liveChatId := if ended then None else Some(chatId))
        invariant Tracks(old(dispatched), old(sends), old(log.history), SessionEffect(chatId, start, cycles[..i]))
        invariant ended == SessionEffect(chatId, start, cycles[..i]).ended
      {
        ended := RunPass(chatId, cycles, i, start, old(dispatched), old(sends), old(log.history));
        i := i + 1;
      }
      if ended {
        EndedSessionStays(chatId, start, cycles, i);
      } else {
        assert cycles[..i] == cycles;
      }
      SessionOutcome(chatId, old(seen), cycles, old(sends), old(log.history), sends, log.history);
    }

    /**
     * Lines 25-33 once a live chat is found: publish its id, send the
     * greeting (an exception here escapes), log it and start a fresh seen set.
     */
    method Greet(chatId: string, sendOk: bool, stamp: string) returns (raised: bool)
      requires Valid()
      modifies this, log
      ensures Valid() && shared == old(shared).(liveChatId := Some(chatId))
      ensures sends == old(sends) + [SendCall(chatId, StartMessage)]
      ensures raised == !sendOk
      ensures raised ==> log.history == old(log.history)
      ensures !raised ==> log.history == old(log.history) + [LogEntry(BotAuthor, StartLogText, StartMessage, stamp)]
      ensures !raised ==> seen == {} && dispatched == []
    {
      shared := shared.(liveChatId := Some(chatId));
      sends := sends + [SendCall(chatId, StartMessage)];
      if !sendOk {
        return true;
      }
      seen := {};
      dispatched := [];
      log.Append(BotAuthor, StartLogText, StartMessage, stamp);
      return false;
    }

    /**
     * `monitor_live_stream` (lines 13-43): store the client, detect the live
     * chat, publish it or clear it, greet, and run the loop. Detection and
     * the greeting run outside the loop's handler, so an exception from them
     * leaves the function with the published id as it then stands.
     */
    method MonitorLiveStream(search: Try<seq<string>>, videos: Chat.VideoService,
                             startSendOk: bool, startStamp: string, cycles: seq<Cycle>) returns (exit: Exit)
      requires Valid()
      modifies this, log
      ensures Valid()
      ensures var d := Chat.GetLiveChatId(search, videos);
        && exit == SessionExit(d, startSendOk, cycles)
        && shared == old(shared).(service := true, liveChatId := Published(exit, d, old(shared.liveChatId)))
      ensures exit == DetectionRaised || exit == NoLive ==> sends == old(sends) && log.history == old(log.history)
      ensures var d := Chat.GetLiveChatId(search, videos);
        exit == StartRaised || exit == LiveEnded || exit == StillRunning ==>
        d.Returned? && d.value.liveChatId.Some? &&
        Extends(sends, old(sends) + [SendCall(d.value.liveChatId.value, StartMessage)])
      ensures exit == StartRaised ==> log.history == old(log.history) && |sends| == |old(sends)| + 1
      ensures var d := Chat.GetLiveChatId(search, videos);
        exit == LiveEnded || exit == StillRunning ==>
        var chatId := d.value.liveChatId.value;
        var s := SessionEffect(chatId, SessionStart({}), cycles);
        && sends == old(sends) + [SendCall(chatId, StartMessage)] + s.sends
        && log.history == old(log.history) + [LogEntry(BotAuthor, StartLogText, StartMessage, startStamp)] + s.logs
        && seen == s.seen && dispatched == s.dispatched
        && SessionDeduplicated({}, s)
    {
      shared := shared.(service := true);
      var detected := Chat.GetLiveChatId(search, videos);
      if detected.Raised? {
        return DetectionRaised;
      }
      if !HasLiveChat(detected.value) {
        shared := shared.(liveChatId := None);
        return NoLive;
      }
      var chatId := detected.value.liveChatId.value;
      var raised := Greet(chatId, startSendOk, startStamp);
      if raised {
        return StartRaised;
      }
      ghost var greeted := sends;
      var ended := RunSession(chatId, cycles);
      assert sends[..|greeted|] == greeted;
      SessionDispatchesOnce(chatId, {}, cycles);
      exit := if ended then LiveEnded else StillRunning;
    }
  }
}
