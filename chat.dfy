/**
 * The YouTube chat transport helpers: locating the live chat of a channel,
 * reading text messages from a poll response, and preparing an outbound
 * message. Every network call is replaced by the response it would return.
 */
module Chat {
  import opened Common
  import opened PyStr
  import opened Json

  /** YouTube's limit on the length of one chat message. */
  const MaxChatLength := 200
  /** Characters kept from an over-long message before the ellipsis. */
  const KeptOnTruncate := 197
  const Ellipsis := "..."
  /** Sent in place of an empty or non-string text. */
  const FallbackText := "（応答が生成できませんでした）"
  const TextMessageEvent := "textMessageEvent"

  /** The `liveStreamingDetails` part of a video resource. */
  datatype LiveDetails = LiveDetails(activeLiveChatId: Option<string>, actualEndTime: Option<string>)

  /** One item of a `videos().list` response; `liveStreamingDetails` may be absent. */
  datatype VideoItem = VideoItem(liveStreamingDetails: Option<LiveDetails>)

  /** The pair `(live_chat_id, video_id)` returned by `get_live_chat_id`. */
  datatype Detection = Detection(liveChatId: Option<string>, videoId: Option<string>)

  /**
   * One item of a `liveChatMessages().list` response. `textMessageDetails`
   * is the snippet's dictionary of that name, `None` when the snippet (or the
   * key) is missing, as it is for stickers and other non-text events.
   */
  datatype ChatItem = ChatItem(id: string, author: string, textMessageDetails: Option<map<string, string>>)

  /** A text message as the poller hands it on: `(msg_id, author, text)`. */
  datatype Message = Message(id: string, author: string, text: string)

  /** The body of one `liveChatMessages().insert` call. */
  datatype ChatInsert = ChatInsert(liveChatId: string, kind: string, messageText: string)

  /**
   * The answers of `videos().list(part="liveStreamingDetails", id=…)` by
   * video id; an id the platform does not know gives a response without items.
   */
  type VideoService = map<string, Try<seq<VideoItem>>>

  function ListVideo(videos: VideoService, id: string): Try<seq<VideoItem>> {
    if id in videos then videos[id] else Returned([])
  }

  /** The live-streaming details of the first item of a video response, if there are any. */
  function FirstDetails(response: Try<seq<VideoItem>>): Option<LiveDetails> {
    if response.Returned? && response.value != [] && response.value[0].liveStreamingDetails.Some?
    then Some(response.value[0].liveStreamingDetails.value)
    else None
  }

  /**
   * `get_live_chat_id`: `search` is the response of the channel's live-video
   * search (the video ids of its items) and `videos` answers the video
   * lookup. An exception from either call, a video response without items
   * and an item without live-streaming details all raise.
   */
  function GetLiveChatId(search: Try<seq<string>>, videos: VideoService): (r: Try<Detection>)
    ensures search.Raised? ==> r.Raised?
    ensures search == Returned([]) <==> r == Returned(Detection(None, None))
    ensures search.Returned? && search.value != [] ==>
      (r.Returned? <==> FirstDetails(ListVideo(videos, search.value[0])).Some?)
    ensures r.Returned? && r.value.videoId.Some? ==>
      && search.Returned? && search.value != []
      && r.value.videoId.value == search.value[0]
      && r.value.liveChatId == FirstDetails(ListVideo(videos, search.value[0])).value.activeLiveChatId
    ensures r.Returned? ==> (r.value.videoId.None? ==> r.value.liveChatId.None?)
  {
    match search
    case Raised => Raised
    case Returned(items) =>
      if items == [] then Returned(Detection(None, None))
      else
        var videoId := items[0];
        match FirstDetails(ListVideo(videos, videoId))
        case None => Raised
        case Some(details) => Returned(Detection(details.activeLiveChatId, Some(videoId)))
  }

  /** The snippet carries a non-empty `textMessageDetails` dictionary (Python truthiness). */
  predicate IsTextEvent(item: ChatItem) {
    item.textMessageDetails.Some? && item.textMessageDetails.value != map[]
  }

  /** The message read from a text event; a missing `messageText` reads as "". */
  function ToMessage(item: ChatItem): (m: Message)
    requires IsTextEvent(item)
    ensures m.id == item.id && m.author == item.author
    ensures "messageText" !in item.textMessageDetails.value ==> m.text == ""
    ensures "messageText" in item.textMessageDetails.value ==> m.text == item.textMessageDetails.value["messageText"]
  {
    var details := item.textMessageDetails.value;
    Message(item.id, item.author, if "messageText" in details then details["messageText"] else "")
  }

  /** The text messages of a poll response, in response order. */
  function TextMessages(items: seq<ChatItem>): (r: seq<Message>)
    ensures |r| <= |items|
    decreases |items|
  {
    if items == [] then []
    else (if IsTextEvent(items[0]) then [ToMessage(items[0])] else []) + TextMessages(items[1..])
  }

  /** Filtering a concatenation filters each part in turn: the input order is kept. */
  lemma {:induction false} TextMessagesAppend(a: seq<ChatItem>, b: seq<ChatItem>)
    ensures TextMessages(a + b) == TextMessages(a) + TextMessages(b)
    decreases |a|
  {
    if a != [] {
      var head := if IsTextEvent(a[0]) then [ToMessage(a[0])] else [];
      assert (a + b)[0] == a[0];
      assert (a + b)[1..] == a[1..] + b;
      TextMessagesAppend(a[1..], b);
      calc {
        TextMessages(a + b);
        head + TextMessages(a[1..] + b);
        head + (TextMessages(a[1..]) + TextMessages(b));
        (head + TextMessages(a[1..])) + TextMessages(b);
      }
    } else {
      assert a + b == b;
    }
  }

  /** The filter never lengthens its input, and keeps every item when all are text events. */
  lemma {:induction false} TextMessagesLength(items: seq<ChatItem>)
    ensures |TextMessages(items)| <= |items|
    ensures (forall k :: 0 <= k < |items| ==> IsTextEvent(items[k])) ==>
      |TextMessages(items)| == |items| &&
      forall k :: 0 <= k < |items| ==> TextMessages(items)[k] == ToMessage(items[k])
    decreases |items|
  {
    if items != [] {
      TextMessagesLength(items[1..]);
    }
  }

  /** A message is in the output exactly when some input item is a text event that reads as it. */
  lemma {:induction false} TextMessagesMembers(items: seq<ChatItem>, m: Message)
    ensures m in TextMessages(items) <==>
      exists k :: 0 <= k < |items| && IsTextEvent(items[k]) && ToMessage(items[k]) == m
    decreases |items|
  {
    if items != [] {
      TextMessagesMembers(items[1..], m);
      if exists k :: 0 <= k < |items[1..]| && IsTextEvent(items[1..][k]) && ToMessage(items[1..][k]) == m {
        var k :| 0 <= k < |items[1..]| && IsTextEvent(items[1..][k]) && ToMessage(items[1..][k]) == m;
        assert items[k + 1] == items[1..][k];
      }
      if exists k :: 0 <= k < |items| && IsTextEvent(items[k]) && ToMessage(items[k]) == m {
        var k :| 0 <= k < |items| && IsTextEvent(items[k]) && ToMessage(items[k]) == m;
        if k > 0 {
          assert items[1..][k - 1] == items[k];
        }
      }
    }
  }

  /**
   * `poll_chat_messages`: one `list` call (`response`, with a missing `items`
   * key read as no items), then a loop that keeps the text events in order.
   */
  method PollChatMessages(response: Try<seq<ChatItem>>) returns (r: Try<seq<Message>>)
    ensures response.Raised? ==> r.Raised?
    ensures response.Returned? ==> r == Returned(TextMessages(response.value))
  {
    if response.Raised? {
      return Raised;
    }
    var items := response.value;
    var result: seq<Message> := [];
    for i := 0 to |items|
      invariant result == TextMessages(items[..i])
    {
      TextMessagesAppend(items[..i], [items[i]]);
      assert items[..i + 1] == items[..i] + [items[i]];
      if IsTextEvent(items[i]) {
        result := result + [ToMessage(items[i])];
      }
    }
    assert items[..|items|] == items;
    return Returned(result);
  }

  /** A line break as `replace("\n", " ").replace("\r", " ")` leaves it: a space; any other character as it is. */
  function Spaced(c: char): char {
    if c == '\n' || c == '\r' then ' ' else c
  }

  /**
   * `r` is the slice of `text` starting at `i` with its line breaks turned
   * into spaces, and everything of `text` outside that slice is whitespace.
   */
  ghost predicate CollapsedAt(text: string, r: string, i: int) {
    && 0 <= i && i + |r| <= |text|
    && (forall k :: 0 <= k < |r| ==> r[k] == Spaced(text[i + k]))
    && (forall k :: 0 <= k < |text| && !(i <= k < i + |r|) ==> IsSpace(text[k]))
  }

  /** Both replacements together turn each character into its `Spaced` form. */
  lemma SpacedPointwise(text: string)
    ensures var spaced := ReplaceChar(ReplaceChar(text, '\n', ' '), '\r', ' ');
      |spaced| == |text| && forall j :: 0 <= j < |text| ==> spaced[j] == Spaced(text[j])
  {
  }

  /** A character whose spaced form is whitespace was whitespace already. */
  lemma SpacedKeepsSpace(c: char)
    ensures IsSpace(Spaced(c)) ==> IsSpace(c)
  {
  }

  /** A slice of the spaced text reads as the text at the same place, and holds no line break. */
  lemma SpacedSlice(text: string, spaced: string, r: string, i: nat)
    requires |spaced| == |text| && forall j :: 0 <= j < |text| ==> spaced[j] == Spaced(text[j])
    requires i + |r| <= |spaced| && r == spaced[i..i + |r|]
    ensures forall k :: 0 <= k < |r| ==> r[k] == Spaced(text[i + k])
    ensures '\n' !in r && '\r' !in r
  {
    assert forall k :: 0 <= k < |r| ==> r[k] == spaced[i + k];
  }

  /** Whitespace of the spaced text was whitespace of the text. */
  lemma SpacedMargins(text: string, spaced: string, i: nat, n: nat)
    requires |spaced| == |text| && forall j :: 0 <= j < |text| ==> spaced[j] == Spaced(text[j])
    requires forall k :: 0 <= k < i && k < |spaced| ==> IsSpace(spaced[k])
    requires forall k :: i + n <= k < |spaced| ==> IsSpace(spaced[k])
    ensures forall k :: 0 <= k < |text| && !(i <= k < i + n) ==> IsSpace(text[k])
  {
    forall k | 0 <= k < |text| && !(i <= k < i + n)
      ensures IsSpace(text[k])
    {
      SpacedKeepsSpace(text[k]);
    }
  }

  /** Stripping a text whose line breaks are already spaces gives a collapsed form of the original text. */
  lemma StripCollapses(text: string, spaced: string)
    requires |spaced| == |text| && forall j :: 0 <= j < |text| ==> spaced[j] == Spaced(text[j])
    ensures var r := Strip(spaced);
      && '\n' !in r && '\r' !in r && Trimmed(r) && |r| <= |text|
      && CollapsedAt(text, r, StripStart(spaced))
  {
    var r := Strip(spaced);
    SpacedSlice(text, spaced, r, StripStart(spaced));
    SpacedMargins(text, spaced, StripStart(spaced), |r|);
  }

  /** Newlines and carriage returns become spaces, then surrounding whitespace is stripped. */
  function Collapse(text: string): (r: string)
    ensures '\n' !in r && '\r' !in r
    ensures Trimmed(r)
    ensures |r| <= |text|
    ensures exists i :: CollapsedAt(text, r, i)
  {
    var spaced := ReplaceChar(ReplaceChar(text, '\n', ' '), '\r', ' ');
    SpacedPointwise(text);
    StripCollapses(text, spaced);
    Strip(spaced)
  }

  /** The 200-character cap: a longer text keeps its first 197 characters and gains "...". */
  function Truncate(s: string): (r: string)
    ensures |r| <= MaxChatLength
    ensures |s| <= MaxChatLength ==> r == s
    ensures |s| > MaxChatLength ==> |r| == MaxChatLength && r == s[..KeptOnTruncate] + Ellipsis
  {
    if |s| > MaxChatLength then s[..KeptOnTruncate] + Ellipsis else s
  }

  /** Cutting a text adds only dots, so it brings in no line break. */
  lemma TruncateAddsNoBreak(s: string)
    requires '\n' !in s && '\r' !in s
    ensures '\n' !in Truncate(s) && '\r' !in Truncate(s)
  {
    if |s| > MaxChatLength {
      var head := s[..KeptOnTruncate];
      assert forall k :: 0 <= k < |head| ==> head[k] == s[k];
      assert '\n' !in head && '\r' !in head;
    }
  }

  /** Replacing a character that does not occur changes nothing. */
  lemma ReplaceAbsent(s: string, from: char, to: char)
    requires from !in s
    ensures ReplaceChar(s, from, to) == s
  {
  }

  /** The fallback text is already clean and short, so it is sent as it is. */
  lemma FallbackIsClean()
    ensures Truncate(Collapse(FallbackText)) == FallbackText
  {
    ReplaceAbsent(FallbackText, '\n', ' ');
    ReplaceAbsent(FallbackText, '\r', ' ');
    StripKeepsTrimmed(FallbackText);
  }

  /** The text `send_message` puts on the wire for its argument `text`. */
  function OutboundText(text: Value): (r: string)
    ensures '\n' !in r && '\r' !in r
    ensures |r| <= MaxChatLength
    ensures !Truthy(text) || !text.JString? ==> r == FallbackText
    ensures Truthy(text) && text.JString? ==> r == Truncate(Collapse(text.s))
  {
    if !Truthy(text) || !text.JString? then
      FallbackIsClean();
      FallbackText
    else
      var c := Collapse(text.s);
      TruncateAddsNoBreak(c);
      Truncate(c)
  }

  /** `send_message`: the single insert it issues for `text` on the chat `liveChatId`. */
  function SendMessage(liveChatId: string, text: Value): (ins: ChatInsert)
    ensures ins.liveChatId == liveChatId && ins.kind == TextMessageEvent
    ensures |ins.messageText| <= MaxChatLength
    ensures '\n' !in ins.messageText && '\r' !in ins.messageText
    ensures ins.messageText == OutboundText(text)
  {
    ChatInsert(liveChatId, TextMessageEvent, OutboundText(text))
  }

  /** A non-empty text that is short and already clean is sent exactly as given. */
  lemma CleanTextSentUnchanged(liveChatId: string, s: string)
    requires s != [] && |s| <= MaxChatLength
    requires '\n' !in s && '\r' !in s
    requires Trimmed(s)
    ensures SendMessage(liveChatId, JString(s)) == ChatInsert(liveChatId, TextMessageEvent, s)
  {
    ReplaceAbsent(s, '\n', ' ');
    ReplaceAbsent(s, '\r', ' ');
    StripKeepsTrimmed(s);
  }

  /** Truncating a trimmed text leaves it trimmed: it starts with a kept character and ends in '.'. */
  lemma TruncateKeepsTrimmed(c: string)
    requires c != [] && Trimmed(c)
    ensures Truncate(c) != [] && Trimmed(Truncate(c))
  {
    if |c| > MaxChatLength {
      var r := c[..KeptOnTruncate] + Ellipsis;
      assert r[0] == c[0];
      assert r[|r| - 1] == '.';
    }
  }

  /** The fallback text is sent as it is when it is given as the text. */
  lemma FallbackStable()
    ensures OutboundText(JString(FallbackText)) == FallbackText
  {
    FallbackIsClean();
    assert Truthy(JString(FallbackText));
  }

  /** What `send_message` sends is a fixed point: sending it again sends the same text. */
  lemma OutboundTextStable(text: Value)
    ensures OutboundText(JString(OutboundText(text))) ==
      if OutboundText(text) == "" then FallbackText else OutboundText(text)
  {
    if !Truthy(text) || !text.JString? {
      FallbackStable();
    } else if OutboundText(text) != "" {
      TrimmedTextStable(Collapse(text.s));
    }
  }

  /** The cap applied to a collapsed text yields a text that `send_message` leaves alone. */
  lemma TrimmedTextStable(c: string)
    requires Truncate(c) != [] && Trimmed(c)
    requires '\n' !in c && '\r' !in c
    ensures OutboundText(JString(Truncate(c))) == Truncate(c)
  {
    var r := Truncate(c);
    TruncateKeepsTrimmed(c);
    assert '\n' !in r && '\r' !in r;
    ReplaceAbsent(r, '\n', ' ');
    ReplaceAbsent(r, '\r', ' ');
    StripKeepsTrimmed(r);
    assert Collapse(r) == r;
    assert Truthy(JString(r));
  }

  /**
   * The fallback is chosen before stripping, so a text made only of
   * whitespace and line breaks is sent as the empty string.
   */
  lemma BlankTextSentEmpty(s: string)
    requires s != []
    requires forall k :: 0 <= k < |s| ==> IsSpace(s[k])
    ensures OutboundText(JString(s)) == ""
  {
    var t := ReplaceChar(ReplaceChar(s, '\n', ' '), '\r', ' ');
    StripAllSpace(t);
  }

  /** The insert of the transport's unit test: one call, the chat id and the text as given. */
  lemma SendMessageExample()
    ensures SendMessage("test_chat_id", JString("テストメッセージ")) ==
      ChatInsert("test_chat_id", "textMessageEvent", "テストメッセージ")
  {
    CleanTextSentUnchanged("test_chat_id", "テストメッセージ");
  }
}
