/** The chat tab of the React client: how a chat title is derived from a
    transcript, how trailing punctuation is cut off a URL found in a
    message, and how the component's conversation state (transcript, current
    chat id, loading flag, input box) evolves when the user sends a message,
    saves, starts a new chat, loads one or deletes one. Network answers are
    arguments of the methods; the clock is the `now` argument. */
module ChatbotTab {
  import opened Common

  const DefaultTitle: string := "University Chat"
  const TitleCut: nat := 40
  const Ellipsis: string := "..."

  /** The greeting shown when the tab is first mounted. */
  const WelcomeGreeting: string :=
    "Hello! I'm EduConnect Assistant. How can I help you with Sindh Madarsatul Islam University today? You can ask me about enrollment, marks, university procedures, or any other academic queries! \U{1F393}"
  /** The shorter greeting that starts a new chat. */
  const NewChatGreeting: string :=
    "Hello! I'm EduConnect Assistant. How can I help you with Sindh Madarsatul Islam University today?"
  /** What stands in for the assistant's turn when the request fails. */
  const Apology: string :=
    "I apologize, but I'm having trouble connecting right now. Please try again in a moment. If the problem persists, contact university IT support."

  // ---------------------------------------------------------------------
  // extractChatTitle

  /** `messagesArray.find((msg) => msg.role === "user")`, as an index. */
  function FirstUserIndex(ms: seq<Message>): (r: Option<nat>)
    ensures r.Some? ==> r.value < |ms| && ms[r.value].role == UserRole
    ensures r.Some? ==> forall k :: 0 <= k < r.value ==> ms[k].role != UserRole
    ensures r.None? ==> forall k :: 0 <= k < |ms| ==> ms[k].role != UserRole
  {
    if ms == [] then None
    else if ms[0].role == UserRole then Some(0)
    else match FirstUserIndex(ms[1..])
      case None => None
      case Some(i) => Some(i + 1)
  }

  /** The text a title is made from: the content of the first user message
      when it is non-empty; failing that, the content of the first message
      when that is non-empty; otherwise nothing. A later user message is
      never consulted, even when the first one is empty. */
  function TitleSource(ms: seq<Message>): (r: Option<string>)
    ensures r.Some? ==> r.value != []
    ensures ms == [] ==> r.None?
    ensures r.Some? ==> exists k :: 0 <= k < |ms| && ms[k].content == r.value
    ensures var first := FirstUserIndex(ms);
      first.Some? && ms[first.value].content != "" ==> r == Some(ms[first.value].content)
    ensures var first := FirstUserIndex(ms);
      !(first.Some? && ms[first.value].content != "") ==>
        r == if ms != [] && ms[0].content != "" then Some(ms[0].content) else None
  {
    var first := FirstUserIndex(ms);
    if first.Some? && ms[first.value].content != "" then Some(ms[first.value].content)
    else if ms != [] && ms[0].content != "" then Some(ms[0].content)
    else None
  }

  /** A title from one message: the trimmed text cut to 40 characters plus
      "..." when longer than 40, else the trimmed text with its first letter
      upper-cased. Whitespace-only text gives the empty title. */
  function TitleFrom(content: string): (r: string)
    ensures |r| <= TitleCut + |Ellipsis|
    ensures var t := Trim(content);
      && (|t| > TitleCut ==> r == t[..TitleCut] + Ellipsis)
      && (|t| <= TitleCut ==> |r| == |t| && (r != [] ==> r[0] == UpperChar(t[0]) && r[1..] == t[1..]))
    ensures r == [] <==> AllSpace(content)
  {
    var t := Trim(content);
    if |t| > TitleCut then Take(t, TitleCut) + Ellipsis else UpperFirst(t)
  }

  /** `extractChatTitle`: at most 43 characters, "University Chat" for an
      empty transcript or one with no usable text, otherwise the title made
      from the title source. */
  function ExtractChatTitle(ms: seq<Message>): (r: string)
    ensures |r| <= TitleCut + |Ellipsis|
    ensures ms == [] ==> r == DefaultTitle
    ensures TitleSource(ms).None? ==> r == DefaultTitle
    ensures TitleSource(ms).Some? ==> r == TitleFrom(TitleSource(ms).value)
  {
    match TitleSource(ms)
    case None => DefaultTitle
    case Some(c) => TitleFrom(c)
  }

  // ---------------------------------------------------------------------
  // Trailing punctuation of a URL found in a message

  /** The marks tried, in the order they are tried. */
  const Marks: seq<char> := ['.', ',', '!', '?', ':', ';', ')', ']', '}']

  /** One step: drop a trailing `p`, unless it follows a ".". */
  function StripMark(s: string, p: char): (r: string)
    ensures |r| <= |s| && r == s[..|r|] && |s| - |r| <= 1
    ensures |r| < |s| <==> s != [] && s[|s| - 1] == p && (|s| == 1 || s[|s| - 2] != '.')
  {
    if EndsWith(s, [p]) && !EndsWith(s, ['.', p]) then s[..|s| - 1] else s
  }

  /** Position `k` of `s` holds one of the marks `ms`, not right after a ".". */
  predicate RemovableAt(s: string, ms: seq<char>, k: nat)
    requires k < |s|
  {
    s[k] in ms && (k == 0 || s[k - 1] != '.')
  }

  /** The steps for `ms[0]`, `ms[1]`, ... applied in turn. */
  function StripMarks(s: string, ms: seq<char>): (r: string)
    ensures |r| <= |s| && r == s[..|r|]
    ensures |s| - |r| <= |ms|
  {
    if ms == [] then s else StripMark(StripMarks(s, ms[..|ms| - 1]), ms[|ms| - 1])
  }

  /** The pass over the first `i + 1` marks is the pass over the first `i`
      followed by one step with mark `i`. */
  lemma StripMarksStep(s: string, ms: seq<char>, i: nat)
    requires i < |ms|
    ensures StripMarks(s, ms[..i + 1]) == StripMark(StripMarks(s, ms[..i]), ms[i])
  {
    assert ms[..i + 1][..i] == ms[..i];
  }

  /** Whatever the marks, every character the pass removes is one of the
      marks and does not follow a ".". */
  lemma {:induction false} StripMarksRemovesMarks(s: string, ms: seq<char>)
    ensures var r := StripMarks(s, ms);
      forall k :: |r| <= k < |s| ==> RemovableAt(s, ms, k)
  {
    if ms != [] {
      var init := ms[..|ms| - 1];
      var p := ms[|ms| - 1];
      StripMarksRemovesMarks(s, init);
      var before := StripMarks(s, init);
      var r := StripMark(before, p);
      forall k | |r| <= k < |s| ensures RemovableAt(s, ms, k) {
        if k >= |before| {
          assert RemovableAt(s, init, k);
          assert s[k] in init;
        } else {
          assert s[k] == before[k] == p;
          assert k > 0 ==> s[k - 1] == before[|before| - 2] != '.';
        }
      }
    }
  }

  /** The clean-up loop of `parseMessageContent`: one pass over the marks,
      each dropping a single trailing occurrence that does not follow a ".".
      At most nine characters go, all of them marks, from the end. */
  method CleanUrl(url: string) returns (clean: string)
    ensures clean == StripMarks(url, Marks)
    ensures |clean| <= |url| && clean == url[..|clean|]
    ensures |url| - |clean| <= |Marks|
    ensures forall k :: |clean| <= k < |url| ==> RemovableAt(url, Marks, k)
  {
    clean := url;
    var i := 0;
    while i < |Marks|
      invariant 0 <= i <= |Marks|
      invariant clean == StripMarks(url, Marks[..i])
    {
      var p := Marks[i];
      StripMarksStep(url, Marks, i);
      if EndsWith(clean, [p]) && !EndsWith(clean, ['.', p]) {
        clean := clean[..|clean| - 1];
      }
      i := i + 1;
    }
    assert Marks[..i] == Marks;
    StripMarksRemovesMarks(url, Marks);
  }

  // ---------------------------------------------------------------------
  // Conversation state

  /** What the assistant request came back with: a successful reply (its
      content and the server's timestamp, "" when it sent none), or any
      failure (a thrown request or `success: false`). */
  datatype AiOutcome = AiReplied(content: string, timestamp: string) | AiFailed

  /** The body of POST /api/chats/save. */
  datatype SaveRequest = SaveRequest(chatId: Option<ChatId>, messages: seq<Message>, title: string)

  /** What a send in flight carries across its `await`: the transcript it
      sent and the chat id of the render it started in. */
  datatype PendingSend = PendingSend(transcript: seq<Message>, chatId: Option<ChatId>)

  /** The assistant turn appended after a request: the reply, or the fixed
      apology when the request failed. */
  function ReplyMessage(outcome: AiOutcome, now: string): (m: Message)
    ensures m.role == AssistantRole
    ensures outcome.AiReplied? ==> m.content == outcome.content
    ensures outcome.AiReplied? ==> m.timestamp == (if outcome.timestamp != "" then outcome.timestamp else now)
    ensures outcome.AiFailed? ==> m.content == Apology && m.timestamp == now
  {
    match outcome
    case AiReplied(content, stamp) => Message(AssistantRole, content, if stamp != "" then stamp else now)
    case AiFailed => Message(AssistantRole, Apology, now)
  }

  class ChatbotState {
    var messages: seq<Message>
    var chatId: Option<ChatId>
    var isLoading: bool
    var input: string
    /** The send awaiting its answer, if any. */
    var pending: Option<PendingSend>

    /** The loading flag is up exactly while a send is in flight. */
    ghost predicate Valid()
      reads this
    {
      isLoading <==> pending.Some?
    }

    /** Mounting the tab: the welcome greeting, no chat id, nothing typed. */
    constructor (now: string)
      ensures Valid()
      ensures messages == [Message(AssistantRole, WelcomeGreeting, now)]
      ensures chatId.None? && !isLoading && input == "" && pending.None?
    {
      messages := [Message(AssistantRole, WelcomeGreeting, now)];
      chatId := None;
      isLoading := false;
      input := "";
      pending := None;
    }

    /** Typing in the input box (or picking a quick question). */
    method SetInput(text: string)
      modifies this`input
      ensures input == text
    {
      input := text;
    }

    /** `handleSendMessage` up to its `await`. Nothing happens when the
        trimmed input is empty or a send is already in flight; otherwise the
        trimmed input is appended as the user's turn, the box is cleared,
        and the send is in flight with the new transcript and the current
        chat id. */
    method BeginSend(now: string) returns (sent: bool)
      requires Valid()
      modifies this
      ensures Valid()
      ensures sent <==> Trim(old(input)) != "" && !old(isLoading)
      ensures !sent ==> messages == old(messages) && chatId == old(chatId) && isLoading == old(isLoading)
                        && input == old(input) && pending == old(pending)
      ensures sent ==>
        && messages == old(messages) + [Message(UserRole, Trim(old(input)), now)]
        && chatId == old(chatId) && input == "" && isLoading
        && pending == Some(PendingSend(messages, old(chatId)))
    {
      var text := Trim(input);
      if text == "" || isLoading {
        return false;
      }
      var updated := messages + [Message(UserRole, text, now)];
      messages := updated;
      input := "";
      isLoading := true;
      pending := Some(PendingSend(updated, chatId));
      sent := true;
    }

    /** `handleSendMessage` after its `await`: the transcript becomes the
        one that was sent plus the reply (or the apology), that transcript
        is saved under the chat id the send started with, and loading ends.
        Returns the save request. */
    method FinishSend(outcome: AiOutcome, saved: Option<ChatId>, now: string) returns (request: SaveRequest)
      requires Valid() && isLoading
      modifies this
      ensures Valid() && !isLoading && input == old(input)
      ensures messages == old(pending).value.transcript + [ReplyMessage(outcome, now)]
      ensures request == SaveRequest(old(pending).value.chatId, messages, ExtractChatTitle(messages))
      ensures chatId == if old(pending).value.chatId.None? && saved.Some? then saved else old(chatId)
    {
      var p := pending.value;
      var finalMessages := p.transcript + [ReplyMessage(outcome, now)];
      messages := finalMessages;
      request := SaveChat(finalMessages, p.chatId, saved);
      isLoading := false;
      pending := None;
    }

    /** `saveChat`: sends the transcript with its derived title under the
        chat id the caller saw; when that id was empty and the server
        answered with a new id, the component adopts it. A failed save
        changes nothing. */
    method SaveChat(toSave: seq<Message>, seenChatId: Option<ChatId>, saved: Option<ChatId>)
      returns (request: SaveRequest)
      modifies this`chatId
      ensures request == SaveRequest(seenChatId, toSave, ExtractChatTitle(toSave))
      ensures |request.title| <= TitleCut + |Ellipsis|
      ensures chatId == if seenChatId.None? && saved.Some? then saved else old(chatId)
    {
      request := SaveRequest(seenChatId, toSave, ExtractChatTitle(toSave));
      if saved.Some? && seenChatId.None? {
        chatId := saved;
      }
    }

    /** One whole send with nothing else happening while it waits: the
        transcript grows by exactly the trimmed user turn and the reply (or
        apology), that transcript is what gets saved, and loading is over. */
    method SendMessage(outcome: AiOutcome, saved: Option<ChatId>, now: string)
      returns (request: Option<SaveRequest>)
      requires Valid()
      modifies this
      ensures Valid() && !isLoading == !old(isLoading)
      ensures request.None? <==> Trim(old(input)) == "" || old(isLoading)
      ensures request.None? ==> messages == old(messages) && chatId == old(chatId)
                                && input == old(input) && pending == old(pending)
      ensures request.Some? ==>
        && messages == old(messages) + [Message(UserRole, Trim(old(input)), now), ReplyMessage(outcome, now)]
        && request.value == SaveRequest(old(chatId), messages, ExtractChatTitle(messages))
        && chatId == (if old(chatId).None? && saved.Some? then saved else old(chatId))
        && input == ""
    {
      var sent := BeginSend(now);
      if !sent {
        return None;
      }
      var r := FinishSend(outcome, saved, now);
      request := Some(r);
    }

    /** `startNewChat`: back to the single new-chat greeting, no chat id. */
    method StartNewChat(now: string)
      modifies this`messages, this`chatId
      ensures messages == [Message(AssistantRole, NewChatGreeting, now)]
      ensures chatId.None?
    {
      messages := [Message(AssistantRole, NewChatGreeting, now)];
      chatId := None;
    }

    /** `loadChat`: a successful fetch replaces the transcript and adopts
        the fetched chat's id; a failed one changes nothing. */
    method LoadChat(fetched: Option<(ChatId, seq<Message>)>)
      modifies this`messages, this`chatId
      ensures fetched.Some? ==> messages == fetched.value.1 && chatId == Some(fetched.value.0)
      ensures fetched.None? ==> messages == old(messages) && chatId == old(chatId)
    {
      if fetched.Some? {
        messages := fetched.value.1;
        chatId := Some(fetched.value.0);
      }
    }

    /** `deleteChat`: when the server deleted the chat the tab is showing,
        the tab starts a new chat; deleting any other chat, or a failed
        delete, leaves the conversation alone. */
    method DeleteChat(target: ChatId, deleted: bool, now: string)
      modifies this`messages, this`chatId
      ensures deleted && old(chatId) == Some(target) ==>
        messages == [Message(AssistantRole, NewChatGreeting, now)] && chatId.None?
      ensures !(deleted && old(chatId) == Some(target)) ==> messages == old(messages) && chatId == old(chatId)
    {
      if deleted && chatId == Some(target) {
        StartNewChat(now);
      }
    }
  }
}
