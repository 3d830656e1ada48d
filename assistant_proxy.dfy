/** The `/api/chat` endpoint of the backend: validate the transcript,
    render it as "Student:"/"Assistant:" lines under the fixed university
    system prompt, ask the text-generation provider for a completion, and
    normalise the answer. The provider is a function argument from prompt to
    outcome; the clock is the `now` argument. The handler touches no chat
    session: it has no store to touch. */
module AssistantProxy {
  import opened Common

  /** The institution-specific instructions put in front of every prompt. */
  const SystemPrompt: string :=
    "You are EduConnect Assistant, an AI assistant for Sindh Madarsatul Islam University (SMIU) in Karachi, located in Sadar in front of HBL Plaza.\n" +
    "\n" +
    "Your role is to help students with:\n" +
    "1. University procedures and information\n" +
    "2. Enrollment guidance\n" +
    "3. Academic queries\n" +
    "4. University services\n" +
    "5. General student support\n" +
    "\n" +
    "IMPORTANT INFORMATION:\n" +
    "- University Name: Sindh Madarsatul Islam University (SMIU)\n" +
    "- Location: Sadar, Karachi, in front of HBL Plaza\n" +
    "- CMS Portal: http://cms.smiu.edu.pk:9991/psp/ps/EMPLOYEE/HRMS/?cmd=logout\n" +
    "- SAMS Portal: http://sams.smiu.edu.pk/Student/StudentDashboard\n" +
    "\n" +
    "SPECIFIC PROCEDURES:\n" +
    "1. ENROLLMENT: Go to CMS portal → Self Service → Enrollment → Enrollment: Add Classes\n" +
    "2. CHECK MARKS: CMS portal → Self Service → Enrollment → View My Assignments\n" +
    "3. CHECK CGPA/TRANSCRIPT: CMS portal → Self Service → Academic Records → View Unofficial Transcript\n" +
    "4. LOST ID CARD: File an FIR at police station → Apply for new card at SAMS portal\n" +
    "\n" +
    "RESPONSE GUIDELINES:\n" +
    "- Be friendly, helpful, and professional\n" +
    "- Provide clear, step-by-step instructions when needed\n" +
    "- Use simple, easy-to-understand language\n" +
    "- If you don't know something, admit it politely\n" +
    "- Always refer students to official university portals for sensitive operations\n" +
    "- Never provide personal advice or make decisions for students\n" +
    "- Keep responses concise but informative\n" +
    "\n" +
    "FORMATTING:\n" +
    "- Use plain text only (no markdown)\n" +
    "- Use bullet points only when listing steps\n" +
    "- Keep paragraphs short for readability\n" +
    "- Use appropriate emojis occasionally for friendliness\n" +
    "\n" +
    "Now respond to the student's question as EduConnect Assistant."

  const HistoryHeader: string := "\n\nConversation History:\n"
  const AssistantCue: string := "\n\nAssistant:"
  const StudentLabel: string := "Student: "
  const AssistantLabel: string := "Assistant: "
  const FallbackReply: string := "I'm here to help! Could you please rephrase your question?"

  const MessagesRequired: HttpError := HttpError(400, "Messages are required")
  const AiUnavailable: HttpError := HttpError(500, "AI service temporarily unavailable. Please try again later.")

  /** What the provider call can come back with: some text (possibly
      missing or empty), or a thrown error. */
  datatype ProviderResult = Generated(text: Option<string>) | ProviderFailed

  /** The success body `{ success: true, content, timestamp }`. */
  datatype ChatReply = ChatReply(content: string, timestamp: string)

  /** One transcript line: "Student: " for the user's turns, "Assistant: "
      for every other role. */
  function RenderLine(m: Message): (r: string)
    ensures m.role == UserRole ==> r == StudentLabel + m.content
    ensures m.role != UserRole ==> r == AssistantLabel + m.content
  {
    (if m.role == UserRole then "Student" else "Assistant") + ": " + m.content
  }

  /** `lines.join("\n")`. */
  function JoinLines(lines: seq<string>): (r: string)
    ensures lines == [] ==> r == ""
    ensures |lines| == 1 ==> r == lines[0]
    ensures lines != [] ==> |lines[0]| <= |r| && r[..|lines[0]|] == lines[0]
    ensures |lines| > 1 ==> |lines[0]| < |r| && r[|lines[0]|] == '\n'
  {
    if lines == [] then ""
    else if |lines| == 1 then lines[0]
    else lines[0] + "\n" + JoinLines(lines[1..])
  }

  /** `messages.map(...)`: one rendered line per message, in order. */
  function RenderLines(ms: seq<Message>): (r: seq<string>)
    ensures |r| == |ms|
    ensures forall i :: 0 <= i < |ms| ==> r[i] == RenderLine(ms[i])
  {
    if ms == [] then [] else [RenderLine(ms[0])] + RenderLines(ms[1..])
  }

  /** The conversation history block of the prompt. */
  function Conversation(ms: seq<Message>): (r: string)
    ensures r == "" <==> ms == []
    ensures |ms| == 1 ==> r == RenderLine(ms[0])
    ensures ms != [] ==> StartsWith(r, RenderLine(ms[0]))
  {
    JoinLines(RenderLines(ms))
  }

  /** The full prompt: the system prompt, the history header, the rendered
      conversation and the trailing "Assistant:" cue, in that order. The
      system prompt is an argument so that these facts are stated for any
      configuration text; the endpoint passes `SystemPrompt`. */
  function FullPrompt(system: string, ms: seq<Message>): (r: string)
    ensures |r| == |system| + |HistoryHeader| + |Conversation(ms)| + |AssistantCue|
    ensures r[..|system|] == system
    ensures r[|system|..|system| + |HistoryHeader|] == HistoryHeader
    ensures r[|system| + |HistoryHeader|..|r| - |AssistantCue|] == Conversation(ms)
    ensures EndsWith(r, AssistantCue)
  {
    var r := system + HistoryHeader + Conversation(ms) + AssistantCue;
    assert r == (system + HistoryHeader) + Conversation(ms) + AssistantCue;
    r
  }

  /** `geminiRes.text || fallback`: never empty. */
  function ReplyText(generated: Option<string>): (r: string)
    ensures r != ""
    ensures generated.Some? && generated.value != "" ==> r == generated.value
    ensures generated.None? || generated.value == "" ==> r == FallbackReply
  {
    if generated.Some? && generated.value != "" then generated.value else FallbackReply
  }

  /** POST /api/chat, for the given system prompt. A missing, non-array or
      empty transcript is a 400; a provider error is a 500 with a fixed
      message and no reply; otherwise the reply is the provider's text for
      the full prompt (or the fallback when that text is empty), stamped
      with the current time. */
  function HandleChat(system: string, messages: Option<seq<Message>>, provider: string -> ProviderResult, now: string)
    : (r: Result<ChatReply>)
    ensures r == Err(MessagesRequired) <==> messages.None? || messages.value == []
    ensures messages.Some? && messages.value != [] ==>
      (r == Err(AiUnavailable) <==> provider(FullPrompt(system, messages.value)).ProviderFailed?)
    ensures r.Ok? ==>
      && messages.Some? && messages.value != []
      && provider(FullPrompt(system, messages.value)).Generated?
      && r.value == ChatReply(ReplyText(provider(FullPrompt(system, messages.value)).text), now)
      && r.value.content != ""
    ensures messages.Some? && messages.value != [] && provider(FullPrompt(system, messages.value)).Generated? ==>
      r == Ok(ChatReply(ReplyText(provider(FullPrompt(system, messages.value)).text), now))
  {
    if messages.None? || messages.value == [] then Err(MessagesRequired)
    else
      match provider(FullPrompt(system, messages.value))
      case ProviderFailed => Err(AiUnavailable)
      case Generated(text) => Ok(ChatReply(ReplyText(text), now))
  }

  /** The endpoint as deployed, with the university system prompt. */
  function ChatEndpoint(messages: Option<seq<Message>>, provider: string -> ProviderResult, now: string)
    : Result<ChatReply>
  {
    HandleChat(SystemPrompt, messages, provider, now)
  }

  /** Appending one message to a non-empty transcript appends exactly one
      line to the conversation block. */
  lemma {:induction false} ConversationAppend(ms: seq<Message>, m: Message)
    requires ms != []
    ensures Conversation(ms + [m]) == Conversation(ms) + "\n" + RenderLine(m)
  {
    JoinAppend(RenderLines(ms), RenderLine(m));
    assert RenderLines(ms + [m]) == RenderLines(ms) + [RenderLine(m)];
  }

  lemma {:induction false} JoinAppend(lines: seq<string>, l: string)
    requires lines != []
    ensures JoinLines(lines + [l]) == JoinLines(lines) + "\n" + l
  {
    if |lines| == 1 {
      assert (lines + [l])[1..] == [l];
    } else {
      assert (lines + [l])[1..] == lines[1..] + [l];
      JoinAppend(lines[1..], l);
    }
  }

  // Reading the conversation block back.

  /** What a transcript line says: who spoke, and what. */
  datatype Turn = Turn(fromStudent: bool, content: string)

  function TurnOf(m: Message): Turn
  {
    Turn(m.role == UserRole, m.content)
  }

  function Turns(ms: seq<Message>): (r: seq<Turn>)
    ensures |r| == |ms|
  {
    if ms == [] then [] else [TurnOf(ms[0])] + Turns(ms[1..])
  }

  function StartsWith(s: string, prefix: string): bool
  {
    |prefix| <= |s| && s[..|prefix|] == prefix
  }

  function ParseLine(line: string): Option<Turn>
  {
    if StartsWith(line, StudentLabel) then Some(Turn(true, line[|StudentLabel|..]))
    else if StartsWith(line, AssistantLabel) then Some(Turn(false, line[|AssistantLabel|..]))
    else None
  }

  function ParseTurns(lines: seq<string>): Option<seq<Turn>>
  {
    if lines == [] then Some([])
    else match (ParseLine(lines[0]), ParseTurns(lines[1..]))
      case (Some(t), Some(ts)) => Some([t] + ts)
      case _ => None
  }

  function IndexOfNewline(s: string): (i: nat)
    requires '\n' in s
    ensures i < |s| && s[i] == '\n' && '\n' !in s[..i]
  {
    if s[0] == '\n' then 0
    else
      assert s == [s[0]] + s[1..];
      var i := 1 + IndexOfNewline(s[1..]);
      assert s[..i] == [s[0]] + s[1..][..i - 1];
      i
  }

  /** `s.split("\n")`. */
  function SplitLines(s: string): seq<string>
    decreases |s|
  {
    if '\n' !in s then [s]
    else
      var i := IndexOfNewline(s);
      [s[..i]] + SplitLines(s[i + 1..])
  }

  lemma {:induction false} SplitJoin(lines: seq<string>)
    requires lines != []
    requires forall i :: 0 <= i < |lines| ==> '\n' !in lines[i]
    ensures SplitLines(JoinLines(lines)) == lines
  {
    if |lines| > 1 {
      var rest := JoinLines(lines[1..]);
      var s := lines[0] + "\n" + rest;
      assert JoinLines(lines) == s;
      BreakAfterFirstLine(lines[0], rest);
      assert SplitLines(s) == [lines[0]] + SplitLines(rest);
      SplitJoin(lines[1..]);
      assert lines == [lines[0]] + lines[1..];
    }
  }

  /** In a line, a break and the rest, the first break is the one right
      after the line. */
  lemma BreakAfterFirstLine(l: string, rest: string)
    requires '\n' !in l
    ensures var s := l + "\n" + rest;
      && '\n' in s && IndexOfNewline(s) == |l| && s[..|l|] == l && s[|l| + 1..] == rest
  {
    var s := l + "\n" + rest;
    assert s[|l|] == '\n';
    var i := IndexOfNewline(s);
    assert forall k :: 0 <= k < |l| ==> s[k] == l[k];
    assert forall k :: 0 <= k < i ==> s[..i][k] == s[k];
    assert s[..|l|] == l;
    assert s[|l| + 1..] == rest;
  }

  lemma {:induction false} ParseRendered(ms: seq<Message>)
    ensures ParseTurns(RenderLines(ms)) == Some(Turns(ms))
  {
    if ms != [] {
      var line := RenderLine(ms[0]);
      if ms[0].role == UserRole {
        assert line[..|StudentLabel|] == StudentLabel;
        assert line[|StudentLabel|..] == ms[0].content;
      } else {
        assert line[..|AssistantLabel|] == AssistantLabel;
        assert line[|AssistantLabel|..] == ms[0].content;
        assert line[0] == 'A' != StudentLabel[0];
      }
      assert RenderLines(ms)[1..] == RenderLines(ms[1..]);
      ParseRendered(ms[1..]);
    }
  }

  /** When no message contains a line break, the conversation block reads
      back, line by line, as exactly who said what, in order: the rendering
      loses only the distinction between non-user roles and the timestamps. */
  lemma ConversationReadsBack(ms: seq<Message>)
    requires ms != []
    requires forall i :: 0 <= i < |ms| ==> '\n' !in ms[i].content
    ensures ParseTurns(SplitLines(Conversation(ms))) == Some(Turns(ms))
  {
    var lines := RenderLines(ms);
    forall i | 0 <= i < |lines| ensures '\n' !in lines[i] {
      LineHasNoBreak(ms[i]);
    }
    SplitJoin(lines);
    ParseRendered(ms);
  }

  lemma LineHasNoBreak(m: Message)
    requires '\n' !in m.content
    ensures '\n' !in RenderLine(m)
  {
    var tag := if m.role == UserRole then StudentLabel else AssistantLabel;
    assert RenderLine(m) == tag + m.content;
    assert '\n' !in tag;
  }
}
