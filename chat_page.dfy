/** The chat controller: one send appends the user's message, opens a stream,
    grows a placeholder assistant message fragment by fragment, and ends by
    recording the latency or by appending a fixed error message. The
    transcript is saved to the tab-lived store after every change. */
module ChatPage {
  import opened Types
  import opened Storage
  import opened Text
  import SessionService
  import AnalyticsService
  import opened GeminiService

  /** The assistant message shown when the request or the stream fails. */
  const ErrorText: string :=
    "\U{26A0}\U{FE0F} I encountered an error. Please check your connection or try again later. \U{1F6D1}"

  /** What the completion client does with one request: it fails before the
      stream opens, or it yields `fragments` in order and then either ends or
      fails. A failure in the middle of a stream is the same as one after the
      fragments that arrived before it. */
  datatype Reply = OpenFailed | Opened(fragments: seq<string>, failsAtEnd: bool)

  /** The clock readings one send takes, in milliseconds: when the user's
      message is made, when timing starts, when the stream has opened, and
      when the send finishes (normally or with the error). */
  datatype Clock = Clock(sentAt: nat, startAt: nat, openedAt: nat, finishedAt: nat)

  /** Seconds between the start of timing and the end of the stream. */
  function Elapsed(clock: Clock): real
  {
    (clock.finishedAt - clock.startAt) as real / 1000.0
  }

  function UserMessage(prompt: string, clock: Clock): Message
  {
    Message(DecimalString(clock.sentAt), UserRole, prompt, clock.sentAt)
  }

  /** The empty assistant message the fragments are written into; its id is
      one past the reading taken when the stream opened. */
  function Placeholder(clock: Clock): Message
  {
    Message(DecimalString(clock.openedAt + 1), AssistantRole, "", clock.openedAt)
  }

  function ErrorMessage(clock: Clock): Message
  {
    Message(DecimalString(clock.finishedAt), AssistantRole, ErrorText, clock.finishedAt)
  }

  /** The text accumulated from the fragments, in arrival order. */
  function Concat(fragments: seq<string>): string
  {
    if fragments == [] then "" else Concat(fragments[..|fragments| - 1]) + fragments[|fragments| - 1]
  }

  /** Each accumulated text is a prefix of every later one. */
  lemma {:induction false} ConcatGrows(fragments: seq<string>, i: nat, j: nat)
    requires i <= j <= |fragments|
    ensures Concat(fragments[..i]) <= Concat(fragments[..j])
    decreases j
  {
    if i < j {
      ConcatGrows(fragments, i, j - 1);
      assert fragments[..j][..j - 1] == fragments[..j - 1];
    }
  }

  /** `shown[k]` is the text accumulated after fragment k: every fragment
      adds one entry and every entry extends the one before it. */
  ghost predicate Accumulated(shown: seq<string>, fragments: seq<string>)
  {
    |shown| == |fragments| && forall k :: 0 <= k < |shown| ==> shown[k] == Concat(fragments[..k + 1])
  }

  /** What the view shows while a stream is consumed only ever grows, and
      ends as the whole reply. */
  lemma AccumulatedGrows(shown: seq<string>, fragments: seq<string>, a: nat, b: nat)
    requires Accumulated(shown, fragments)
    requires a <= b < |shown|
    ensures shown[a] <= shown[b]
    ensures shown[|shown| - 1] == Concat(fragments)
  {
    ConcatGrows(fragments, a + 1, b + 1);
    assert fragments[..|fragments|] == fragments;
  }

  /** `messages` with the content of every message whose id is `id` replaced
      by `content`; messages with other ids are left as they are. */
  function WithContent(messages: seq<Message>, id: string, content: string): (r: seq<Message>)
    ensures |r| == |messages|
    ensures forall k :: 0 <= k < |messages| ==>
      r[k] == if messages[k].id == id then messages[k].(content := content) else messages[k]
  {
    if messages == [] then []
    else [if messages[0].id == id then messages[0].(content := content) else messages[0]]
         + WithContent(messages[1..], id, content)
  }

  /** Rewriting the same id twice is the same as rewriting it with the later content. */
  lemma WithContentTwice(messages: seq<Message>, id: string, a: string, b: string)
    ensures WithContent(WithContent(messages, id, a), id, b) == WithContent(messages, id, b)
  {
  }

  /** The messages after the fragments so far have been written into the
      message with id `id`; before the first fragment nothing is rewritten. */
  ghost function Streamed(messages: seq<Message>, id: string, fragments: seq<string>): seq<Message>
  {
    if fragments == [] then messages else WithContent(messages, id, Concat(fragments))
  }

  /** One more fragment: the accumulated text grows by it, and the rewrite
      with it replaces the previous one. */
  lemma StreamStep(messages: seq<Message>, id: string, fragments: seq<string>, i: nat)
    requires i < |fragments|
    ensures Concat(fragments[..i + 1]) == Concat(fragments[..i]) + fragments[i]
    ensures Streamed(messages, id, fragments[..i + 1])
            == WithContent(Streamed(messages, id, fragments[..i]), id, Concat(fragments[..i + 1]))
  {
    assert fragments[..i + 1][..i] == fragments[..i];
    if i > 0 {
      WithContentTwice(messages, id, Concat(fragments[..i]), Concat(fragments[..i + 1]));
    }
  }

  lemma AccumulatedStep(shown: seq<string>, fragments: seq<string>, i: nat)
    requires i < |fragments| && Accumulated(shown, fragments[..i])
    ensures Accumulated(shown + [Concat(fragments[..i + 1])], fragments[..i + 1])
  {
    var next := shown + [Concat(fragments[..i + 1])];
    forall k | 0 <= k < |next|
      ensures next[k] == Concat(fragments[..i + 1][..k + 1])
    {
      assert fragments[..i + 1][..k + 1] == fragments[..k + 1];
      if k < i {
        assert fragments[..i][..k + 1] == fragments[..k + 1];
      }
    }
  }

  /** `states[k]` is `base` with the message `id` holding `shown[k]`: the
      transcript on screen after fragment k. */
  ghost predicate Rendered(states: seq<seq<Message>>, base: seq<Message>, id: string, shown: seq<string>)
  {
    |states| == |shown| && forall k :: 0 <= k < |states| ==> states[k] == WithContent(base, id, shown[k])
  }

  /** The transcript after a send that passed the guard, from the one before it. */
  ghost function Transcript(before: seq<Message>, prompt: string, reply: Reply, clock: Clock): seq<Message>
  {
    Answered(before + [UserMessage(prompt, clock)], reply, clock)
  }

  /** The transcript after the reply to a request has been handled, from the
      one holding the user's new message. */
  ghost function Answered(sent: seq<Message>, reply: Reply, clock: Clock): seq<Message>
  {
    match reply
    case OpenFailed => sent + [ErrorMessage(clock)]
    case Opened(fragments, failsAtEnd) =>
      var withPlaceholder := sent + [Placeholder(clock)];
      var streamed := Streamed(withPlaceholder, Placeholder(clock).id, fragments);
      if failsAtEnd then streamed + [ErrorMessage(clock)] else streamed
  }

  /** When no earlier message carries the placeholder's id, a completed
      stream leaves the earlier messages, the user's message and then the
      placeholder holding all the fragments' text; a failure adds exactly the
      error message after that, keeping what had streamed. */
  lemma TranscriptWithFreshPlaceholder(before: seq<Message>, prompt: string, fragments: seq<string>, clock: Clock)
    requires forall m :: m in before ==> m.id != Placeholder(clock).id
    requires clock.sentAt <= clock.openedAt
    ensures Transcript(before, prompt, Opened(fragments, false), clock)
            == before + [UserMessage(prompt, clock), Placeholder(clock).(content := Concat(fragments))]
    ensures Transcript(before, prompt, Opened(fragments, true), clock)
            == Transcript(before, prompt, Opened(fragments, false), clock) + [ErrorMessage(clock)]
  {
    DecimalInjective(clock.sentAt, clock.openedAt + 1);
    var withPlaceholder := before + [UserMessage(prompt, clock), Placeholder(clock)];
    if fragments != [] {
      var r := WithContent(withPlaceholder, Placeholder(clock).id, Concat(fragments));
      forall k | 0 <= k < |withPlaceholder|
        ensures r[k] == (before + [UserMessage(prompt, clock), Placeholder(clock).(content := Concat(fragments))])[k]
      {
        if k < |before| { assert withPlaceholder[k] in before; }
      }
    }
  }

  /** A request that fails before the stream opens adds the user's message
      and the error message and nothing else. */
  lemma TranscriptWhenOpenFails(before: seq<Message>, prompt: string, clock: Clock)
    ensures Transcript(before, prompt, OpenFailed, clock) == before + [UserMessage(prompt, clock), ErrorMessage(clock)]
    ensures Transcript(before, prompt, OpenFailed, clock)[|before| + 1].content == ErrorText
  {
  }

  /** The chat view's state, with the stores it reads and writes. */
  class ChatView {
    var messages: seq<Message>
    var input: string
    var isTyping: bool
    const st: Stores

    /** The stores are well formed and hold the transcript on screen. */
    ghost predicate Valid()
      reads this, st
    {
      st.Valid() && StoredMessages(st.session) == messages
    }

    /** Whether the send button is disabled; the same test guards the send. */
    predicate SendDisabled()
      reads this
    {
      Trim(input) == [] || isTyping
    }

    /** The first render and its two effects: the transcript saved in this
        tab is restored when it is not empty, and the transcript on screen
        (the empty one first) is saved. */
    constructor Mount(st: Stores)
      requires st.Valid()
      modifies st
      ensures this.st == st && Valid()
      ensures input == "" && !isTyping
      ensures messages == StoredMessages(old(st.session))
      ensures st.session == old(st.session)[MessagesKey := MessagesValue(messages)]
      ensures st.local == old(st.local)
    {
      this.st := st;
      messages := [];
      input := "";
      isTyping := false;
      new;
      var saved := SessionService.GetMessages(st);
      SessionService.SaveMessages(st, messages);
      if |saved| > 0 {
        messages := saved;
        SessionService.SaveMessages(st, messages);
      }
    }

    /** Typing into the message field. */
    method SetInput(text: string)
      modifies this`input
      ensures input == text
    {
      input := text;
    }

    /** `setMessages` followed by the effect that saves the transcript. */
    method Show(next: seq<Message>)
      requires Valid()
      modifies this`messages, st
      ensures Valid() && messages == next
      ensures st.session == old(st.session)[MessagesKey := MessagesValue(next)]
      ensures st.local == old(st.local)
    {
      messages := next;
      SessionService.SaveMessages(st, messages);
    }

    /** The `for await` loop: every fragment is added to the accumulated text
        and the message with id `aiMsgId` is rewritten to hold it. `shown[k]`
        is that text and `states[k]` the transcript on screen after fragment k. */
    method StreamInto(fragments: seq<string>, aiMsgId: string)
      returns (ghost shown: seq<string>, ghost states: seq<seq<Message>>)
      requires Valid()
      modifies this`messages, st
      ensures Valid()
      ensures messages == Streamed(old(messages), aiMsgId, fragments)
      ensures fragments == [] ==> st.session == old(st.session)
      ensures fragments != [] ==> st.session == old(st.session)[MessagesKey := MessagesValue(messages)]
      ensures st.local == old(st.local)
      ensures Accumulated(shown, fragments)
      ensures Rendered(states, old(messages), aiMsgId, shown)
    {
      ghost var before, session0, local0 := messages, st.session, st.local;
      var aiContent := "";
      shown, states := [], [];
      var i := 0;
      while i < |fragments|
        invariant 0 <= i <= |fragments|
        invariant Valid()
        invariant aiContent == Concat(fragments[..i])
        invariant messages == Streamed(before, aiMsgId, fragments[..i])
        invariant i == 0 ==> st.session == session0
        invariant i > 0 ==> st.session == session0[MessagesKey := MessagesValue(messages)]
        invariant st.local == local0
        invariant Accumulated(shown, fragments[..i])
        invariant Rendered(states, before, aiMsgId, shown)
      {
        StreamStep(before, aiMsgId, fragments, i);
        AccumulatedStep(shown, fragments, i);
        aiContent := aiContent + fragments[i];
        Show(WithContent(messages, aiMsgId, aiContent));
        shown := shown + [aiContent];
        states := states + [messages];
        i := i + 1;
      }
      assert fragments[..|fragments|] == fragments;
    }

    /** Everything after the request is handed over: the error message if
        the stream does not open; otherwise the placeholder, the fragments,
        and then the error message or the latency report. */
    method Answer(reply: Reply, clock: Clock) returns (ghost shown: seq<string>, ghost states: seq<seq<Message>>)
      requires Valid()
      modifies this`messages, st
      ensures Valid()
      ensures messages == Answered(old(messages), reply, clock)
      ensures st.session == old(st.session)[MessagesKey := MessagesValue(messages)]
      ensures st.local == if reply.Opened? && !reply.failsAtEnd
                          then old(st.local)[AnalyticsKey := AnalyticsValue(
                                 AnalyticsService.AfterMessage(AnalyticsService.StoredAnalytics(old(st.local)), Elapsed(clock)))]
                          else old(st.local)
      ensures reply.Opened? ==> Accumulated(shown, reply.fragments)
      ensures reply.Opened? ==> Rendered(states, old(messages) + [Placeholder(clock)], Placeholder(clock).id, shown)
    {
      shown, states := [], [];
      match reply {
        case OpenFailed =>
          Show(messages + [ErrorMessage(clock)]);
        case Opened(fragments, failsAtEnd) =>
          var aiMsgId := DecimalString(clock.openedAt + 1);
          Show(messages + [Message(aiMsgId, AssistantRole, "", clock.openedAt)]);
          assert messages == old(messages) + [Placeholder(clock)];
          shown, states := StreamInto(fragments, aiMsgId);
          ghost var streamed := messages;
          if failsAtEnd {
            Show(messages + [ErrorMessage(clock)]);
          } else {
            var startTime: int := clock.startAt;
            var endTime: int := clock.finishedAt;
            AnalyticsService.TrackMessage(st, (endTime - startTime) as real / 1000.0);
          }
          assert messages == (if failsAtEnd then streamed + [ErrorMessage(clock)] else streamed);
      }
    }

    /** The first half of a send, after the guard: the user's message,
        holding the trimmed input `prompt`, is shown, the field is cleared,
        the view starts waiting and the request is built from the transcript
        before the new message. */
    method Submit(prompt: string, clock: Clock) returns (request: GenerationRequest)
      requires Valid()
      modifies this, st
      ensures Valid()
      ensures messages == old(messages) + [UserMessage(prompt, clock)]
      ensures input == "" && isTyping
      ensures request.model == ModelName
      ensures request.contents == HistoryContents(old(messages)) + [Content("user", [Part(prompt)])]
      ensures request.config == GenerationConfig(SystemInstruction, 0.7, None, None)
      ensures st.session == old(st.session)[MessagesKey := MessagesValue(messages)]
      ensures st.local == old(st.local)
    {
      var history := messages;
      var userMsg := Message(DecimalString(clock.sentAt), UserRole, prompt, clock.sentAt);
      Show(messages + [userMsg]);
      input := "";
      isTyping := true;
      request := StreamRequest(history, userMsg.content);
    }

    /** A send after the guard: `Submit`, then the reply is handled and
        the view stops waiting. `inputWhileWaiting` and `typingWhileWaiting`
        are the field and the flag while the request is out; `shown` and
        `states` are the placeholder's content and the transcript after each
        fragment. */
    method Send(prompt: string, reply: Reply, clock: Clock)
      returns (request: GenerationRequest, ghost inputWhileWaiting: string, ghost typingWhileWaiting: bool,
               ghost shown: seq<string>, ghost states: seq<seq<Message>>)
      requires Valid()
      modifies this, st
      ensures Valid()
      ensures messages == Transcript(old(messages), prompt, reply, clock)
      ensures input == "" && !isTyping
      ensures inputWhileWaiting == "" && typingWhileWaiting
      ensures request.model == ModelName
      ensures request.contents == HistoryContents(old(messages)) + [Content("user", [Part(prompt)])]
      ensures request.config == GenerationConfig(SystemInstruction, 0.7, None, None)
      ensures st.session == old(st.session)[MessagesKey := MessagesValue(messages)]
      ensures st.local == if reply.Opened? && !reply.failsAtEnd
                          then old(st.local)[AnalyticsKey := AnalyticsValue(
                                 AnalyticsService.AfterMessage(AnalyticsService.StoredAnalytics(old(st.local)), Elapsed(clock)))]
                          else old(st.local)
      ensures reply.Opened? ==> Accumulated(shown, reply.fragments)
      ensures reply.Opened? ==>
        Rendered(states, old(messages) + [UserMessage(prompt, clock), Placeholder(clock)], Placeholder(clock).id, shown)
    {
      ghost var sent := old(messages) + [UserMessage(prompt, clock)];
      assert sent + [Placeholder(clock)] == old(messages) + [UserMessage(prompt, clock), Placeholder(clock)];
      request := Submit(prompt, clock);
      ghost var session1 := st.session;
      assert messages == sent && session1 == old(st.session)[MessagesKey := MessagesValue(sent)];
      inputWhileWaiting, typingWhileWaiting := input, isTyping;
      shown, states := Answer(reply, clock);
      assert messages == Transcript(old(messages), prompt, reply, clock);
      assert st.session == session1[MessagesKey := MessagesValue(messages)];
      isTyping := false;
    }

    /** One send: nothing happens while the send is disabled; otherwise `Send`. */
    method HandleSend(reply: Reply, clock: Clock)
      returns (request: Option<GenerationRequest>, ghost inputWhileWaiting: string, ghost typingWhileWaiting: bool,
               ghost shown: seq<string>, ghost states: seq<seq<Message>>)
      requires Valid()
      modifies this, st
      ensures Valid()
      ensures old(SendDisabled()) ==>
        && messages == old(messages) && input == old(input) && isTyping == old(isTyping)
        && st.local == old(st.local) && st.session == old(st.session) && request == None
      ensures !old(SendDisabled()) ==>
        && messages == Transcript(old(messages), Trim(old(input)), reply, clock)
        && input == "" && !isTyping
        && inputWhileWaiting == "" && typingWhileWaiting
        && request.Some?
        && request.value.model == ModelName
        && request.value.contents == HistoryContents(old(messages)) + [Content("user", [Part(Trim(old(input)))])]
        && request.value.config == GenerationConfig(SystemInstruction, 0.7, None, None)
        && st.session == old(st.session)[MessagesKey := MessagesValue(messages)]
        && st.local == if reply.Opened? && !reply.failsAtEnd
                       then old(st.local)[AnalyticsKey := AnalyticsValue(
                              AnalyticsService.AfterMessage(AnalyticsService.StoredAnalytics(old(st.local)), Elapsed(clock)))]
                       else old(st.local)
      ensures !old(SendDisabled()) && reply.Opened? ==>
        && Accumulated(shown, reply.fragments)
        && Rendered(states, old(messages) + [UserMessage(Trim(old(input)), clock), Placeholder(clock)], Placeholder(clock).id, shown)
    {
      request, shown, states := None, [], [];
      inputWhileWaiting, typingWhileWaiting := input, isTyping;
      if SendDisabled() {
        return;
      }
      var req;
      req, inputWhileWaiting, typingWhileWaiting, shown, states := Send(Trim(input), reply, clock);
      request := Some(req);
    }
  }
}
