/**
 * The mentor chat page, in its plain form (src/pages/Chat.tsx) and in the form that
 * knows the roadmap the user is focused on (src/pages/Chat_Modified.tsx). The focus is
 * an optional roadmap title; the plain page is the case without one.
 *
 * Sending is split at the await: `BeginSend` is what happens before the reply arrives,
 * `FinishSend` what happens after; `HandleSendMessage` composes the two around the call.
 */
module Chat {
  import opened Wrappers
  import opened Text
  import opened AiService

  datatype Suggestion = Suggestion(text: string, category: string)

  datatype ChatState = ChatState(messages: seq<ChatMessage>, input: string, loading: bool)

  /** What a send hands to the AI helper: the text to send and the history as it was
      before the user's message was appended. */
  datatype Outgoing = Outgoing(text: string, history: seq<ChatMessage>)

  const PlainGreeting := "Hi! I'm your AI Career Mentor. I'm here to help you make informed career choices and develop the right skills. What would you like to explore today?"
  const FocusGreetingHead := "Hi! I'm your AI Career Mentor. I see you're currently focused on "
  const FocusGreetingTail := ". I'm here to help you with your learning journey and career development. What would you like to explore today?"
  const TroubleReply := "I apologize, but I'm having trouble responding right now. Please try again in a moment."
  const ContextHead := "[Context: User is currently focused on "
  const ContextTail := " roadmap] "

  const PlainSuggestions := [
    Suggestion("What skills should I learn for Data Science?", "Skills"),
    Suggestion("How do I transition to Web Development?", "Career Path"),
    Suggestion("Best career path for AI/ML?", "AI/ML"),
    Suggestion("Create a learning roadmap for me", "Roadmap")
  ]

  /** A title placed between two fixed texts occurs in the result, which starts with the first. */
  lemma {:induction false} Embedded(head: string, t: string, tail: string)
    ensures Contains(head + t + tail, t) && StartsWith(head + t + tail, head)
  {
    var s := head + t + tail;
    assert s[|head|..|head| + |t|] == t;
    assert OccursAt(s, t, |head|);
    assert s[..|head|] == head;
  }

  /** The opening message names the focused roadmap, when there is one. */
  function Greeting(focus: Option<string>): (g: string)
    ensures focus.None? ==> g == PlainGreeting
    ensures focus.Some? ==> Contains(g, focus.value) && StartsWith(g, FocusGreetingHead)
  {
    match focus
    case None => PlainGreeting
    case Some(title) =>
      Embedded(FocusGreetingHead, title, FocusGreetingTail);
      FocusGreetingHead + title + FocusGreetingTail
  }

  /** A fresh page: the greeting from the mentor, an empty input, nothing in flight. */
  function InitialState(focus: Option<string>, stamp: nat): (s: ChatState)
    ensures |s.messages| == 1 && s.messages[0].sender == AiSender
    ensures s.messages[0].content == Greeting(focus)
    ensures s.input == "" && !s.loading
  {
    ChatState([ChatMessage("1", Greeting(focus), AiSender, stamp)], "", false)
  }

  /** The four quick-start suggestions: about the focused roadmap when there is one. */
  function Suggestions(focus: Option<string>): (s: seq<Suggestion>)
    ensures |s| == 4
    ensures focus.None? ==> s == PlainSuggestions
    ensures focus.Some? ==> forall i :: 0 <= i < |s| ==> Contains(s[i].text, focus.value)
    ensures s[1].category == "Career Path"
    ensures s[2].category == if focus.Some? && focus.value != "" then focus.value else "AI/ML"
  {
    match focus
    case None => PlainSuggestions
    case Some(t) =>
      var a := "What's next in my " + t + " learning path?";
      var b := "Career opportunities with " + t + " skills";
      var c := "Best practices for " + t + "";
      var d := "Recommend projects for " + t + "";
      Embedded("What's next in my ", t, " learning path?");
      Embedded("Career opportunities with ", t, " skills");
      Embedded("Best practices for ", t, "");
      Embedded("Recommend projects for ", t, "");
      [ Suggestion(a, t),
        Suggestion(b, "Career Path"),
        Suggestion(c, if t != "" then t else "AI/ML"),
        Suggestion(d, "Projects") ]
  }

  /** Clicking a suggestion only fills the input. */
  function SuggestionClick(s: ChatState, text: string): (r: ChatState)
    ensures r.input == text && r.messages == s.messages && r.loading == s.loading
  {
    s.(input := text)
  }

  /** The text sent to the mentor: the input, prefixed with the focus when there is one. */
  function ContextualInput(focus: Option<string>, input: string): (t: string)
    ensures focus.None? ==> t == input
    ensures |t| >= |input| && t[|t| - |input|..] == input
    ensures focus.Some? ==> StartsWith(t, ContextHead) && Contains(t, focus.value)
  {
    match focus
    case None => input
    case Some(title) =>
      var t := ContextHead + title + (ContextTail + input);
      Embedded(ContextHead, title, ContextTail + input);
      assert t[|t| - |input|..] == input;
      t
  }

  /** The guard: nothing happens for a blank input or while a reply is awaited. */
  predicate Accepts(s: ChatState) {
    !IsBlank(s.input) && !s.loading
  }

  /** The user's message as shown: the raw input. */
  function UserMessage(input: string, stamp: nat): (m: ChatMessage)
    ensures m.content == input && m.sender == UserSender && m.id == "user_" + NatToString(stamp)
  {
    ChatMessage("user_" + NatToString(stamp), input, UserSender, stamp)
  }

  /** Before the await: the user's message (the raw input, without the focus prefix) is
      shown, the input is cleared and the page waits. */
  function BeginSend(s: ChatState, focus: Option<string>, stamp: nat): (out: (ChatState, Option<Outgoing>))
    ensures !Accepts(s) ==> out == (s, None)
    ensures Accepts(s) ==> out.1 == Some(Outgoing(ContextualInput(focus, s.input), s.messages))
    ensures Accepts(s) ==>
              out.0 == ChatState(s.messages + [UserMessage(s.input, stamp)], "", true)
  {
    if Trim(s.input) == [] || s.loading then (s, None)
    else
      (ChatState(s.messages + [UserMessage(s.input, stamp)], "", true), Some(Outgoing(ContextualInput(focus, s.input), s.messages)))
  }

  /** The mentor's message for a reply, or the apology when the call failed. */
  function ReplyMessage(reply: Result<string, string>, stamp: nat): (m: ChatMessage)
    ensures m.sender == AiSender
    ensures reply.Success? ==> m.content == reply.value && m.id == "ai_" + NatToString(stamp)
    ensures reply.Failure? ==> m.content == TroubleReply && m.id == "ai_error_" + NatToString(stamp)
  {
    match reply
    case Success(text) => ChatMessage("ai_" + NatToString(stamp), text, AiSender, stamp)
    case Failure(_) => ChatMessage("ai_error_" + NatToString(stamp), TroubleReply, AiSender, stamp)
  }

  /** After the await: the reply is appended and the page stops waiting; whatever was
      typed in the meantime stays in the input. */
  function FinishSend(s: ChatState, reply: Result<string, string>, stamp: nat): (r: ChatState)
    ensures r.messages == s.messages + [ReplyMessage(reply, stamp)]
    ensures r.input == s.input && !r.loading
  {
    ChatState(s.messages + [ReplyMessage(reply, stamp)], s.input, false)
  }

  /** One send, from the click to the reply, with the AI call's outcome as a parameter.
      Returns the final state and the call made, if any. */
  function HandleSendMessage(s: ChatState, focus: Option<string>, sentAt: nat, repliedAt: nat,
                             now: string, call: Invocation): (out: (ChatState, Option<AiCall>))
    ensures !Accepts(s) ==> out == (s, None)
    // the mentor sees the contextual text and the last messages before this send
    ensures Accepts(s) ==>
              out.1 == Some(AiCall(ChatPrompt(ContextualInput(focus, s.input)),
                                   Some(ChatContext("chat", LastFive(s.messages), now))))
    // the page shows the raw input, then the reply (or the apology), and is idle again
    ensures Accepts(s) ==>
              out.0 == ChatState(s.messages + [UserMessage(s.input, sentAt),
                                               ReplyMessage(ContentOr(call, ChatFallback), repliedAt)], "", false)
  {
    if !Accepts(s) then (s, None)
    else
      var begun := BeginSend(s, focus, sentAt);
      SendSteps(s, focus, sentAt, repliedAt, now, call);
      var o := begun.1.value;
      var answered := GetChatResponse(o.text, o.history, now, call);
      (FinishSend(begun.0, answered.1, repliedAt), Some(answered.0))
  }

  /** The two halves of an accepted send, composed around the AI call. */
  lemma {:induction false} SendSteps(s: ChatState, focus: Option<string>, sentAt: nat, repliedAt: nat,
                                     now: string, call: Invocation)
    requires Accepts(s)
    ensures var begun := BeginSend(s, focus, sentAt);
            && begun.1.Some?
            && var answered := GetChatResponse(begun.1.value.text, begun.1.value.history, now, call);
            && answered.0 == AiCall(ChatPrompt(ContextualInput(focus, s.input)),
                                    Some(ChatContext("chat", LastFive(s.messages), now)))
            && FinishSend(begun.0, answered.1, repliedAt)
               == ChatState(s.messages + [UserMessage(s.input, sentAt),
                                          ReplyMessage(ContentOr(call, ChatFallback), repliedAt)], "", false)
  {
    var u := UserMessage(s.input, sentAt);
    var text := ContextualInput(focus, s.input);
    var begun := BeginSend(s, focus, sentAt);
    assert begun == (ChatState(s.messages + [u], "", true), Some(Outgoing(text, s.messages)));
    var answered := GetChatResponse(text, s.messages, now, call);
    var reply := ContentOr(call, ChatFallback);
    assert answered == (AiCall(ChatPrompt(text), Some(ChatContext("chat", LastFive(s.messages), now))), reply);
    AppendTwo(s.messages, u, ReplyMessage(reply, repliedAt));
  }

  lemma AppendTwo<T>(xs: seq<T>, u: T, a: T)
    ensures (xs + [u]) + [a] == xs + [u, a]
  {
  }

  /** A send appends exactly two messages, the user's and the mentor's, and keeps the
      earlier conversation as it was. */
  lemma {:induction false} SendAppendsTwo(s: ChatState, focus: Option<string>, sentAt: nat, repliedAt: nat,
                                          now: string, call: Invocation)
    requires Accepts(s)
    ensures var m := HandleSendMessage(s, focus, sentAt, repliedAt, now, call).0.messages;
            && |m| == |s.messages| + 2 && m[..|s.messages|] == s.messages
            && m[|s.messages|].sender == UserSender && m[|s.messages|].content == s.input
            && m[|s.messages| + 1].sender == AiSender
  {
    var m := HandleSendMessage(s, focus, sentAt, repliedAt, now, call).0.messages;
    var u := UserMessage(s.input, sentAt);
    var a := ReplyMessage(ContentOr(call, ChatFallback), repliedAt);
    assert m == s.messages + [u, a];
    assert m[|s.messages|] == u && m[|s.messages| + 1] == a;
    assert m[..|s.messages|] == s.messages;
  }

  /** A second send while the first is awaited does nothing. */
  lemma {:induction false} SendWhileWaitingIgnored(s: ChatState, focus: Option<string>, stamp: nat, stamp2: nat)
    requires Accepts(s)
    ensures BeginSend(BeginSend(s, focus, stamp).0, focus, stamp2) == (BeginSend(s, focus, stamp).0, None)
  {
    var w := BeginSend(s, focus, stamp).0;
    assert w.loading;
  }

  /** The plain page sends exactly what was typed, and shows the same text. */
  lemma PlainPageSendsRawInput(s: ChatState, sentAt: nat, repliedAt: nat, now: string, call: Invocation)
    requires Accepts(s)
    ensures var out := HandleSendMessage(s, None, sentAt, repliedAt, now, call);
            out.1.value.prompt == ChatPrompt(s.input) && out.0.messages[|s.messages|].content == s.input
  {
  }

  /** The mentor's message is never empty: a failed call shows the apology, an empty
      reply the helper's fallback. */
  lemma {:induction false} ReplyNeverEmpty(s: ChatState, focus: Option<string>, sentAt: nat, repliedAt: nat,
                                           now: string, call: Invocation)
    requires Accepts(s)
    ensures HandleSendMessage(s, focus, sentAt, repliedAt, now, call).0.messages[|s.messages| + 1].content != ""
  {
    var reply := ContentOr(call, ChatFallback);
    var m := HandleSendMessage(s, focus, sentAt, repliedAt, now, call).0.messages;
    assert m == s.messages + [UserMessage(s.input, sentAt), ReplyMessage(reply, repliedAt)];
    assert m[|s.messages| + 1] == ReplyMessage(reply, repliedAt);
  }

  /** The two messages a send appends carry different ids. */
  lemma SendIdsDiffer(s: ChatState, focus: Option<string>, sentAt: nat, repliedAt: nat, now: string, call: Invocation)
    requires Accepts(s)
    ensures var m := HandleSendMessage(s, focus, sentAt, repliedAt, now, call).0.messages;
            m[|s.messages|].id != m[|s.messages| + 1].id
  {
    var m := HandleSendMessage(s, focus, sentAt, repliedAt, now, call).0.messages;
    assert m == s.messages + [UserMessage(s.input, sentAt), ReplyMessage(ContentOr(call, ChatFallback), repliedAt)];
    assert m[|s.messages|].id[0] == 'u';
    assert m[|s.messages| + 1].id[0] == 'a';
  }
}
