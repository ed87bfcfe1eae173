/**
 * The client's AI helpers (src/services/aiService.ts): each builds a prompt, calls the
 * proxy through the backend's function invocation, and turns the reply into a string,
 * a roadmap or a list, falling back to a fixed text when the reply is empty.
 *
 * The invocation's outcome, the clock and `JSON.parse` are parameters. A prompt is
 * modelled by the values its template embeds, not by its literal wording.
 */
module AiService {
  import opened Wrappers
  import opened Text
  import opened Json

  datatype Sender = UserSender | AiSender

  /** A chat message as the chat pages keep it; the timestamp is a clock reading. */
  datatype ChatMessage = ChatMessage(id: string, content: string, sender: Sender, stamp: nat)

  datatype TaskStatus = Pending | InProgress | Completed
  datatype LearningTask = LearningTask(id: string, title: string, status: TaskStatus)

  datatype Level = Beginner | Intermediate | Advanced

  /** What each prompt template embeds. */
  datatype Prompt =
    | ChatPrompt(message: string)
    | RoadmapPrompt(skill: string, level: Level)
    | QuotePrompt
    | ProgressPrompt(completed: nat, pending: nat, inProgress: nat, streakDays: int)
    | NextStepsPrompt(roadmaps: seq<string>, completedCount: nat)

  /** The context object sent along with a chat prompt. */
  datatype ChatContext = ChatContext(kind: string, history: seq<ChatMessage>, timestamp: string)

  /** The body handed to the proxy: a prompt and, for chat only, a context. */
  datatype AiCall = AiCall(prompt: Prompt, context: Option<ChatContext>)

  /** The function invocation either reported an error or delivered a payload whose
      `content` property may be absent. */
  datatype Invocation = InvokeError | Delivered(content: Option<string>)

  const ConnectFailure := "Failed to connect to AI service"
  const RoadmapFailure := "Failed to generate roadmap"
  const ChatFallback := "I apologize, but I cannot provide a response right now. Please try again."
  const QuoteFallback := "Every expert was once a beginner. Keep learning, keep growing! \U{1F680}"
  const ProgressFallback := "You're making great progress! Keep up the excellent work."
  const StepsFallback := [
    "Review your completed tasks and identify knowledge gaps",
    "Set a specific learning goal for this week",
    "Find a practice project to apply your skills"
  ]
  const HistoryWindow := 5

  /** The call itself: any invocation error, whatever its cause, surfaces as one message. */
  function CallAI(call: Invocation): (r: Result<Option<string>, string>)
    ensures r.Failure? <==> call.InvokeError?
    ensures r.Failure? ==> r.error == ConnectFailure
    ensures r.Success? ==> r.value == call.content
  {
    match call
    case InvokeError => Failure(ConnectFailure)
    case Delivered(content) => Success(content)
  }

  /** `content || fallback` on a successful call. */
  function ContentOr(call: Invocation, fallback: string): (r: Result<string, string>)
    ensures r.Failure? <==> call.InvokeError?
    ensures r.Failure? ==> r.error == ConnectFailure
    ensures r.Success? && call.content.Some? && call.content.value != "" ==> r.value == call.content.value
    ensures r.Success? && (call.content.None? || call.content.value == "") ==> r.value == fallback
  {
    match CallAI(call)
    case Failure(e) => Failure(e)
    case Success(content) => Success(if content.Some? && content.value != "" then content.value else fallback)
  }

  /** The last five messages of the history, or all of them when there are fewer. */
  function LastFive(history: seq<ChatMessage>): (r: seq<ChatMessage>)
    ensures |r| == if |history| < HistoryWindow then |history| else HistoryWindow
    ensures r == history[|history| - |r|..]
  {
    if |history| <= HistoryWindow then history else history[|history| - HistoryWindow..]
  }

  /** The newest message is always part of the context sent with the next prompt. */
  lemma {:induction false} LastFiveKeepsNewest(history: seq<ChatMessage>, m: ChatMessage)
    ensures |LastFive(history + [m])| > 0 && LastFive(history + [m])[|LastFive(history + [m])| - 1] == m
    ensures LastFive(history + [m]) == (if |history| < HistoryWindow then history else LastFive(history)[1..]) + [m]
  {
    var h := history + [m];
    var r := LastFive(h);
    assert r == h[|h| - |r|..];
    if |history| < HistoryWindow {
      assert r == h;
    } else {
      var q := LastFive(history);
      assert q == history[|history| - HistoryWindow..];
      assert r == h[|h| - HistoryWindow..];
      assert q[1..] + [m] == r;
    }
  }

  /** A chat reply: the prompt embeds the message, the context carries the recent history,
      and an empty reply becomes the apology. */
  function GetChatResponse(message: string, history: seq<ChatMessage>, now: string, call: Invocation): (out: (AiCall, Result<string, string>))
    ensures out.0.prompt == ChatPrompt(message)
    // the context: of type "chat", stamped `now`, and the newest five messages at most
    ensures out.0.context.Some? && out.0.context.value.kind == "chat" && out.0.context.value.timestamp == now
    ensures var h := out.0.context.value.history;
      && |h| == (if |history| < HistoryWindow then |history| else HistoryWindow)
      && h == history[|history| - |h|..]
    // the reply: the delivered content, the apology for an empty one, or the connection failure
    ensures out.1.Failure? <==> call.InvokeError?
    ensures out.1.Failure? ==> out.1.error == ConnectFailure
    ensures call.Delivered? && call.content.Some? && call.content.value != "" ==> out.1 == Success(call.content.value)
    ensures call.Delivered? && (call.content.None? || call.content.value == "") ==> out.1 == Success(ChatFallback)
    ensures out.1.Success? ==> out.1.value != ""
  {
    (AiCall(ChatPrompt(message), Some(ChatContext("chat", LastFive(history), now))), ContentOr(call, ChatFallback))
  }

  /** A generated roadmap as an object: its id defaults to a time-based one but the parsed
      object may override it; status and progress are always reset. */
  function GeneratedObject(fields: map<string, Json>, stamp: nat): (m: map<string, Json>)
    ensures "id" in m && "status" in m && "progress" in m
    ensures m["status"] == JStr("not-started") && m["progress"] == JNum(0)
    ensures m["id"] == if "id" in fields then fields["id"] else JStr("roadmap_" + NatToString(stamp))
    ensures forall k :: k != "id" && k != "status" && k != "progress" ==>
              (k in m <==> k in fields) && (k in m ==> m[k] == fields[k])
  {
    (map["id" := JStr("roadmap_" + NatToString(stamp))] + fields)["status" := JStr("not-started")]["progress" := JNum(0)]
  }

  /** The properties a parsed value contributes when spread: an object's own ones. */
  function Spread(v: Json): (fields: map<string, Json>)
    ensures v.JObj? ==> fields == v.fields
    ensures !v.JObj? ==> fields == map[]
  {
    if v.JObj? then v.fields else map[]
  }

  /** Roadmap generation: a failed call propagates; a reply that does not parse (or is
      absent) fails with its own message; otherwise the parsed object is completed. */
  function GenerateRoadmap(skill: string, level: Option<Level>, stamp: nat, call: Invocation,
                           parse: string -> Option<Json>): (out: (AiCall, Result<map<string, Json>, string>))
    ensures out.0 == AiCall(RoadmapPrompt(skill, level.GetOr(Beginner)), None)
    ensures call.InvokeError? ==> out.1 == Failure(ConnectFailure)
    ensures call.Delivered? && (call.content.None? || parse(call.content.value).None?) ==> out.1 == Failure(RoadmapFailure)
    ensures out.1.Success? <==> call.Delivered? && call.content.Some? && parse(call.content.value).Some?
    ensures out.1.Success? ==> out.1.value == GeneratedObject(Spread(parse(call.content.value).value), stamp)
  {
    var request := AiCall(RoadmapPrompt(skill, level.GetOr(Beginner)), None);
    match call
    case InvokeError => (request, Failure(ConnectFailure))
    case Delivered(content) =>
      if content.None? then (request, Failure(RoadmapFailure))
      else match parse(content.value)
        case None => (request, Failure(RoadmapFailure))
        case Some(v) => (request, Success(GeneratedObject(Spread(v), stamp)))
  }

  /** A motivational quote, or the fixed one when the reply is empty. */
  function GenerateMotivationalQuote(call: Invocation): (out: (AiCall, Result<string, string>))
    ensures out.0 == AiCall(QuotePrompt, None)
    ensures out.1.Failure? <==> call.InvokeError?
    ensures out.1.Failure? ==> out.1.error == ConnectFailure
    ensures call.Delivered? && call.content.Some? && call.content.value != "" ==> out.1 == Success(call.content.value)
    ensures call.Delivered? && (call.content.None? || call.content.value == "") ==> out.1 == Success(QuoteFallback)
    ensures out.1.Success? ==> out.1.value != ""
  {
    (AiCall(QuotePrompt, None), ContentOr(call, QuoteFallback))
  }

  /** How many tasks have the given status. */
  function CountStatus(tasks: seq<LearningTask>, s: TaskStatus): (n: nat)
    ensures n <= |tasks|
    ensures n == 0 <==> forall t :: t in tasks ==> t.status != s
  {
    if tasks == [] then 0
    else (if tasks[0].status == s then 1 else 0) + CountStatus(tasks[1..], s)
  }

  /** Every task is counted under exactly one of the three statuses. */
  lemma {:induction false} CountsPartition(tasks: seq<LearningTask>)
    ensures CountStatus(tasks, Completed) + CountStatus(tasks, Pending) + CountStatus(tasks, InProgress) == |tasks|
  {
    if tasks != [] {
      CountsPartition(tasks[1..]);
    }
  }

  /** Counting over a concatenation adds the counts of its two parts. */
  lemma {:induction false} CountAppend(a: seq<LearningTask>, b: seq<LearningTask>, s: TaskStatus)
    ensures CountStatus(a + b, s) == CountStatus(a, s) + CountStatus(b, s)
  {
    if a == [] {
      assert a + b == b;
    } else {
      assert (a + b)[1..] == a[1..] + b;
      CountAppend(a[1..], b, s);
    }
  }

  /** A progress analysis: the prompt carries the per-status counts and the streak. */
  function AnalyzeProgress(tasks: seq<LearningTask>, streakDays: int, call: Invocation): (out: (AiCall, Result<string, string>))
    ensures out.0.context.None? && out.0.prompt.ProgressPrompt?
    ensures out.0.prompt.completed + out.0.prompt.pending + out.0.prompt.inProgress == |tasks|
    ensures out.0.prompt.completed == CountStatus(tasks, Completed)
    ensures out.0.prompt.pending == CountStatus(tasks, Pending)
    ensures out.0.prompt.inProgress == CountStatus(tasks, InProgress)
    ensures out.0.prompt.streakDays == streakDays
    ensures out.1.Failure? <==> call.InvokeError?
    ensures out.1.Failure? ==> out.1.error == ConnectFailure
    ensures call.Delivered? && call.content.Some? && call.content.value != "" ==> out.1 == Success(call.content.value)
    ensures call.Delivered? && (call.content.None? || call.content.value == "") ==> out.1 == Success(ProgressFallback)
  {
    CountsPartition(tasks);
    var p := ProgressPrompt(CountStatus(tasks, Completed), CountStatus(tasks, Pending), CountStatus(tasks, InProgress), streakDays);
    (AiCall(p, None), ContentOr(call, ProgressFallback))
  }

  /** Next steps: whatever the reply parses to, or the three fixed steps when it does not parse. */
  function SuggestNextSteps(roadmaps: seq<string>, completedTasks: seq<LearningTask>, call: Invocation,
                            parse: string -> Option<Json>): (out: (AiCall, Result<Json, string>))
    ensures out.0 == AiCall(NextStepsPrompt(roadmaps, |completedTasks|), None)
    ensures out.1.Failure? <==> call.InvokeError?
    ensures out.1.Failure? ==> out.1.error == ConnectFailure
    ensures call.Delivered? && call.content.Some? && parse(call.content.value).Some? ==> out.1 == Success(parse(call.content.value).value)
    ensures call.Delivered? && (call.content.None? || parse(call.content.value).None?) ==>
              out.1 == Success(JArr([JStr(StepsFallback[0]), JStr(StepsFallback[1]), JStr(StepsFallback[2])]))
  {
    var request := AiCall(NextStepsPrompt(roadmaps, |completedTasks|), None);
    var fallback := JArr([JStr(StepsFallback[0]), JStr(StepsFallback[1]), JStr(StepsFallback[2])]);
    match call
    case InvokeError => (request, Failure(ConnectFailure))
    case Delivered(content) =>
      if content.None? then (request, Success(fallback))
      else match parse(content.value)
        case None => (request, Success(fallback))
        case Some(v) => (request, Success(v))
  }

  /** Two roadmaps generated from the same reply at different times differ only in a
      generated id, and only when the reply carries no id of its own. */
  lemma RoadmapIdsFromClock(fields: map<string, Json>, s1: nat, s2: nat)
    requires s1 != s2
    ensures GeneratedObject(fields, s1)["id"] == GeneratedObject(fields, s2)["id"] <==> "id" in fields
  {
    if "id" !in fields {
      NatToStringInjective(s1, s2);
      var a := "roadmap_" + NatToString(s1);
      var b := "roadmap_" + NatToString(s2);
      assert a[8..] == NatToString(s1) && b[8..] == NatToString(s2);
    }
  }
}
