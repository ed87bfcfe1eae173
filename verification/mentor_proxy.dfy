/**
 * The server-side proxy to the text-generation provider
 * (supabase/functions/ai-mentor/index.ts): answers CORS preflights, checks the
 * configuration and the request, forwards the prompt with fixed generation settings,
 * and wraps the provider's first candidate text, or any failure, in a JSON reply.
 *
 * The environment, the request body and the provider's answer are parameters; the
 * handler returns the outbound request it would send, so what reaches the provider
 * is part of what the contracts talk about.
 */
module MentorProxy {
  import opened Wrappers
  import opened Text
  import opened Json

  type Header = (string, string)

  const CorsHeaders: seq<Header> := [
    ("Access-Control-Allow-Origin", "*"),
    ("Access-Control-Allow-Headers", "authorization, x-client-info, apikey, content-type")
  ]
  const JsonHeaders: seq<Header> := CorsHeaders + [("Content-Type", "application/json")]

  const KeyMissing := "Google AI API key not configured"
  const PromptMissing := "Prompt is required"
  const InvalidReply := "Invalid response from Gemini API"
  const ProviderErrorPrefix := "Gemini API error: "
  const GenericError := "Internal server error"
  const Apology := "I apologize, but I cannot provide a response right now. Please try again later."

  const Endpoint := "https://generativelanguage.googleapis.com/v1beta/models/gemini-1.5-flash-latest:generateContent?key="

  /** Generation settings; the two fractional ones are kept in tenths. */
  datatype GenerationConfig = GenerationConfig(temperatureTenths: nat, topPTenths: nat, topK: nat, maxOutputTokens: nat)
  datatype SafetySetting = SafetySetting(category: string, threshold: string)

  const Config := GenerationConfig(7, 8, 40, 2048)
  const Safety := [
    SafetySetting("HARM_CATEGORY_HARASSMENT", "BLOCK_MEDIUM_AND_ABOVE"),
    SafetySetting("HARM_CATEGORY_HATE_SPEECH", "BLOCK_MEDIUM_AND_ABOVE")
  ]

  /** The POST the proxy sends to the provider: the prompt as the single text part. */
  datatype ProviderRequest = ProviderRequest(url: string, prompt: Json, config: GenerationConfig, safety: seq<SafetySetting>)

  /** The incoming body: either reading it threw (malformed JSON, or a JSON `null`,
      which cannot be destructured) with the runtime's message, or it decoded to the
      properties of an object (empty for any other non-null value). */
  datatype Body = Thrown(message: string) | Decoded(fields: map<string, Json>)

  /** The provider's JSON reply, each optional link of `candidates[0].content.parts[0].text`. */
  datatype Part = Part(text: Option<Json>)
  datatype Content = Content(parts: Option<seq<Part>>)
  datatype Candidate = Candidate(content: Option<Content>)
  datatype Reply = Reply(candidates: Option<seq<Candidate>>)

  /** What the provider call produced: the fetch itself threw, or an HTTP answer whose
      body either was not JSON or decoded to a reply. */
  datatype ReplyBody = NotJson(message: string) | Parsed(reply: Reply)
  datatype ProviderOutcome = FetchThrew(message: string) | Answered(status: nat, body: ReplyBody)

  datatype Payload =
    | NoPayload
    | Generated(content: Json, context: Json)
    | Fault(error: string, fallback: string)

  datatype Response = Response(status: nat, payload: Payload, headers: seq<Header>)

  /** The response together with the provider request it caused, if any. */
  datatype Exchange = Exchange(response: Response, outbound: Option<ProviderRequest>)

  predicate Ok(status: nat) { 200 <= status <= 299 }

  /** A property read on the decoded body, `undefined` when absent. */
  function Field(fields: map<string, Json>, key: string): (v: Option<Json>)
    ensures v.Some? <==> key in fields
    ensures v.Some? ==> v.value == fields[key]
  {
    if key in fields then Some(fields[key]) else None
  }

  /** A property is truthy when present and not falsy. */
  predicate Truthy(v: Option<Json>) {
    v.Some? && !Falsy(v.value)
  }

  /** The reply has a first candidate with content and a first part. */
  predicate HasFirstPart(r: Reply) {
    && r.candidates.Some? && |r.candidates.value| > 0
    && r.candidates.value[0].content.Some?
    && r.candidates.value[0].content.value.parts.Some?
    && |r.candidates.value[0].content.value.parts.value| > 0
  }

  /** The optional chain to the first candidate's first text part; present only when truthy. */
  function FirstText(r: Reply): (t: Option<Json>)
    ensures t.Some? ==> !Falsy(t.value)
    ensures t.Some? <==> HasFirstPart(r) && Truthy(r.candidates.value[0].content.value.parts.value[0].text)
    ensures t.Some? ==> t == r.candidates.value[0].content.value.parts.value[0].text
  {
    if r.candidates.None? || |r.candidates.value| == 0 then None
    else
      var c := r.candidates.value[0];
      if c.content.None? || c.content.value.parts.None? || |c.content.value.parts.value| == 0 then None
      else
        var p := c.content.value.parts.value[0];
        if Truthy(p.text) then p.text else None
  }

  /** The error reply: status 500, the error's message (or a generic one when empty) and the apology. */
  function Failed(message: string): (r: Response)
    ensures r.status == 500 && r.headers == JsonHeaders
    ensures r.payload.Fault? && r.payload.fallback == Apology && r.payload.error != ""
    ensures message != "" ==> r.payload.error == message
  {
    Response(500, Fault(if message == "" then GenericError else message, Apology), JsonHeaders)
  }

  /** The reply once the provider has answered. */
  function Finish(provider: ProviderOutcome, context: Option<Json>): (r: Response)
    ensures r.status == 200 <==> r.payload.Generated?
    ensures r.payload.Generated? <==>
              provider.Answered? && Ok(provider.status) && provider.body.Parsed?
              && FirstText(provider.body.reply).Some?
    // every other outcome is the 500 error reply, with the message of its own failure
    ensures !r.payload.Generated? ==> r.status == 500 && r.payload.Fault? && r.headers == JsonHeaders
    ensures provider.FetchThrew? ==> r == Failed(provider.message)
    ensures provider.Answered? && !Ok(provider.status) ==>
              r == Failed(ProviderErrorPrefix + NatToString(provider.status))
    ensures provider.Answered? && Ok(provider.status) && provider.body.NotJson? ==>
              r == Failed(provider.body.message)
    ensures (provider.Answered? && Ok(provider.status) && provider.body.Parsed?
             && FirstText(provider.body.reply).None?) ==> r == Failed(InvalidReply)
  {
    match provider
    case FetchThrew(message) => Failed(message)
    case Answered(status, body) =>
      if !Ok(status) then Failed(ProviderErrorPrefix + NatToString(status))
      else match body
        case NotJson(message) => Failed(message)
        case Parsed(reply) =>
          match FirstText(reply)
          case None => Failed(InvalidReply)
          case Some(text) =>
            Response(200, Generated(text, if Truthy(context) then context.value else JNull), JsonHeaders)
  }

  /** The whole handler. */
  function Handle(verb: string, apiKey: Option<string>, body: Body, provider: ProviderOutcome): (x: Exchange)
    // a preflight is answered before anything else, with the CORS headers and no body
    ensures verb == "OPTIONS" ==> x == Exchange(Response(200, NoPayload, CorsHeaders), None)
    // the provider is called exactly when the key is set and the body carries a truthy prompt
    ensures x.outbound.Some? <==>
              verb != "OPTIONS" && apiKey.Some? && apiKey.value != ""
              && body.Decoded? && Truthy(Field(body.fields, "prompt"))
    ensures x.outbound.Some? ==>
              x.outbound.value == ProviderRequest(Endpoint + apiKey.value, body.fields["prompt"], Config, Safety)
    ensures verb != "OPTIONS" && (apiKey.None? || apiKey.value == "") ==> x.response == Failed(KeyMissing)
    ensures verb != "OPTIONS" ==> x.response.headers == JsonHeaders
    ensures x.response.payload.Fault? ==> x.response.status == 500 && x.response.payload.fallback == Apology
    ensures x.response.payload.Generated? ==> x.outbound.Some? && !Falsy(x.response.payload.content)
    // once the provider is called, the reply is generated exactly when it answered with a
    // success status and a truthy first candidate text
    ensures x.outbound.Some? ==>
              (x.response.payload.Generated? <==>
                 provider.Answered? && Ok(provider.status) && provider.body.Parsed?
                 && FirstText(provider.body.reply).Some?)
    // apart from a preflight, whatever is not a generated reply is the 500 error reply
    ensures x.response.payload.Generated? ==> x.response.status == 200
    ensures verb != "OPTIONS" && !x.response.payload.Generated? ==>
              x.response.status == 500 && x.response.payload.Fault?
    // and each failure carries its own message
    ensures verb != "OPTIONS" && apiKey.Some? && apiKey.value != "" && body.Thrown? ==>
              x.response == Failed(body.message)
    ensures (verb != "OPTIONS" && apiKey.Some? && apiKey.value != "" && body.Decoded?
             && !Truthy(Field(body.fields, "prompt"))) ==> x.response == Failed(PromptMissing)
    ensures x.outbound.Some? && provider.FetchThrew? ==> x.response == Failed(provider.message)
    ensures x.outbound.Some? && provider.Answered? && !Ok(provider.status) ==>
              x.response == Failed(ProviderErrorPrefix + NatToString(provider.status))
    ensures x.outbound.Some? && provider.Answered? && Ok(provider.status) && provider.body.NotJson? ==>
              x.response == Failed(provider.body.message)
    ensures (x.outbound.Some? && provider.Answered? && Ok(provider.status) && provider.body.Parsed?
             && FirstText(provider.body.reply).None?) ==> x.response == Failed(InvalidReply)
  {
    if verb == "OPTIONS" then Exchange(Response(200, NoPayload, CorsHeaders), None)
    else if apiKey.None? || apiKey.value == "" then Exchange(Failed(KeyMissing), None)
    else match body
      case Thrown(message) => Exchange(Failed(message), None)
      case Decoded(fields) =>
        var prompt := Field(fields, "prompt");
        if !Truthy(prompt) then Exchange(Failed(PromptMissing), None)
        else
          var request := ProviderRequest(Endpoint + apiKey.value, prompt.value, Config, Safety);
          Exchange(Finish(provider, Field(fields, "context")), Some(request))
  }

  /** Every response starts with the CORS headers. */
  lemma EveryResponseHasCors(verb: string, apiKey: Option<string>, body: Body, provider: ProviderOutcome)
    ensures var h := Handle(verb, apiKey, body, provider).response.headers;
            |h| >= |CorsHeaders| && h[..|CorsHeaders|] == CorsHeaders
  {
    var h := Handle(verb, apiKey, body, provider).response.headers;
    if verb != "OPTIONS" {
      assert h == JsonHeaders;
      assert JsonHeaders[..|CorsHeaders|] == CorsHeaders;
    }
  }

  /** When no provider request goes out, the provider's behaviour cannot influence the reply. */
  lemma NoCallNoInfluence(verb: string, apiKey: Option<string>, body: Body, p: ProviderOutcome, q: ProviderOutcome)
    requires Handle(verb, apiKey, body, p).outbound.None?
    ensures Handle(verb, apiKey, body, p) == Handle(verb, apiKey, body, q)
  {
  }

  /** A generated reply carries the provider's first candidate text and echoes the
      request's context, with a falsy or absent context echoed as `null`. */
  lemma GeneratedEchoes(verb: string, apiKey: Option<string>, body: Body, provider: ProviderOutcome)
    requires Handle(verb, apiKey, body, provider).response.payload.Generated?
    ensures var pl := Handle(verb, apiKey, body, provider).response.payload;
            && body.Decoded? && provider.Answered? && provider.body.Parsed?
            && Some(pl.content) == FirstText(provider.body.reply)
            && pl.context == (if Truthy(Field(body.fields, "context")) then body.fields["context"] else JNull)
  {
  }

  /** A provider that answers with a non-success status yields the status in the error message. */
  lemma ProviderStatusReported(apiKey: string, fields: map<string, Json>, status: nat, body: ReplyBody)
    requires apiKey != "" && Truthy(Field(fields, "prompt")) && !Ok(status)
    ensures Handle("POST", Some(apiKey), Decoded(fields), Answered(status, body)).response
            == Failed(ProviderErrorPrefix + NatToString(status))
  {
  }

  /** A request for a prompt whose first candidate text is a plain string gets that string back. */
  lemma PlainAnswer(apiKey: string, prompt: string, answer: string)
    requires apiKey != "" && prompt != "" && answer != ""
    ensures var reply := Reply(Some([Candidate(Some(Content(Some([Part(Some(JStr(answer)))]))))]));
            Handle("POST", Some(apiKey), Decoded(map["prompt" := JStr(prompt)]), Answered(200, Parsed(reply)))
            == Exchange(Response(200, Generated(JStr(answer), JNull), JsonHeaders),
                        Some(ProviderRequest(Endpoint + apiKey, JStr(prompt), Config, Safety)))
  {
  }
}
