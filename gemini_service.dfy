/** Request shaping for the hosted language-model API: the chat session
    configuration, the streaming branch between one-shot image requests and
    chat sends, the structured insight requests with their parse fallback,
    and the history translation of the non-streaming chat.

    The SDK itself is not modelled: a request is a value describing what is
    sent, and what comes back (the response text, or a thrown error) is an
    input of the caller. `JSON.parse` is an abstract partial function. */
module GeminiService {
  import opened JsText
  import opened Types

  /** The model every request names. */
  const ModelName: string := "gemini-3-flash-preview"

  /** Returned by the agentic step when the response carries no text. */
  const IdleReply: string := "SYSTEM_IDLE."

  /** The text parsed when the response text is absent or blank. */
  const EmptyJsonArray: string := "[]"

  /** The one fixed system instruction; its wording is not modelled. */
  datatype SystemInstruction = PortfolioAssistant

  /** The only tool any request grants: web search. */
  datatype Tool = GoogleSearch

  /** The response-schema vocabulary the insight requests use. */
  datatype SchemaType =
    | StringType
    | ObjectType(properties: seq<(string, SchemaType)>, required: seq<string>)
    | ArrayType(items: SchemaType)

  /** A request configuration. Temperatures are in hundredths (40 is 0.4). */
  datatype Config = Config(
    systemInstruction: Option<SystemInstruction>,
    temperature: Option<nat>,
    thinkingBudget: Option<nat>,
    tools: seq<Tool>,
    responseMimeType: Option<string>,
    responseSchema: Option<SchemaType>)

  /** The remote API's role vocabulary. */
  datatype ApiRole = UserTurn | ModelTurn

  /** An inline image: base64 data (undefined when it could not be cut out
      of its data URL) and a mime type. */
  datatype InlineData = InlineData(data: Option<string>, mimeType: string)

  datatype Part = TextPart(text: string) | ImagePart(inlineData: InlineData)

  /** One turn of a request history. */
  datatype Content = Content(role: ApiRole, parts: seq<Part>)

  /** The two single-prompt requests, by the text they are built around;
      `Wording` gives the prompt itself. */
  datatype Prompt = LeadIntel(url: string) | CompetitiveAudit(companyName: string)

  /** The three shapes of `contents` the service sends. */
  datatype RequestContents =
    | PromptText(prompt: Prompt)
    | Turns(turns: seq<Content>)
    | Parts(parts: seq<Part>)

  /** A `generateContent` or `generateContentStream` request. */
  datatype Request = Request(model: string, contents: RequestContents, config: Config)

  /** The session `chats.create` opens; the server-side history it keeps is
      not modelled. */
  datatype ChatSession = ChatSession(model: string, config: Config)

  /** The stream `streamAgentResponse` asks for. */
  datatype StreamCall =
    | OneShotStream(request: Request)
    | ChatStream(session: ChatSession, message: string)

  /** The schema both insight requests declare: an array of objects whose
      string fields topic, value and strategy are all required. */
  const InsightSchema: SchemaType :=
    ArrayType(ObjectType(
      [("topic", StringType), ("value", StringType), ("strategy", StringType)],
      ["topic", "value", "strategy"]))

  // ---------------------------------------------------------------------
  // startAgentSession

  /** `startAgentSession(history)`: opens the chat used by the streaming
      contact form. The history argument is accepted and ignored. */
  function StartAgentSession(history: seq<ChatMessage>): (s: ChatSession)
    ensures s.model == ModelName
    ensures s.config.systemInstruction == Some(PortfolioAssistant)
    ensures s.config.temperature == Some(40) && s.config.thinkingBudget == Some(0)
    ensures s.config.tools == [GoogleSearch]
  {
    ChatSession(ModelName, Config(Some(PortfolioAssistant), Some(40), Some(0), [GoogleSearch], None, None))
  }

  /** Every session is configured alike, whatever history is passed in. */
  lemma StartAgentSessionIgnoresHistory(h1: seq<ChatMessage>, h2: seq<ChatMessage>)
    ensures StartAgentSession(h1) == StartAgentSession(h2)
  {
  }

  // ---------------------------------------------------------------------
  // streamAgentResponse

  /** Wraps each inline image as a request part, keeping the order. */
  function ImageParts(images: seq<InlineData>): (ps: seq<Part>)
    ensures |ps| == |images|
    ensures forall i :: 0 <= i < |images| ==> ps[i] == ImagePart(images[i])
  {
    if images == [] then [] else [ImagePart(images[0])] + ImageParts(images[1..])
  }

  /** `streamAgentResponse(message, chat, imageParts)`: with images, a
      one-shot stream whose parts are the images in order and then the
      message (the chat, and so the conversation so far, is not used); with
      no images, the chat's own streaming send of the message. */
  function StreamAgentResponse(message: string, chat: ChatSession, images: seq<InlineData>): (c: StreamCall)
    ensures c.OneShotStream? <==> |images| > 0
    ensures c.ChatStream? ==> c.session == chat && c.message == message
    ensures c.OneShotStream? ==>
      && c.request.model == ModelName
      && c.request.config.systemInstruction == Some(PortfolioAssistant)
      && c.request.config.tools == [GoogleSearch]
      && c.request.contents.Parts?
      && |c.request.contents.parts| == |images| + 1
      && (forall i :: 0 <= i < |images| ==> c.request.contents.parts[i] == ImagePart(images[i]))
      && c.request.contents.parts[|images|] == TextPart(message)
  {
    if |images| > 0 then
      OneShotStream(Request(
        ModelName,
        Parts(ImageParts(images) + [TextPart(message)]),
        Config(Some(PortfolioAssistant), None, None, [GoogleSearch], None, None)))
    else
      ChatStream(chat, message)
  }

  // ---------------------------------------------------------------------
  // generateLeadInsights and getCompetitorAnalysis

  /** What a prompt opens with, before the text it is built around. */
  function Head(p: Prompt): string {
    match p
    case LeadIntel(_) => "EXTRACT_LEAD_INTEL: "
    case CompetitiveAudit(_) => "COMPETITIVE_AUDIT: \""
  }

  /** The text a prompt is built around: the URL or the company name. */
  function Subject(p: Prompt): string {
    match p
    case LeadIntel(url) => url
    case CompetitiveAudit(companyName) => companyName
  }

  /** The fixed instructions that follow the subject. */
  function Tail(p: Prompt): string {
    match p
    case LeadIntel(_) => ". Provide 3 verified insights for automation workflows."
    case CompetitiveAudit(_) =>
      "\". \n"
      + "    Target TOP 2 direct competitors. Output JSON only. \n"
      + "    Topic = Competitor Name. Value = Comparison. Strategy = AI Disruption."
  }

  /** The prompt text sent: the head, then the user's text verbatim, then
      the fixed instructions. */
  function Wording(p: Prompt): (w: string)
    ensures |w| == |Head(p)| + |Subject(p)| + |Tail(p)|
    ensures w[..|Head(p)|] == Head(p)
    ensures OccursAt(w, Subject(p), |Head(p)|)
    ensures w[|Head(p)| + |Subject(p)|..] == Tail(p)
  {
    var w := Head(p) + (Subject(p) + Tail(p));
    assert w[|Head(p)|..][..|Subject(p)|] == Subject(p);
    w
  }

  /** Distinct prompts give distinct texts: the head tells the two kinds
      apart, and within a kind the subject is recovered between the head
      and the fixed tail. */
  lemma WordingInjective(p: Prompt, q: Prompt)
    requires Wording(p) == Wording(q)
    ensures p == q
  {
    var w := Wording(p);
    if p.LeadIntel? != q.LeadIntel? {
      assert false;
    }
    assert Head(p) == Head(q) && Tail(p) == Tail(q);
    assert |Subject(p)| == |Subject(q)|;
    assert Subject(p) == w[|Head(p)|..|Head(p)| + |Subject(p)|] == Subject(q);
  }

  /** The request `generateLeadInsights(url)` sends: JSON output under the
      insight schema, no tools. */
  function LeadInsightsRequest(url: string): (r: Request)
    ensures r.model == ModelName && r.contents == PromptText(LeadIntel(url))
    ensures r.config.tools == [] && r.config.systemInstruction.None?
    ensures r.config.responseMimeType == Some("application/json")
    ensures r.config.responseSchema == Some(InsightSchema)
  {
    Request(ModelName, PromptText(LeadIntel(url)),
      Config(None, None, None, [], Some("application/json"), Some(InsightSchema)))
  }

  /** The request `getCompetitorAnalysis(companyName)` sends: the same
      schema, with web search granted. */
  function CompetitorAnalysisRequest(companyName: string): (r: Request)
    ensures r.model == ModelName && r.contents == PromptText(CompetitiveAudit(companyName))
    ensures r.config.tools == [GoogleSearch] && r.config.systemInstruction.None?
    ensures r.config.responseMimeType == Some("application/json")
    ensures r.config.responseSchema == Some(InsightSchema)
  {
    Request(ModelName, PromptText(CompetitiveAudit(companyName)),
      Config(None, None, None, [GoogleSearch], Some("application/json"), Some(InsightSchema)))
  }

  /** Only the competitor audit may search the web, and both insight
      requests declare a schema whose required fields are exactly topic,
      value and strategy, each a string property. */
  lemma InsightRequestsDiffer(url: string, companyName: string)
    ensures GoogleSearch !in LeadInsightsRequest(url).config.tools
    ensures GoogleSearch in CompetitorAnalysisRequest(companyName).config.tools
    ensures LeadInsightsRequest(url).config.responseSchema
         == CompetitorAnalysisRequest(companyName).config.responseSchema
    ensures InsightSchema.ArrayType? && InsightSchema.items.ObjectType?
    ensures InsightSchema.items.required == ["topic", "value", "strategy"]
    ensures forall f :: f in InsightSchema.items.required ==> (f, StringType) in InsightSchema.items.properties
  {
  }

  /** The text handed to `JSON.parse`: the trimmed response text, or "[]"
      when the text is absent or trims to empty. */
  function InsightSource(text: Option<string>): (s: string)
    ensures s != ""
    ensures text.None? || IsBlank(text.value) ==> s == EmptyJsonArray
    ensures text.Some? && !IsBlank(text.value) ==> s == Trim(text.value)
  {
    if text.Some? && Trim(text.value) != "" then Trim(text.value) else EmptyJsonArray
  }

  /** The result of either insight request once the response has arrived:
      the parsed insights, or the empty list when parsing fails. */
  function ParseInsights(text: Option<string>, parse: string -> Option<seq<Insight>>): (r: seq<Insight>)
    ensures parse(InsightSource(text)).None? ==> r == []
    ensures parse(InsightSource(text)).Some? ==> r == parse(InsightSource(text)).value
  {
    match parse(InsightSource(text))
    case Some(insights) => insights
    case None => []
  }

  /** A missing or blank response yields no insights (given that "[]"
      parses to the empty list). */
  lemma BlankResponseYieldsNoInsights(text: Option<string>, parse: string -> Option<seq<Insight>>)
    requires parse(EmptyJsonArray) == Some([])
    requires text.None? || IsBlank(text.value)
    ensures ParseInsights(text, parse) == []
  {
  }

  /** A parse failure is swallowed: the request yields the empty list
      rather than an error. */
  lemma ParseFailureYieldsNoInsights(text: Option<string>, parse: string -> Option<seq<Insight>>)
    requires parse(InsightSource(text)).None?
    ensures ParseInsights(text, parse) == []
  {
  }

  /** The parse fallback on a concrete body: "not json" is handed to the
      parser untouched, the parser rejects it and the result is empty. */
  lemma NotJsonYieldsNoInsights()
    ensures InsightSource(Some("not json")) == "not json"
    ensures ParseInsights(Some("not json"), s => if s == EmptyJsonArray then Some([]) else None) == []
  {
    assert !IsJsWhitespace("not json"[0]);
    assert !IsJsWhitespace("not json"[7]);
    TrimUntouched("not json");
  }

  // ---------------------------------------------------------------------
  // getAgenticStep

  /** The role translation: `agent` becomes `model`, `user` stays `user`. */
  function ToApiRole(role: Role): (a: ApiRole)
    ensures a == ModelTurn <==> role == Agent
  {
    if role == Agent then ModelTurn else UserTurn
  }

  /** The reverse translation, from the API's vocabulary back to ours. */
  function FromApiRole(a: ApiRole): (role: Role)
    ensures role == Agent <==> a == ModelTurn
  {
    if a == ModelTurn then Agent else User
  }

  /** `history.map(...)` of `getAgenticStep`: one turn per message, in
      order, each with the translated role and the content as its only,
      textual, part. */
  function ToContents(history: seq<ChatMessage>): (cs: seq<Content>)
    ensures |cs| == |history|
    ensures forall i :: 0 <= i < |history| ==>
      && cs[i].role == ToApiRole(history[i].role)
      && cs[i].parts == [TextPart(history[i].content)]
  {
    if history == [] then []
    else [Content(ToApiRole(history[0].role), [TextPart(history[0].content)])] + ToContents(history[1..])
  }

  /** Reads a request history back as chat messages: the first text part of
      each turn is its content. */
  function FromContents(cs: seq<Content>): (history: seq<ChatMessage>)
    ensures |history| == |cs|
  {
    if cs == [] then []
    else
      var content := if cs[0].parts != [] && cs[0].parts[0].TextPart? then cs[0].parts[0].text else "";
      [ChatMessage(FromApiRole(cs[0].role), content)] + FromContents(cs[1..])
  }

  /** The translation loses nothing: reading the request history back gives
      the original messages. */
  lemma {:induction false} ContentsRoundTrip(history: seq<ChatMessage>)
    ensures FromContents(ToContents(history)) == history
  {
    if history != [] {
      var cs := ToContents(history);
      assert cs[1..] == ToContents(history[1..]);
      ContentsRoundTrip(history[1..]);
      assert history[0].role == FromApiRole(ToApiRole(history[0].role));
    }
  }

  /** The request `getAgenticStep(history)` sends. */
  function AgenticStepRequest(history: seq<ChatMessage>): (r: Request)
    ensures r.model == ModelName
    ensures r.contents.Turns? && FromContents(r.contents.turns) == history
    ensures r.config.systemInstruction == Some(PortfolioAssistant)
    ensures r.config.temperature == Some(20) && r.config.tools == []
  {
    ContentsRoundTrip(history);
    Request(ModelName, Turns(ToContents(history)),
      Config(Some(PortfolioAssistant), Some(20), None, [], None, None))
  }

  /** What `getAgenticStep` resolves to, given the response text: that text,
      or "SYSTEM_IDLE." when it is absent or empty. Never empty. */
  function AgenticStepReply(text: Option<string>): (r: string)
    ensures r != ""
    ensures text.Some? && text.value != "" ==> r == text.value
    ensures text.None? || text.value == "" ==> r == IdleReply
  {
    if text.Some? && text.value != "" then text.value else IdleReply
  }
}
