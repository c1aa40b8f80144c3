# My-Portfolio: a verified model of the page's behaviour

The portfolio single-page app (React and TypeScript) is mostly presentation.
Beneath the presentation sits a small core of sequential state rules, and
this Dafny project models that core and proves what it promises:

- **The section router** (`App`). It turns a free-text intent into a new
  order of the seven page sections. Keywords are matched in a fixed
  priority after lower-casing. A match moves that section to the front,
  and "reset" restores the initial order.
- **Two chat transcripts.**
  - The streaming contact agent (`AgenticContact`) keeps an append-only
    message list. It appends a placeholder and rewrites it chunk by chunk
    with the accumulated text. It has a guard, a completion path and a
    failure path.
  - The non-streaming onboarding form (`AgenticForm`).
- **Request shaping for the model API** (`GeminiService`):
  - the fixed session and request configurations;
  - the image-versus-chat branch of the stream call;
  - the `agent` to `model` role translation;
  - the parse-with-fallback rule of the two insight generators.
- **Small UI state machines**:
  - the proof-of-concept playground (`PocPlayground`);
  - the command palette (`CommandBar`), which the page does not mount.
- **Tick-driven counters and buffers**:
  - the hero's rolling log and typewriter (`TerminalHero`);
  - the header's scramble reveal (`LivingCommandBar`);
  - the retrieval pipeline animation (`RagVisualizer`);
  - the slot countdown (`ConsultationBanner`).

`JsText` models the JavaScript string built-ins these rules use: `trim`,
`toLowerCase`, `includes` and `split(',')[1]`. `Types` holds the shared
records of `types.ts`.

How the model represents the program:

- **Component state.** Each component whose handlers update state becomes
  a class. The class has that state as fields and a method per handler or
  timer callback.
- **Async handlers.** Each one runs as a single sequential method. What the
  remote service answers is a parameter of the method: a stream outcome, a
  step outcome or an insight outcome. The request the handler issues is
  returned, so a contract can say exactly what was sent.
- **Randomness.** Every `Math.floor(Math.random() * n)` becomes a natural
  number parameter below `n`.
- **The model's stream.** It is a finite sequence of chunks, optionally
  followed by a failure.
- **JSON parsing.** `JSON.parse` is an arbitrary partial function supplied
  by the caller.

## Behaviour worth knowing

Three behaviours of the code are easy to miss. The model keeps all three
as the code has them.

- **The searching flag does not outlast its chunk**
  (`src/components/AgenticContact.tsx:104-122`). A chunk whose text holds
  `SEARCH:` first marks the last entry as searching and logs the two
  search lines. The same chunk then replaces that entry with a new record
  that has no `isSearching` field. After the chunk, the entry therefore
  reads as not searching, while the two log lines remain.
  `AgenticContact.SearchLogsButFlagCleared` states this.
- **The form's own fallback text never shows** (`components/AgenticForm.tsx:33`).
  `getAgenticStep` already turns an empty or absent reply into
  "SYSTEM_IDLE." (`src/services/geminiService.ts:130`), so the form's
  "Understood. Please continue." is never reached.
  `AgenticForm.EmptyResponseShowsIdleReply` states this.
- **A failure mid-stream leaves the partial reply streaming.** The partial
  agent entry keeps its streaming mark, and the failure entry follows it
  (`AgenticContact.ReplyShape`).

## Model

| member | source | states |
|---|---|---|
| JsText.Trim | src/components/AgenticContact.tsx:76 | The result is the contiguous slice of the input left after dropping leading and trailing JavaScript whitespace. The dropped margins are blank and the kept ends are not whitespace. The result is empty exactly when the input is blank. |
| JsText.ToLower | src/App.tsx:28 | Same length as the input. Each ASCII capital becomes its lower-case letter and every other character is unchanged, so no capital remains. |
| JsText.ToLowerIdempotent | src/App.tsx:28 | Lower-casing an already lower-cased string changes nothing. |
| JsText.SecondField | src/components/AgenticContact.tsx:91 | `split(',')[1]` is undefined exactly when there is no comma. Otherwise it is the text between the first comma and the next comma, or the end. |
| JsText.SecondFieldOfDataUrl | src/components/AgenticContact.tsx:91 | For a data URL `header,payload` with no other comma, the field taken is exactly the payload. |
| GeminiService.StartAgentSession | src/services/geminiService.ts:24-35 | The chat session uses the fixed model, the assistant instruction, temperature 0.40, thinking budget 0 and exactly the web-search tool. |
| GeminiService.StartAgentSessionIgnoresHistory | src/services/geminiService.ts:24-35 | The session is the same whatever history is passed. |
| GeminiService.StreamAgentResponse | src/services/geminiService.ts:37-58 | A one-shot stream happens exactly when there are images. Its parts are the images in order and then one text part holding the message, with the instruction and the search tool. With no images, it is the chat's own send of the message on the given session. |
| GeminiService.Wording | src/services/geminiService.ts:64-93 | Each insight prompt is its fixed head, then the URL or company name verbatim, then its fixed instructions. |
| GeminiService.WordingInjective | src/services/geminiService.ts:64-93 | Distinct prompts give distinct texts. The head tells the two kinds apart, and the subject is recovered between the head and the tail. |
| GeminiService.LeadInsightsRequest | src/services/geminiService.ts:60-80 | The lead request asks for JSON under the insight schema. It carries the lead prompt for the URL and has no tools and no system instruction. |
| GeminiService.CompetitorAnalysisRequest | src/services/geminiService.ts:87-110 | The audit request asks for JSON under the insight schema. It carries the audit prompt for the company, has exactly the web-search tool and has no system instruction. |
| GeminiService.InsightRequestsDiffer | src/services/geminiService.ts:65-108 | Only the audit grants web search, and both requests use the same schema. That schema is an array of objects requiring exactly the string fields topic, value and strategy. |
| GeminiService.InsightSource | src/services/geminiService.ts:83 | The text handed to the parser is never empty. It is "[]" when the response text is absent or blank, and the trimmed text otherwise. |
| GeminiService.ParseInsights | src/services/geminiService.ts:82-84 | Insights are what the parser makes of the source text. A text the parser rejects gives the empty list instead of an error. |
| GeminiService.BlankResponseYieldsNoInsights | src/services/geminiService.ts:83 | An absent or blank response yields no insights, given only that "[]" parses to the empty list. |
| GeminiService.ParseFailureYieldsNoInsights | src/services/geminiService.ts:82-84 | Whatever the parser rejects yields the empty list, never an error. |
| GeminiService.NotJsonYieldsNoInsights | src/services/geminiService.ts:112-114 | A concrete case: the response "not json" is handed over as is and results in the empty list. |
| GeminiService.ToApiRole | src/services/geminiService.ts:122 | A turn is a model turn exactly when the message is the agent's. |
| GeminiService.FromApiRole | src/services/geminiService.ts:122 | Reading a turn's role back gives the agent exactly for a model turn, so it inverts the translation. |
| GeminiService.ToContents | src/services/geminiService.ts:121-124 | One content entry per message, in order. Each entry has the translated role and a single text part with the message's content. |
| GeminiService.ContentsRoundTrip | src/services/geminiService.ts:121-124 | The transcript can be read back from the request contents exactly, so no message is lost, reordered or altered. |
| GeminiService.AgenticStepRequest | src/services/geminiService.ts:117-129 | The step request carries the whole history as turns, recoverable exactly, with the assistant instruction, temperature 0.20 and no tools. |
| GeminiService.AgenticStepReply | src/services/geminiService.ts:130 | The reply is never empty. It is the response text when that text is present and non-empty, and "SYSTEM_IDLE." otherwise. |
| App.InitialOrderIsArrangement | src/App.tsx:16-24 | The initial order holds each of the seven sections exactly once. |
| App.Without | src/App.tsx:49 | The filter removes every occurrence of the id, keeps every other section's count, and keeps the survivors in their relative order. |
| App.MoveSectionToFront | src/App.tsx:48-51 | The id comes first and does not occur again. Every other section keeps its count, and the rest is the old order with the id dropped, in the same relative order. |
| App.MovePreservesArrangement | src/App.tsx:48-51 | Moving a section to the front of an arrangement of the seven sections gives an arrangement again. |
| App.MoveSectionToFrontIdempotent | src/App.tsx:48-51 | Moving the same section twice equals moving it once. An order that already starts with its only copy of the id is returned unchanged. |
| App.Classify | src/App.tsx:30-42 | A section is chosen only if one of its keywords occurs, and then no group earlier in the priority order matches. Nothing is chosen exactly when no keyword occurs. Reset happens exactly when no keyword occurs but "reset" does. |
| App.ApplyRoute | src/App.tsx:30-42 | A move puts its target first with no other copy and keeps every other section's count. Reset gives the initial order, and keep leaves the order as it was. |
| App.RoutePreservesArrangement | src/App.tsx:30-44 | Every outcome of an intent (move, reset or keep) keeps the order an arrangement of the seven sections. |
| App.RouteIgnoresCase | src/App.tsx:28 | Two intents that differ only in letter case route alike, and an intent lower-cased beforehand routes as the raw intent does. |
| App.HireForLeadGenRoutesToLeadGen | src/App.tsx:30-39 | "hire for lead gen" also mentions the contact group, yet it moves the lead section by priority. |
| App.CapabilitiesRoutesToServices | src/components/LivingCommandBar.tsx:179-182 | The first nav intent, "Capabilities", moves the services section to the front. |
| App.CtaRoutesToContact | src/components/LivingCommandBar.tsx:212 | The call-to-action intent "contact" moves the contact section to the front. |
| App.ProtocolsKeepsOrder | src/components/LivingCommandBar.tsx:179-182 | The nav intent "Protocols" matches no keyword and no reset, so the order is kept. |
| App.LaunchKeepsOrder | src/components/LivingCommandBar.tsx:179-182 | The nav intent "Launch" leaves the order unchanged. |
| App.Page.constructor | src/App.tsx:16-24 | The page starts with the initial order. |
| App.Page.HandleIntent | src/App.tsx:26-46 | The new order is the route of the lower-cased intent applied to the old order. Arrangements stay arrangements, and an intent with no keyword and no "reset" changes nothing. |
| AgenticContact.Accepts | src/components/AgenticContact.tsx:76 | A send goes ahead exactly when no reply is pending and either the input is not blank or an image is attached. |
| AgenticContact.Outgoing | src/components/AgenticContact.tsx:96 | The text sent is never empty. It is the raw input, or "Analyze visual data." when the input is empty. |
| AgenticContact.ImageInline | src/components/AgenticContact.tsx:89-94 | One inline image per attachment, in order. Each carries the data URL's second comma field as data and "image/png" as type. |
| AgenticContact.DataUrlSendsPayload | src/components/AgenticContact.tsx:89-94 | A single `header,payload` attachment is sent as exactly its payload, typed "image/png". |
| AgenticContact.AccumulatedAppend | src/components/AgenticContact.tsx:112 | The accumulated reply of two consecutive runs of chunks is the concatenation of their accumulated replies. |
| AgenticContact.AccumulatedSkipsEmpty | src/components/AgenticContact.tsx:103 | Chunks without text contribute nothing to the reply. |
| AgenticContact.StreamedShape | src/components/AgenticContact.tsx:113-122 | After any prefix of the stream, the last entry is the agent's, still streaming, not searching and without images. Its content is the concatenation of all non-empty chunk texts so far. |
| AgenticContact.StreamedGroundingIsLatest | src/components/AgenticContact.tsx:119 | The entry's grounding is that of the latest chunk with text, not a union over chunks. |
| AgenticContact.StreamedWithoutText | src/components/AgenticContact.tsx:99-103 | A stream with no text leaves the empty streaming placeholder untouched. |
| AgenticContact.SearchLogsButFlagCleared | src/components/AgenticContact.tsx:104-122 | A chunk with "SEARCH:" prepends the two search log lines, yet the entry it leaves is not searching and holds the accumulated text. |
| AgenticContact.ReplyShape | src/components/AgenticContact.tsx:98-135 | A send adds one or two agent entries, two exactly when the stream opened and then failed. Any failure ends with exactly one "CORE_FAILURE" entry. An opened stream's entry holds the accumulated text. That entry is settled after completion and still marked streaming after a mid-stream failure. |
| AgenticContact.ContactPanel.constructor | src/components/AgenticContact.tsx:39-53 | The panel starts with the greeting alone, empty input, no attachments, the three boot log lines and a fresh session. |
| AgenticContact.ContactPanel.SetInput | src/components/AgenticContact.tsx:238 | Only the input changes. |
| AgenticContact.ContactPanel.HandleFileChange | src/components/AgenticContact.tsx:61-72 | A read file's data URL is appended to the attachments and "FILE_SCAN: name" is prepended to the logs. No file changes nothing. |
| AgenticContact.ContactPanel.ConsumeStream | src/components/AgenticContact.tsx:101-125 | The loop over the chunks ends with the accumulated text and the placeholder replaced by the streamed entry. The search log lines of all search chunks, newest first, are in front of the old logs. |
| AgenticContact.ContactPanel.AbsorbChunk | src/components/AgenticContact.tsx:102-123 | One chunk of the loop. The response grows by the chunk's text, and a search chunk prepends the two search lines. A chunk with text replaces the last entry with a streaming agent entry holding the whole response and the chunk's grounding. A chunk without text changes nothing else. |
| AgenticContact.ContactPanel.ReceiveReply | src/components/AgenticContact.tsx:98-135 | The transcript grows by exactly the reply entries of the outcome, and the logs gain exactly its log lines. |
| AgenticContact.ContactPanel.BeginSend | src/components/AgenticContact.tsx:78-86 | Appends one user entry with the raw input and a copy of the attachments. Clears the input and the attachments, sets typing and logs "MODE: DETECTING". |
| AgenticContact.ContactPanel.HandleSend | src/components/AgenticContact.tsx:74-139 | A refused send changes nothing and calls nothing. An accepted send makes exactly one stream call with the outgoing text, the session and the inline images. It appends the user entry and then the reply, clears the input and the attachments, and ends not typing. The greeting stays first. |
| AgenticForm.ReplyText | components/AgenticForm.tsx:33-35 | The agent's line is never empty. It is the network error after a failure, and otherwise the step reply. |
| AgenticForm.EmptyResponseShowsIdleReply | components/AgenticForm.tsx:33 | An empty or absent response shows "SYSTEM_IDLE.", never the form's own fallback text. |
| AgenticForm.ExchangeAlternates | components/AgenticForm.tsx:28-35 | A transcript that alternates agent and user lines still alternates after one exchange. |
| AgenticForm.OnboardingForm.constructor | components/AgenticForm.tsx:9-13 | The form starts with the greeting alone, empty input and no pending reply. |
| AgenticForm.OnboardingForm.SetInput | components/AgenticForm.tsx:95 | Only the input changes. |
| AgenticForm.OnboardingForm.HandleSubmit | components/AgenticForm.tsx:22-39 | A blank input or a pending reply changes nothing and sends nothing. Otherwise the input is cleared and the earlier transcript plus the raw line is sent. That line and exactly one agent line are appended, and no reply is pending. |
| AgenticForm.SubmittedHistoryRecoverable | components/AgenticForm.tsx:32 | The request of a submit carries every earlier message and then the new line as a user turn. |
| PocPlayground.InsightRequest | src/components/POCPlayground.tsx:27-31 | Lead mode sends the lead prompt for the query and competitor mode the audit prompt. Web search is granted exactly in competitor mode, and both use the insight schema. |
| PocPlayground.Playground.constructor | src/components/POCPlayground.tsx:10-14 | The playground starts in competitor mode with an empty query, not loading, and no results or error. |
| PocPlayground.Playground.SetQuery | src/components/POCPlayground.tsx:100 | Only the query changes. |
| PocPlayground.Playground.SwitchMode | src/components/POCPlayground.tsx:62 | Switching mode sets the mode, clears the results and empties the query. |
| PocPlayground.Playground.Dispatch | src/components/POCPlayground.tsx:25-35 | Exactly one request, the one for the current mode and query. An answer sets the parsed results with no error. A failure sets the fixed execution failure and no results. |
| PocPlayground.Playground.HandleExecute | src/components/POCPlayground.tsx:16-40 | Only an empty query (no trim) does nothing. Otherwise it makes the one request of its mode, then sets results or the failure as the outcome says, and ends not loading. |
| CommandBar.Feedback | components/CommandBar.tsx:42 | The feedback is the fixed prefix, then the input exactly as typed, then a closing quote. |
| CommandBar.Palette.constructor | components/CommandBar.tsx:12-14 | The palette starts closed with empty input and no feedback. |
| CommandBar.Palette.KeyDown | components/CommandBar.tsx:18-27 | Ctrl or Cmd with "k" toggles the palette. Escape closes it whatever its state. Any other key leaves it, and the input and feedback never change. |
| CommandBar.Palette.OpenLauncher | components/CommandBar.tsx:57-60 | The launcher opens the palette. |
| CommandBar.Palette.ClickBackdrop | components/CommandBar.tsx:75 | The backdrop closes the palette. |
| CommandBar.Palette.SetInput | components/CommandBar.tsx:90-93 | Only the input changes. |
| CommandBar.Palette.SelectTag | components/CommandBar.tsx:104-107 | A tag sets the input to exactly the tag's text. |
| CommandBar.Palette.Emit | components/CommandBar.tsx:41-43 | Returns the lower-cased input, sets the quoting feedback and clears the input. |
| CommandBar.Palette.HandleSubmit | components/CommandBar.tsx:36-43 | A blank input changes nothing and emits nothing. Otherwise the lower-cased input is emitted once, the feedback quotes the input as typed, and the input is cleared. |
| CommandBar.Palette.FeedbackTimeout | components/CommandBar.tsx:44-47 | After the delay, the feedback is cleared and the palette is closed. |
| CommandBar.ServicesTagMovesServices | components/CommandBar.tsx:99 | The "Services" tag, lower-cased as a submit emits it, classifies as a move of the services section. It would move that section to the front if the palette's intent reached `App.Page.HandleIntent`. |
| CommandBar.LeadsTagMovesLeadGen | components/CommandBar.tsx:99 | The "Leads" tag, lower-cased, classifies as a move of the lead section, which it would bring to the front if the palette were wired to the page. |
| CommandBar.ContactTagMovesContact | components/CommandBar.tsx:99 | The "Contact" tag, lower-cased, classifies as a move of the contact section, which it would bring to the front if the palette were wired to the page. |
| CommandBar.InertTagsKeepOrder | components/CommandBar.tsx:99 | The "Cases", "Tech" and "Logic" tags match no keyword, so the page's router would leave the order unchanged for them. |
| TerminalHero.LastSix | components/TerminalHero.tsx:80 | The kept entries are the last six, or all when fewer, in their order. |
| TerminalHero.Window | components/TerminalHero.tsx:66-84 | After n ticks the log holds min(n, 7) entries. They are those of the latest ticks, oldest first, and tick k carries id k and message k mod 6. |
| TerminalHero.WindowStep | components/TerminalHero.tsx:80 | A tick keeps the last six entries and appends the new one. This carries the window after n ticks to the window after n + 1. |
| TerminalHero.IdsIncrease | components/TerminalHero.tsx:67 | Ids in the log strictly increase from oldest to newest. |
| TerminalHero.HeroLog.constructor | components/TerminalHero.tsx:66-67 | The log starts empty at tick 0. |
| TerminalHero.HeroLog.Tick | components/TerminalHero.tsx:77-84 | The log becomes the last six old entries plus one entry with the next id and the tick's message, so it never exceeds seven. Both counters advance by one. |
| TerminalHero.DecryptingLog.constructor | components/TerminalHero.tsx:10-12 | A line starts with nothing shown, incomplete, at index 0. |
| TerminalHero.DecryptingLog.Step | components/TerminalHero.tsx:17-30 | While text remains, the transient display is the revealed prefix plus one scramble character, and the settled display is one character longer. At the end the line is complete and shows the whole text. |
| LivingCommandBar.NavLabel | src/components/LivingCommandBar.tsx:185 | A nav label is its item behind one slash. |
| LivingCommandBar.Frame | src/components/LivingCommandBar.tsx:19-24 | A frame has the text's length. Positions below the iteration show the text and the others a character of the alphabet. Once the iteration reaches the length, the frame is the text. |
| LivingCommandBar.ScrambleText.constructor | src/components/LivingCommandBar.tsx:10 | The label starts showing its text, with no interval. |
| LivingCommandBar.ScrambleText.StartScramble | src/components/LivingCommandBar.tsx:13-18 | Restarting resets the iteration to 0 and runs one interval. |
| LivingCommandBar.ScrambleText.Tick | src/components/LivingCommandBar.tsx:19-27 | Shows the frame for the current iteration and grows the iteration by one half. The interval stops exactly on the first tick at or past the length, and then the text is shown. |
| LivingCommandBar.Header.constructor | src/components/LivingCommandBar.tsx:160 | The header starts unscrolled. |
| LivingCommandBar.Header.OnScroll | src/components/LivingCommandBar.tsx:163 | The header is scrolled exactly when the offset, a fractional pixel count, exceeds 50. |
| RagVisualizer.NextStage | src/components/RAGVisualizer.tsx:31 | A stage below the last one advances by one, and the last one wraps to 0. |
| RagVisualizer.StageCycle | src/components/RAGVisualizer.tsx:31-35 | From any stage or the stopped marker the next stage is a real one, and four ticks return every stage to itself. |
| RagVisualizer.CycleIsFour | src/components/RAGVisualizer.tsx:31-35 | No stage comes back in fewer than four ticks. |
| RagVisualizer.MarkerPercent | src/components/RAGVisualizer.tsx:199 | The marker sits at 5, 30 and 55 percent for stages 0 to 2, and at 80 otherwise. |
| RagVisualizer.MarkerAdvances | src/components/RAGVisualizer.tsx:199 | The marker moves forward as the stage advances. |
| RagVisualizer.TickStats | src/components/RAGVisualizer.tsx:38-43 | Vectors grow by 0 to 4, latency lands in 12..56, tokens grow by 50 to 199 and throughput lands in 85..99. |
| RagVisualizer.Visualizer.constructor | src/components/RAGVisualizer.tsx:8-50 | The initial state followed by the effect's mount run with the simulation off. No stage is shown, nothing is simulating and the counters are the initial ones, so the first tick after switching on shows stage 0. |
| RagVisualizer.Visualizer.Stop | src/components/RAGVisualizer.tsx:45-47 | Hides the stage marker and zeroes latency and throughput. Vectors and tokens are kept. |
| RagVisualizer.Visualizer.Toggle | src/components/RAGVisualizer.tsx:52-55 | Flips simulation. Switching off runs the stop branch, and switching on changes nothing else. |
| RagVisualizer.Visualizer.Tick | src/components/RAGVisualizer.tsx:30-43 | Advances to the next stage and sets the counters from the draws. Tokens strictly grow, vectors never shrink, and the counters stay in range. |
| ConsultationBanner.NextTime | src/components/ConsultationBanner.tsx:18 | The countdown goes down by one above 1, and wraps to 124 otherwise. |
| ConsultationBanner.TicksStayInRange | src/components/ConsultationBanner.tsx:18 | From 1..124, any number of ticks stays in 1..124. |
| ConsultationBanner.CountdownFromTop | src/components/ConsultationBanner.tsx:18 | From 124, n ticks (n below 124) give 124 - n. |
| ConsultationBanner.PeriodIsTop | src/components/ConsultationBanner.tsx:18 | From 124 the countdown is back at 124 after exactly 124 ticks and not before. |
| ConsultationBanner.Slots | src/components/ConsultationBanner.tsx:39 | The slot count is the countdown divided by ten, rounded down. |
| ConsultationBanner.SlotsBounded | src/components/ConsultationBanner.tsx:39 | Within the countdown's range the slot count is 0..12, and 12 at the start. |
| ConsultationBanner.BookingUrl | src/components/ConsultationBanner.tsx:9-12 | The link is the fixed compose prefix addressed to the mailbox, followed by the encoded subject unchanged. |
| ConsultationBanner.Banner.constructor | src/components/ConsultationBanner.tsx:7 | The countdown starts at 124 after no ticks, showing 12 open slots. |
| ConsultationBanner.Banner.Tick | src/components/ConsultationBanner.tsx:16-21 | One tick of the countdown. It stays in range and equals the countdown after the elapsed number of ticks from 124. |

## Left out

- **Remote calls.** The model-API SDK, its clients and the network are not
  modelled.
  - A session is a record of its configuration.
  - A request is a record of model, contents and configuration.
  - What the service answers is a parameter.
  - The wording of the system instruction is not reproduced; it is one
    named constant. The two insight prompts are reproduced in full.
- **`JSON.parse`** is an arbitrary partial function given by the caller.
  The model does not check that a parsed list matches the schema.
- **Sound effects.** `src/services/audioService.ts` is not part of this
  model (Web Audio with floating-point synthesis), and every `sfx.play`
  call is dropped.
- **Timers and asynchrony.**
  - Timers, React's batching of state updates and lazily run updaters are
    not modelled. Each callback or handler runs as one sequential method,
    with no wall-clock time and no interleaving.
  - `ScrambleText.Tick` and `DecryptingLog.Step` abstract from the
    interval and timeout delays.
- **`FileReader` asynchrony.** Only the completed read is modelled, as an
  optional file name and data URL.
- **Randomness.** `Math.random` is modelled through its integer draws,
  which are parameters. The typing-sound coin flips and the random typing
  delays are dropped.
- **Browser and formatting calls.** The drag-to-reorder group,
  `window.scrollTo`, `scrollIntoView`, `window.open`, `encodeURIComponent`
  and `toLocale*String` formatting are left out.
- ConsultationBanner.BookingUrl: takes the already-encoded
  subject as a parameter, because URI encoding is not modelled.
- **Presentation-only components.** `SolutionGrid`, `StrategicRoadmap`,
  `NeuralGrid`, `BentoGrid`, `KnowledgeGraph` and `RealisticIcons` are not
  part of this model. They hold no state rule, and neither do the render
  bodies of the modelled components.
- JsText.ToLower: maps only the ASCII capitals, because the intents and
  tags the page handles are ASCII. JavaScript's full Unicode case mapping
  is not modelled.
- **Numbers.**
  - The temperatures 0.4 and 0.2 are kept as hundredths (40 and 20).
  - The scramble iteration is a real number that grows by exact halves.
  - Counters are unbounded integers. The source's floating-point numbers
    never leave the safe-integer range here.
- **Optional message fields.** An absent `isStreaming`, `isSearching` or
  `images` reads as `false` or the empty list, as the rendering treats it.
  An absent grounding list is `None`.
- **In-place mutation.** Lines 108 and 129 of
  `src/components/AgenticContact.tsx` mutate the last message object in
  place. They are modelled as replacing the last entry with an updated
  record, so aliasing between the old and new message arrays is not
  captured.
- **A null session.** The chat handle is assumed to exist when a message
  is sent. A send before the session effect has run is not modelled.
- **Where a stream can fail.** A stream failure is modelled only after the
  delivered chunks, or before the stream opens. A failure inside the
  completion updater cannot happen in the model.
- **The cursor blink and glitch animations.** `AdvancedGlitchText`, the
  system clock and the network status badge are not part of this model.
- **The palette is not mounted.** `components/CommandBar.tsx` is rendered
  by no component, and its `onIntent` callback is connected to nothing. The
  `CommandBar` tag lemmas state only how `App.Classify` would treat each
  tag if the palette's intent reached the page's router.
