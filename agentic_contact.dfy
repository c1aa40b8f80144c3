/** The streaming chat panel: its guarded send, the placeholder that each
    chunk of the model's stream rewrites, the completion and failure paths,
    the latency log, and the attachment of images. The SDK stream is a
    finite sequence of chunks, possibly followed by a failure. */
module AgenticContact {
  import opened JsText
  import opened Types
  import opened GeminiService

  /** One grounding (citation) reference attached to a chunk. */
  datatype GroundingChunk = GroundingChunk(uri: string, title: string)

  /** A transcript entry; an absent optional flag reads as `false` and an
      absent image list as `[]`. */
  datatype Message = Message(
    role: Role,
    content: string,
    isStreaming: bool,
    grounding: Option<seq<GroundingChunk>>,
    images: seq<string>,
    isSearching: bool)

  /** One chunk of the model's stream: its text, if any, and the grounding
      list of its first candidate, if any. */
  datatype Chunk = Chunk(text: Option<string>, grounding: Option<seq<GroundingChunk>>)

  /** What the stream request does: it throws before a stream exists, or it
      yields `chunks` and then either ends or throws (`failed`). */
  datatype StreamOutcome = OpenFailed | Opened(chunks: seq<Chunk>, failed: bool)

  /** A file the reader has turned into a data URL. */
  datatype FileRead = FileRead(name: string, dataUrl: string)

  const Greeting: string :=
    "SYSTEM_ONLINE: Low-latency handshake established. Operational Mode: DIRECT. How can I assist?"
  const FailureText: string := "CORE_FAILURE: Shard unreachable."
  const VisualFallback: string := "Analyze visual data."
  const SearchMarker: string := "SEARCH:"
  /** The two log lines a search chunk prepends. */
  const SearchLines: seq<string> := ["MODE: SEARCHING", "BYPASSING_DIRECT"]
  const ImageMime: string := "image/png"
  const InitialLogs: seq<string> := ["KERNEL_READY", "DIRECT_MODE_ACTIVE", "LATENCY_SUB_500MS"]

  const GreetingMessage: Message := Message(Agent, Greeting, false, None, [], false)
  /** The empty agent entry appended once the stream is open. */
  const Placeholder: Message := Message(Agent, "", true, None, [], false)
  const FailureMessage: Message := Message(Agent, FailureText, false, None, [], false)

  /** The user's entry: the raw input and a copy of the attachments. */
  function UserMessage(input: string, images: seq<string>): Message {
    Message(User, input, false, None, images, false)
  }

  /** The guard of a send: something to say (non-blank input or an image)
      and no reply pending. */
  predicate Accepts(input: string, images: seq<string>, isTyping: bool)
    ensures Accepts(input, images, isTyping) <==> !isTyping && (!IsBlank(input) || |images| > 0)
  {
    !((Trim(input) == "" && |images| == 0) || isTyping)
  }

  /** The message handed to the model: an empty input becomes the request
      to analyse the images. */
  function Outgoing(input: string): (m: string)
    ensures m != ""
    ensures input != "" ==> m == input
    ensures input == "" ==> m == VisualFallback
  {
    if input == "" then VisualFallback else input
  }

  /** The image parts: the data of each is what follows the first comma of
      its data URL (up to a second comma), the mime type is always PNG. */
  function ImageInline(images: seq<string>): (parts: seq<InlineData>)
    ensures |parts| == |images|
    ensures forall i :: 0 <= i < |images| ==>
      parts[i].mimeType == ImageMime && parts[i].data == SecondField(images[i])
  {
    if images == [] then [] else [InlineData(SecondField(images[0]), ImageMime)] + ImageInline(images[1..])
  }

  /** A data URL sends exactly its payload. */
  lemma DataUrlSendsPayload(header: string, payload: string)
    requires ',' !in header && ',' !in payload
    ensures ImageInline([header + "," + payload]) == [InlineData(Some(payload), ImageMime)]
  {
    SecondFieldOfDataUrl(header, payload);
  }

  /** A chunk counts only when its text is present and non-empty. */
  predicate HasText(c: Chunk) {
    c.text.Some? && c.text.value != ""
  }

  /** The text a chunk contributes to the response. */
  function TextOf(c: Chunk): string {
    if HasText(c) then c.text.value else ""
  }

  /** A chunk that switches the panel into search mode. */
  predicate Searching(c: Chunk) {
    HasText(c) && Contains(c.text.value, SearchMarker)
  }

  /** The response accumulated after `chunks`. */
  function Accumulated(chunks: seq<Chunk>): string {
    if chunks == [] then ""
    else Accumulated(chunks[..|chunks| - 1]) + TextOf(chunks[|chunks| - 1])
  }

  /** The last transcript entry after `chunks`: the placeholder until a
      chunk with text arrives, then the replacement record of the latest
      such chunk. */
  function Streamed(chunks: seq<Chunk>): Message {
    if chunks == [] then Placeholder
    else
      var last := chunks[|chunks| - 1];
      if HasText(last) then Message(Agent, Accumulated(chunks), true, last.grounding, [], false)
      else Streamed(chunks[..|chunks| - 1])
  }

  /** The log lines the chunks prepend, newest first. */
  function SearchLogs(chunks: seq<Chunk>): seq<string> {
    if chunks == [] then []
    else
      var last := chunks[|chunks| - 1];
      (if Searching(last) then SearchLines else [])
      + SearchLogs(chunks[..|chunks| - 1])
  }

  /** Concatenation regroups. */
  lemma AppendAssoc<T>(a: seq<T>, b: seq<T>, c: seq<T>)
    ensures (a + b) + c == a + (b + c)
  {
  }

  /** One more chunk: how the response, the last entry and the log lines
      after `chunks[..i + 1]` follow from those after `chunks[..i]`. */
  lemma StreamStep(chunks: seq<Chunk>, i: nat)
    requires i < |chunks|
    ensures Accumulated(chunks[..i + 1]) == Accumulated(chunks[..i]) + TextOf(chunks[i])
    ensures Streamed(chunks[..i + 1]) ==
      if HasText(chunks[i]) then Message(Agent, Accumulated(chunks[..i + 1]), true, chunks[i].grounding, [], false)
      else Streamed(chunks[..i])
    ensures SearchLogs(chunks[..i + 1]) ==
      (if Searching(chunks[i]) then SearchLines else []) + SearchLogs(chunks[..i])
  {
    var p := chunks[..i + 1];
    assert p[..|p| - 1] == chunks[..i];
    assert p[|p| - 1] == chunks[i];
  }

  /** The entries an accepted send appends after the user's message. */
  function Reply(outcome: StreamOutcome): seq<Message> {
    match outcome
    case OpenFailed => [FailureMessage]
    case Opened(chunks, failed) =>
      if failed then [Streamed(chunks), FailureMessage]
      else [Streamed(chunks).(isStreaming := false)]
  }

  /** The log lines an accepted send prepends after "MODE: DETECTING". */
  function ReplyLogs(outcome: StreamOutcome): seq<string> {
    match outcome
    case OpenFailed => []
    case Opened(chunks, failed) =>
      (if failed then [] else ["MODE: IDLE", "CACHE_UPDATED"]) + SearchLogs(chunks)
  }

  /** The response is the concatenation of the chunk texts: accumulating
      two runs of chunks one after the other joins their responses. */
  lemma {:induction false} AccumulatedAppend(a: seq<Chunk>, b: seq<Chunk>)
    ensures Accumulated(a + b) == Accumulated(a) + Accumulated(b)
    decreases |b|
  {
    if b != [] {
      var b' := b[..|b| - 1];
      assert (a + b)[..|a + b| - 1] == a + b';
      AccumulatedAppend(a, b');
    } else {
      assert a + b == a;
    }
  }

  /** Read from the front: the first chunk's text, then the rest. */
  lemma AccumulatedCons(c: Chunk, rest: seq<Chunk>)
    ensures Accumulated([c] + rest) == TextOf(c) + Accumulated(rest)
  {
    AccumulatedAppend([c], rest);
    assert Accumulated([c]) == Accumulated([]) + TextOf(c);
  }

  /** Chunks without text add nothing to the response. */
  lemma {:induction false} AccumulatedSkipsEmpty(chunks: seq<Chunk>)
    requires forall j :: 0 <= j < |chunks| ==> !HasText(chunks[j])
    ensures Accumulated(chunks) == ""
    decreases |chunks|
  {
    if chunks != [] {
      AccumulatedSkipsEmpty(chunks[..|chunks| - 1]);
    }
  }

  /** The streamed entry is always an agent entry still marked streaming,
      holding the accumulated response, with no images and with the search
      flag cleared: the replacement record carries no such flag. */
  lemma {:induction false} StreamedShape(chunks: seq<Chunk>)
    ensures Streamed(chunks).role == Agent
    ensures Streamed(chunks).content == Accumulated(chunks)
    ensures Streamed(chunks).isStreaming
    ensures !Streamed(chunks).isSearching
    ensures Streamed(chunks).images == []
    decreases |chunks|
  {
    if chunks != [] && !HasText(chunks[|chunks| - 1]) {
      StreamedShape(chunks[..|chunks| - 1]);
    }
  }

  /** The grounding shown is that of the latest chunk with text, not a
      union over the stream. */
  lemma {:induction false} StreamedGroundingIsLatest(chunks: seq<Chunk>, k: nat)
    requires k < |chunks| && HasText(chunks[k])
    requires forall j :: k < j < |chunks| ==> !HasText(chunks[j])
    ensures Streamed(chunks).grounding == chunks[k].grounding
    decreases |chunks|
  {
    if k < |chunks| - 1 {
      StreamedGroundingIsLatest(chunks[..|chunks| - 1], k);
    }
  }

  /** With no chunk carrying text the placeholder stays as it was. */
  lemma {:induction false} StreamedWithoutText(chunks: seq<Chunk>)
    requires forall j :: 0 <= j < |chunks| ==> !HasText(chunks[j])
    ensures Streamed(chunks) == Placeholder
    decreases |chunks|
  {
    if chunks != [] {
      StreamedWithoutText(chunks[..|chunks| - 1]);
    }
  }

  /** Every "SEARCH:" chunk logs the switch to search mode twice over, yet
      the entry it flagged is at once replaced by a record without the
      flag. */
  lemma SearchLogsButFlagCleared(chunks: seq<Chunk>, c: Chunk)
    requires Searching(c)
    ensures SearchLogs(chunks + [c]) == SearchLines + SearchLogs(chunks)
    ensures !Streamed(chunks + [c]).isSearching
    ensures Streamed(chunks + [c]).content == Accumulated(chunks) + c.text.value
  {
    assert (chunks + [c])[..|chunks + [c]| - 1] == chunks;
  }

  /** What an accepted send appends: one entry, or two on a failure after
      the stream opened; a failure always ends with the failure entry; a completed stream leaves the accumulated response with
      streaming cleared; a stream that fails midway leaves the partial
      response still marked streaming. */
  lemma ReplyShape(outcome: StreamOutcome)
    ensures 1 <= |Reply(outcome)| <= 2
    ensures |Reply(outcome)| == 2 <==> outcome.Opened? && outcome.failed
    ensures outcome.OpenFailed? || outcome.failed ==> Reply(outcome)[|Reply(outcome)| - 1] == FailureMessage
    ensures outcome.Opened? ==> Reply(outcome)[0].role == Agent && Reply(outcome)[0].images == []
    ensures outcome.Opened? ==> Reply(outcome)[0].content == Accumulated(outcome.chunks)
    ensures outcome.Opened? && !outcome.failed ==> !Reply(outcome)[0].isStreaming
    ensures outcome.Opened? && outcome.failed ==> Reply(outcome)[0].isStreaming
  {
    if outcome.Opened? {
      StreamedShape(outcome.chunks);
    }
  }

  /** The panel's state. */
  class ContactPanel {
    var messages: seq<Message>
    var input: string
    var isTyping: bool
    var attachedImages: seq<string>
    /** The latency log, newest line first. */
    var logs: seq<string>
    /** The chat session opened when the panel mounts. */
    var chat: ChatSession

    /** The entry the transcript opened with. */
    ghost var greeting: Message

    /** The transcript keeps the entry it opened with at its head. */
    ghost predicate Valid()
      reads this
    {
      |messages| >= 1 && messages[0] == greeting
    }

    constructor ()
      ensures Valid() && greeting == GreetingMessage
      ensures messages == [GreetingMessage] && input == "" && !isTyping
      ensures attachedImages == [] && logs == InitialLogs
      ensures chat == StartAgentSession([])
    {
      messages := [GreetingMessage];
      input := "";
      isTyping := false;
      attachedImages := [];
      logs := InitialLogs;
      chat := StartAgentSession([]);
      greeting := GreetingMessage;
    }

    /** Typing into the input box. */
    method SetInput(value: string)
      requires Valid()
      modifies this
      ensures Valid() && greeting == old(greeting)
      ensures input == value
      ensures messages == old(messages) && attachedImages == old(attachedImages)
      ensures isTyping == old(isTyping) && logs == old(logs) && chat == old(chat)
    {
      input := value;
    }

    /** A read file: its data URL joins the attachments and a scan line is
        logged; no file changes nothing. */
    method HandleFileChange(file: Option<FileRead>)
      requires Valid()
      modifies this
      ensures Valid() && greeting == old(greeting)
      ensures file.None? ==> attachedImages == old(attachedImages) && logs == old(logs)
      ensures file.Some? ==>
        && attachedImages == old(attachedImages) + [file.value.dataUrl]
        && logs == ["FILE_SCAN: " + file.value.name] + old(logs)
      ensures messages == old(messages) && input == old(input)
      ensures isTyping == old(isTyping) && chat == old(chat)
    {
      if file.Some? {
        attachedImages := attachedImages + [file.value.dataUrl];
        logs := ["FILE_SCAN: " + file.value.name] + logs;
      }
    }

    /** The for-await loop over the transcript and the log: each chunk
        with text (first flagging the entry and logging the switch when it
        holds the search marker) replaces the last entry with the response
        accumulated so far and that chunk's grounding. */
    static method ConsumeStream(chunks: seq<Chunk>, msgs0: seq<Message>, lines0: seq<string>)
      returns (msgs: seq<Message>, lines: seq<string>, fullResponse: string)
      requires |msgs0| >= 1 && msgs0[|msgs0| - 1] == Placeholder
      ensures fullResponse == Accumulated(chunks)
      ensures msgs == msgs0[..|msgs0| - 1] + [Streamed(chunks)]
      ensures lines == SearchLogs(chunks) + lines0
    {
      fullResponse := "";
      msgs, lines := msgs0, lines0;
      ghost var base := msgs0[..|msgs0| - 1];
      assert msgs == base + [Streamed(chunks[..0])];
      var i := 0;
      while i < |chunks|
        invariant 0 <= i <= |chunks|
        invariant fullResponse == Accumulated(chunks[..i])
        invariant msgs == base + [Streamed(chunks[..i])]
        invariant lines == SearchLogs(chunks[..i]) + lines0
      {
        StreamStep(chunks, i);
        msgs, lines, fullResponse := AbsorbChunk(chunks[i], msgs, lines, fullResponse);
        AppendAssoc(if Searching(chunks[i]) then SearchLines else [], SearchLogs(chunks[..i]), lines0);
        i := i + 1;
      }
      assert chunks[..i] == chunks;
    }

    /** One pass of the for-await loop on the transcript, the log and the
        response so far: a chunk with text (first flagging the last entry
        and logging the switch when it holds the search marker) extends the
        response and replaces the last entry with it and the chunk's
        grounding; a chunk without text changes nothing. */
    static method AbsorbChunk(chunk: Chunk, msgs: seq<Message>, lines: seq<string>, full: string)
      returns (msgs': seq<Message>, lines': seq<string>, full': string)
      requires |msgs| >= 1
      ensures full' == full + TextOf(chunk)
      ensures lines' == (if Searching(chunk) then SearchLines else []) + lines
      ensures msgs' == if HasText(chunk)
        then msgs[..|msgs| - 1] + [Message(Agent, full', true, chunk.grounding, [], false)]
        else msgs
    {
      msgs', lines', full' := msgs, lines, full;
      if chunk.text.Some? && chunk.text.value != "" {
        var text := chunk.text.value;
        if Contains(text, SearchMarker) {
          lines' := SearchLines + lines';
          msgs' := msgs'[..|msgs'| - 1] + [msgs'[|msgs'| - 1].(isSearching := true)];
        }
        full' := full' + text;
        msgs' := msgs'[..|msgs'| - 1] + [Message(Agent, full', true, chunk.grounding, [], false)];
      }
    }

    /** What follows the call: the failure entry when the stream cannot be
        opened; otherwise the placeholder, the chunks, and then either the
        failure entry or the end of streaming on the last entry. */
    method ReceiveReply(outcome: StreamOutcome)
      modifies this
      ensures greeting == old(greeting)
      ensures messages == old(messages) + Reply(outcome)
      ensures logs == ReplyLogs(outcome) + old(logs)
      ensures input == old(input) && attachedImages == old(attachedImages)
      ensures isTyping == old(isTyping) && chat == old(chat)
    {
      match outcome {
        case OpenFailed =>
          messages := messages + [FailureMessage];
        case Opened(chunks, failed) =>
          messages := messages + [Placeholder];
          assert messages[..|messages| - 1] == old(messages);
          var fullResponse;
          messages, logs, fullResponse := ConsumeStream(chunks, messages, logs);
          if failed {
            messages := messages + [FailureMessage];
          } else {
            messages := messages[..|messages| - 1] + [messages[|messages| - 1].(isStreaming := false)];
            logs := ["MODE: IDLE", "CACHE_UPDATED"] + logs;
          }
      }
    }

    /** The start of an accepted send: the user's entry is appended, the
        input and the attachments are cleared, a reply is pending and the
        detection line is logged. */
    method BeginSend()
      modifies this
      ensures messages == old(messages) + [UserMessage(old(input), old(attachedImages))]
      ensures input == "" && attachedImages == [] && isTyping
      ensures logs == ["MODE: DETECTING"] + old(logs)
      ensures chat == old(chat) && greeting == old(greeting)
    {
      messages := messages + [UserMessage(input, attachedImages)];
      input := "";
      attachedImages := [];
      isTyping := true;
      logs := ["MODE: DETECTING"] + logs;
    }

    /** A send. Refused, it changes nothing and calls nothing. Accepted, it
        appends the user's entry, clears the input and the attachments,
        makes exactly one stream call (returned) and appends the reply that
        `outcome` yields; no reply is pending afterwards. */
    method HandleSend(outcome: StreamOutcome) returns (call: Option<StreamCall>)
      requires Valid()
      modifies this
      ensures Valid() && greeting == old(greeting)
      ensures chat == old(chat)
      ensures !Accepts(old(input), old(attachedImages), old(isTyping)) ==>
        && call.None?
        && messages == old(messages) && input == old(input) && isTyping == old(isTyping)
        && attachedImages == old(attachedImages) && logs == old(logs)
      ensures Accepts(old(input), old(attachedImages), old(isTyping)) ==>
        && call == Some(StreamAgentResponse(Outgoing(old(input)), chat, ImageInline(old(attachedImages))))
        && messages == old(messages) + [UserMessage(old(input), old(attachedImages))] + Reply(outcome)
        && input == "" && attachedImages == [] && !isTyping
        && logs == ReplyLogs(outcome) + ["MODE: DETECTING"] + old(logs)
    {
      if !Accepts(input, attachedImages, isTyping) {
        return None;
      }
      var userContent := input;
      var currentImages := attachedImages;
      BeginSend();
      call := Some(StreamAgentResponse(if userContent == "" then VisualFallback else userContent, chat,
        ImageInline(currentImages)));
      ghost var sent := messages;
      ReceiveReply(outcome);
      assert messages[0] == sent[0] == old(messages)[0];
      isTyping := false;
    }
  }
}
