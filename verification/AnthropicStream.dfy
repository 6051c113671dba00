/**
  Anthropic responses in the gateway's format, streamed
  (internal/provider/anthropic.go:156-329) and whole
  (internal/translate/anthropic.go:157-202).

  A line of the response body is an `event:` line, a `data:` line or something
  else, already trimmed.  JSON decoding and encoding are parameters.  Message
  identifiers, model names and time stamps are not modelled.
 */
module AnthropicStream {
  import opened Options

  // ----- The stream -----

  datatype Line =
    | EventLine(name: string)
    | DataLine(payload: string)
    | OtherLine

  /** A decoded event; whatever the translator does not look at or cannot decode is Ignored. */
  datatype Event =
    | MessageStart(inputTokens: int)
    | BlockStart(index: int, kind: string, id: string, name: string, initial: string)
    | BlockDelta(index: int, text: string, partialJson: string)
    | MessageDelta(stopReason: string, outputTokens: int)
    | MessageStop
    | Ignored

  /** Decodes the payload of a data line under the current event name. */
  type Decoder = (string, string) -> Event

  datatype Chunk =
    | TextChunk(text: string)
    | ToolStart(id: string, name: string)
    | ToolArguments(id: string, name: string, arguments: string)
    | Finish(reason: string)
    | UsageChunk(prompt: int, completion: int, total: int)

  datatype Tool = Tool(id: string, name: string)

  datatype Session = Session(tools: map<int, Tool>, prompt: int, completion: int)

  function NewSession(): Session {
    Session(map[], 0, 0)
  }

  /** The event name in force after a line. */
  function Named(line: Line, current: string): string {
    if line.EventLine? then line.name else current
  }

  function Decoded(line: Line, current: string, decode: Decoder): seq<Event> {
    if line.DataLine? && line.payload != "" then [decode(current, line.payload)] else []
  }

  function Events(lines: seq<Line>, current: string, decode: Decoder): seq<Event> {
    if lines == [] then []
    else Decoded(lines[0], current, decode) + Events(lines[1..], Named(lines[0], current), decode)
  }

  function StreamReason(stopReason: string): string {
    if stopReason == "max_tokens" then "length" else "stop"
  }

  /** What one event makes of the session. */
  function After(s: Session, e: Event): Session {
    match e
    case MessageStart(tokens) => s.(prompt := tokens)
    case BlockStart(index, kind, id, name, _) =>
      if kind == "tool_use" then s.(tools := s.tools[index := Tool(id, name)]) else s
    case MessageDelta(_, tokens) => s.(completion := tokens)
    case _ => s
  }

  /** What one event, other than the end of the message, makes the gateway send. */
  function Sent(s: Session, e: Event): seq<Chunk> {
    match e
    case BlockStart(_, kind, id, name, _) => if kind == "tool_use" then [ToolStart(id, name)] else []
    case BlockDelta(index, text, json) =>
      (if text != "" then [TextChunk(text)] else []) +
      (if json != "" && index in s.tools
       then [ToolArguments(s.tools[index].id, s.tools[index].name, json)] else [])
    case MessageDelta(stopReason, _) => if stopReason != "" then [Finish(StreamReason(stopReason))] else []
    case _ => []
  }

  function UsageOf(s: Session, includeUsage: bool): seq<Chunk> {
    if !includeUsage || (s.prompt == 0 && s.completion == 0) then []
    else [UsageChunk(s.prompt, s.completion, s.prompt + s.completion)]
  }

  /** All that is sent for the remaining events; `broken` means the body ends in a read error. */
  function Translated(events: seq<Event>, s: Session, includeUsage: bool, broken: bool): seq<Chunk>
    decreases |events|
  {
    if events == [] then (if broken then [] else UsageOf(s, includeUsage))
    else if events[0].MessageStop? then UsageOf(s, includeUsage)
    else Sent(s, events[0]) + Translated(events[1..], After(s, events[0]), includeUsage, broken)
  }

  /** One round of the switch in SendStream, for an event that does not end the message. */
  method Handle(event: Event, s: Session) returns (chunks: seq<Chunk>, s': Session)
    requires !event.MessageStop?
    ensures chunks == Sent(s, event) && s' == After(s, event)
  {
    chunks, s' := [], s;
    match event
    case MessageStart(tokens) =>
      s' := s.(prompt := tokens);
    case BlockStart(index, kind, id, name, _) =>
      if kind == "tool_use" {
        s' := s.(tools := s.tools[index := Tool(id, name)]);
        chunks := [ToolStart(id, name)];
      }
    case BlockDelta(index, text, json) =>
      if text != "" {
        chunks := [TextChunk(text)];
      }
      if json != "" && index in s.tools {
        chunks := chunks + [ToolArguments(s.tools[index].id, s.tools[index].name, json)];
      }
    case MessageDelta(stopReason, tokens) =>
      s' := s.(completion := tokens);
      if stopReason != "" {
        chunks := [Finish(if stopReason == "max_tokens" then "length" else "stop")];
      }
    case Ignored =>
  }

  /** The event loop of SendStream. */
  method SendStream(lines: seq<Line>, decode: Decoder, includeUsage: bool, broken: bool)
    returns (chunks: seq<Chunk>, failed: bool)
    ensures chunks == Translated(Events(lines, "", decode), NewSession(), includeUsage, broken)
    ensures failed <==> broken && MessageStop !in Events(lines, "", decode)
  {
    var currentEvent := "";
    var s := Session(map[], 0, 0);
    chunks := [];
    ghost var all := Translated(Events(lines, "", decode), NewSession(), includeUsage, broken);
    ghost var remaining := Events(lines, "", decode);
    ghost var stops := MessageStop in remaining;
    assert lines[0..] == lines;
    for i := 0 to |lines|
      invariant remaining == Events(lines[i..], currentEvent, decode)
      invariant Remaining(all, chunks, remaining, s, includeUsage, broken)
      invariant stops <==> MessageStop in remaining
    {
      EventsStep(lines, i, currentEvent, decode);
      remaining := Events(lines[i + 1..], Named(lines[i], currentEvent), decode);
      var event: Option<Event>;
      event, currentEvent := ReadLine(lines[i], currentEvent, decode);
      if event.None? {
        assert [] + remaining == remaining;
        continue;
      }
      HandledStep(all, chunks, event.value, remaining, s, includeUsage, broken);
      if event.value.MessageStop? {
        var usage := EmitUsage(s, includeUsage);
        return chunks + usage, false;
      }
      var sent;
      sent, s := Handle(event.value, s);
      chunks := chunks + sent;
    }
    if broken {
      return chunks, true;
    }
    var usage := EmitUsage(s, includeUsage);
    return chunks + usage, false;
  }

  /** An `event:` line names what follows, a `data:` line with a payload is an event, the rest is skipped. */
  method ReadLine(line: Line, current: string, decode: Decoder) returns (event: Option<Event>, name: string)
    ensures name == Named(line, current)
    ensures Decoded(line, current, decode) == if event.Some? then [event.value] else []
  {
    match line
    case EventLine(n) =>
      return None, n;
    case OtherLine =>
      return None, current;
    case DataLine(payload) =>
      if payload == "" {
        return None, current;
      }
      return Some(decode(current, payload)), current;
  }

  method EmitUsage(s: Session, includeUsage: bool) returns (chunks: seq<Chunk>)
    ensures chunks == UsageOf(s, includeUsage)
  {
    if !includeUsage || (s.prompt == 0 && s.completion == 0) {
      return [];
    }
    return [UsageChunk(s.prompt, s.completion, s.prompt + s.completion)];
  }

  /** After `chunks`, what `events` make the gateway send completes `all`. */
  ghost predicate Remaining(
    all: seq<Chunk>, chunks: seq<Chunk>, events: seq<Event>, s: Session, includeUsage: bool, broken: bool)
  {
    all == chunks + Translated(events, s, includeUsage, broken)
  }

  lemma HandledStep(
    all: seq<Chunk>, chunks: seq<Chunk>, event: Event, rest: seq<Event>, s: Session, includeUsage: bool, broken: bool)
    requires Remaining(all, chunks, [event] + rest, s, includeUsage, broken)
    ensures
      if event.MessageStop? then all == chunks + UsageOf(s, includeUsage)
      else Remaining(all, chunks + Sent(s, event), rest, After(s, event), includeUsage, broken)
    ensures MessageStop in [event] + rest <==> event.MessageStop? || MessageStop in rest
  {
    TranslatedStep(event, rest, s, includeUsage, broken);
    Associate(chunks, Sent(s, event), Translated(rest, After(s, event), includeUsage, broken));
  }

  lemma Associate<T>(a: seq<T>, b: seq<T>, c: seq<T>)
    ensures a + (b + c) == (a + b) + c
  {
  }

  lemma EventsStep(lines: seq<Line>, i: nat, current: string, decode: Decoder)
    requires i < |lines|
    ensures
      var rest := Events(lines[i + 1..], Named(lines[i], current), decode);
      Events(lines[i..], current, decode) == Decoded(lines[i], current, decode) + rest
  {
    assert lines[i..][1..] == lines[i + 1..];
  }

  lemma TranslatedStep(event: Event, rest: seq<Event>, s: Session, includeUsage: bool, broken: bool)
    ensures Translated([event] + rest, s, includeUsage, broken) ==
            if event.MessageStop? then UsageOf(s, includeUsage)
            else Sent(s, event) + Translated(rest, After(s, event), includeUsage, broken)
  {
    assert ([event] + rest)[1..] == rest;
  }

  // ----- For every stream: usage comes last, at most once -----

  lemma {:induction false} TranslatedUsage(events: seq<Event>, s: Session, includeUsage: bool, broken: bool, i: nat)
    requires
      var chunks := Translated(events, s, includeUsage, broken);
      i < |chunks| && chunks[i].UsageChunk?
    ensures
      var chunks := Translated(events, s, includeUsage, broken);
      && i == |chunks| - 1 && includeUsage
      && chunks[i].total == chunks[i].prompt + chunks[i].completion
      && (chunks[i].prompt != 0 || chunks[i].completion != 0)
    decreases |events|
  {
    if events != [] && !events[0].MessageStop? {
      var sent := Sent(s, events[0]);
      assert forall j :: 0 <= j < |sent| ==> !sent[j].UsageChunk?;
      TranslatedUsage(events[1..], After(s, events[0]), includeUsage, broken, i - |sent|);
    }
  }

  /** Whatever the body holds, a usage chunk is the last chunk, was asked for, and adds up. */
  lemma UsageComesLast(lines: seq<Line>, decode: Decoder, includeUsage: bool, broken: bool, i: nat)
    requires
      var chunks := Translated(Events(lines, "", decode), NewSession(), includeUsage, broken);
      i < |chunks| && chunks[i].UsageChunk?
    ensures
      var chunks := Translated(Events(lines, "", decode), NewSession(), includeUsage, broken);
      && i == |chunks| - 1 && includeUsage
      && chunks[i].total == chunks[i].prompt + chunks[i].completion
      && (chunks[i].prompt != 0 || chunks[i].completion != 0)
  {
    TranslatedUsage(Events(lines, "", decode), NewSession(), includeUsage, broken, i);
  }

  // ----- The whole response -----

  datatype Block<J> =
    | TextBlock(text: string)
    | ToolBlock(id: string, name: string, input: Option<J>)
    | OtherBlock(kind: string)

  datatype ToolCall = ToolCall(id: string, name: string, arguments: string)

  datatype Response<J> = Response(content: seq<Block<J>>, stopReason: string, inputTokens: int, outputTokens: int)

  datatype ChatResponse = ChatResponse(
    text: string, toolCalls: seq<ToolCall>, finishReason: string, prompt: int, completion: int, total: int)

  function TextOf<J>(content: seq<Block<J>>): string {
    if content == [] then ""
    else
      var front, last := content[..|content| - 1], content[|content| - 1];
      TextOf(front) + if last.TextBlock? then last.text else ""
  }

  function ArgumentsOf<J>(input: Option<J>, marshal: J -> Option<string>): string {
    if input.Some? && marshal(input.value).Some? then marshal(input.value).value else "{}"
  }

  function CallsIn<J>(block: Block<J>, marshal: J -> Option<string>): seq<ToolCall> {
    if block.ToolBlock? then [ToolCall(block.id, block.name, ArgumentsOf(block.input, marshal))] else []
  }

  function CallsOf<J>(content: seq<Block<J>>, marshal: J -> Option<string>): seq<ToolCall> {
    if content == [] then []
    else CallsOf(content[..|content| - 1], marshal) + CallsIn(content[|content| - 1], marshal)
  }

  function BatchReason(stopReason: string): string {
    if stopReason == "max_tokens" then "length" else if stopReason == "tool_use" then "tool_calls" else "stop"
  }

  method FromAnthropic<J>(resp: Response<J>, marshal: J -> Option<string>) returns (chat: ChatResponse)
    ensures chat.text == TextOf(resp.content)
    ensures chat.toolCalls == CallsOf(resp.content, marshal)
    ensures chat.finishReason == BatchReason(resp.stopReason)
    ensures chat.prompt == resp.inputTokens && chat.completion == resp.outputTokens
    ensures chat.total == chat.prompt + chat.completion
  {
    var text, toolCalls := "", [];
    for i := 0 to |resp.content|
      invariant text == TextOf(resp.content[..i])
      invariant toolCalls == CallsOf(resp.content[..i], marshal)
    {
      assert resp.content[..i + 1][..i] == resp.content[..i];
      match resp.content[i]
      case TextBlock(t) =>
        text := text + t;
      case ToolBlock(id, name, input) =>
        var arguments := "{}";
        if input.Some? {
          var data := marshal(input.value);
          if data.Some? {
            arguments := data.value;
          }
        }
        toolCalls := toolCalls + [ToolCall(id, name, arguments)];
      case OtherBlock(_) =>
    }
    assert resp.content[..|resp.content|] == resp.content;
    var finishReason := "stop";
    if resp.stopReason == "max_tokens" {
      finishReason := "length";
    } else if resp.stopReason == "tool_use" {
      finishReason := "tool_calls";
    }
    return ChatResponse(
        text, toolCalls, finishReason, resp.inputTokens, resp.outputTokens, resp.inputTokens + resp.outputTokens);
  }

  // ----- One message, streamed and whole -----

  /** A content block as a stream delivers it. */
  datatype Part =
    | TextPart(initial: string, fragments: seq<string>)
    | ToolPart(id: string, name: string, fragments: seq<string>)
    /** Thinking, server tools and the like: their deltas carry no text, maybe JSON. */
    | OtherPart(kind: string, fragments: seq<string>)

  datatype Message = Message(parts: seq<Part>, stopReason: string, inputTokens: int, outputTokens: int)

  function Concat(fragments: seq<string>): string {
    if fragments == [] then "" else fragments[0] + Concat(fragments[1..])
  }

  function TextDeltas(k: int, fragments: seq<string>): seq<Event> {
    if fragments == [] then [] else [BlockDelta(k, fragments[0], "")] + TextDeltas(k, fragments[1..])
  }

  function JsonDeltas(k: int, fragments: seq<string>): seq<Event> {
    if fragments == [] then [] else [BlockDelta(k, "", fragments[0])] + JsonDeltas(k, fragments[1..])
  }

  function PartEvents(part: Part, k: int): seq<Event> {
    match part
    case TextPart(initial, fragments) => [BlockStart(k, "text", "", "", initial)] + TextDeltas(k, fragments)
    case ToolPart(id, name, fragments) => [BlockStart(k, "tool_use", id, name, "")] + JsonDeltas(k, fragments)
    case OtherPart(kind, fragments) => [BlockStart(k, kind, "", "", "")] + JsonDeltas(k, fragments)
  }

  /** The blocks in order, numbered from `k`. */
  function PartsEvents(parts: seq<Part>, k: int): seq<Event>
    decreases |parts|
  {
    if parts == [] then [] else PartEvents(parts[0], k) + PartsEvents(parts[1..], k + 1)
  }

  function MessageEvents(m: Message): seq<Event> {
    [MessageStart(m.inputTokens)] + PartsEvents(m.parts, 0) + [MessageDelta(m.stopReason, m.outputTokens), MessageStop]
  }

  /** The events the translator acts on. */
  function Relevant(events: seq<Event>): seq<Event> {
    if events == [] then []
    else if events[0].Ignored? then Relevant(events[1..])
    else [events[0]] + Relevant(events[1..])
  }

  /** `events` stream `m`; pings, block ends and other ignored events may occur anywhere. */
  predicate Streams(events: seq<Event>, m: Message) {
    && Relevant(events) == MessageEvents(m)
    && forall i :: 0 <= i < |m.parts| ==> m.parts[i].OtherPart? ==> m.parts[i].kind !in {"text", "tool_use"}
  }

  /** JSON decoding and encoding, and the empty object. */
  datatype Codec<!J> = Codec(parse: string -> Option<J>, marshal: J -> Option<string>, emptyObject: J)

  ghost predicate Sound<J(!new)>(json: Codec<J>) {
    && json.parse("").None?
    && forall v: J :: json.marshal(v).Some? && json.parse(json.marshal(v).value) == Some(v)
  }

  /** A tool that was given no argument text was called with the empty object. */
  function InputOf<J>(raw: string, json: Codec<J>): Option<J> {
    if raw == "" then Some(json.emptyObject) else json.parse(raw)
  }

  function BlockOf<J>(part: Part, json: Codec<J>): Block<J> {
    match part
    case TextPart(initial, fragments) => TextBlock(initial + Concat(fragments))
    case ToolPart(id, name, fragments) => ToolBlock(id, name, InputOf(Concat(fragments), json))
    case OtherPart(kind, _) => OtherBlock(kind)
  }

  function ContentOf<J>(parts: seq<Part>, json: Codec<J>): seq<Block<J>> {
    if parts == [] then []
    else ContentOf(parts[..|parts| - 1], json) + [BlockOf(parts[|parts| - 1], json)]
  }

  /** What the API answers when the same message is not streamed. */
  function ResponseOf<J>(m: Message, json: Codec<J>): Response<J> {
    Response(ContentOf(m.parts, json), m.stopReason, m.inputTokens, m.outputTokens)
  }

  // ----- What the client reads off the chunks -----

  function TextIn(c: Chunk): string {
    if c.TextChunk? then c.text else ""
  }

  function ToolsIn(c: Chunk): seq<Tool> {
    if c.ToolStart? then [Tool(c.id, c.name)] else []
  }

  function ArgumentsIn(c: Chunk, tool: Tool): string {
    if c.ToolArguments? && Tool(c.id, c.name) == tool then c.arguments else ""
  }

  function StreamText(chunks: seq<Chunk>): string {
    if chunks == [] then "" else TextIn(chunks[0]) + StreamText(chunks[1..])
  }

  function StreamTools(chunks: seq<Chunk>): seq<Tool> {
    if chunks == [] then [] else ToolsIn(chunks[0]) + StreamTools(chunks[1..])
  }

  function StreamArguments(chunks: seq<Chunk>, tool: Tool): string {
    if chunks == [] then "" else ArgumentsIn(chunks[0], tool) + StreamArguments(chunks[1..], tool)
  }

  lemma {:induction false} StreamTextConcat(a: seq<Chunk>, b: seq<Chunk>)
    ensures StreamText(a + b) == StreamText(a) + StreamText(b)
  {
    if a == [] {
      assert a + b == b;
    } else {
      assert (a + b)[1..] == a[1..] + b;
      StreamTextConcat(a[1..], b);
    }
  }

  lemma {:induction false} StreamToolsConcat(a: seq<Chunk>, b: seq<Chunk>)
    ensures StreamTools(a + b) == StreamTools(a) + StreamTools(b)
  {
    if a == [] {
      assert a + b == b;
    } else {
      assert (a + b)[1..] == a[1..] + b;
      StreamToolsConcat(a[1..], b);
    }
  }

  lemma {:induction false} StreamArgumentsConcat(a: seq<Chunk>, b: seq<Chunk>, tool: Tool)
    ensures StreamArguments(a + b, tool) == StreamArguments(a, tool) + StreamArguments(b, tool)
  {
    if a == [] {
      assert a + b == b;
    } else {
      assert (a + b)[1..] == a[1..] + b;
      StreamArgumentsConcat(a[1..], b, tool);
    }
  }

  lemma StreamConcat(a: seq<Chunk>, b: seq<Chunk>, tool: Tool)
    ensures StreamText(a + b) == StreamText(a) + StreamText(b)
    ensures StreamTools(a + b) == StreamTools(a) + StreamTools(b)
    ensures StreamArguments(a + b, tool) == StreamArguments(a, tool) + StreamArguments(b, tool)
  {
    StreamTextConcat(a, b);
    StreamToolsConcat(a, b);
    StreamArgumentsConcat(a, b, tool);
  }

  // ----- The chunks of a well-formed stream -----

  lemma {:induction false} IgnoredChangesNothing(events: seq<Event>, s: Session, includeUsage: bool, broken: bool)
    ensures Translated(events, s, includeUsage, broken) == Translated(Relevant(events), s, includeUsage, broken)
    decreases |events|
  {
    if events != [] {
      IgnoredChangesNothing(events[1..], After(s, events[0]), includeUsage, broken);
      if !events[0].Ignored? {
        TranslatedStep(events[0], Relevant(events[1..]), s, includeUsage, broken);
      }
    }
  }

  function AfterAll(s: Session, events: seq<Event>): Session
    decreases |events|
  {
    if events == [] then s else AfterAll(After(s, events[0]), events[1..])
  }

  function SentAll(s: Session, events: seq<Event>): seq<Chunk>
    decreases |events|
  {
    if events == [] then [] else Sent(s, events[0]) + SentAll(After(s, events[0]), events[1..])
  }

  lemma {:induction false} TranslatedConcat(a: seq<Event>, b: seq<Event>, s: Session, includeUsage: bool, broken: bool)
    requires MessageStop !in a
    ensures Translated(a + b, s, includeUsage, broken) ==
            SentAll(s, a) + Translated(b, AfterAll(s, a), includeUsage, broken)
    decreases |a|
  {
    if a == [] {
      assert a + b == b;
    } else {
      assert (a + b)[1..] == a[1..] + b;
      TranslatedConcat(a[1..], b, After(s, a[0]), includeUsage, broken);
    }
  }

  lemma {:induction false} SentConcat(a: seq<Event>, b: seq<Event>, s: Session)
    ensures SentAll(s, a + b) == SentAll(s, a) + SentAll(AfterAll(s, a), b)
    ensures AfterAll(s, a + b) == AfterAll(AfterAll(s, a), b)
    decreases |a|
  {
    if a == [] {
      assert a + b == b;
    } else {
      assert (a + b)[1..] == a[1..] + b;
      SentConcat(a[1..], b, After(s, a[0]));
    }
  }

  lemma {:induction false} TextDeltasSend(k: int, fragments: seq<string>, s: Session, tool: Tool)
    ensures AfterAll(s, TextDeltas(k, fragments)) == s
    ensures
      var chunks := SentAll(s, TextDeltas(k, fragments));
      StreamText(chunks) == Concat(fragments) && StreamTools(chunks) == [] && StreamArguments(chunks, tool) == ""
    decreases |fragments|
  {
    if fragments != [] {
      var delta := BlockDelta(k, fragments[0], "");
      TextDeltasSend(k, fragments[1..], s, tool);
      assert TextDeltas(k, fragments)[1..] == TextDeltas(k, fragments[1..]);
      StreamConcat(Sent(s, delta), SentAll(s, TextDeltas(k, fragments[1..])), tool);
    }
  }

  lemma {:induction false} ToolDeltasSend(k: int, fragments: seq<string>, s: Session, tool: Tool)
    requires k in s.tools
    ensures AfterAll(s, JsonDeltas(k, fragments)) == s
    ensures
      var chunks := SentAll(s, JsonDeltas(k, fragments));
      && StreamText(chunks) == "" && StreamTools(chunks) == []
      && StreamArguments(chunks, tool) == if s.tools[k] == tool then Concat(fragments) else ""
    decreases |fragments|
  {
    if fragments != [] {
      var delta := BlockDelta(k, "", fragments[0]);
      ToolDeltasSend(k, fragments[1..], s, tool);
      assert JsonDeltas(k, fragments)[1..] == JsonDeltas(k, fragments[1..]);
      StreamConcat(Sent(s, delta), SentAll(s, JsonDeltas(k, fragments[1..])), tool);
    }
  }

  /** JSON of a block that is not a tool call goes nowhere. */
  lemma {:induction false} OtherDeltasSend(k: int, fragments: seq<string>, s: Session)
    requires k !in s.tools
    ensures AfterAll(s, JsonDeltas(k, fragments)) == s && SentAll(s, JsonDeltas(k, fragments)) == []
    decreases |fragments|
  {
    if fragments != [] {
      OtherDeltasSend(k, fragments[1..], s);
      assert JsonDeltas(k, fragments)[1..] == JsonDeltas(k, fragments[1..]);
    }
  }

  /** Only blocks before `k` are known as tool calls. */
  ghost predicate ToolsBefore(s: Session, k: int) {
    forall j :: j in s.tools ==> j < k
  }

  function PartText(part: Part): string {
    if part.TextPart? then Concat(part.fragments) else ""
  }

  function PartTools(part: Part): seq<Tool> {
    if part.ToolPart? then [Tool(part.id, part.name)] else []
  }

  function PartArguments(part: Part, tool: Tool): string {
    if part.ToolPart? && Tool(part.id, part.name) == tool then Concat(part.fragments) else ""
  }

  lemma PartSends(part: Part, k: int, s: Session, tool: Tool)
    requires part.OtherPart? ==> part.kind != "tool_use"
    requires ToolsBefore(s, k)
    ensures ToolsBefore(AfterAll(s, PartEvents(part, k)), k + 1)
    ensures
      var chunks := SentAll(s, PartEvents(part, k));
      && StreamText(chunks) == PartText(part)
      && StreamTools(chunks) == PartTools(part)
      && StreamArguments(chunks, tool) == PartArguments(part, tool)
    ensures AfterAll(s, PartEvents(part, k)).prompt == s.prompt
    ensures AfterAll(s, PartEvents(part, k)).completion == s.completion
  {
    var events := PartEvents(part, k);
    var s' := After(s, events[0]);
    match part
    case TextPart(_, fragments) =>
      assert events[1..] == TextDeltas(k, fragments);
      TextDeltasSend(k, fragments, s', tool);
      assert SentAll(s, events) == SentAll(s', events[1..]);
    case ToolPart(toolId, name, fragments) =>
      assert events[1..] == JsonDeltas(k, fragments);
      ToolDeltasSend(k, fragments, s', tool);
      StreamConcat([ToolStart(toolId, name)], SentAll(s', events[1..]), tool);
      assert SentAll(s, events) == [ToolStart(toolId, name)] + SentAll(s', events[1..]);
    case OtherPart(kind, fragments) =>
      assert events[1..] == JsonDeltas(k, fragments);
      OtherDeltasSend(k, fragments, s');
      assert SentAll(s, events) == SentAll(s', events[1..]);
  }

  function PartsText(parts: seq<Part>): string {
    if parts == [] then "" else PartText(parts[0]) + PartsText(parts[1..])
  }

  function PartsTools(parts: seq<Part>): seq<Tool> {
    if parts == [] then [] else PartTools(parts[0]) + PartsTools(parts[1..])
  }

  function PartsArguments(parts: seq<Part>, tool: Tool): string {
    if parts == [] then "" else PartArguments(parts[0], tool) + PartsArguments(parts[1..], tool)
  }

  lemma {:induction false} PartsSend(parts: seq<Part>, k: int, s: Session, tool: Tool)
    requires forall i :: 0 <= i < |parts| ==> parts[i].OtherPart? ==> parts[i].kind != "tool_use"
    requires ToolsBefore(s, k)
    ensures
      var chunks := SentAll(s, PartsEvents(parts, k));
      && StreamText(chunks) == PartsText(parts)
      && StreamTools(chunks) == PartsTools(parts)
      && StreamArguments(chunks, tool) == PartsArguments(parts, tool)
    ensures AfterAll(s, PartsEvents(parts, k)).prompt == s.prompt
    ensures AfterAll(s, PartsEvents(parts, k)).completion == s.completion
    decreases |parts|
  {
    if parts != [] {
      var first := PartEvents(parts[0], k);
      PartSends(parts[0], k, s, tool);
      PartsSend(parts[1..], k + 1, AfterAll(s, first), tool);
      SentConcat(first, PartsEvents(parts[1..], k + 1), s);
      StreamConcat(SentAll(s, first), SentAll(AfterAll(s, first), PartsEvents(parts[1..], k + 1)), tool);
    }
  }

  /** An event inside a content block. */
  predicate Inner(e: Event) {
    e.BlockStart? || e.BlockDelta?
  }

  lemma {:induction false} PartsAreInner(parts: seq<Part>, k: int)
    ensures forall e :: e in PartsEvents(parts, k) ==> Inner(e)
    decreases |parts|
  {
    if parts != [] {
      PartsAreInner(parts[1..], k + 1);
      DeltasAreInner(k, parts[0].fragments);
    }
  }

  lemma {:induction false} DeltasAreInner(k: int, fragments: seq<string>)
    ensures forall e :: e in TextDeltas(k, fragments) ==> Inner(e)
    ensures forall e :: e in JsonDeltas(k, fragments) ==> Inner(e)
  {
    if fragments != [] {
      DeltasAreInner(k, fragments[1..]);
    }
  }

  /** The end of a streamed message: why it stopped, then what it cost. */
  function Closing(m: Message, includeUsage: bool): seq<Chunk> {
    (if m.stopReason != "" then [Finish(StreamReason(m.stopReason))] else []) +
    UsageOf(Session(map[], m.inputTokens, m.outputTokens), includeUsage)
  }

  lemma ClosingIsSilent(m: Message, includeUsage: bool, tool: Tool)
    ensures
      var chunks := Closing(m, includeUsage);
      StreamText(chunks) == "" && StreamTools(chunks) == [] && StreamArguments(chunks, tool) == ""
  {
    var finish := if m.stopReason != "" then [Finish(StreamReason(m.stopReason))] else [];
    StreamConcat(finish, UsageOf(Session(map[], m.inputTokens, m.outputTokens), includeUsage), tool);
  }

  /** The chunks of the blocks of `m`. */
  function BodyChunks(m: Message): seq<Chunk> {
    SentAll(Session(map[], m.inputTokens, 0), PartsEvents(m.parts, 0))
  }

  lemma EndTranslates(m: Message, s: Session, includeUsage: bool, broken: bool)
    requires s.prompt == m.inputTokens
    ensures Translated([MessageDelta(m.stopReason, m.outputTokens), MessageStop], s, includeUsage, broken) ==
            Closing(m, includeUsage)
  {
    var delta := MessageDelta(m.stopReason, m.outputTokens);
    assert [delta, MessageStop] == [delta] + [MessageStop];
    TranslatedStep(delta, [MessageStop], s, includeUsage, broken);
    assert Translated([MessageStop], After(s, delta), includeUsage, broken) == UsageOf(After(s, delta), includeUsage);
  }

  lemma MessageTranslates(m: Message, includeUsage: bool, broken: bool)
    requires forall i :: 0 <= i < |m.parts| ==> m.parts[i].OtherPart? ==> m.parts[i].kind != "tool_use"
    ensures Translated(MessageEvents(m), NewSession(), includeUsage, broken) == BodyChunks(m) + Closing(m, includeUsage)
  {
    var s := Session(map[], m.inputTokens, 0);
    var body := PartsEvents(m.parts, 0);
    var end := [MessageDelta(m.stopReason, m.outputTokens), MessageStop];
    assert MessageEvents(m) == [MessageStart(m.inputTokens)] + (body + end);
    TranslatedStep(MessageStart(m.inputTokens), body + end, NewSession(), includeUsage, broken);
    PartsAreInner(m.parts, 0);
    TranslatedConcat(body, end, s, includeUsage, broken);
    PartsSend(m.parts, 0, s, Tool("", ""));
    EndTranslates(m, AfterAll(s, body), includeUsage, broken);
  }

  // ----- The whole response of the same message -----

  lemma {:induction false} PartsTextLast(parts: seq<Part>)
    requires parts != []
    ensures PartsText(parts) == PartsText(parts[..|parts| - 1]) + PartText(parts[|parts| - 1])
  {
    var front := parts[..|parts| - 1];
    if |parts| == 1 {
      assert parts[1..] == [] && front == [];
    } else {
      PartsTextLast(parts[1..]);
      assert front[1..] == parts[1..][..|parts| - 2] && front[0] == parts[0];
      Associate(PartText(parts[0]), PartsText(front[1..]), PartText(parts[|parts| - 1]));
    }
  }

  lemma {:induction false} PartsToolsLast(parts: seq<Part>)
    requires parts != []
    ensures PartsTools(parts) == PartsTools(parts[..|parts| - 1]) + PartTools(parts[|parts| - 1])
  {
    var front := parts[..|parts| - 1];
    if |parts| == 1 {
      assert parts[1..] == [] && front == [];
    } else {
      PartsToolsLast(parts[1..]);
      assert front[1..] == parts[1..][..|parts| - 2] && front[0] == parts[0];
      Associate(PartTools(parts[0]), PartsTools(front[1..]), PartTools(parts[|parts| - 1]));
    }
  }

  function InitialText(parts: seq<Part>): nat {
    if parts == [] then 0
    else
      var last := parts[|parts| - 1];
      InitialText(parts[..|parts| - 1]) + if last.TextPart? then |last.initial| else 0
  }

  lemma TextSnoc<J>(parts: seq<Part>, json: Codec<J>)
    requires parts != []
    ensures TextOf(ContentOf(parts, json)) ==
            TextOf(ContentOf(parts[..|parts| - 1], json)) + TextOf([BlockOf(parts[|parts| - 1], json)])
  {
    var content, last := ContentOf(parts, json), BlockOf(parts[|parts| - 1], json);
    assert content[..|content| - 1] == ContentOf(parts[..|parts| - 1], json);
    assert [last][..0] == [];
  }

  lemma LastText<J>(part: Part, json: Codec<J>)
    ensures TextOf([BlockOf(part, json)]) == if part.TextPart? then part.initial + Concat(part.fragments) else ""
  {
    assert [BlockOf(part, json)][..0] == [];
  }

  lemma {:induction false} BatchTextLength<J>(parts: seq<Part>, json: Codec<J>)
    ensures |TextOf(ContentOf(parts, json))| == |PartsText(parts)| + InitialText(parts)
  {
    if parts != [] {
      var front, last := parts[..|parts| - 1], parts[|parts| - 1];
      BatchTextLength(front, json);
      PartsTextLast(parts);
      TextSnoc(parts, json);
      LastText(last, json);
    }
  }

  lemma LastTextPlain<J>(part: Part, json: Codec<J>)
    requires part.TextPart? ==> part.initial == ""
    ensures TextOf([BlockOf(part, json)]) == PartText(part)
  {
    LastText(part, json);
    assert part.TextPart? ==> part.initial + Concat(part.fragments) == Concat(part.fragments);
  }

  lemma {:induction false} BatchText<J>(parts: seq<Part>, json: Codec<J>)
    requires InitialText(parts) == 0
    ensures TextOf(ContentOf(parts, json)) == PartsText(parts)
  {
    if parts != [] {
      BatchText(parts[..|parts| - 1], json);
      PartsTextLast(parts);
      TextSnoc(parts, json);
      LastTextPlain(parts[|parts| - 1], json);
    }
  }

  lemma {:induction false} InitialTextZero(parts: seq<Part>)
    ensures InitialText(parts) == 0 <==> forall i :: 0 <= i < |parts| && parts[i].TextPart? ==> parts[i].initial == ""
  {
    if parts != [] {
      InitialTextZero(parts[..|parts| - 1]);
    }
  }

  function ToolsOf(calls: seq<ToolCall>): seq<Tool> {
    if calls == [] then []
    else ToolsOf(calls[..|calls| - 1]) + [Tool(calls[|calls| - 1].id, calls[|calls| - 1].name)]
  }

  lemma ToolsOfSnoc<J>(calls: seq<ToolCall>, part: Part, json: Codec<J>)
    ensures ToolsOf(calls + CallsIn(BlockOf(part, json), json.marshal)) == ToolsOf(calls) + PartTools(part)
  {
    var last := CallsIn(BlockOf(part, json), json.marshal);
    if part.ToolPart? {
      assert (calls + last)[..|calls + last| - 1] == calls;
    } else {
      assert calls + last == calls;
    }
  }

  lemma CallsSnoc<J>(parts: seq<Part>, json: Codec<J>)
    requires parts != []
    ensures CallsOf(ContentOf(parts, json), json.marshal) ==
            CallsOf(ContentOf(parts[..|parts| - 1], json), json.marshal) +
            CallsIn(BlockOf(parts[|parts| - 1], json), json.marshal)
  {
    var content := ContentOf(parts, json);
    assert content[..|content| - 1] == ContentOf(parts[..|parts| - 1], json);
  }

  lemma ToolsLast<J>(parts: seq<Part>, json: Codec<J>)
    requires parts != []
    ensures ToolsOf(CallsOf(ContentOf(parts, json), json.marshal)) ==
            ToolsOf(CallsOf(ContentOf(parts[..|parts| - 1], json), json.marshal)) + PartTools(parts[|parts| - 1])
  {
    CallsSnoc(parts, json);
    ToolsOfSnoc(CallsOf(ContentOf(parts[..|parts| - 1], json), json.marshal), parts[|parts| - 1], json);
  }

  lemma {:induction false} BatchTools<J>(parts: seq<Part>, json: Codec<J>)
    ensures ToolsOf(CallsOf(ContentOf(parts, json), json.marshal)) == PartsTools(parts)
  {
    if parts != [] {
      BatchTools(parts[..|parts| - 1], json);
      ToolsLast(parts, json);
      PartsToolsLast(parts);
    }
  }

  /** Tool identifiers are distinct. */
  predicate DistinctIds(parts: seq<Part>) {
    forall i, j :: 0 <= i < j < |parts| && parts[i].ToolPart? && parts[j].ToolPart? ==> parts[i].id != parts[j].id
  }

  lemma {:induction false} ArgumentsAbsent(parts: seq<Part>, tool: Tool)
    requires forall i :: 0 <= i < |parts| && parts[i].ToolPart? ==> parts[i].id != tool.id
    ensures PartsArguments(parts, tool) == ""
  {
    if parts != [] {
      ArgumentsAbsent(parts[1..], tool);
    }
  }

  lemma {:induction false} ArgumentsOfPart(parts: seq<Part>, i: nat)
    requires DistinctIds(parts) && i < |parts| && parts[i].ToolPart?
    ensures PartsArguments(parts, Tool(parts[i].id, parts[i].name)) == Concat(parts[i].fragments)
  {
    if i == 0 {
      ArgumentsAbsent(parts[1..], Tool(parts[0].id, parts[0].name));
    } else {
      ArgumentsOfPart(parts[1..], i - 1);
    }
  }

  // ----- The two translations agree -----

  lemma StreamedMessage(events: seq<Event>, m: Message, includeUsage: bool, broken: bool, tool: Tool)
    requires Streams(events, m)
    ensures
      var chunks := Translated(events, NewSession(), includeUsage, broken);
      && chunks == BodyChunks(m) + Closing(m, includeUsage)
      && StreamText(chunks) == PartsText(m.parts)
      && StreamTools(chunks) == PartsTools(m.parts)
      && StreamArguments(chunks, tool) == PartsArguments(m.parts, tool)
  {
    IgnoredChangesNothing(events, NewSession(), includeUsage, broken);
    MessageTranslates(m, includeUsage, broken);
    PartsSend(m.parts, 0, Session(map[], m.inputTokens, 0), tool);
    ClosingIsSilent(m, includeUsage, tool);
    StreamConcat(BodyChunks(m), Closing(m, includeUsage), tool);
  }

  // ----- From the lines of the body -----

  /** One server-sent event: its name and its payload. */
  datatype Frame = Frame(name: string, payload: string)

  /** How the API writes it: an `event:` line, a `data:` line and a blank one each. */
  function Body(frames: seq<Frame>): seq<Line> {
    if frames == [] then []
    else [EventLine(frames[0].name), DataLine(frames[0].payload), OtherLine] + Body(frames[1..])
  }

  /** What it means: each payload decoded under its own name. */
  function Meaning(frames: seq<Frame>, decode: Decoder): seq<Event> {
    seq(|frames|, i requires 0 <= i < |frames| => decode(frames[i].name, frames[i].payload))
  }

  ghost predicate HasPayloads(frames: seq<Frame>) {
    forall i :: 0 <= i < |frames| ==> frames[i].payload != ""
  }

  lemma FrameDecodes(frame: Frame, rest: seq<Line>, current: string, decode: Decoder)
    requires frame.payload != ""
    ensures Events([EventLine(frame.name), DataLine(frame.payload), OtherLine] + rest, current, decode) ==
            [decode(frame.name, frame.payload)] + Events(rest, frame.name, decode)
  {
    var lines := [EventLine(frame.name), DataLine(frame.payload), OtherLine] + rest;
    assert lines[1..] == [DataLine(frame.payload), OtherLine] + rest;
    assert lines[1..][1..] == [OtherLine] + rest;
    assert lines[1..][1..][1..] == rest;
    assert Events([OtherLine] + rest, frame.name, decode) == Events(rest, frame.name, decode);
  }

  /** Reading the lines of a body yields each frame's payload decoded under its own name, in order. */
  lemma {:induction false} BodyDecodes(frames: seq<Frame>, current: string, decode: Decoder)
    requires HasPayloads(frames)
    ensures Events(Body(frames), current, decode) == Meaning(frames, decode)
  {
    if frames != [] {
      FrameDecodes(frames[0], Body(frames[1..]), current, decode);
      BodyDecodes(frames[1..], frames[0].name, decode);
      assert Meaning(frames, decode) == [decode(frames[0].name, frames[0].payload)] + Meaning(frames[1..], decode);
    }
  }

  /** The body made of `frames` streams `m`. */
  ghost predicate Delivers(frames: seq<Frame>, decode: Decoder, m: Message) {
    HasPayloads(frames) && Streams(Meaning(frames, decode), m)
  }

  /** What the client receives for the lines of the body. */
  function Received(frames: seq<Frame>, decode: Decoder, includeUsage: bool, broken: bool): seq<Chunk> {
    Translated(Events(Body(frames), "", decode), NewSession(), includeUsage, broken)
  }

  /** The streamed text is the text of the whole response exactly when every text block starts empty. */
  lemma TextAgrees<J>(
    frames: seq<Frame>, decode: Decoder, m: Message, json: Codec<J>, includeUsage: bool, broken: bool)
    requires Delivers(frames, decode, m)
    ensures
      StreamText(Received(frames, decode, includeUsage, broken)) == TextOf(ResponseOf(m, json).content) <==>
      forall i :: 0 <= i < |m.parts| && m.parts[i].TextPart? ==> m.parts[i].initial == ""
  {
    BodyDecodes(frames, "", decode);
    StreamedMessage(Meaning(frames, decode), m, includeUsage, broken, Tool("", ""));
    BatchTextLength(m.parts, json);
    InitialTextZero(m.parts);
    if InitialText(m.parts) == 0 {
      BatchText(m.parts, json);
    }
  }

  /** The tool calls announced by the stream are those of the whole response, in order. */
  lemma ToolsAgree<J>(
    frames: seq<Frame>, decode: Decoder, m: Message, json: Codec<J>, includeUsage: bool, broken: bool)
    requires Delivers(frames, decode, m)
    ensures StreamTools(Received(frames, decode, includeUsage, broken)) ==
            ToolsOf(CallsOf(ResponseOf(m, json).content, json.marshal))
  {
    BodyDecodes(frames, "", decode);
    StreamedMessage(Meaning(frames, decode), m, includeUsage, broken, Tool("", ""));
    BatchTools(m.parts, json);
  }

  lemma {:induction false} ContentAt<J>(parts: seq<Part>, json: Codec<J>, i: nat)
    requires i < |parts|
    ensures |ContentOf(parts, json)| == |parts| && ContentOf(parts, json)[i] == BlockOf(parts[i], json)
    decreases |parts|
  {
    var front := parts[..|parts| - 1];
    if front != [] {
      ContentAt(front, json, if i < |front| then i else 0);
    }
  }

  lemma {:induction false} SomethingToConcat(fragments: seq<string>)
    ensures Concat(fragments) != "" <==> exists i :: 0 <= i < |fragments| && fragments[i] != ""
  {
    if fragments != [] {
      SomethingToConcat(fragments[1..]);
      assert forall i :: 0 < i < |fragments| ==> fragments[i] == fragments[1..][i - 1];
    }
  }

  /**
    Each tool's streamed argument fragments join to the raw text, which decodes
    to that block's input exactly when there is some text; the whole response's
    argument string always decodes to it.
   */
  lemma ArgumentsAgree<J(!new)>(
    frames: seq<Frame>, decode: Decoder, m: Message, json: Codec<J>, includeUsage: bool, broken: bool, i: nat)
    requires Delivers(frames, decode, m) && DistinctIds(m.parts) && Sound(json)
    requires i < |m.parts| && m.parts[i].ToolPart?
    requires InputOf(Concat(m.parts[i].fragments), json).Some?
    ensures |ResponseOf(m, json).content| == |m.parts|
    ensures
      var fragments := m.parts[i].fragments;
      var tool := Tool(m.parts[i].id, m.parts[i].name);
      var arguments := StreamArguments(Received(frames, decode, includeUsage, broken), tool);
      var block := ResponseOf(m, json).content[i];
      && block.ToolBlock? && Tool(block.id, block.name) == tool
      && arguments == Concat(fragments)
      && (json.parse(arguments) == block.input <==> exists j :: 0 <= j < |fragments| && fragments[j] != "")
      && json.parse(ArgumentsOf(block.input, json.marshal)) == block.input
  {
    BodyDecodes(frames, "", decode);
    StreamedMessage(Meaning(frames, decode), m, includeUsage, broken, Tool(m.parts[i].id, m.parts[i].name));
    ArgumentsOfPart(m.parts, i);
    ContentAt(m.parts, json, i);
    SomethingToConcat(m.parts[i].fragments);
  }

  /** Neither a finish reason nor usage. */
  predicate Plain(chunks: seq<Chunk>) {
    forall c :: c in chunks ==> !c.Finish? && !c.UsageChunk?
  }

  lemma {:induction false} InnerSendsPlain(s: Session, events: seq<Event>)
    requires forall e :: e in events ==> Inner(e)
    ensures Plain(SentAll(s, events))
    decreases |events|
  {
    if events != [] {
      assert events[0] in events;
      InnerSendsPlain(After(s, events[0]), events[1..]);
    }
  }

  lemma ClosingIs(m: Message, includeUsage: bool)
    requires m.stopReason != ""
    ensures Closing(m, includeUsage) == [Finish(StreamReason(m.stopReason))] +
      if includeUsage && (m.inputTokens != 0 || m.outputTokens != 0)
      then [UsageChunk(m.inputTokens, m.outputTokens, m.inputTokens + m.outputTokens)] else []
  {
  }

  lemma ReasonsAgree(stopReason: string)
    ensures StreamReason(stopReason) == BatchReason(stopReason) <==> stopReason != "tool_use"
  {
    assert |"stop"| != |"tool_calls"|;
  }

  /**
    The stream ends with its one finish reason and, on request, the usage the
    whole response reports.  The reason is that of the whole response exactly
    when the message did not stop to use a tool.
   */
  lemma EndAgrees(frames: seq<Frame>, decode: Decoder, m: Message, includeUsage: bool, broken: bool)
    requires Delivers(frames, decode, m) && m.stopReason != ""
    ensures
      var usage := UsageChunk(m.inputTokens, m.outputTokens, m.inputTokens + m.outputTokens);
      Received(frames, decode, includeUsage, broken) ==
        BodyChunks(m) + ([Finish(if m.stopReason == "max_tokens" then "length" else "stop")] +
        if includeUsage && (m.inputTokens != 0 || m.outputTokens != 0) then [usage] else [])
    ensures Plain(BodyChunks(m))
    ensures StreamReason(m.stopReason) == BatchReason(m.stopReason) <==> m.stopReason != "tool_use"
  {
    BodyDecodes(frames, "", decode);
    StreamedMessage(Meaning(frames, decode), m, includeUsage, broken, Tool("", ""));
    ClosingIs(m, includeUsage);
    PartsAreInner(m.parts, 0);
    InnerSendsPlain(Session(map[], m.inputTokens, 0), PartsEvents(m.parts, 0));
    ReasonsAgree(m.stopReason);
  }
}
