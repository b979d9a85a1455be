/** The translator's state machine over pieces, the two sinks it can drive, and a strict
    reader of the live event stream. */
module Sinks {
  import opened Configs
  import opened Pieces

  datatype SseEvent =
    | MessageStart(id: string, model: string)
    | TextStart(index: nat)
    | ToolStart(index: nat, id: string, name: string)
    | TextDelta(index: nat, text: string)
    | ArgsDelta(index: nat, partial: string)
    | BlockStop(index: nat)
    | MessageDelta(stop: string, output: int)
    | MessageStop

  /** A decoded JSON value. */
  datatype Value =
    | Null
    | Bool(truth: bool)
    | Number(number: real)
    | String(text: string)
    | Array(items: seq<Value>)
    | Object(fields: map<string, Value>)

  /** Reading JSON text, which may fail; how is the library's business. */
  type Decoder = string -> Option<Value>

  /** A block of the buffered message; a tool's arguments are decoded. */
  datatype Content = TextContent(text: string) | ToolContent(id: string, name: string, input: Value)

  datatype Accum = Accum(id: string, name: string, args: string)

  /** Either sink, as a value. */
  datatype Sink =
    | Sse(index: nat, openIdx: Option<nat>, events: seq<SseEvent>)
    | Json(decode: Decoder, id: string, model: string, content: seq<Content>, curText: Option<string>,
           curTool: Option<Accum>, stop: string, input: int, output: int)

  const NEW_SSE := Sse(0, None, [])

  function NewJson(decode: Decoder): Sink {
    Json(decode, "", "", [], None, None, "", 0, 0)
  }

  const DEFAULT_ID := "msg_chicco"

  function IdOr(id: string): string {
    if id == "" then DEFAULT_ID else id
  }

  // ---- the sink operations ----

  function Start(s: Sink, id: string, model: string): Sink {
    match s
    case Sse(_, _, events) => s.(events := events + [MessageStart(IdOr(id), model)])
    case Json(_, _, _, _, _, _, _, _, _) => s.(id := id, model := model)
  }

  function OpenText(s: Sink): Sink {
    match s
    case Sse(i, _, events) => Sse(i + 1, Some(i), events + [TextStart(i)])
    case Json(_, _, _, _, _, _, _, _, _) => s.(curText := Some(""))
  }

  function OpenTool(s: Sink, id: string, name: string): Sink {
    match s
    case Sse(i, _, events) => Sse(i + 1, Some(i), events + [ToolStart(i, id, name)])
    case Json(_, _, _, _, _, _, _, _, _) => s.(curTool := Some(Accum(id, name, "")))
  }

  /** The live sink may only be given content while a block is open. */
  predicate CanSay(s: Sink) {
    s.Sse? ==> s.openIdx.Some?
  }

  function SayText(s: Sink, text: string): Sink
    requires CanSay(s)
  {
    match s
    case Sse(_, open, events) => s.(events := events + [TextDelta(open.value, text)])
    case Json(_, _, _, _, cur, _, _, _, _) => if cur.Some? then s.(curText := Some(cur.value + text)) else s
  }

  function SayArgs(s: Sink, args: string): Sink
    requires CanSay(s)
  {
    match s
    case Sse(_, open, events) => s.(events := events + [ArgsDelta(open.value, args)])
    case Json(_, _, _, _, _, cur, _, _, _) =>
      if cur.Some? then s.(curTool := Some(cur.value.(args := cur.value.args + args))) else s
  }

  /** A tool's input: its argument text decoded, or the empty object when there is none or
      it does not decode. */
  function InputFor(decode: Decoder, args: string): Value {
    var input := decode(if args == "" then "{}" else args);
    if input.None? then Object(map[]) else input.value
  }

  function CloseBlock(s: Sink): Sink {
    match s
    case Sse(_, open, events) =>
      if open.None? then s else s.(openIdx := None, events := events + [BlockStop(open.value)])
    case Json(decode, _, _, content, text, tool, _, _, _) =>
      s.(content := content
           + (if text.Some? then [TextContent(text.value)] else [])
           + (if tool.Some? then [ToolContent(tool.value.id, tool.value.name, InputFor(decode, tool.value.args))] else []),
         curText := None, curTool := None)
  }

  function Finish(s: Sink, stop: string, input: int, output: int): Sink {
    match s
    case Sse(_, _, events) => s.(events := events + [MessageDelta(stop, output), MessageStop])
    case Json(_, _, _, _, _, _, _, _, _) => s.(stop := stop, input := input, output := output)
  }

  // ---- the block machine ----

  datatype Kind = NoBlock | InText | InTool

  datatype Machine = Machine(kind: Kind, toolIdx: int, sink: Sink)

  /** Which block is in flight, as the translator and as its sink see it, is one thing: so
      no delta is ever written to a block that is not there. */
  predicate Coupled(m: Machine) {
    match m.sink
    case Sse(_, open, _) => m.kind != NoBlock <==> open.Some?
    case Json(_, _, _, _, text, tool, _, _, _) => (m.kind == InText <==> text.Some?) && (m.kind == InTool <==> tool.Some?)
  }

  function CloseIfOpen(m: Machine): (m': Machine)
    ensures Coupled(m) ==> Coupled(m') && m'.kind == NoBlock
  {
    if m.kind == NoBlock then m else m.(kind := NoBlock, sink := CloseBlock(m.sink))
  }

  function Feed(m: Machine, p: Piece): (m': Machine)
    requires Coupled(m)
    ensures Coupled(m')
  {
    match p
    case Text(text) =>
      var o := if m.kind == InText then m else m.(kind := InText, sink := OpenText(CloseIfOpen(m).sink));
      o.(sink := SayText(o.sink, text))
    case Args(index, id, name, args) =>
      var o := if m.kind == InTool && m.toolIdx == index then m
               else Machine(InTool, index, OpenTool(CloseIfOpen(m).sink, id, name));
      o.(sink := SayArgs(o.sink, args))
    case Whole(id, name, args) =>
      m.(kind := InTool, sink := SayArgs(OpenTool(CloseIfOpen(m).sink, id, name), args))
  }

  function FeedAll(m: Machine, ps: seq<Piece>): (m': Machine)
    requires Coupled(m)
    ensures Coupled(m')
  {
    if ps == [] then m else Feed(FeedAll(m, ps[..|ps| - 1]), ps[|ps| - 1])
  }

  lemma {:induction false} FeedAllConcat(m: Machine, a: seq<Piece>, b: seq<Piece>)
    requires Coupled(m)
    ensures FeedAll(m, a + b) == FeedAll(FeedAll(m, a), b)
  {
    if b == [] {
      assert a + b == a;
    } else {
      assert (a + b)[..|a + b| - 1] == a + b[..|b| - 1];
      FeedAllConcat(m, a, b[..|b| - 1]);
    }
  }

  // ---- the whole translation ----

  function MapStopReason(finish: string): string {
    if finish == "length" then "max_tokens"
    else if finish == "tool_calls" then "tool_use"
    else if finish == "content_filter" then "stop_sequence"
    else "end_turn"
  }

  datatype Translation = Translation(m: Machine, started: bool, stop: string, input: int, output: int, total: int)

  function Fresh(sink: Sink): Translation {
    Translation(Machine(NoBlock, -1, sink), false, "", 0, 0, 0)
  }

  function StopAfter(stop: string, cs: seq<ChunkChoice>): string {
    if cs == [] then stop
    else if cs[|cs| - 1].finish != "" then MapStopReason(cs[|cs| - 1].finish)
    else StopAfter(stop, cs[..|cs| - 1])
  }

  function Begin(t: Translation, chunk: Chunk): (t': Translation)
    requires Coupled(t.m)
    ensures Coupled(t'.m)
  {
    if t.started then t
    else t.(started := true, m := t.m.(sink := Start(t.m.sink, chunk.id, chunk.model)))
  }

  function Apply(t: Translation, chunk: Chunk): (t': Translation)
    requires Coupled(t.m)
    ensures Coupled(t'.m)
  {
    var b := Begin(t, chunk);
    var c := b.(m := FeedAll(b.m, ChoicesPieces(chunk.choices)), stop := StopAfter(b.stop, chunk.choices));
    if chunk.usage.None? then c
    else
      var u := chunk.usage.value.openai;
      c.(input := u.prompt, output := u.completion, total := u.total)
  }

  function ApplyAll(t: Translation, chunks: seq<Chunk>): (t': Translation)
    requires Coupled(t.m)
    ensures Coupled(t'.m)
  {
    if chunks == [] then t else Apply(ApplyAll(t, chunks[..|chunks| - 1]), chunks[|chunks| - 1])
  }

  /** The tokens reported as output, and the total accounted, when a stream ends. */
  function OutputTokens(u: Usage): int {
    if u.completion == 0 && u.total > 0 then u.total else u.completion
  }

  function TotalTokens(u: Usage): int {
    if u.total == 0 then u.prompt + OutputTokens(u) else u.total
  }

  function FinishAll(t: Translation): (Sink, int) {
    var stop := if t.stop == "" then "end_turn" else t.stop;
    var u := Usage(t.input, t.output, t.total);
    (Finish(CloseIfOpen(t.m).sink, stop, t.input, OutputTokens(u)), TotalTokens(u))
  }

  /** What a sink holds, and the tokens accounted, after a whole stream. */
  function Translate(sink: Sink, chunks: seq<Chunk>): (Sink, int)
    requires Coupled(Fresh(sink).m)
  {
    FinishAll(ApplyAll(Fresh(sink), chunks))
  }

  // ---- reading the live stream ----

  datatype Message = Message(id: string, model: string, blocks: seq<Block>, stop: string, output: int)

  /** A client that accepts only well-formed streams: one start, then blocks numbered from
      0, each opened once, given only content of its own kind and index and closed before
      the next, then the stop reason and the end. */
  datatype Client =
    | Waiting
    | Reading(id: string, model: string, blocks: seq<Block>, open: bool)
    | Ending(message: Message)
    | Done(message: Message)
    | Broken

  predicate OpenAt(c: Client, index: nat) {
    c.Reading? && c.open && |c.blocks| == index + 1
  }

  function Grow(c: Client, said: string): Client
    requires c.Reading? && c.blocks != []
  {
    var n := |c.blocks| - 1;
    c.(blocks := c.blocks[..n] + [Extend(c.blocks[n], said)])
  }

  function Read(c: Client, e: SseEvent): Client {
    match e
    case MessageStart(id, model) => if c.Waiting? then Reading(id, model, [], false) else Broken
    case TextStart(i) =>
      if c.Reading? && !c.open && i == |c.blocks| then c.(blocks := c.blocks + [TextBlock("")], open := true) else Broken
    case ToolStart(i, id, name) =>
      if c.Reading? && !c.open && i == |c.blocks| then c.(blocks := c.blocks + [ToolBlock(id, name, "")], open := true)
      else Broken
    case TextDelta(i, text) => if OpenAt(c, i) && c.blocks[i].TextBlock? then Grow(c, text) else Broken
    case ArgsDelta(i, args) => if OpenAt(c, i) && c.blocks[i].ToolBlock? then Grow(c, args) else Broken
    case BlockStop(i) => if OpenAt(c, i) then c.(open := false) else Broken
    case MessageDelta(stop, output) =>
      if c.Reading? && !c.open then Ending(Message(c.id, c.model, c.blocks, stop, output)) else Broken
    case MessageStop => if c.Ending? then Done(c.message) else Broken
  }

  function ReadAll(events: seq<SseEvent>): Client {
    if events == [] then Waiting else Read(ReadAll(events[..|events| - 1]), events[|events| - 1])
  }
}
