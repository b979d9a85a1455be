/** The stream translator and its two sinks as the program holds them: fields updated call
    by call, each operation proved to be its function in module Sinks. */
module Translator {
  import opened Configs
  import opened Pieces
  import opened Sinks
  import opened StreamLaws

  /** Writes each event to the client as it happens. */
  class SseSink {
    var index: nat
    var openIdx: Option<nat>
    var events: seq<SseEvent>

    ghost function Value(): Sink
      reads this
    {
      Sse(index, openIdx, events)
    }

    constructor ()
      ensures Value() == NEW_SSE
    {
      index, openIdx, events := 0, None, [];
    }

    method Write(e: SseEvent)
      modifies this`events
      ensures events == old(events) + [e]
    {
      events := events + [e];
    }

    method Start(id: string, model: string)
      modifies this
      ensures Value() == Sinks.Start(old(Value()), id, model)
    {
      Write(MessageStart(if id == "" then DEFAULT_ID else id, model));
    }

    method OpenText()
      modifies this
      ensures Value() == Sinks.OpenText(old(Value()))
    {
      var idx := index;
      index := index + 1;
      openIdx := Some(idx);
      Write(TextStart(idx));
    }

    method SayText(text: string)
      requires openIdx.Some?
      modifies this
      ensures Value() == Sinks.SayText(old(Value()), text)
    {
      Write(TextDelta(openIdx.value, text));
    }

    method OpenTool(id: string, name: string)
      modifies this
      ensures Value() == Sinks.OpenTool(old(Value()), id, name)
    {
      var idx := index;
      index := index + 1;
      openIdx := Some(idx);
      Write(ToolStart(idx, id, name));
    }

    method SayArgs(partial: string)
      requires openIdx.Some?
      modifies this
      ensures Value() == Sinks.SayArgs(old(Value()), partial)
    {
      Write(ArgsDelta(openIdx.value, partial));
    }

    method CloseBlock()
      modifies this
      ensures Value() == Sinks.CloseBlock(old(Value()))
    {
      if openIdx.None? {
        return;
      }
      Write(BlockStop(openIdx.value));
      openIdx := None;
    }

    method Finish(stop: string, input: int, output: int)
      modifies this
      ensures Value() == Sinks.Finish(old(Value()), stop, input, output)
    {
      Write(MessageDelta(stop, output));
      Write(MessageStop);
      assert old(events) + [MessageDelta(stop, output)] + [MessageStop]
          == old(events) + [MessageDelta(stop, output), MessageStop];
    }
  }

  /** Accumulates the same calls into one message. */
  class JsonSink {
    const decode: Decoder
    var id: string
    var model: string
    var content: seq<Content>
    var curText: Option<string>
    var curTool: Option<Accum>
    var stopReason: string
    var inputTokens: int
    var outputTokens: int

    ghost function Value(): Sink
      reads this
    {
      Json(decode, id, model, content, curText, curTool, stopReason, inputTokens, outputTokens)
    }

    constructor (decode: Decoder)
      ensures Value() == NewJson(decode)
    {
      this.decode := decode;
      id, model, content, curText, curTool := "", "", [], None, None;
      stopReason, inputTokens, outputTokens := "", 0, 0;
    }

    method Start(id: string, model: string)
      modifies this
      ensures Value() == Sinks.Start(old(Value()), id, model)
    {
      this.id, this.model := id, model;
    }

    method OpenText()
      modifies this
      ensures Value() == Sinks.OpenText(old(Value()))
    {
      curText := Some("");
    }

    method SayText(text: string)
      modifies this
      ensures Value() == Sinks.SayText(old(Value()), text)
    {
      if curText.Some? {
        curText := Some(curText.value + text);
      }
    }

    method OpenTool(id: string, name: string)
      modifies this
      ensures Value() == Sinks.OpenTool(old(Value()), id, name)
    {
      curTool := Some(Accum(id, name, ""));
    }

    method SayArgs(partial: string)
      modifies this
      ensures Value() == Sinks.SayArgs(old(Value()), partial)
    {
      if curTool.Some? {
        curTool := Some(curTool.value.(args := curTool.value.args + partial));
      }
    }

    method CloseBlock()
      modifies this
      ensures Value() == Sinks.CloseBlock(old(Value()))
    {
      if curText.Some? {
        content := content + [TextContent(curText.value)];
        curText := None;
      }
      if curTool.Some? {
        var raw := curTool.value.args;
        if raw == "" {
          raw := "{}";
        }
        var decoded := decode(raw);
        var input := if decoded.Some? then decoded.value else Object(map[]);
        content := content + [ToolContent(curTool.value.id, curTool.value.name, input)];
        curTool := None;
      }
    }

    method Finish(stop: string, input: int, output: int)
      modifies this
      ensures Value() == Sinks.Finish(old(Value()), stop, input, output)
    {
      stopReason := stop;
      inputTokens, outputTokens := input, output;
    }
  }

  /** Whichever sink a translation drives. */
  datatype AnySink = Live(sse: SseSink) | Buffer(json: JsonSink) {
    function Object(): object {
      match this
      case Live(sse) => sse
      case Buffer(json) => json
    }

    ghost function Value(): Sink
      reads Object()
    {
      match this
      case Live(sse) => sse.Value()
      case Buffer(json) => json.Value()
    }

    method Start(id: string, model: string)
      modifies Object()
      ensures Value() == Sinks.Start(old(Value()), id, model)
    {
      match this
      case Live(sse) => sse.Start(id, model);
      case Buffer(json) => json.Start(id, model);
    }

    method OpenText()
      modifies Object()
      ensures Value() == Sinks.OpenText(old(Value()))
    {
      match this
      case Live(sse) => sse.OpenText();
      case Buffer(json) => json.OpenText();
    }

    method SayText(text: string)
      requires CanSay(Value())
      modifies Object()
      ensures Value() == Sinks.SayText(old(Value()), text)
    {
      match this
      case Live(sse) => sse.SayText(text);
      case Buffer(json) => json.SayText(text);
    }

    method OpenTool(id: string, name: string)
      modifies Object()
      ensures Value() == Sinks.OpenTool(old(Value()), id, name)
    {
      match this
      case Live(sse) => sse.OpenTool(id, name);
      case Buffer(json) => json.OpenTool(id, name);
    }

    method SayArgs(partial: string)
      requires CanSay(Value())
      modifies Object()
      ensures Value() == Sinks.SayArgs(old(Value()), partial)
    {
      match this
      case Live(sse) => sse.SayArgs(partial);
      case Buffer(json) => json.SayArgs(partial);
    }

    method CloseBlock()
      modifies Object()
      ensures Value() == Sinks.CloseBlock(old(Value()))
    {
      match this
      case Live(sse) => sse.CloseBlock();
      case Buffer(json) => json.CloseBlock();
    }

    method Finish(stop: string, input: int, output: int)
      modifies Object()
      ensures Value() == Sinks.Finish(old(Value()), stop, input, output)
    {
      match this
      case Live(sse) => sse.Finish(stop, input, output);
      case Buffer(json) => json.Finish(stop, input, output);
    }
  }

  /** The block in flight while translating one stream, and the totals seen so far. */
  class StreamState {
    const sink: AnySink
    var started: bool
    var openKind: Kind
    var openToolIdx: int
    var stopReason: string
    var inputTokens: int
    var outputTokens: int
    var totalTokens: int

    ghost function Blocking(): Machine
      reads this, sink.Object()
    {
      Machine(openKind, openToolIdx, sink.Value())
    }

    ghost function Value(): Translation
      reads this, sink.Object()
    {
      Translation(Blocking(), started, stopReason, inputTokens, outputTokens, totalTokens)
    }

    /** What is open here is what is open in the sink. */
    ghost predicate Valid()
      reads this, sink.Object()
    {
      sink.Object() != this && Coupled(Blocking())
    }

    constructor (sink: AnySink)
      requires Coupled(Fresh(sink.Value()).m)
      ensures this.sink == sink && Valid() && Value() == Fresh(sink.Value())
    {
      this.sink := sink;
      started, openKind, openToolIdx, stopReason := false, NoBlock, -1, "";
      inputTokens, outputTokens, totalTokens := 0, 0, 0;
    }

    method CloseIfOpen()
      requires Valid()
      modifies this`openKind, sink.Object()
      ensures Valid() && Blocking() == Sinks.CloseIfOpen(old(Blocking()))
    {
      if openKind != NoBlock {
        sink.CloseBlock();
        openKind := NoBlock;
      }
    }

    method TextPiece(content: string)
      requires Valid()
      modifies this`openKind, sink.Object()
      ensures Valid() && Blocking() == Feed(old(Blocking()), Text(content))
    {
      if openKind != InText {
        CloseIfOpen();
        sink.OpenText();
        openKind := InText;
      }
      sink.SayText(content);
    }

    method ToolPiece(index: int, id: string, name: string, args: string)
      requires Valid()
      modifies this`openKind, this`openToolIdx, sink.Object()
      ensures Valid() && Blocking() == Feed(old(Blocking()), Args(index, id, name, args))
    {
      if openKind != InTool || openToolIdx != index {
        CloseIfOpen();
        sink.OpenTool(id, name);
        openKind := InTool;
        openToolIdx := index;
      }
      sink.SayArgs(args);
    }

    /** A whole tool call always gets a fresh block, and leaves the index alone. */
    method WholePiece(id: string, name: string, args: string)
      requires Valid()
      modifies this`openKind, sink.Object()
      ensures Valid() && Blocking() == Feed(old(Blocking()), Whole(id, name, args))
    {
      CloseIfOpen();
      sink.OpenTool(id, name);
      sink.SayArgs(args);
      openKind := InTool;
    }

    method ApplyDeltas(ts: seq<ToolDelta>)
      requires Valid()
      modifies this`openKind, this`openToolIdx, sink.Object()
      ensures Valid() && Blocking() == FeedAll(old(Blocking()), DeltaPieces(ts))
    {
      hide Feed, Coupled;
      ghost var m := Blocking();
      for i := 0 to |ts|
        invariant Valid() && Blocking() == FeedAll(m, DeltaPieces(ts[..i]))
      {
        var tc := ts[i];
        assert ts[..i + 1][..i] == ts[..i];
        FeedAllOne(m, DeltaPieces(ts[..i]), Args(tc.index, tc.id, tc.name, tc.args));
        ToolPiece(tc.index, tc.id, tc.name, tc.args);
      }
      assert ts[..|ts|] == ts;
    }

    method ApplyWholes(ts: seq<ToolCall>)
      requires Valid()
      modifies this`openKind, this`openToolIdx, sink.Object()
      ensures Valid() && Blocking() == FeedAll(old(Blocking()), WholePieces(ts))
    {
      hide Feed, Coupled;
      ghost var m := Blocking();
      for i := 0 to |ts|
        invariant Valid() && Blocking() == FeedAll(m, WholePieces(ts[..i]))
      {
        var tc := ts[i];
        assert ts[..i + 1][..i] == ts[..i];
        FeedAllOne(m, WholePieces(ts[..i]), Whole(tc.id, tc.name, tc.args));
        WholePiece(tc.id, tc.name, tc.args);
      }
      assert ts[..|ts|] == ts;
    }

    method ApplyChoice(c: ChunkChoice)
      requires Valid()
      modifies this`openKind, this`openToolIdx, sink.Object()
      ensures Valid() && Blocking() == FeedAll(old(Blocking()), ChoicePieces(c))
    {
      hide Feed, Coupled, DeltaPieces, WholePieces;
      ghost var m := Blocking();
      var content := c.content;
      if content == "" && |c.tools| == 0 && c.message != "" {
        content := c.message;
      }
      FeedAllOne(m, [], Text(content));
      FeedAllConcat(m, TextPieces(content), DeltaPieces(c.tools));
      FeedAllConcat(m, TextPieces(content) + DeltaPieces(c.tools), WholePieces(c.messageTools));
      hide FeedAll;
      if content != "" {
        TextPiece(content);
      }
      ApplyDeltas(c.tools);
      ApplyWholes(c.messageTools);
    }

    method ApplyChoices(cs: seq<ChunkChoice>)
      requires Valid()
      modifies this`openKind, this`openToolIdx, this`stopReason, sink.Object()
      ensures Valid() && Blocking() == FeedAll(old(Blocking()), ChoicesPieces(cs))
      ensures stopReason == StopAfter(old(stopReason), cs)
    {
      hide Feed, Coupled, ChoicePieces;
      ghost var m := Blocking();
      for i := 0 to |cs|
        invariant Valid() && Blocking() == FeedAll(m, ChoicesPieces(cs[..i]))
        invariant stopReason == StopAfter(old(stopReason), cs[..i])
      {
        assert cs[..i + 1][..i] == cs[..i];
        FeedAllConcat(m, ChoicesPieces(cs[..i]), ChoicePieces(cs[i]));
        ApplyChoice(cs[i]);
        if cs[i].finish != "" {
          stopReason := MapStopReason(cs[i].finish);
        }
      }
      assert cs[..|cs|] == cs;
    }

    method ApplyChunk(chunk: Chunk)
      requires Valid()
      modifies this, sink.Object()
      ensures Valid() && Value() == Apply(old(Value()), chunk)
    {
      hide FeedAll, ChoicesPieces, StopAfter, Sinks.Start;
      if !started {
        sink.Start(chunk.id, chunk.model);
        started := true;
      }
      assert Value() == Begin(old(Value()), chunk);
      ApplyChoices(chunk.choices);
      if chunk.usage.Some? {
        inputTokens := chunk.usage.value.openai.prompt;
        outputTokens := chunk.usage.value.openai.completion;
        totalTokens := chunk.usage.value.openai.total;
      }
    }

    method FinishStream() returns (total: int)
      requires Valid()
      modifies this, sink.Object()
      ensures (sink.Value(), total) == FinishAll(old(Value()))
    {
      hide Sinks.Finish, Sinks.CloseBlock;
      CloseIfOpen();
      if stopReason == "" {
        stopReason := "end_turn";
      }
      if outputTokens == 0 && totalTokens > 0 {
        outputTokens := totalTokens;
      }
      if totalTokens == 0 {
        totalTokens := inputTokens + outputTokens;
      }
      sink.Finish(stopReason, inputTokens, outputTokens);
      total := totalTokens;
    }
  }

  lemma FeedAllOne(m: Machine, ps: seq<Piece>, p: Piece)
    requires Coupled(m)
    ensures FeedAll(m, ps + [p]) == Feed(FeedAll(m, ps), p)
    ensures FeedAll(m, []) == m && FeedAll(m, [p]) == Feed(m, p)
  {
  }

  /** Drives a sink through one whole stream of decoded chunks. */
  method TranslateStream(sink: AnySink, chunks: seq<Chunk>) returns (total: int)
    requires Coupled(Fresh(sink.Value()).m)
    modifies sink.Object()
    ensures (sink.Value(), total) == Translate(old(sink.Value()), chunks)
  {
    hide Apply, FinishAll, Coupled;
    var st := new StreamState(sink);
    ghost var s := sink.Value();
    for i := 0 to |chunks|
      invariant fresh(st) && st.sink == sink && st.Valid() && st.Value() == ApplyAll(Fresh(s), chunks[..i])
    {
      assert chunks[..i + 1][..i] == chunks[..i];
      st.ApplyChunk(chunks[i]);
    }
    assert chunks[..|chunks|] == chunks;
    total := st.FinishStream();
  }

  /** A streaming caller's reply: what a strict client reads off the events, and decodes as
      it will, is what the buffering sink would have held. */
  method RespondStream(chunks: seq<Chunk>, ghost decode: Decoder) returns (events: seq<SseEvent>, total: int)
    ensures ReadAll(events) == LiveMessage(chunks)
    ensures chunks != [] ==>
              && ReadAll(events).Done? && Translate(NewJson(decode), chunks).0.Json?
              && AsResponse(decode, ReadAll(events).message) == Response(Translate(NewJson(decode), chunks).0)
              && total == Translate(NewJson(decode), chunks).1
  {
    hide Translate, ReadAll;
    var sse := new SseSink();
    total := TranslateStream(Live(sse), chunks);
    events := sse.events;
    if chunks != [] {
      SinksAgree(decode, chunks);
    }
  }

  /** A non-streaming caller's reply, with the id defaulted. */
  method RespondJson(chunks: seq<Chunk>, decode: Decoder)
    returns (id: string, model: string, content: seq<Content>, stop: string, input: int, output: int, total: int)
    ensures (Translate(NewJson(decode), chunks).0.Json?)
    ensures (id, model, content, stop, output) == Response(Translate(NewJson(decode), chunks).0)
    ensures chunks != [] ==>
              content == ContentsFor(decode, Blocks(Flatten(chunks))) && total == TotalTokens(LastUsage(chunks))
  {
    hide Translate, Blocks, Flatten;
    var json := new JsonSink(decode);
    total := TranslateStream(Buffer(json), chunks);
    id := if json.id == "" then DEFAULT_ID else json.id;
    model, content, stop := json.model, json.content, json.stopReason;
    input, output := json.inputTokens, json.outputTokens;
    if chunks != [] {
      BufferedMessage(decode, chunks);
    }
  }
}
