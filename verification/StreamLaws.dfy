/** The two sinks say the same thing, and it is the coalesced content of the stream. */
module StreamLaws {
  import opened Configs
  import opened Pieces
  import opened Sinks

  // ---- what a translation depends on ----

  function LastFinishIn(cs: seq<ChunkChoice>): string {
    if cs == [] then ""
    else if cs[|cs| - 1].finish != "" then cs[|cs| - 1].finish
    else LastFinishIn(cs[..|cs| - 1])
  }

  /** The last finish reason anywhere in the stream. */
  function LastFinish(chunks: seq<Chunk>): string {
    if chunks == [] then ""
    else
      var f := LastFinishIn(chunks[|chunks| - 1].choices);
      if f != "" then f else LastFinish(chunks[..|chunks| - 1])
  }

  function StopReason(chunks: seq<Chunk>): string {
    if LastFinish(chunks) == "" then "end_turn" else MapStopReason(LastFinish(chunks))
  }

  /** The last usage reported. */
  function LastUsage(chunks: seq<Chunk>): Usage {
    if chunks == [] then Usage(0, 0, 0)
    else if chunks[|chunks| - 1].usage.Some? then chunks[|chunks| - 1].usage.value.openai
    else LastUsage(chunks[..|chunks| - 1])
  }

  lemma {:induction false} StopAfterIs(stop: string, cs: seq<ChunkChoice>)
    ensures StopAfter(stop, cs) == if LastFinishIn(cs) == "" then stop else MapStopReason(LastFinishIn(cs))
  {
    if cs != [] {
      StopAfterIs(stop, cs[..|cs| - 1]);
    }
  }

  lemma {:induction false} ApplyAllTotals(sink: Sink, chunks: seq<Chunk>)
    requires Coupled(Fresh(sink).m)
    ensures var t := ApplyAll(Fresh(sink), chunks);
            && (t.started <==> chunks != [])
            && t.stop == (if LastFinish(chunks) == "" then "" else MapStopReason(LastFinish(chunks)))
            && Usage(t.input, t.output, t.total) == LastUsage(chunks)
  {
    hide FeedAll, ChoicesPieces, Start, Coupled, StopAfter;
    if chunks != [] {
      var init, last := chunks[..|chunks| - 1], chunks[|chunks| - 1];
      ApplyAllTotals(sink, init);
      StopAfterIs(ApplyAll(Fresh(sink), init).stop, last.choices);
    }
  }

  function Started(sink: Sink, chunk: Chunk): Machine {
    Machine(NoBlock, -1, Start(sink, chunk.id, chunk.model))
  }

  lemma ApplyFeeds(t: Translation, chunk: Chunk)
    requires Coupled(t.m)
    ensures Apply(t, chunk).m == FeedAll(Begin(t, chunk).m, ChoicesPieces(chunk.choices))
  {
  }

  /** A translation is the start, then one feed of the flattened pieces. */
  lemma {:induction false} ApplyAllIs(sink: Sink, chunks: seq<Chunk>)
    requires Coupled(Fresh(sink).m) && chunks != []
    ensures Coupled(Started(sink, chunks[0]))
    ensures ApplyAll(Fresh(sink), chunks).m == FeedAll(Started(sink, chunks[0]), Flatten(chunks))
  {
    var n := |chunks| - 1;
    var init, last := chunks[..n], chunks[n];
    var before := ApplyAll(Fresh(sink), init);
    ApplyFeeds(before, last);
    ApplyAllTotals(sink, init);
    hide FeedAll, ChoicesPieces, Apply;
    if n == 0 {
      assert Flatten(chunks) == ChoicesPieces(last.choices);
    } else {
      ApplyAllIs(sink, init);
      FeedAllConcat(Started(sink, chunks[0]), Flatten(init), ChoicesPieces(last.choices));
    }
  }

  // ---- the buffered message ----

  function ContentFor(decode: Decoder, b: Block): Content {
    match b
    case TextBlock(text) => TextContent(text)
    case ToolBlock(id, name, args) => ToolContent(id, name, InputFor(decode, args))
  }

  function ContentsFor(decode: Decoder, bs: seq<Block>): seq<Content> {
    if bs == [] then [] else ContentsFor(decode, bs[..|bs| - 1]) + [ContentFor(decode, bs[|bs| - 1])]
  }

  function KindAfter(ps: seq<Piece>): Kind {
    if ps == [] then NoBlock else if ps[|ps| - 1].Text? then InText else InTool
  }

  /** The buffer while the pieces `ps` have been fed: all blocks but the last are finished
      content, the last is the one being accumulated. */
  ghost predicate Buffers(m: Machine, decode: Decoder, id: string, model: string, ps: seq<Piece>) {
    var bs := Blocks(ps);
    && m.kind == KindAfter(ps) && m.toolIdx == LastIndex(ps)
    && m.sink.Json? && m.sink.decode == decode && m.sink.id == id && m.sink.model == model
    && match m.kind
       case NoBlock => bs == [] && m.sink.content == [] && m.sink.curText == None && m.sink.curTool == None
       case InText =>
         && bs != [] && bs[|bs| - 1].TextBlock? && m.sink.content == ContentsFor(decode, bs[..|bs| - 1])
         && m.sink.curText == Some(bs[|bs| - 1].text) && m.sink.curTool == None
       case InTool =>
         && bs != [] && bs[|bs| - 1].ToolBlock? && m.sink.content == ContentsFor(decode, bs[..|bs| - 1])
         && m.sink.curText == None
         && m.sink.curTool == Some(Accum(bs[|bs| - 1].id, bs[|bs| - 1].name, bs[|bs| - 1].args))
  }

  lemma ClosesBuffer(m: Machine, decode: Decoder, id: string, model: string, ps: seq<Piece>)
    requires Buffers(m, decode, id, model, ps)
    ensures CloseIfOpen(m).sink.content == ContentsFor(decode, Blocks(ps))
    ensures CloseIfOpen(m).sink == m.sink.(content := ContentsFor(decode, Blocks(ps)), curText := None, curTool := None)
  {
  }

  lemma JoinsWhenOpen(m: Machine, ps: seq<Piece>, p: Piece)
    requires m.kind == KindAfter(ps) && m.toolIdx == LastIndex(ps)
    ensures Joins(ps, p) <==> match p
                              case Text(_) => m.kind == InText
                              case Args(index, _, _, _) => m.kind == InTool && m.toolIdx == index
                              case Whole(_, _, _) => false
  {
  }

  lemma FeedJoinsBuffer(m: Machine, decode: Decoder, id: string, model: string, ps: seq<Piece>, p: Piece)
    requires Coupled(m) && Buffers(m, decode, id, model, ps) && Joins(ps, p)
    ensures Buffers(Feed(m, p), decode, id, model, ps + [p])
  {
    hide Blocks, Joins;
    assert (ps + [p])[..|ps|] == ps;
    JoinsWhenOpen(m, ps, p);
    BlocksAppend(ps, p);
    var bs := Blocks(ps);
    var b := Extend(bs[|bs| - 1], Payload(p));
    assert (bs[..|bs| - 1] + [b])[..|bs| - 1] == bs[..|bs| - 1];
  }

  lemma FeedOpensBuffer(m: Machine, decode: Decoder, id: string, model: string, ps: seq<Piece>, p: Piece)
    requires Coupled(m) && Buffers(m, decode, id, model, ps) && !Joins(ps, p)
    ensures Buffers(Feed(m, p), decode, id, model, ps + [p])
  {
    hide Blocks, Joins, ContentsFor;
    assert (ps + [p])[..|ps|] == ps;
    JoinsWhenOpen(m, ps, p);
    BlocksAppend(ps, p);
    ClosesBuffer(m, decode, id, model, ps);
    hide CloseBlock;
    var bs := Blocks(ps);
    assert (bs + [NewBlock(p)])[..|bs|] == bs;
    assert "" + Payload(p) == Payload(p);
  }

  lemma StartsBuffer(decode: Decoder, id: string, model: string)
    ensures var start := Machine(NoBlock, -1, Start(NewJson(decode), id, model));
            Coupled(start) && Buffers(start, decode, id, model, [])
  {
    assert Blocks([]) == [];
  }

  lemma {:induction false} FeedAllBuffers(decode: Decoder, id: string, model: string, ps: seq<Piece>)
    ensures Buffers(FeedAll(Machine(NoBlock, -1, Start(NewJson(decode), id, model)), ps), decode, id, model, ps)
  {
    StartsBuffer(decode, id, model);
    var start := Machine(NoBlock, -1, Start(NewJson(decode), id, model));
    hide Start, NewJson, Coupled, Buffers, Blocks, Feed, Joins;
    if ps != [] {
      var n := |ps| - 1;
      FeedAllBuffers(decode, id, model, ps[..n]);
      var m := FeedAll(start, ps[..n]);
      if Joins(ps[..n], ps[n]) {
        FeedJoinsBuffer(m, decode, id, model, ps[..n], ps[n]);
      } else {
        FeedOpensBuffer(m, decode, id, model, ps[..n], ps[n]);
      }
      assert ps == ps[..n] + [ps[n]];
    }
  }

  /** The buffered message is the stream's first id and model, its blocks in order, its
      last finish reason and its last usage. */
  lemma BufferedMessage(decode: Decoder, chunks: seq<Chunk>)
    requires chunks != []
    ensures var (sink, total) := Translate(NewJson(decode), chunks);
            && sink == Json(decode, chunks[0].id, chunks[0].model, ContentsFor(decode, Blocks(Flatten(chunks))), None, None,
                            StopReason(chunks), LastUsage(chunks).prompt, OutputTokens(LastUsage(chunks)))
            && total == TotalTokens(LastUsage(chunks))
  {
    hide Blocks, Flatten;
    ApplyAllIs(NewJson(decode), chunks);
    ApplyAllTotals(NewJson(decode), chunks);
    FeedAllBuffers(decode, chunks[0].id, chunks[0].model, Flatten(chunks));
    ClosesBuffer(ApplyAll(Fresh(NewJson(decode)), chunks).m, decode, chunks[0].id, chunks[0].model, Flatten(chunks));
    StopIsMapped(chunks);
  }

  lemma StopIsMapped(chunks: seq<Chunk>)
    ensures MapStopReason(LastFinish(chunks)) != ""
  {
  }

  // ---- the live events ----

  /** The live stream while `ps` have been fed, as the strict client has read it. */
  ghost predicate Streams(m: Machine, id: string, model: string, ps: seq<Piece>) {
    var bs := Blocks(ps);
    && m.kind == KindAfter(ps) && m.toolIdx == LastIndex(ps)
    && m.sink.Sse? && m.sink.index == |bs|
    && m.sink.openIdx == (if ps == [] then None else Some(|bs| - 1))
    && (ps != [] ==> bs != [] && (bs[|bs| - 1].TextBlock? <==> m.kind == InText))
    && ReadAll(m.sink.events) == Reading(id, model, bs, ps != [])
  }

  lemma ReadOn(events: seq<SseEvent>, e: SseEvent)
    ensures ReadAll(events + [e]) == Read(ReadAll(events), e)
  {
  }

  lemma ClosesStream(m: Machine, id: string, model: string, ps: seq<Piece>)
    requires Coupled(m) && Streams(m, id, model, ps)
    ensures var s := CloseIfOpen(m).sink;
            && s.Sse? && s.index == |Blocks(ps)| && s.openIdx == None
            && ReadAll(s.events) == Reading(id, model, Blocks(ps), false)
  {
  }

  lemma OpensStream(s: Sink, id: string, model: string, bs: seq<Block>, start: SseEvent, b: Block)
    requires s.Sse? && s.index == |bs| && ReadAll(s.events) == Reading(id, model, bs, false)
    requires (start == TextStart(s.index) && b == TextBlock(""))
             || (start.ToolStart? && start.index == s.index && b == ToolBlock(start.id, start.name, ""))
    ensures ReadAll(s.events + [start]) == Reading(id, model, bs + [b], true)
  {
  }

  lemma SaysStream(events: seq<SseEvent>, id: string, model: string, bs: seq<Block>, delta: SseEvent, said: string)
    requires bs != [] && ReadAll(events) == Reading(id, model, bs, true)
    requires (bs[|bs| - 1].TextBlock? && delta == TextDelta(|bs| - 1, said))
             || (bs[|bs| - 1].ToolBlock? && delta == ArgsDelta(|bs| - 1, said))
    ensures ReadAll(events + [delta]) == Reading(id, model, bs[..|bs| - 1] + [Extend(bs[|bs| - 1], said)], true)
  {
  }

  lemma FeedJoinsStream(m: Machine, id: string, model: string, ps: seq<Piece>, p: Piece)
    requires Coupled(m) && Streams(m, id, model, ps) && Joins(ps, p)
    ensures Streams(Feed(m, p), id, model, ps + [p])
  {
    hide Blocks, Joins, ReadAll;
    assert (ps + [p])[..|ps|] == ps;
    JoinsWhenOpen(m, ps, p);
    BlocksAppend(ps, p);
    var bs := Blocks(ps);
    SaysStream(m.sink.events, id, model, bs,
               if p.Text? then TextDelta(|bs| - 1, p.text) else ArgsDelta(|bs| - 1, p.args), Payload(p));
  }

  function StartEvent(index: nat, p: Piece): SseEvent {
    if p.Text? then TextStart(index) else ToolStart(index, p.id, p.name)
  }

  function DeltaEvent(index: nat, p: Piece): SseEvent {
    if p.Text? then TextDelta(index, p.text) else ArgsDelta(index, p.args)
  }

  /** A piece that continues nothing closes what is open and starts the next block. */
  lemma FeedOpens(m: Machine, ps: seq<Piece>, p: Piece)
    requires Coupled(m) && m.sink.Sse? && !Joins(ps, p)
    requires m.kind == KindAfter(ps) && m.toolIdx == LastIndex(ps)
    ensures CloseIfOpen(m).sink.Sse?
    ensures var s, m' := CloseIfOpen(m).sink, Feed(m, p);
            && m'.kind == KindAfter(ps + [p]) && m'.toolIdx == LastIndex(ps + [p])
            && m'.sink == Sse(s.index + 1, Some(s.index), s.events + [StartEvent(s.index, p)] + [DeltaEvent(s.index, p)])
  {
    assert (ps + [p])[..|ps|] == ps;
    JoinsWhenOpen(m, ps, p);
    hide Joins;
  }

  /** A block's start and its first content read as the whole new block. */
  lemma ReadsNewBlock(s: Sink, id: string, model: string, bs: seq<Block>, p: Piece)
    requires s.Sse? && s.index == |bs| && ReadAll(s.events) == Reading(id, model, bs, false)
    ensures ReadAll(s.events + [StartEvent(s.index, p)] + [DeltaEvent(s.index, p)])
         == Reading(id, model, bs + [NewBlock(p)], true)
  {
    hide ReadAll;
    var b := if p.Text? then TextBlock("") else ToolBlock(p.id, p.name, "");
    OpensStream(s, id, model, bs, StartEvent(|bs|, p), b);
    SaysStream(s.events + [StartEvent(|bs|, p)], id, model, bs + [b], DeltaEvent(|bs|, p), Payload(p));
    assert (bs + [b])[..|bs|] == bs;
    assert "" + Payload(p) == Payload(p);
  }

  lemma KindOfLast(ps: seq<Piece>, p: Piece)
    ensures KindAfter(ps + [p]) == if p.Text? then InText else InTool
  {
  }

  lemma FeedOpensStream(m: Machine, id: string, model: string, ps: seq<Piece>, p: Piece)
    requires Coupled(m) && Streams(m, id, model, ps) && !Joins(ps, p)
    ensures Streams(Feed(m, p), id, model, ps + [p])
  {
    hide Blocks, Joins, ReadAll, CloseIfOpen, Feed, Coupled, LastIndex, KindAfter, StartEvent, DeltaEvent;
    BlocksAppend(ps, p);
    FeedOpens(m, ps, p);
    ClosesStream(m, id, model, ps);
    ReadsNewBlock(CloseIfOpen(m).sink, id, model, Blocks(ps), p);
    KindOfLast(ps, p);
  }

  lemma StartsStream(id: string, model: string)
    ensures var start := Machine(NoBlock, -1, Start(NEW_SSE, id, model));
            Coupled(start) && Streams(start, IdOr(id), model, [])
  {
    assert Blocks([]) == [];
    ReadOn([], MessageStart(IdOr(id), model));
    assert [] + [MessageStart(IdOr(id), model)] == [MessageStart(IdOr(id), model)];
  }

  lemma {:induction false} FeedAllStreams(id: string, model: string, ps: seq<Piece>)
    ensures Streams(FeedAll(Machine(NoBlock, -1, Start(NEW_SSE, id, model)), ps), IdOr(id), model, ps)
  {
    StartsStream(id, model);
    var start := Machine(NoBlock, -1, Start(NEW_SSE, id, model));
    hide Start, NEW_SSE, IdOr, Coupled, Streams, Blocks, Feed, Joins;
    if ps != [] {
      var n := |ps| - 1;
      FeedAllStreams(id, model, ps[..n]);
      if Joins(ps[..n], ps[n]) {
        FeedJoinsStream(FeedAll(start, ps[..n]), IdOr(id), model, ps[..n], ps[n]);
      } else {
        FeedOpensStream(FeedAll(start, ps[..n]), IdOr(id), model, ps[..n], ps[n]);
      }
      assert ps == ps[..n] + [ps[n]];
    }
  }

  lemma EndsStream(events: seq<SseEvent>, id: string, model: string, bs: seq<Block>, stop: string, output: int)
    requires ReadAll(events) == Reading(id, model, bs, false)
    ensures ReadAll(events + [MessageDelta(stop, output), MessageStop]) == Done(Message(id, model, bs, stop, output))
  {
    hide ReadAll;
    var e1, e2 := MessageDelta(stop, output), MessageStop;
    ReadOn(events, e1);
    ReadOn(events + [e1], e2);
    assert events + [e1, e2] == events + [e1] + [e2];
  }

  function EventsOf(s: Sink): seq<SseEvent> {
    if s.Sse? then s.events else []
  }

  /** The live stream of a translation, as the strict client reads it. */
  function LiveMessage(chunks: seq<Chunk>): Client {
    ReadAll(EventsOf(Translate(NEW_SSE, chunks).0))
  }

  /** Every stream with a chunk in it comes out as a well-formed event sequence, which a
      strict client reads as exactly the stream's blocks, stop reason and output. */
  lemma StreamIsReadable(chunks: seq<Chunk>)
    requires chunks != []
    ensures LiveMessage(chunks) == Done(Message(IdOr(chunks[0].id), chunks[0].model, Blocks(Flatten(chunks)),
                                           StopReason(chunks), OutputTokens(LastUsage(chunks))))
    ensures Translate(NEW_SSE, chunks).1 == TotalTokens(LastUsage(chunks))
  {
    hide Blocks, Flatten, ReadAll;
    var ps := Flatten(chunks);
    ApplyAllIs(NEW_SSE, chunks);
    ApplyAllTotals(NEW_SSE, chunks);
    FeedAllStreams(chunks[0].id, chunks[0].model, ps);
    var m := ApplyAll(Fresh(NEW_SSE), chunks).m;
    ClosesStream(m, IdOr(chunks[0].id), chunks[0].model, ps);
    StopIsMapped(chunks);
    EndsStream(CloseIfOpen(m).sink.events, IdOr(chunks[0].id), chunks[0].model, Blocks(ps),
               StopReason(chunks), OutputTokens(LastUsage(chunks)));
  }

  /** Without a decodable chunk the live stream ends without ever starting, which no
      client accepts: at least one chunk is exactly what it takes. */
  lemma ReadableIff(chunks: seq<Chunk>)
    ensures LiveMessage(chunks).Done? <==> chunks != []
  {
    if chunks != [] {
      StreamIsReadable(chunks);
    } else {
      var e1, e2 := MessageDelta("end_turn", 0), MessageStop;
      ReadOn([], e1);
      ReadOn([e1], e2);
      assert [] + [e1] == [e1] && [e1] + [e2] == [e1, e2];
      assert [] + [e1, e2] == [e1, e2];
    }
  }

  /** The message the non-streaming caller gets, with the defaults filled in. */
  function Response(s: Sink): (string, string, seq<Content>, string, int)
    requires s.Json?
  {
    (IdOr(s.id), s.model, s.content, s.stop, s.output)
  }

  /** The same of a message a client has read, once it decodes the arguments it gathered. */
  function AsResponse(decode: Decoder, m: Message): (string, string, seq<Content>, string, int) {
    (m.id, m.model, ContentsFor(decode, m.blocks), m.stop, m.output)
  }

  /** Streaming or not, the caller ends up with the same message: reading the live events
      block by block gives what the buffering sink holds, and both account the same. */
  lemma SinksAgree(decode: Decoder, chunks: seq<Chunk>)
    requires chunks != []
    ensures var (buffered, total) := Translate(NewJson(decode), chunks);
            && LiveMessage(chunks).Done? && buffered.Json?
            && AsResponse(decode, LiveMessage(chunks).message) == Response(buffered)
            && Translate(NEW_SSE, chunks).1 == total
  {
    hide Translate, Blocks, Flatten, ReadAll, LiveMessage;
    StreamIsReadable(chunks);
    BufferedMessage(decode, chunks);
  }
}
