/** What a caller of the translator reads, said of the stream's own chunks. */
module CallerLaws {
  import opened Configs
  import opened Pieces
  import opened Sinks
  import opened StreamLaws
  import opened Chunking

  // ---- the stop reason ----

  /** Choice `k` of chunk `i` gives a finish reason. */
  ghost predicate Finishes(chunks: seq<Chunk>, i: int, k: int) {
    0 <= i < |chunks| && 0 <= k < |chunks[i].choices| && chunks[i].choices[k].finish != ""
  }

  /** ... and nothing after it does. */
  ghost predicate FinishesLast(chunks: seq<Chunk>, i: int, k: int) {
    Finishes(chunks, i, k) && forall i', k' :: Finishes(chunks, i', k') ==> i' < i || (i' == i && k' <= k)
  }

  /** The last finish reason of the stream is this one. */
  ghost predicate EndsIn(chunks: seq<Chunk>, finish: string) {
    exists i, k :: FinishesLast(chunks, i, k) && chunks[i].choices[k].finish == finish
  }

  lemma {:induction false} LastOfChoices(cs: seq<ChunkChoice>) returns (k: int)
    ensures -1 <= k < |cs|
    ensures k >= 0 ==> cs[k].finish != "" && LastFinishIn(cs) == cs[k].finish
    ensures k < 0 ==> LastFinishIn(cs) == ""
    ensures forall k' :: k < k' < |cs| ==> cs[k'].finish == ""
  {
    if cs == [] {
      k := -1;
    } else if cs[|cs| - 1].finish != "" {
      k := |cs| - 1;
    } else {
      k := LastOfChoices(cs[..|cs| - 1]);
    }
  }

  lemma {:induction false} LastFinishAt(chunks: seq<Chunk>)
    ensures LastFinish(chunks) != "" ==> EndsIn(chunks, LastFinish(chunks))
    ensures LastFinish(chunks) == "" ==> forall i, k :: !Finishes(chunks, i, k)
  {
    if chunks != [] {
      var n := |chunks| - 1;
      var k := LastOfChoices(chunks[n].choices);
      if k >= 0 {
        assert FinishesLast(chunks, n, k);
      } else {
        LastFinishAt(chunks[..n]);
        assert forall i, k' :: Finishes(chunks, i, k') <==> Finishes(chunks[..n], i, k');
        if LastFinish(chunks) != "" {
          var i, j :| FinishesLast(chunks[..n], i, j) && chunks[..n][i].choices[j].finish == LastFinish(chunks);
          assert FinishesLast(chunks, i, j);
        }
      }
    }
  }

  lemma EndsInOne(chunks: seq<Chunk>, finish: string)
    requires finish != ""
    ensures EndsIn(chunks, finish) <==> LastFinish(chunks) == finish
  {
    hide LastFinish;
    LastFinishAt(chunks);
    if EndsIn(chunks, finish) {
      var i, k :| FinishesLast(chunks, i, k) && chunks[i].choices[k].finish == finish;
      assert Finishes(chunks, i, k);
      var i', k' :| FinishesLast(chunks, i', k') && chunks[i'].choices[k'].finish == LastFinish(chunks);
      assert Finishes(chunks, i', k');
    }
  }

  /** The stop reason both callers read: a tool call when the stream last finished in tool
      calls, the length limit or a content filter when it finished in those, and the end of
      the turn otherwise, no finish reason at all included. */
  lemma StopIsRead(decode: Decoder, chunks: seq<Chunk>)
    requires chunks != []
    ensures LiveMessage(chunks).Done? && Translate(NewJson(decode), chunks).0.Json?
    ensures var stop := LiveMessage(chunks).message.stop;
            && Response(Translate(NewJson(decode), chunks).0).3 == stop
            && (stop == "tool_use" <==> EndsIn(chunks, "tool_calls"))
            && (stop == "max_tokens" <==> EndsIn(chunks, "length"))
            && (stop == "stop_sequence" <==> EndsIn(chunks, "content_filter"))
            && (stop == "end_turn" <==>
                  !EndsIn(chunks, "tool_calls") && !EndsIn(chunks, "length") && !EndsIn(chunks, "content_filter"))
  {
    hide LiveMessage, Translate, EndsIn, LastFinish, Blocks, Flatten;
    StreamIsReadable(chunks);
    BufferedMessage(decode, chunks);
    EndsInOne(chunks, "tool_calls");
    EndsInOne(chunks, "length");
    EndsInOne(chunks, "content_filter");
  }

  // ---- tokens and names ----

  ghost predicate CountsLast(chunks: seq<Chunk>, i: int) {
    0 <= i < |chunks| && chunks[i].usage.Some? && forall k :: i < k < |chunks| ==> chunks[k].usage.None?
  }

  lemma CountsLastStep(chunks: seq<Chunk>)
    requires chunks != []
    ensures var n := |chunks| - 1;
            forall i :: CountsLast(chunks, i) <==>
              if chunks[n].usage.Some? then i == n else CountsLast(chunks[..n], i)
  {
  }

  lemma LastUsageStep(chunks: seq<Chunk>)
    requires chunks != []
    ensures var n := |chunks| - 1;
            LastUsage(chunks) == if chunks[n].usage.Some? then chunks[n].usage.value.openai else LastUsage(chunks[..n])
  {
  }

  lemma {:induction false} LastUsageAt(chunks: seq<Chunk>)
    ensures forall i :: CountsLast(chunks, i) ==> LastUsage(chunks) == chunks[i].usage.value.openai
    ensures (forall i :: 0 <= i < |chunks| ==> chunks[i].usage.None?) ==> LastUsage(chunks) == Usage(0, 0, 0)
  {
    if chunks != [] {
      var n := |chunks| - 1;
      LastUsageAt(chunks[..n]);
      LastUsageStep(chunks);
      CountsLastStep(chunks);
      hide LastUsage;
      forall i | CountsLast(chunks, i) ensures LastUsage(chunks) == chunks[i].usage.value.openai {
        if chunks[n].usage.None? {
          assert CountsLast(chunks[..n], i) && chunks[..n][i] == chunks[i];
        }
      }
    }
  }

  /** What is read and accounted when the last usage is `u`: the prompt as input, the
      completion as output or, when there is none, the total; and the total, or the sum. */
  ghost predicate Accounts(u: Usage, input: int, output: int, total: int) {
    && input == u.prompt
    && (u.completion != 0 || u.total <= 0 ==> output == u.completion)
    && (u.completion == 0 && u.total > 0 ==> output == u.total)
    && (u.total != 0 ==> total == u.total)
    && (u.total == 0 ==> total == u.prompt + u.completion)
  }

  /** Both callers read the last usage the stream reports, and the first chunk's names. */
  lemma UsageIsRead(decode: Decoder, chunks: seq<Chunk>)
    requires chunks != []
    ensures LiveMessage(chunks).Done? && Translate(NewJson(decode), chunks).0.Json?
    ensures var (buffered, total) := Translate(NewJson(decode), chunks);
            && LiveMessage(chunks).message.output == buffered.output
            && Translate(NEW_SSE, chunks).1 == total
            && (forall i :: CountsLast(chunks, i) ==>
                  Accounts(chunks[i].usage.value.openai, buffered.input, buffered.output, total))
            && ((forall i :: 0 <= i < |chunks| ==> chunks[i].usage.None?) ==>
                  Accounts(Usage(0, 0, 0), buffered.input, buffered.output, total))
    ensures var m := LiveMessage(chunks).message;
            && m.id == (if chunks[0].id == "" then "msg_chicco" else chunks[0].id)
            && m.model == chunks[0].model
  {
    hide LiveMessage, Translate, LastUsage, Blocks, Flatten, StopReason;
    StreamIsReadable(chunks);
    BufferedMessage(decode, chunks);
    LastUsageAt(chunks);
    AccountsFor(LastUsage(chunks));
  }

  lemma AccountsFor(u: Usage)
    ensures Accounts(u, u.prompt, OutputTokens(u), TotalTokens(u))
  {
  }

  // ---- the content ----

  lemma {:induction false} DeltasAre(ts: seq<ToolDelta>)
    ensures |DeltaPieces(ts)| == |ts|
    ensures forall i :: 0 <= i < |ts| ==> DeltaPieces(ts)[i] == Args(ts[i].index, ts[i].id, ts[i].name, ts[i].args)
  {
    if ts != [] {
      DeltasAre(ts[..|ts| - 1]);
    }
  }

  lemma {:induction false} WholesAre(ts: seq<ToolCall>)
    ensures |WholePieces(ts)| == |ts|
    ensures forall i :: 0 <= i < |ts| ==> WholePieces(ts)[i] == Whole(ts[i].id, ts[i].name, ts[i].args)
  {
    if ts != [] {
      WholesAre(ts[..|ts| - 1]);
    }
  }

  /** A choice says its text, its tool deltas and its whole tool calls, in that order. Its
      text is the delta's, or the message's when the delta has neither text nor tools. */
  lemma ChoiceSays(c: ChunkChoice)
    ensures var text := if c.content == "" && c.tools == [] then c.message else c.content;
            ChoicePieces(c)
            == (if text == "" then [] else [Text(text)])
               + seq(|c.tools|, i requires 0 <= i < |c.tools| =>
                   Args(c.tools[i].index, c.tools[i].id, c.tools[i].name, c.tools[i].args))
               + seq(|c.messageTools|, i requires 0 <= i < |c.messageTools| =>
                   Whole(c.messageTools[i].id, c.messageTools[i].name, c.messageTools[i].args))
  {
    hide DeltaPieces, WholePieces;
    DeltasAre(c.tools);
    WholesAre(c.messageTools);
    assert DeltaPieces(c.tools) == seq(|c.tools|, i requires 0 <= i < |c.tools| =>
      Args(c.tools[i].index, c.tools[i].id, c.tools[i].name, c.tools[i].args));
    assert WholePieces(c.messageTools) == seq(|c.messageTools|, i requires 0 <= i < |c.messageTools| =>
      Whole(c.messageTools[i].id, c.messageTools[i].name, c.messageTools[i].args));
  }

  lemma ChoicesStep(cs: seq<ChunkChoice>, c: ChunkChoice)
    ensures ChoicesPieces(cs + [c]) == ChoicesPieces(cs) + ChoicePieces(c)
  {
    hide ChoicePieces;
    assert (cs + [c])[..|cs|] == cs;
  }

  /** Every choice of every chunk is said, in order. */
  lemma {:induction false} ChoicesConcat(a: seq<ChunkChoice>, b: seq<ChunkChoice>)
    ensures ChoicesPieces(a + b) == ChoicesPieces(a) + ChoicesPieces(b)
  {
    hide ChoicesPieces, ChoicePieces;
    NoChoices();
    if b == [] {
      assert a + b == a;
    } else {
      var n := |b| - 1;
      ChoicesConcat(a, b[..n]);
      ChoicesStep(a + b[..n], b[n]);
      ChoicesStep(b[..n], b[n]);
      assert b == b[..n] + [b[n]];
      assert a + b == a + b[..n] + [b[n]];
      Associates(ChoicesPieces(a), ChoicesPieces(b[..n]), ChoicePieces(b[n]));
    }
  }

  lemma NoChoices()
    ensures ChoicesPieces([]) == []
  {
  }

  lemma Associates(a: seq<Piece>, b: seq<Piece>, c: seq<Piece>)
    ensures a + b + c == a + (b + c) && a + [] == a
  {
  }

  lemma ChoicesOne(c: ChunkChoice)
    ensures ChoicesPieces([c]) == ChoicePieces(c)
  {
    hide ChoicePieces;
    assert [c][..0] == [];
    assert ChoicesPieces([c]) == [] + ChoicePieces(c);
  }

  /** A tool block goes by the id and the name of a tool delta, or whole call, of the stream. */
  ghost predicate NamedIn(ps: seq<Piece>, b: Block) {
    b.ToolBlock? ==> exists p <- ps :: !p.Text? && p.id == b.id && p.name == b.name
  }

  lemma NamedInMore(ps: seq<Piece>, p: Piece, b: Block)
    requires NamedIn(ps, b)
    ensures NamedIn(ps + [p], b)
  {
  }

  lemma {:induction false} BlocksAreNamed(ps: seq<Piece>)
    ensures forall b <- Blocks(ps) :: NamedIn(ps, b)
  {
    hide Blocks;
    if ps == [] {
      assert Blocks(ps) == [] by { NoBlocks(); }
    } else {
      var n := |ps| - 1;
      var init, p := ps[..n], ps[n];
      assert ps == init + [p];
      BlocksAreNamed(init);
      BlocksAppend(init, p);
      hide Joins;
      var bs := Blocks(init);
      forall b | b in Blocks(ps) ensures NamedIn(ps, b) {
        if b in bs {
          NamedInMore(init, p, b);
        } else if Joins(init, p) {
          NamedInMore(init, p, bs[|bs| - 1]);
          assert b == Extend(bs[|bs| - 1], Payload(p));
        } else {
          assert p in ps && b == NewBlock(p);
        }
      }
    }
  }

  lemma NoBlocks()
    ensures Blocks([]) == []
  {
  }

  /** A stream that says one thing in one chunk: the very events it comes out as. */
  lemma OneThingSaid(id: string, model: string, p: Piece, finish: string, usage: Option<WireUsage>)
    requires p.Text? ==> p.text != ""
    ensures var chunks := [Carrying(id, model, p, finish, usage)];
            LiveMessage(chunks).Done? &&
            EventsOf(Translate(NEW_SSE, chunks).0)
            == [MessageStart(if id == "" then "msg_chicco" else id, model),
                if p.Text? then TextStart(0) else ToolStart(0, p.id, p.name),
                if p.Text? then TextDelta(0, p.text) else ArgsDelta(0, p.args),
                BlockStop(0),
                MessageDelta(LiveMessage(chunks).message.stop, LiveMessage(chunks).message.output),
                MessageStop]
  {
    hide Flatten, LiveMessage, Translate, Carrying, Blocks, ApplyAll, FeedAll, Started, EventsOf, StopReason, Coupled;
    hide LastFinish, LastUsage;
    var c := Carrying(id, model, p, finish, usage);
    StartedIs(c);
    StreamIsReadable([c]);
    ApplyAllIs(NEW_SSE, [c]);
    CarryingNames(id, model, p, finish, usage);
    FeedsOne(Started(NEW_SSE, c), p);
    FinishesStream([c]);
  }

  lemma StartedIs(c: Chunk)
    ensures var m := Started(NEW_SSE, c);
            && Coupled(m) && m.kind == NoBlock && m.sink.Sse? && m.sink.index == 0
            && m.sink.events == [MessageStart(if c.id == "" then "msg_chicco" else c.id, c.model)]
    ensures Coupled(Fresh(NEW_SSE).m)
  {
  }

  lemma FeedsOne(start: Machine, p: Piece)
    requires Coupled(start) && start.kind == NoBlock && start.sink.Sse? && start.sink.index == 0
    ensures var m := FeedAll(start, [p]);
            && m.kind != NoBlock && m.sink.Sse? && m.sink.openIdx == Some(0)
            && m.sink.events == start.sink.events
               + [if p.Text? then TextStart(0) else ToolStart(0, p.id, p.name)]
               + [if p.Text? then TextDelta(0, p.text) else ArgsDelta(0, p.args)]
  {
    assert [p][..0] == [];
    assert FeedAll(start, [p]) == Feed(start, p);
  }

  /** The end of a translation that has a block open. */
  lemma FinishesStream(chunks: seq<Chunk>)
    requires chunks != []
    requires var m := ApplyAll(Fresh(NEW_SSE), chunks).m; m.kind != NoBlock && m.sink.Sse? && m.sink.openIdx == Some(0)
    ensures var m := ApplyAll(Fresh(NEW_SSE), chunks).m;
            LiveMessage(chunks).Done? &&
            EventsOf(Translate(NEW_SSE, chunks).0)
            == m.sink.events + [BlockStop(0)]
               + [MessageDelta(LiveMessage(chunks).message.stop, LiveMessage(chunks).message.output), MessageStop]
  {
    hide LiveMessage, ApplyAll, LastFinish, LastUsage, Blocks, Flatten;
    StreamIsReadable(chunks);
    ApplyAllTotals(NEW_SSE, chunks);
    StopIsMapped(chunks);
  }

  /** The input of a tool call is its argument text decoded, an empty text counting as an empty
      object, and the empty object where the text does not decode. */
  lemma InputsAre(decode: Decoder, args: string)
    ensures args != "" && decode(args).Some? ==> decode(args) == Some(InputFor(decode, args))
    ensures args == "" && decode("{}").Some? ==> decode("{}") == Some(InputFor(decode, args))
    ensures args != "" && decode(args).None? ==> InputFor(decode, args) == Object(map[])
    ensures args == "" && decode("{}").None? ==> InputFor(decode, args) == Object(map[])
  {
  }
}
