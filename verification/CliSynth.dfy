/** The stream a CLI completion is dressed up as, and the two ways its tokens are counted. */
module CliSynth {
  import opened Configs
  import opened Pieces
  import opened Sinks
  import opened StreamLaws
  import opened Chunking

  function SynthUsage(prompt: int, tokens: int): Usage {
    Usage(prompt, tokens, prompt + tokens)
  }

  function OnWire(u: Usage): Option<WireUsage> {
    Some(WireUsage(u, 0, 0))
  }

  /** One content chunk, and a usage chunk when there is anything to report. */
  function SynthSse(id: string, model: string, text: string, prompt: int, tokens: int): seq<Chunk> {
    [Chunk(id, model, [ChunkChoice(text, [], "", [], "stop")], None)]
    + if tokens > 0 || prompt > 0 then [Chunk(id, model, [], OnWire(SynthUsage(prompt, tokens)))] else []
  }

  /** The same completion as one whole object. */
  function SynthJson(id: string, model: string, text: string, prompt: int, tokens: int): seq<Chunk> {
    [Chunk(id, model, [ChunkChoice("", [], text, [], "stop")], OnWire(SynthUsage(prompt, tokens)))]
  }

  // ---- accounting on the OpenAI side ----

  /** The usage object of one response line; all zero when the line has none. */
  datatype Line = Line(total: int, prompt: int, completion: int, input: int, output: int)

  function UsageSplit(l: Line): Usage {
    var none := l.prompt == 0 && l.completion == 0;
    var prompt := if none then l.input else l.prompt;
    var completion := if none then l.output else l.completion;
    Usage(prompt, completion, if l.total == 0 then prompt + completion else l.total)
  }

  function LastCounted(lines: seq<Line>): Usage {
    if lines == [] then Usage(0, 0, 0)
    else
      var u := UsageSplit(lines[|lines| - 1]);
      if u.total > 0 then u else LastCounted(lines[..|lines| - 1])
  }

  /** Relays line by line; the last usage with a positive total wins. */
  method StreamUsage(lines: seq<Line>) returns (usage: Usage)
    ensures usage == LastCounted(lines)
  {
    usage := Usage(0, 0, 0);
    for i := 0 to |lines|
      invariant usage == LastCounted(lines[..i])
    {
      assert lines[..i + 1][..i] == lines[..i];
      var u := UsageSplit(lines[i]);
      if u.total > 0 {
        usage := u;
      }
    }
    assert lines[..|lines|] == lines;
  }

  /** The line a chunk arrives on. */
  function LineOf(c: Chunk): Line {
    if c.usage.None? then Line(0, 0, 0, 0, 0)
    else
      var w := c.usage.value;
      Line(w.openai.total, w.openai.prompt, w.openai.completion, w.input, w.output)
  }

  function LinesOf(chunks: seq<Chunk>): seq<Line> {
    if chunks == [] then [] else LinesOf(chunks[..|chunks| - 1]) + [LineOf(chunks[|chunks| - 1])]
  }

  function Reported(u: Usage): int {
    if u.total == 0 then u.prompt + u.completion else u.total
  }

  /** A line as it arrives: one the translator can decode, or one only the relay makes sense
      of, if anyone does. */
  datatype Received = Decoded(chunk: Chunk) | Undecoded(line: Line)

  function CountsOf(r: Received): Line {
    match r
    case Decoded(chunk) => LineOf(chunk)
    case Undecoded(line) => line
  }

  /** What the relay reads. */
  function LinesIn(rs: seq<Received>): seq<Line> {
    if rs == [] then [] else LinesIn(rs[..|rs| - 1]) + [CountsOf(rs[|rs| - 1])]
  }

  /** What the translator reads. */
  function ChunksIn(rs: seq<Received>): seq<Chunk> {
    if rs == [] then []
    else ChunksIn(rs[..|rs| - 1]) + (if rs[|rs| - 1].Decoded? then [rs[|rs| - 1].chunk] else [])
  }

  /** The tokens counted on lines the translator could not decode, after the last usage it
      could; 0 when there are none. */
  function CountedLate(rs: seq<Received>): int {
    if rs == [] then 0
    else
      var init, last := rs[..|rs| - 1], rs[|rs| - 1];
      match last
      case Decoded(chunk) => if chunk.usage.Some? then 0 else CountedLate(init)
      case Undecoded(line) => if UsageSplit(line).total > 0 then UsageSplit(line).total else CountedLate(init)
  }

  predicate SaneLine(l: Line) {
    l.total >= 0 && l.prompt >= 0 && l.completion >= 0 && l.input >= 0 && l.output >= 0
  }

  ghost predicate CountsSane(rs: seq<Received>) {
    forall r <- rs :: SaneLine(CountsOf(r))
  }

  /** No line reports a token, in either vocabulary. */
  ghost predicate NothingReported(rs: seq<Received>) {
    forall r <- rs :: UsageSplit(CountsOf(r)).total == 0
  }

  lemma {:induction false} LastUsageSane(rs: seq<Received>)
    requires CountsSane(rs)
    ensures var u := LastUsage(ChunksIn(rs)); u.prompt >= 0 && u.completion >= 0 && u.total >= 0
    ensures CountedLate(rs) >= 0
  {
    if rs != [] {
      var init, last := rs[..|rs| - 1], rs[|rs| - 1];
      assert rs == init + [last];
      LastUsageSane(init);
      LastUsageStep(rs);
      assert SaneLine(CountsOf(last));
      hide LastUsage, ChunksIn;
    }
  }

  lemma LastUsageStep(rs: seq<Received>)
    requires rs != []
    ensures var init, last := rs[..|rs| - 1], rs[|rs| - 1];
            LastUsage(ChunksIn(rs)) == if last.Decoded? && last.chunk.usage.Some? then last.chunk.usage.value.openai
                                       else LastUsage(ChunksIn(init))
  {
    var init, last := rs[..|rs| - 1], rs[|rs| - 1];
    if last.Decoded? {
      assert (ChunksIn(init) + [last.chunk])[..|ChunksIn(init)|] == ChunksIn(init);
    } else {
      assert ChunksIn(rs) == ChunksIn(init);
    }
  }

  lemma LastCountedStep(rs: seq<Received>)
    requires rs != []
    ensures var init, u := rs[..|rs| - 1], UsageSplit(CountsOf(rs[|rs| - 1]));
            LastCounted(LinesIn(rs)) == if u.total > 0 then u else LastCounted(LinesIn(init))
  {
    var init := rs[..|rs| - 1];
    assert (LinesIn(init) + [CountsOf(rs[|rs| - 1])])[..|LinesIn(init)|] == LinesIn(init);
  }

  lemma {:induction false} LastCountedIs(rs: seq<Received>)
    requires CountsSane(rs)
    ensures LastCounted(LinesIn(rs)).total >= 0
    ensures CountedLate(rs) > 0 ==> LastCounted(LinesIn(rs)).total == CountedLate(rs)
    ensures CountedLate(rs) == 0 && Reported(LastUsage(ChunksIn(rs))) > 0 ==>
              LastCounted(LinesIn(rs)).total == Reported(LastUsage(ChunksIn(rs)))
  {
    if rs != [] {
      var init, last := rs[..|rs| - 1], rs[|rs| - 1];
      assert rs == init + [last];
      LastCountedIs(init);
      LastCountedStep(rs);
      LastUsageStep(rs);
      LastUsageSane(init);
      assert SaneLine(CountsOf(last));
      hide LastCounted, LastUsage, LinesIn, ChunksIn;
    }
  }

  lemma {:induction false} NothingCounted(rs: seq<Received>)
    requires CountsSane(rs)
    ensures LastCounted(LinesIn(rs)).total == 0 <==> NothingReported(rs)
  {
    if rs != [] {
      var init, last := rs[..|rs| - 1], rs[|rs| - 1];
      assert rs == init + [last];
      NothingCounted(init);
      LastCountedStep(rs);
      assert SaneLine(CountsOf(last));
      hide LastCounted, LinesIn, UsageSplit;
      SplitNonNegative(CountsOf(last));
    }
  }

  lemma SplitNonNegative(l: Line)
    requires SaneLine(l)
    ensures UsageSplit(l).total >= 0
  {
  }

  /** The relay and the translator account the same total from the same lines exactly when
      nothing was counted after the last decodable usage but that very total, and that usage
      has a count in OpenAI's terms or no line has one in any. They part on a usage of zeros
      after a counted one, on one in Anthropic's terms, which only the relay reads, and on a
      counted line the translator cannot decode. */
  lemma AccountsAgreeIff(rs: seq<Received>)
    requires CountsSane(rs)
    ensures var translated := TotalTokens(LastUsage(ChunksIn(rs)));
            LastCounted(LinesIn(rs)).total == translated <==>
            if CountedLate(rs) > 0 then CountedLate(rs) == translated
            else Reported(LastUsage(ChunksIn(rs))) > 0 || NothingReported(rs)
  {
    LastCountedIs(rs);
    NothingCounted(rs);
    LastUsageSane(rs);
  }

  /** The relay counts a usage whose line the translator cannot decode. */
  lemma UndecodedIsMissed()
    ensures var rs := [Undecoded(Line(5, 0, 0, 0, 0))];
            LastCounted(LinesIn(rs)).total == 5 && TotalTokens(LastUsage(ChunksIn(rs))) == 0
  {
    var rs := [Undecoded(Line(5, 0, 0, 0, 0))];
    assert rs[..0] == [];
    LastCountedStep(rs);
    LastUsageStep(rs);
  }

  /** The relay counts twelve tokens where the translator counts none. */
  lemma AnthropicUsageIsMissed(id: string, model: string)
    ensures var chunks := [Chunk(id, model, [], Some(WireUsage(Usage(0, 0, 0), 5, 7)))];
            LastCounted(LinesOf(chunks)).total == 12 && TotalTokens(LastUsage(chunks)) == 0
  {
    var chunks := [Chunk(id, model, [], Some(WireUsage(Usage(0, 0, 0), 5, 7)))];
    assert LinesOf(chunks) == [Line(0, 0, 0, 5, 7)];
  }

  // ---- round trips ----

  lemma SynthParts(id: string, model: string, text: string, prompt: nat, tokens: nat)
    ensures var chunks := SynthSse(id, model, text, prompt, tokens);
            && Flatten(chunks) == TextPieces(text)
            && LastFinish(chunks) == "stop"
            && LastUsage(chunks) == SynthUsage(prompt, tokens)
            && LastCounted(LinesOf(chunks)) == SynthUsage(prompt, tokens)
  {
    var first := Chunk(id, model, [ChunkChoice(text, [], "", [], "stop")], None);
    var usage := Chunk(id, model, [], OnWire(SynthUsage(prompt, tokens)));
    var chunks := SynthSse(id, model, text, prompt, tokens);
    FirstParts(first, text);
    if tokens > 0 || prompt > 0 {
      assert chunks == [first, usage] && chunks[..1] == [first];
      assert Flatten(chunks) == Flatten([first]) + ChoicesPieces([]);
      assert LinesOf(chunks) == LinesOf([first]) + [LineOf(usage)];
      assert UsageSplit(LineOf(usage)) == SynthUsage(prompt, tokens);
    } else {
      assert chunks == [first];
    }
  }

  lemma FirstParts(first: Chunk, text: string)
    requires first.usage == None
    requires first.choices == [ChunkChoice(text, [], "", [], "stop")]
    ensures Flatten([first]) == TextPieces(text) && LastFinish([first]) == "stop"
    ensures LastUsage([first]) == Usage(0, 0, 0) && LastCounted(LinesOf([first])) == Usage(0, 0, 0)
  {
    var c := first.choices[0];
    assert [first][..0] == [] && first.choices[..0] == [];
    assert ChoicePieces(c) == TextPieces(text);
    assert ChoicesPieces(first.choices) == [] + TextPieces(text);
    assert Flatten([first]) == [] + ChoicesPieces(first.choices);
    assert LinesOf([first]) == [LineOf(first)];
    assert [LineOf(first)][..0] == [];
  }

  /** A text as content: one block, or none when it is empty. */
  function TextBlocks(text: string): seq<Block> {
    if text == "" then [] else [TextBlock(text)]
  }

  lemma OneText(text: string)
    ensures Blocks(TextPieces(text)) == TextBlocks(text)
  {
    if text != "" {
      BlocksAppend([], Text(text));
      assert [] + [Text(text)] == [Text(text)];
    }
  }

  /** A CLI completion survives: the caller reads one text block equal to it, or none for an
      empty one, a normal end, and every token is accounted on either route. */
  lemma SynthRoundTrip(decode: Decoder, id: string, model: string, text: string, prompt: nat, tokens: nat)
    ensures var chunks := SynthSse(id, model, text, prompt, tokens);
            && LiveMessage(chunks) == Done(Message(IdOr(id), model, TextBlocks(text), "end_turn",
                                                  if tokens > 0 then tokens else prompt))
            && Translate(NewJson(decode), chunks).1 == prompt + tokens
            && LastCounted(LinesOf(chunks)).total == prompt + tokens
  {
    var chunks := SynthSse(id, model, text, prompt, tokens);
    SynthParts(id, model, text, prompt, tokens);
    OneText(text);
    StreamIsReadable(chunks);
    BufferedMessage(decode, chunks);
  }

  /** The split comes through exactly when any completion tokens were counted, or none at
      all; otherwise the prompt is billed as output. */
  lemma SplitSurvivesIff(decode: Decoder, id: string, model: string, text: string, prompt: nat, tokens: nat)
    ensures var sink := Translate(NewJson(decode), SynthSse(id, model, text, prompt, tokens)).0;
            sink.Json? && ((sink.input, sink.output) == (prompt, tokens) <==> tokens > 0 || prompt == 0)
  {
    SynthParts(id, model, text, prompt, tokens);
    BufferedMessage(decode, SynthSse(id, model, text, prompt, tokens));
  }

  /** Synthesized as a stream or as one object, the translated message is the same. */
  lemma ShapesAgree(decode: Decoder, id: string, model: string, text: string, prompt: nat, tokens: nat)
    ensures LiveMessage(SynthJson(id, model, text, prompt, tokens)) == LiveMessage(SynthSse(id, model, text, prompt, tokens))
    ensures Translate(NewJson(decode), SynthJson(id, model, text, prompt, tokens))
         == Translate(NewJson(decode), SynthSse(id, model, text, prompt, tokens))
  {
    hide Translate, LiveMessage, ReadAll, Blocks;
    var a, b := SynthJson(id, model, text, prompt, tokens), SynthSse(id, model, text, prompt, tokens);
    SynthParts(id, model, text, prompt, tokens);
    var c := a[0].choices[0];
    assert a[..0] == [] && a[0].choices[..0] == [];
    assert ChoicePieces(c) == TextPieces(text);
    assert ChoicesPieces(a[0].choices) == [] + TextPieces(text);
    assert Flatten(a) == [] + ChoicesPieces(a[0].choices);
    assert LastFinish(a) == "stop" && LastUsage(a) == SynthUsage(prompt, tokens);
    hide Flatten, LastFinish, LastUsage;
    RechunkingIsInvisible(decode, a, b);
  }
}
