/** What a caller sees of how a stream was cut into chunks: nothing. */
module Chunking {
  import opened Configs
  import opened Pieces
  import opened Sinks
  import opened Rechunk
  import opened StreamLaws

  /** The same first names, last finish reason and last usage. */
  ghost predicate SameFrame(a: seq<Chunk>, b: seq<Chunk>) {
    && a != [] && b != []
    && a[0].id == b[0].id && a[0].model == b[0].model
    && LastFinish(a) == LastFinish(b) && LastUsage(a) == LastUsage(b)
  }

  /** Cutting a stream into other chunks changes what a caller reads exactly when other
      blocks come out. */
  lemma RechunkingIsInvisible(decode: Decoder, a: seq<Chunk>, b: seq<Chunk>)
    requires SameFrame(a, b)
    ensures LiveMessage(a) == LiveMessage(b) <==> Blocks(Flatten(a)) == Blocks(Flatten(b))
    ensures Blocks(Flatten(a)) == Blocks(Flatten(b)) ==>
              Translate(NewJson(decode), a) == Translate(NewJson(decode), b)
  {
    hide Translate, Blocks, Flatten, ReadAll, LiveMessage;
    BufferedMessage(decode, a);
    BufferedMessage(decode, b);
    StreamIsReadable(a);
    StreamIsReadable(b);
  }

  /** A chunk that carries one piece. */
  function Carrying(id: string, model: string, p: Piece, finish: string, usage: Option<WireUsage>): Chunk {
    var choice := match p
      case Text(text) => ChunkChoice(text, [], "", [], finish)
      case Args(index, tool, name, args) => ChunkChoice("", [ToolDelta(index, tool, name, args)], "", [], finish)
      case Whole(tool, name, args) => ChunkChoice("", [], "", [ToolCall(tool, name, args)], finish);
    Chunk(id, model, [choice], usage)
  }

  lemma OneDelta(ts: seq<ToolDelta>)
    ensures ts == [] ==> DeltaPieces(ts) == []
    ensures |ts| == 1 ==> DeltaPieces(ts) == [Args(ts[0].index, ts[0].id, ts[0].name, ts[0].args)]
  {
  }

  lemma OneWhole(ts: seq<ToolCall>)
    ensures ts == [] ==> WholePieces(ts) == []
    ensures |ts| == 1 ==> WholePieces(ts) == [Whole(ts[0].id, ts[0].name, ts[0].args)]
  {
  }

  lemma CarryingIs(id: string, model: string, p: Piece, finish: string, usage: Option<WireUsage>)
    requires p.Text? ==> p.text != ""
    ensures ChoicesPieces(Carrying(id, model, p, finish, usage).choices) == [p]
  {
    var cs := Carrying(id, model, p, finish, usage).choices;
    assert cs[..0] == [];
    assert ChoicesPieces(cs) == [] + ChoicePieces(cs[0]);
    OneDelta(cs[0].tools);
    OneWhole(cs[0].messageTools);
  }

  lemma {:induction false} FlattenConcat(a: seq<Chunk>, b: seq<Chunk>)
    ensures Flatten(a + b) == Flatten(a) + Flatten(b)
  {
    if b == [] {
      assert a + b == a;
    } else {
      var n := |b| - 1;
      var last := ChoicesPieces(b[n].choices);
      assert (a + b)[..|a + b| - 1] == a + b[..n];
      FlattenConcat(a, b[..n]);
      assert Flatten(a + b) == Flatten(a) + Flatten(b[..n]) + last;
      assert Flatten(b) == Flatten(b[..n]) + last;
      hide *;
    }
  }

  lemma FlattenOne(c: Chunk)
    ensures Flatten([c]) == ChoicesPieces(c.choices)
  {
    hide ChoicesPieces;
    assert [c][..0] == [];
    assert Flatten([c]) == [] + ChoicesPieces(c.choices);
  }

  lemma {:induction false} FrameContinues(a: seq<Chunk>, b: seq<Chunk>, rest: seq<Chunk>)
    requires LastFinish(a) == LastFinish(b) && LastUsage(a) == LastUsage(b)
    ensures LastFinish(a + rest) == LastFinish(b + rest) && LastUsage(a + rest) == LastUsage(b + rest)
  {
    if rest == [] {
      assert a + rest == a && b + rest == b;
    } else {
      hide LastFinishIn;
      var n := |rest| - 1;
      FrameContinues(a, b, rest[..n]);
      assert (a + rest)[..|a + rest| - 1] == a + rest[..n];
      assert (b + rest)[..|b + rest| - 1] == b + rest[..n];
    }
  }

  lemma SplitFrame(before: seq<Chunk>, one: Chunk, two: Chunk, whole: Chunk)
    requires one.usage == None && LastFinishIn(one.choices) == ""
    requires two.usage == whole.usage && LastFinishIn(two.choices) == LastFinishIn(whole.choices)
    ensures LastFinish(before + [one] + [two]) == LastFinish(before + [whole])
    ensures LastUsage(before + [one] + [two]) == LastUsage(before + [whole])
  {
    hide LastFinishIn;
    assert (before + [one] + [two])[..|before| + 1] == before + [one];
    assert (before + [one])[..|before|] == before && (before + [whole])[..|before|] == before;
  }

  lemma CarryingFinish(id: string, model: string, p: Piece, finish: string, usage: Option<WireUsage>)
    ensures LastFinishIn(Carrying(id, model, p, finish, usage).choices) == finish
  {
    var cs := Carrying(id, model, p, finish, usage).choices;
    assert cs[..0] == [];
  }

  /** One delta of text, or of one tool's arguments, cut in two anywhere in a stream and
      sent as two chunks: no caller can tell. */
  lemma SplittingIsInvisible(decode: Decoder, before: seq<Chunk>, id: string, model: string, first: Piece, second: Piece,
                             finish: string, usage: Option<WireUsage>, after: seq<Chunk>)
    requires SameStream(first, second)
    requires first.Text? ==> first.text != "" && second.text != ""
    ensures var whole := before + [Carrying(id, model, Merge(first, second), finish, usage)] + after;
            var split := before + [Carrying(id, model, first, "", None)] + [Carrying(id, model, second, finish, usage)] + after;
            && LiveMessage(split) == LiveMessage(whole)
            && Translate(NewJson(decode), split) == Translate(NewJson(decode), whole)
  {
    hide Carrying, Blocks, LiveMessage, Translate, ChoicesPieces, LastFinish, LastUsage, LastFinishIn, Flatten;
    assert Merge(first, second).Text? ==> Merge(first, second).text != "";
    var m := Merge(first, second);
    var one, two := Carrying(id, model, first, "", None), Carrying(id, model, second, finish, usage);
    var all := Carrying(id, model, m, finish, usage);
    CarryingNames(id, model, first, "", None);
    CarryingNames(id, model, second, finish, usage);
    CarryingNames(id, model, m, finish, usage);
    SplitFrame(before, one, two, all);
    FrameContinues(before + [one] + [two], before + [all], after);
    FlattenConcat(before + [one] + [two], after);
    FlattenConcat(before + [one], [two]);
    FlattenConcat(before, [one]);
    FlattenConcat(before + [all], after);
    FlattenConcat(before, [all]);
    var ps, rest := Flatten(before), Flatten(after);
    assert ps + [first] + [second] + rest == ps + [first, second] + rest;
    SplitsDoNotMatter(ps, first, second, rest);
    RechunkingIsInvisible(decode, before + [one] + [two] + after, before + [all] + after);
  }

  lemma CarryingNames(id: string, model: string, p: Piece, finish: string, usage: Option<WireUsage>)
    requires p.Text? ==> p.text != ""
    ensures var c := Carrying(id, model, p, finish, usage);
            && c.id == id && c.model == model && c.usage == usage
            && Flatten([c]) == [p] && LastFinishIn(c.choices) == finish
  {
    CarryingIs(id, model, p, finish, usage);
    CarryingFinish(id, model, p, finish, usage);
    FlattenOne(Carrying(id, model, p, finish, usage));
  }
}
