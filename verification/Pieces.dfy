/** What an OpenAI stream says, free of how it was cut into chunks, and the content
    blocks it stands for. */
module Pieces {
  import opened Configs

  datatype ToolDelta = ToolDelta(index: int, id: string, name: string, args: string)

  datatype ToolCall = ToolCall(id: string, name: string, args: string)

  /** One decoded choice: its delta (content, tools) and its message, whichever it has. */
  datatype ChunkChoice = ChunkChoice(
    content: string, tools: seq<ToolDelta>, message: string, messageTools: seq<ToolCall>, finish: string)

  datatype Usage = Usage(prompt: int, completion: int, total: int)

  /** A usage object as it arrives: OpenAI's three counts, and Anthropic's two, which some
      providers send in their place. */
  datatype WireUsage = WireUsage(openai: Usage, input: int, output: int)

  datatype Chunk = Chunk(id: string, model: string, choices: seq<ChunkChoice>, usage: Option<WireUsage>)

  /** The smallest units of content, in stream order. */
  datatype Piece =
    | Text(text: string)
    | Args(index: int, id: string, name: string, args: string)
    | Whole(id: string, name: string, args: string)

  function ContentOf(c: ChunkChoice): string {
    if c.content == "" && c.tools == [] && c.message != "" then c.message else c.content
  }

  function DeltaPieces(ts: seq<ToolDelta>): seq<Piece> {
    if ts == [] then []
    else
      var t := ts[|ts| - 1];
      DeltaPieces(ts[..|ts| - 1]) + [Args(t.index, t.id, t.name, t.args)]
  }

  function WholePieces(ts: seq<ToolCall>): seq<Piece> {
    if ts == [] then []
    else
      var t := ts[|ts| - 1];
      WholePieces(ts[..|ts| - 1]) + [Whole(t.id, t.name, t.args)]
  }

  function TextPieces(text: string): seq<Piece> {
    if text == "" then [] else [Text(text)]
  }

  function ChoicePieces(c: ChunkChoice): seq<Piece> {
    TextPieces(ContentOf(c)) + DeltaPieces(c.tools) + WholePieces(c.messageTools)
  }

  function ChoicesPieces(cs: seq<ChunkChoice>): seq<Piece> {
    if cs == [] then [] else ChoicesPieces(cs[..|cs| - 1]) + ChoicePieces(cs[|cs| - 1])
  }

  function Flatten(chunks: seq<Chunk>): seq<Piece> {
    if chunks == [] then [] else Flatten(chunks[..|chunks| - 1]) + ChoicesPieces(chunks[|chunks| - 1].choices)
  }

  // ---- blocks ----

  /** The index of the latest tool delta, -1 before the first. A whole tool call does not
      count, so it leaves a stale index behind it. */
  function LastIndex(ps: seq<Piece>): int {
    if ps == [] then -1
    else if ps[|ps| - 1].Args? then ps[|ps| - 1].index
    else LastIndex(ps[..|ps| - 1])
  }

  /** `p` goes on the block the pieces before it ended in. */
  predicate Joins(before: seq<Piece>, p: Piece) {
    before != [] &&
    match p
    case Text(_) => before[|before| - 1].Text?
    case Args(index, _, _, _) => !before[|before| - 1].Text? && LastIndex(before) == index
    case Whole(_, _, _) => false
  }

  /** The pieces cut into maximal runs, each of which is one block. */
  function Runs(ps: seq<Piece>): (rs: seq<seq<Piece>>)
    ensures ps == [] <==> rs == []
  {
    if ps == [] then []
    else
      var before, p := ps[..|ps| - 1], ps[|ps| - 1];
      var rs := Runs(before);
      if Joins(before, p) then rs[..|rs| - 1] + [rs[|rs| - 1] + [p]] else rs + [[p]]
  }

  datatype Block = TextBlock(text: string) | ToolBlock(id: string, name: string, args: string)

  function Payload(p: Piece): string {
    if p.Text? then p.text else p.args
  }

  /** Everything a run says, in order. */
  function Said(ps: seq<Piece>): string {
    if ps == [] then "" else Said(ps[..|ps| - 1]) + Payload(ps[|ps| - 1])
  }

  /** A run as a block: its first piece gives the kind and the names, all give content. */
  function BlockOf(run: seq<Piece>): Block
    requires run != []
  {
    match run[0]
    case Text(_) => TextBlock(Said(run))
    case Args(_, id, name, _) => ToolBlock(id, name, Said(run))
    case Whole(id, name, _) => ToolBlock(id, name, Said(run))
  }

  ghost predicate NonEmptyRuns(rs: seq<seq<Piece>>) {
    forall i :: 0 <= i < |rs| ==> rs[i] != []
  }

  function BlocksOf(rs: seq<seq<Piece>>): (bs: seq<Block>)
    requires NonEmptyRuns(rs)
    ensures |bs| == |rs|
  {
    if rs == [] then [] else BlocksOf(rs[..|rs| - 1]) + [BlockOf(rs[|rs| - 1])]
  }

  lemma {:induction false} RunsNonEmpty(ps: seq<Piece>)
    ensures NonEmptyRuns(Runs(ps))
  {
    if ps != [] {
      RunsNonEmpty(ps[..|ps| - 1]);
    }
  }

  /** The content blocks a piece sequence stands for. */
  function Blocks(ps: seq<Piece>): (bs: seq<Block>)
    ensures |bs| == |Runs(ps)|
  {
    RunsNonEmpty(ps);
    BlocksOf(Runs(ps))
  }

  function Joined(rs: seq<seq<Piece>>): seq<Piece> {
    if rs == [] then [] else Joined(rs[..|rs| - 1]) + rs[|rs| - 1]
  }

  /** Cutting into runs loses, duplicates and reorders nothing. */
  lemma {:induction false} RunsPartition(ps: seq<Piece>)
    ensures Joined(Runs(ps)) == ps
  {
    if ps != [] {
      var before, p := ps[..|ps| - 1], ps[|ps| - 1];
      var rs := Runs(before);
      RunsPartition(before);
      if Joins(before, p) {
        var last := rs[|rs| - 1];
        var rs' := rs[..|rs| - 1] + [last + [p]];
        assert rs'[..|rs'| - 1] == rs[..|rs| - 1];
        assert Joined(rs') == Joined(rs[..|rs| - 1]) + (last + [p]);
        assert Joined(rs) == Joined(rs[..|rs| - 1]) + last;
      } else {
        assert (rs + [[p]])[..|rs|] == rs;
      }
      assert ps == before + [p];
    }
  }

  /** The block the last piece is in has that piece's kind. */
  lemma {:induction false} LastRunKind(ps: seq<Piece>)
    requires ps != []
    ensures var rs := Runs(ps); rs[|rs| - 1] != [] && (rs[|rs| - 1][0].Text? <==> ps[|ps| - 1].Text?)
  {
    var before, p := ps[..|ps| - 1], ps[|ps| - 1];
    if Joins(before, p) {
      LastRunKind(before);
    }
  }

  function Extend(b: Block, said: string): Block {
    match b
    case TextBlock(text) => TextBlock(text + said)
    case ToolBlock(id, name, args) => ToolBlock(id, name, args + said)
  }

  function NewBlock(p: Piece): Block {
    match p
    case Text(text) => TextBlock(text)
    case Args(_, id, name, args) => ToolBlock(id, name, args)
    case Whole(id, name, args) => ToolBlock(id, name, args)
  }

  /** One more piece extends the last block or starts a new one. */
  lemma BlocksAppend(ps: seq<Piece>, p: Piece)
    ensures Joins(ps, p) ==> Blocks(ps) != []
    ensures Blocks(ps + [p]) ==
            if Joins(ps, p) then Blocks(ps)[..|Blocks(ps)| - 1] + [Extend(Blocks(ps)[|Blocks(ps)| - 1], Payload(p))]
            else Blocks(ps) + [NewBlock(p)]
  {
    assert (ps + [p])[..|ps|] == ps;
    RunsNonEmpty(ps);
    RunsNonEmpty(ps + [p]);
    var rs := Runs(ps);
    if Joins(ps, p) {
      var last := rs[|rs| - 1];
      var rs' := rs[..|rs| - 1] + [last + [p]];
      assert Runs(ps + [p]) == rs';
      assert rs'[..|rs'| - 1] == rs[..|rs| - 1];
      assert (last + [p])[..|last|] == last && (last + [p])[0] == last[0];
      assert BlockOf(last + [p]) == Extend(BlockOf(last), Payload(p));
    } else {
      assert Runs(ps + [p]) == rs + [[p]];
      assert (rs + [[p]])[..|rs|] == rs;
      assert [p][..0] == [];
      assert Said([p]) == Payload(p) by {
        assert Said([p]) == Said([p][..0]) + Payload(p);
        assert "" + Payload(p) == Payload(p);
      }
    }
  }
}
