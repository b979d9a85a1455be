/** Anthropic turns rewritten as OpenAI messages, and a reply on its way back upstream. */
module Requests {
  import opened Configs
  import opened Pieces
  import opened Sinks
  import opened StreamLaws
  import opened Rechunk

  datatype InBlock =
    | Say(text: string)
    | ToolUse(id: string, name: string, input: string)
    | ToolResult(id: string, content: string)
    | Unknown

  datatype OutCall = OutCall(id: string, name: string, arguments: string)

  datatype OutMessage =
    | Assistant(text: string, calls: seq<OutCall>)
    | User(text: string)
    | ToolAnswer(id: string, content: string)

  // ---- assistant turns ----

  function TextOf(bs: seq<InBlock>): string {
    if bs == [] then ""
    else TextOf(bs[..|bs| - 1]) + (if bs[|bs| - 1].Say? then bs[|bs| - 1].text else "")
  }

  function CallsOf(bs: seq<InBlock>): seq<OutCall> {
    if bs == [] then []
    else
      var b := bs[|bs| - 1];
      CallsOf(bs[..|bs| - 1]) + (if b.ToolUse? then [OutCall(b.id, b.name, b.input)] else [])
  }

  method AssistantMessage(bs: seq<InBlock>) returns (m: OutMessage)
    ensures m == Assistant(TextOf(bs), CallsOf(bs))
  {
    var text, calls := "", [];
    for i := 0 to |bs|
      invariant text == TextOf(bs[..i]) && calls == CallsOf(bs[..i])
    {
      assert bs[..i + 1][..i] == bs[..i];
      match bs[i]
      case Say(t) => text := text + t;
      case ToolUse(id, name, input) => calls := calls + [OutCall(id, name, input)];
      case _ => assert text + "" == text;
    }
    assert bs[..|bs|] == bs;
    m := Assistant(text, calls);
  }

  /** Writing a JSON value as text. */
  type Encoder = Value -> string

  /** A reply's content as the client sends it back in its next request, each tool input
      written out again. */
  function SentBack(encode: Encoder, cs: seq<Content>): seq<InBlock> {
    if cs == [] then []
    else
      var c := cs[|cs| - 1];
      SentBack(encode, cs[..|cs| - 1])
      + [match c case TextContent(t) => Say(t) case ToolContent(id, name, input) => ToolUse(id, name, encode(input))]
  }

  /** The tool calls among the blocks, as the upstream made them. */
  function ToolCalls(bs: seq<Block>): seq<OutCall> {
    if bs == [] then []
    else
      var b := bs[|bs| - 1];
      ToolCalls(bs[..|bs| - 1]) + (if b.ToolBlock? then [OutCall(b.id, b.name, b.args)] else [])
  }

  /** What decoding and writing out again make of an argument text. */
  function Rewritten(decode: Decoder, encode: Encoder, args: string): string {
    encode(InputFor(decode, args))
  }

  function AllRewritten(decode: Decoder, encode: Encoder, calls: seq<OutCall>): seq<OutCall> {
    seq(|calls|, i requires 0 <= i < |calls| => calls[i].(arguments := Rewritten(decode, encode, calls[i].arguments)))
  }

  lemma SentBackAppend(encode: Encoder, cs: seq<Content>, c: Content)
    ensures var one := match c
              case TextContent(t) => Say(t)
              case ToolContent(id, name, input) => ToolUse(id, name, encode(input));
            SentBack(encode, cs + [c]) == SentBack(encode, cs) + [one]
  {
    assert (cs + [c])[..|cs|] == cs;
  }

  lemma SaidAppend(bs: seq<InBlock>, b: InBlock)
    ensures TextOf(bs + [b]) == TextOf(bs) + (if b.Say? then b.text else "")
    ensures CallsOf(bs + [b]) == CallsOf(bs) + (if b.ToolUse? then [OutCall(b.id, b.name, b.input)] else [])
  {
    assert (bs + [b])[..|bs|] == bs;
  }

  lemma RewrittenAppend(decode: Decoder, encode: Encoder, calls: seq<OutCall>, c: OutCall)
    ensures AllRewritten(decode, encode, calls + [c])
         == AllRewritten(decode, encode, calls) + [c.(arguments := Rewritten(decode, encode, c.arguments))]
  {
    hide Rewritten;
  }

  lemma {:induction false} SentBackIs(decode: Decoder, encode: Encoder, bs: seq<Block>)
    ensures TextOf(SentBack(encode, ContentsFor(decode, bs))) == Held(bs, true)
    ensures CallsOf(SentBack(encode, ContentsFor(decode, bs))) == AllRewritten(decode, encode, ToolCalls(bs))
  {
    if bs != [] {
      var init, b := bs[..|bs| - 1], bs[|bs| - 1];
      SentBackIs(decode, encode, init);
      var cs, c := ContentsFor(decode, init), ContentFor(decode, b);
      assert ContentsFor(decode, bs) == cs + [c];
      hide ContentsFor, SentBack, TextOf, CallsOf, AllRewritten, InputFor;
      SentBackAppend(encode, cs, c);
      match b
      case TextBlock(text) =>
        SaidAppend(SentBack(encode, cs), Say(text));
        assert ToolCalls(bs) == ToolCalls(init);
      case ToolBlock(id, name, args) =>
        SaidAppend(SentBack(encode, cs), ToolUse(id, name, Rewritten(decode, encode, args)));
        RewrittenAppend(decode, encode, ToolCalls(init), OutCall(id, name, args));
        assert Held(bs, true) == Held(init, true);
    }
  }

  /** An upstream reply, translated for the client and sent back in the next turn, reaches
      the upstream with all its text in order and every tool call under its id and name;
      the arguments are what decoding and encoding make of them. */
  lemma ReplyComesBack(decode: Decoder, encode: Encoder, chunks: seq<Chunk>)
    requires chunks != []
    ensures var sink := Translate(NewJson(decode), chunks).0;
            && sink.Json?
            && TextOf(SentBack(encode, sink.content)) == Spoken(Flatten(chunks), true)
            && CallsOf(SentBack(encode, sink.content))
            == AllRewritten(decode, encode, ToolCalls(Blocks(Flatten(chunks))))
  {
    hide Translate, Blocks, Flatten;
    BufferedMessage(decode, chunks);
    NothingLost(Flatten(chunks), true);
    SentBackIs(decode, encode, Blocks(Flatten(chunks)));
  }

  /** What is taken of the JSON library: an empty text is no value, and reading back what was
      written for a value that was read, or for the empty object, gives that value. */
  ghost predicate Inverse(decode: Decoder, encode: Encoder) {
    && decode("") == None
    && decode(encode(Object(map[]))) == Some(Object(map[]))
    && forall text: string :: decode(text).Some? ==> decode(encode(decode(text).value)) == decode(text)
  }

  ghost predicate SameMeaning(decode: Decoder, a: seq<OutCall>, b: seq<OutCall>) {
    |a| == |b| && forall i :: 0 <= i < |a| ==>
      a[i].id == b[i].id && a[i].name == b[i].name && decode(a[i].arguments) == decode(b[i].arguments)
  }

  /** The calls that come back mean what the upstream said exactly when every argument text
      decodes: a cut-off one, or a missing one, comes back as the empty object. */
  lemma ArgumentsSurviveIff(decode: Decoder, encode: Encoder, calls: seq<OutCall>)
    requires Inverse(decode, encode)
    ensures SameMeaning(decode, AllRewritten(decode, encode, calls), calls)
            <==> forall c <- calls :: decode(c.arguments).Some?
  {
    var back := AllRewritten(decode, encode, calls);
    forall i | 0 <= i < |calls|
      ensures decode(back[i].arguments) == decode(calls[i].arguments) <==> decode(calls[i].arguments).Some?
    {
      assert back[i].arguments == encode(InputFor(decode, calls[i].arguments));
    }
    if forall c <- calls :: decode(c.arguments).Some? {
      assert forall i :: 0 <= i < |calls| ==> calls[i] in calls;
    } else {
      var c :| c in calls && decode(c.arguments).None?;
      var i :| 0 <= i < |calls| && calls[i] == c;
      assert decode(back[i].arguments) != decode(calls[i].arguments);
    }
  }

  // ---- user turns ----

  /** What the loop has emitted, and the text it is still holding. */
  datatype Pending = Pending(out: seq<OutMessage>, text: string)

  function Flush(p: Pending): Pending {
    if p.text == "" then p else Pending(p.out + [User(p.text)], "")
  }

  function Take(p: Pending, b: InBlock): Pending {
    match b
    case Say(t) => p.(text := (if p.text == "" then "" else p.text + "\n\n") + t)
    case ToolResult(id, content) => Pending(Flush(p).out + [ToolAnswer(id, content)], "")
    case _ => p
  }

  function TakeAll(bs: seq<InBlock>): Pending {
    if bs == [] then Pending([], "") else Take(TakeAll(bs[..|bs| - 1]), bs[|bs| - 1])
  }

  function UserTurn(bs: seq<InBlock>): seq<OutMessage> {
    Flush(TakeAll(bs)).out
  }

  method UserMessages(bs: seq<InBlock>) returns (out: seq<OutMessage>)
    ensures out == UserTurn(bs)
  {
    out := [];
    var text := "";
    for i := 0 to |bs|
      invariant Pending(out, text) == TakeAll(bs[..i])
    {
      assert bs[..i + 1][..i] == bs[..i];
      match bs[i]
      case Say(t) =>
        if text != "" {
          text := text + "\n\n";
        }
        text := text + t;
        assert "" + t == t;
      case ToolResult(id, content) =>
        if text != "" {
          out, text := out + [User(text)], "";
        }
        out := out + [ToolAnswer(id, content)];
      case _ =>
    }
    assert bs[..|bs|] == bs;
    if text != "" {
      out := out + [User(text)];
    }
  }

  lemma {:induction false} TakeAllAfter(a: seq<InBlock>, id: string, content: string, b: seq<InBlock>)
    ensures TakeAll(a + [ToolResult(id, content)] + b)
         == Pending(UserTurn(a) + [ToolAnswer(id, content)] + TakeAll(b).out, TakeAll(b).text)
  {
    var prefix := a + [ToolResult(id, content)];
    if b == [] {
      assert prefix[..|a|] == a && prefix + b == prefix;
    } else {
      var n := |b| - 1;
      TakeAllAfter(a, id, content, b[..n]);
      assert (prefix + b)[..|prefix + b| - 1] == prefix + b[..n];
    }
  }

  /** A tool result cuts a user turn in two: what came before it is emitted before it, what
      comes after it after, and nothing crosses over. */
  lemma ToolResultSplits(a: seq<InBlock>, id: string, content: string, b: seq<InBlock>)
    ensures UserTurn(a + [ToolResult(id, content)] + b) == UserTurn(a) + [ToolAnswer(id, content)] + UserTurn(b)
  {
    TakeAllAfter(a, id, content, b);
  }

  lemma {:induction false} TakeAllWithout(a: seq<InBlock>, x: InBlock, b: seq<InBlock>)
    requires x.ToolUse? || x.Unknown?
    ensures TakeAll(a + [x] + b) == TakeAll(a + b)
  {
    if b == [] {
      assert (a + [x])[..|a|] == a && a + [x] + b == a + [x] && a + b == a;
    } else {
      var n := |b| - 1;
      TakeAllWithout(a, x, b[..n]);
      assert (a + [x] + b)[..|a + [x] + b| - 1] == a + [x] + b[..n];
      assert (a + b)[..|a + b| - 1] == a + b[..n];
    }
  }

  /** Blocks a user turn cannot hold leave no trace in it. */
  lemma OthersAreIgnored(a: seq<InBlock>, x: InBlock, b: seq<InBlock>)
    requires x.ToolUse? || x.Unknown?
    ensures UserTurn(a + [x] + b) == UserTurn(a + b)
  {
    TakeAllWithout(a, x, b);
  }

  function Texts(ts: seq<string>): seq<InBlock> {
    seq(|ts|, i requires 0 <= i < |ts| => Say(ts[i]))
  }

  function BlankLineJoin(ts: seq<string>): string {
    if ts == [] then "" else if |ts| == 1 then ts[0]
    else BlankLineJoin(ts[..|ts| - 1]) + "\n\n" + ts[|ts| - 1]
  }

  /** Empty texts leave no trace until something has been said. */
  function FromFirstSaid(ts: seq<string>): seq<string> {
    if ts != [] && ts[0] == "" then FromFirstSaid(ts[1..]) else ts
  }

  lemma {:induction false} FirstSaidAppend(ts: seq<string>, t: string)
    ensures FromFirstSaid(ts + [t]) == if FromFirstSaid(ts) == [] && t == "" then [] else FromFirstSaid(ts) + [t]
    ensures FromFirstSaid(ts) != [] ==> FromFirstSaid(ts)[0] != ""
  {
    if ts == [] {
      assert ts + [t] == [t] && [t][1..] == [];
    } else if ts[0] == "" {
      assert (ts + [t])[1..] == ts[1..] + [t];
      FirstSaidAppend(ts[1..], t);
    }
  }

  lemma {:induction false} JoinSaysSomething(ts: seq<string>)
    requires ts != [] && ts[0] != ""
    ensures BlankLineJoin(ts) != ""
  {
  }

  lemma {:induction false} TextsJoin(ts: seq<string>)
    ensures TakeAll(Texts(ts)) == Pending([], BlankLineJoin(FromFirstSaid(ts)))
  {
    if ts != [] {
      var n := |ts| - 1;
      var said := FromFirstSaid(ts[..n]);
      TextsJoin(ts[..n]);
      assert ts == ts[..n] + [ts[n]];
      FirstSaidAppend(ts[..n], ts[n]);
      assert Texts(ts)[..n] == Texts(ts[..n]);
      assert "" + ts[n] == ts[n];
      if said != [] {
        JoinSaysSomething(said);
        assert (said + [ts[n]])[..|said|] == said;
      }
    }
  }

  /** Between tool results the text blocks become one user message, a blank line between
      each two from the first that says something on; if none does there is no message. */
  lemma TextRunIsOneMessage(ts: seq<string>)
    ensures UserTurn(Texts(ts)) ==
            var said := FromFirstSaid(ts);
            if said == [] then [] else [User(BlankLineJoin(said))]
  {
    TextsJoin(ts);
    FirstSaidAppend(ts, "");
    if FromFirstSaid(ts) != [] {
      JoinSaysSomething(FromFirstSaid(ts));
    }
  }
}
