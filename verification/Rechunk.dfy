/** What re-cutting a stream cannot change, and what it can. */
module Rechunk {
  import opened Pieces

  /** Two piece sequences any continuation is read alike after: the same blocks so far,
      ending in the same kind, with the same latest index. */
  ghost predicate Alike(a: seq<Piece>, b: seq<Piece>) {
    && Blocks(a) == Blocks(b)
    && LastIndex(a) == LastIndex(b)
    && (a == [] <==> b == [])
    && (a != [] ==> (a[|a| - 1].Text? <==> b[|b| - 1].Text?))
  }

  lemma AlikeAppend(a: seq<Piece>, b: seq<Piece>, p: Piece)
    requires Alike(a, b)
    ensures Alike(a + [p], b + [p])
  {
    hide Blocks;
    assert Joins(a, p) <==> Joins(b, p);
    BlocksAppend(a, p);
    BlocksAppend(b, p);
    assert (a + [p])[..|a|] == a && (b + [p])[..|b|] == b;
  }

  lemma {:induction false} AlikeContinue(a: seq<Piece>, b: seq<Piece>, rest: seq<Piece>)
    requires Alike(a, b)
    ensures Alike(a + rest, b + rest)
  {
    hide Blocks, LastIndex;
    if rest == [] {
      assert a + rest == a && b + rest == b;
    } else {
      var n := |rest| - 1;
      AlikeContinue(a, b, rest[..n]);
      AlikeAppend(a + rest[..n], b + rest[..n], rest[n]);
      assert a + rest == a + rest[..n] + [rest[n]] && b + rest == b + rest[..n] + [rest[n]];
    }
  }

  /** `second` goes on what `first` says: more text, or more arguments at its index. */
  predicate SameStream(first: Piece, second: Piece) {
    || (first.Text? && second.Text?)
    || (first.Args? && second.Args? && first.index == second.index)
  }

  function Merge(first: Piece, second: Piece): Piece
    requires SameStream(first, second)
  {
    match first
    case Text(text) => Text(text + second.text)
    case Args(index, id, name, args) => Args(index, id, name, args + second.args)
  }

  lemma MergeJoins(ps: seq<Piece>, first: Piece, second: Piece)
    requires SameStream(first, second)
    ensures Joins(ps, first) <==> Joins(ps, Merge(first, second))
    ensures Joins(ps + [first], second)
    ensures LastIndex(ps + [first] + [second]) == LastIndex(ps + [Merge(first, second)])
  {
  }

  lemma MergeBlocks(ps: seq<Piece>, first: Piece, second: Piece)
    requires SameStream(first, second)
    ensures Blocks(ps + [first] + [second]) == Blocks(ps + [Merge(first, second)])
  {
    hide Blocks, Joins;
    var m := Merge(first, second);
    MergeJoins(ps, first, second);
    BlocksAppend(ps, first);
    BlocksAppend(ps + [first], second);
    BlocksAppend(ps, m);
    var bs, one, two := Blocks(ps), Payload(first), Payload(second);
    if Joins(ps, first) {
      var init, b := bs[..|bs| - 1], bs[|bs| - 1];
      ExtendTwice(b, one, two);
      assert (init + [Extend(b, one)])[..|init|] == init;
    } else {
      assert (bs + [NewBlock(first)])[..|bs|] == bs;
      assert Extend(NewBlock(first), two) == NewBlock(m);
    }
  }

  /** After `ps`, two adjacent pieces of one stream read like their merger. */
  lemma MergeAlike(ps: seq<Piece>, first: Piece, second: Piece)
    requires SameStream(first, second)
    ensures Alike(ps + [first] + [second], ps + [Merge(first, second)])
  {
    hide Blocks, LastIndex, Joins;
    MergeJoins(ps, first, second);
    MergeBlocks(ps, first, second);
  }

  lemma ExtendTwice(b: Block, one: string, two: string)
    ensures Extend(Extend(b, one), two) == Extend(b, one + two)
  {
  }

  /** Splitting or merging adjacent text, or adjacent arguments of one tool index, anywhere
      in a stream never changes the blocks, whatever comes before and after. */
  lemma SplitsDoNotMatter(ps: seq<Piece>, first: Piece, second: Piece, rest: seq<Piece>)
    requires SameStream(first, second)
    ensures Blocks(ps + [first, second] + rest) == Blocks(ps + [Merge(first, second)] + rest)
  {
    hide Blocks;
    MergeAlike(ps, first, second);
    AlikeContinue(ps + [first] + [second], ps + [Merge(first, second)], rest);
    assert ps + [first, second] + rest == ps + [first] + [second] + rest;
  }

  // ---- nothing lost ----

  /** All text, or all arguments, in order. */
  function Spoken(ps: seq<Piece>, text: bool): string {
    if ps == [] then ""
    else Spoken(ps[..|ps| - 1], text) + (if ps[|ps| - 1].Text? == text then Payload(ps[|ps| - 1]) else "")
  }

  function Held(bs: seq<Block>, text: bool): string {
    if bs == [] then ""
    else
      var b := bs[|bs| - 1];
      Held(bs[..|bs| - 1], text) + (if b.TextBlock? == text then (if text then b.text else b.args) else "")
  }

  lemma HeldExtend(bs: seq<Block>, said: string, text: bool)
    requires bs != [] && bs[|bs| - 1].TextBlock? == text
    ensures Held(bs[..|bs| - 1] + [Extend(bs[|bs| - 1], said)], text) == Held(bs, text) + said
    ensures Held(bs[..|bs| - 1] + [Extend(bs[|bs| - 1], said)], !text) == Held(bs, !text)
  {
    var init, b := bs[..|bs| - 1], bs[|bs| - 1];
    assert (init + [Extend(b, said)])[..|init|] == init;
    HeldLast(init, b, text);
    HeldLast(init, Extend(b, said), text);
    HeldLast(init, b, !text);
    HeldLast(init, Extend(b, said), !text);
    assert bs == init + [b];
    hide Held;
  }

  lemma HeldLast(init: seq<Block>, b: Block, text: bool)
    ensures Held(init + [b], text)
         == Held(init, text) + (if b.TextBlock? == text then (if text then b.text else b.args) else "")
  {
    assert (init + [b])[..|init|] == init;
  }

  lemma {:induction false} LastBlockKind(ps: seq<Piece>)
    requires ps != []
    ensures Blocks(ps) != [] && (Blocks(ps)[|Blocks(ps)| - 1].TextBlock? <==> ps[|ps| - 1].Text?)
  {
    hide Blocks;
    var n := |ps| - 1;
    assert ps == ps[..n] + [ps[n]];
    BlocksAppend(ps[..n], ps[n]);
    if Joins(ps[..n], ps[n]) {
      LastBlockKind(ps[..n]);
    }
  }

  /** The blocks hold every character of text and of arguments once, in stream order. */
  lemma {:induction false} NothingLost(ps: seq<Piece>, text: bool)
    ensures Held(Blocks(ps), text) == Spoken(ps, text)
  {
    if ps != [] {
      hide Blocks;
      var n := |ps| - 1;
      var before, p := ps[..n], ps[n];
      assert ps == before + [p];
      NothingLost(before, text);
      BlocksAppend(before, p);
      if Joins(before, p) {
        LastBlockKind(before);
        HeldExtend(Blocks(before), Payload(p), p.Text?);
        if p.Text? != text {
          assert Held(Blocks(before), text) + "" == Held(Blocks(before), text);
        }
      } else {
        assert (Blocks(before) + [NewBlock(p)])[..|Blocks(before)|] == Blocks(before);
      }
    }
  }

  // ---- tool calls ----

  /** Where a delta of tool `index` opens a block of its own. */
  predicate OpensAt(ps: seq<Piece>, index: int, k: nat)
    requires k < |ps|
  {
    ps[k].Args? && ps[k].index == index && !Joins(ps[..k], ps[k])
  }

  ghost predicate Mentions(ps: seq<Piece>, index: int, k: int) {
    0 <= k < |ps| && ps[k].Args? && ps[k].index == index
  }

  /** The deltas of tool `index` are not interrupted by anything else. */
  ghost predicate Contiguous(ps: seq<Piece>, index: int) {
    forall j, k, l :: j < k < l && Mentions(ps, index, j) && Mentions(ps, index, l) ==> Mentions(ps, index, k)
  }

  ghost predicate OpensOnce(ps: seq<Piece>, index: int) {
    forall j, k :: 0 <= j < |ps| && 0 <= k < |ps| && OpensAt(ps, index, j) && OpensAt(ps, index, k) ==> j == k
  }

  ghost predicate NoWholes(ps: seq<Piece>) {
    forall p <- ps :: !p.Whole?
  }

  lemma JoinsPrevious(ps: seq<Piece>, index: int, k: nat)
    requires NoWholes(ps) && Mentions(ps, index, k)
    ensures OpensAt(ps, index, k) <==> k == 0 || !Mentions(ps, index, k - 1)
  {
  }

  /** Walking back from a delta of `index` that is preceded by something else in between
      finds a second opening. */
  lemma {:induction false} OpeningAfter(ps: seq<Piece>, index: int, gap: nat, l: nat) returns (k: nat)
    requires NoWholes(ps) && gap < l && Mentions(ps, index, l) && !Mentions(ps, index, gap)
    ensures gap < k <= l && k < |ps| && OpensAt(ps, index, k)
    decreases l
  {
    JoinsPrevious(ps, index, l);
    if Mentions(ps, index, l - 1) {
      k := OpeningAfter(ps, index, gap, l - 1);
    } else {
      k := l;
    }
  }

  lemma {:induction false} OpeningUpTo(ps: seq<Piece>, index: int, l: nat) returns (k: nat)
    requires NoWholes(ps) && Mentions(ps, index, l)
    ensures k <= l && k < |ps| && OpensAt(ps, index, k)
  {
    JoinsPrevious(ps, index, l);
    if l > 0 && Mentions(ps, index, l - 1) {
      k := OpeningUpTo(ps, index, l - 1);
    } else {
      k := l;
    }
  }

  lemma NoSecondOpening(ps: seq<Piece>, index: int, j: nat, k: nat)
    requires NoWholes(ps) && Contiguous(ps, index)
    requires j < k && Mentions(ps, index, j) && Mentions(ps, index, k)
    ensures !OpensAt(ps, index, k)
  {
    assert Mentions(ps, index, k - 1);
    JoinsPrevious(ps, index, k);
  }

  /** Without whole tool calls in the stream, a tool index gets a single block exactly when
      its deltas are contiguous; interleaved parallel calls are split apart. */
  lemma OneBlockPerToolIff(ps: seq<Piece>, index: int)
    requires NoWholes(ps)
    ensures OpensOnce(ps, index) <==> Contiguous(ps, index)
  {
    if Contiguous(ps, index) {
      forall j, k | 0 <= j < k < |ps| && OpensAt(ps, index, j) ensures !OpensAt(ps, index, k) {
        if Mentions(ps, index, k) {
          NoSecondOpening(ps, index, j, k);
        }
      }
    } else {
      var j, k, l :| j < k < l && Mentions(ps, index, j) && Mentions(ps, index, l) && !Mentions(ps, index, k);
      var first := OpeningUpTo(ps, index, j);
      var second := OpeningAfter(ps, index, k, l);
      assert first != second;
    }
  }

  /** A whole tool call gets a block of its own, but leaves the index of the delta before it
      standing: its block stays as it was sent exactly unless the next piece is a delta of
      that index that says something. */
  lemma WholeStaysWholeIff(ps: seq<Piece>, whole: Piece, next: Piece)
    requires whole.Whole?
    ensures var n, bs := |Blocks(ps)|, Blocks(ps + [whole] + [next]);
            && n < |bs|
            && (bs[n] == NewBlock(whole) <==> !(next.Args? && next.index == LastIndex(ps) && next.args != ""))
  {
    hide Blocks;
    assert (ps + [whole])[..|ps|] == ps;
    BlocksAppend(ps, whole);
    BlocksAppend(ps + [whole], next);
    assert Joins(ps + [whole], next) <==> next.Args? && next.index == LastIndex(ps);
    if Joins(ps + [whole], next) {
      Longer(whole.args, next.args);
    }
  }

  lemma Longer(s: string, t: string)
    ensures s + t == s <==> t == ""
  {
    assert |s + t| == |s| + |t|;
    if t == "" {
      assert s + t == s;
    }
  }
}
