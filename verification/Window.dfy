/** Timestamped request events and the sliding-window measures taken over them.
    Instants and durations are nanoseconds; instant 0 is Go's zero time. */
module Window {

  const SECOND := 1_000_000_000
  const MINUTE := 60 * SECOND
  const HOUR := 60 * MINUTE
  const DAY := 24 * HOUR

  datatype Event = Event(at: int, tokens: int)

  function Min(a: int, b: int): int { if a < b then a else b }

  function Max(a: int, b: int): int { if a < b then b else a }

  /** How many events happened strictly after `cutoff`. */
  function Count(s: seq<Event>, cutoff: int): nat {
    if s == [] then 0
    else Count(s[..|s| - 1], cutoff) + (if s[|s| - 1].at > cutoff then 1 else 0)
  }

  /** How many tokens were spent strictly after `cutoff`. */
  function Tokens(s: seq<Event>, cutoff: int): int {
    if s == [] then 0
    else Tokens(s[..|s| - 1], cutoff) + (if s[|s| - 1].at > cutoff then s[|s| - 1].tokens else 0)
  }

  /** The earliest event strictly inside `(cutoff, now)`, or `now` when there is none. */
  function Oldest(s: seq<Event>, cutoff: int, now: int): int {
    if s == [] then now
    else
      var o := Oldest(s[..|s| - 1], cutoff, now);
      var e := s[|s| - 1];
      if e.at > cutoff && e.at < o then e.at else o
  }

  /** Events in non-decreasing time order, as an append-only log holds them. */
  ghost predicate Sorted(s: seq<Event>) {
    forall i, j :: 0 <= i < j < |s| ==> s[i].at <= s[j].at
  }

  ghost predicate NonNegative(s: seq<Event>) {
    forall e <- s :: e.tokens >= 0
  }

  /** Time order as far as it matters after `floor`: nothing later than `floor` stands
      before something earlier than itself. */
  ghost predicate SortedAbove(s: seq<Event>, floor: int) {
    forall i, j :: 0 <= i < j < |s| && s[i].at > floor ==> s[i].at <= s[j].at
  }

  /** Events in the half-open window `(lo, lo + span]`. */
  function CountIn(s: seq<Event>, lo: int, span: int): nat {
    if s == [] then 0
    else CountIn(s[..|s| - 1], lo, span) + (if lo < s[|s| - 1].at <= lo + span then 1 else 0)
  }

  /** Tokens spent in the half-open window `(lo, lo + span]`. */
  function TokensIn(s: seq<Event>, lo: int, span: int): int {
    if s == [] then 0
    else TokensIn(s[..|s| - 1], lo, span) +
         (if lo < s[|s| - 1].at <= lo + span then s[|s| - 1].tokens else 0)
  }

  lemma {:induction false} CountConcat(a: seq<Event>, b: seq<Event>, cutoff: int)
    ensures Count(a + b, cutoff) == Count(a, cutoff) + Count(b, cutoff)
    ensures Tokens(a + b, cutoff) == Tokens(a, cutoff) + Tokens(b, cutoff)
  {
    if b == [] {
      assert a + b == a;
    } else {
      var m := |b| - 1;
      assert (a + b)[..|a + b| - 1] == a + b[..m];
      CountConcat(a, b[..m], cutoff);
    }
  }

  lemma {:induction false} CountLimits(s: seq<Event>, cutoff: int)
    ensures Count(s, cutoff) <= |s|
    ensures Count(s, cutoff) == |s| <==> forall e <- s :: e.at > cutoff
    ensures Count(s, cutoff) > 0 <==> exists e <- s :: e.at > cutoff
  {
    if s != [] {
      var n := |s| - 1;
      CountLimits(s[..n], cutoff);
      assert s == s[..n] + [s[n]];
    }
  }

  lemma {:induction false} TokenLimits(s: seq<Event>, cutoff: int)
    ensures Count(s, cutoff) == 0 ==> Tokens(s, cutoff) == 0
    ensures NonNegative(s) ==> Tokens(s, cutoff) >= 0
  {
    if s != [] {
      TokenLimits(s[..|s| - 1], cutoff);
    }
  }

  lemma CountBounds(s: seq<Event>, cutoff: int)
    ensures Count(s, cutoff) <= |s|
    ensures (forall e <- s :: e.at > cutoff) ==> Count(s, cutoff) == |s|
    ensures Count(s, cutoff) == |s| ==> forall e <- s :: e.at > cutoff
    ensures Count(s, cutoff) > 0 <==> exists e <- s :: e.at > cutoff
    ensures Count(s, cutoff) == 0 ==> Tokens(s, cutoff) == 0
    ensures NonNegative(s) ==> Tokens(s, cutoff) >= 0
  {
    hide *;
    CountLimits(s, cutoff);
    TokenLimits(s, cutoff);
  }

  /** Two cutoffs that no event separates give the same measures. */
  lemma {:induction false} CountCongruent(s: seq<Event>, c1: int, c2: int)
    requires forall e <- s :: e.at > c1 <==> e.at > c2
    ensures Count(s, c1) == Count(s, c2)
    ensures Tokens(s, c1) == Tokens(s, c2)
  {
    if s != [] {
      CountCongruent(s[..|s| - 1], c1, c2);
    }
  }

  /** A later cutoff never sees more. */
  lemma {:induction false} CountMonotone(s: seq<Event>, c1: int, c2: int)
    requires c1 <= c2
    ensures Count(s, c1) >= Count(s, c2)
    ensures NonNegative(s) ==> Tokens(s, c1) >= Tokens(s, c2)
  {
    if s != [] {
      CountMonotone(s[..|s| - 1], c1, c2);
    }
  }

  /** No window starting at `lo` holds more than everything after `lo`. */
  lemma {:induction false} CountInWithinCount(s: seq<Event>, lo: int, span: int)
    ensures CountIn(s, lo, span) <= Count(s, lo)
    ensures NonNegative(s) ==> TokensIn(s, lo, span) <= Tokens(s, lo)
  {
    if s != [] {
      CountInWithinCount(s[..|s| - 1], lo, span);
    }
  }

  /** `Oldest` is the minimum it claims to be. */
  lemma {:induction false} OldestIsMinimum(s: seq<Event>, cutoff: int, now: int)
    ensures Oldest(s, cutoff, now) <= now
    ensures forall e <- s :: e.at > cutoff ==> Oldest(s, cutoff, now) <= e.at || Oldest(s, cutoff, now) == now
    ensures Oldest(s, cutoff, now) == now || exists e <- s :: e.at > cutoff && e.at == Oldest(s, cutoff, now)
    ensures forall e <- s :: cutoff < e.at ==> Oldest(s, cutoff, now) <= e.at
  {
    if s != [] {
      var n := |s| - 1;
      OldestIsMinimum(s[..n], cutoff, now);
      assert s == s[..n] + [s[n]];
    }
  }
}
