/** A log that may have forgotten its distant past: what it still recalls of the recent one,
    and which restarts keep that. */
module Recall {
  import opened Window
  import opened Rings

  /** The events after `since`, in the order they stand. */
  function Above(s: seq<Event>, since: int): seq<Event> {
    if s == [] then []
    else Above(s[..|s| - 1], since) + (if s[|s| - 1].at > since then [s[|s| - 1]] else [])
  }

  lemma {:induction false} AboveConcat(a: seq<Event>, b: seq<Event>, since: int)
    ensures Above(a + b, since) == Above(a, since) + Above(b, since)
  {
    if b == [] {
      assert a + b == a;
    } else {
      assert (a + b)[..|a + b| - 1] == a + b[..|b| - 1];
      AboveConcat(a, b[..|b| - 1], since);
    }
  }

  lemma {:induction false} AboveMembers(s: seq<Event>, since: int)
    ensures forall e :: e in Above(s, since) <==> e in s && e.at > since
  {
    if s != [] {
      var n := |s| - 1;
      AboveMembers(s[..n], since);
      assert s == s[..n] + [s[n]];
    }
  }

  lemma {:induction false} AboveLength(s: seq<Event>, since: int)
    ensures |Above(s, since)| <= |s|
    ensures |Above(s, since)| == |s| ==> Above(s, since) == s
    ensures (forall e <- s :: e.at > since) ==> |Above(s, since)| == |s|
  {
    if s != [] {
      var n := |s| - 1;
      AboveLength(s[..n], since);
      assert s == s[..n] + [s[n]];
    }
  }

  lemma AboveAre(s: seq<Event>, since: int)
    ensures forall e :: e in Above(s, since) <==> e in s && e.at > since
    ensures |Above(s, since)| <= |s|
    ensures |Above(s, since)| == |s| ==> Above(s, since) == s
    ensures (forall e <- s :: e.at > since) ==> Above(s, since) == s
  {
    hide Above;
    AboveMembers(s, since);
    AboveLength(s, since);
  }

  lemma NoneAbove(s: seq<Event>, since: int)
    requires forall e <- s :: e.at <= since
    ensures Above(s, since) == []
  {
    AboveAre(s, since);
    FirstIsMember(Above(s, since));
  }

  lemma FirstIsMember(es: seq<Event>)
    ensures es != [] ==> es[0] in es
  {
  }

  lemma AboveOne(e: Event, since: int)
    ensures Above([e], since) == if e.at > since then [e] else []
  {
    assert [e][..0] == [];
  }

  lemma MeasuresOne(e: Event, cutoff: int)
    ensures Count([e], cutoff) == (if e.at > cutoff then 1 else 0)
    ensures Tokens([e], cutoff) == (if e.at > cutoff then e.tokens else 0)
    ensures Count([], cutoff) == 0 && Tokens([], cutoff) == 0
  {
    assert [e][..0] == [];
  }

  lemma {:induction false} AboveMeasures(s: seq<Event>, since: int, cutoff: int)
    requires since <= cutoff
    ensures Count(Above(s, since), cutoff) == Count(s, cutoff)
    ensures Tokens(Above(s, since), cutoff) == Tokens(s, cutoff)
  {
    if s != [] {
      hide Count, Tokens;
      var n := |s| - 1;
      var init, last := s[..n], [s[n]];
      assert s == init + last;
      AboveMeasures(init, since, cutoff);
      AboveOne(s[n], since);
      AboveConcat(init, last, since);
      MeasuresOne(s[n], cutoff);
      hide Above;
      CountConcat(Above(init, since), Above(last, since), cutoff);
      CountConcat(init, last, cutoff);
    }
  }

  lemma {:induction false} AboveTwice(s: seq<Event>, since: int, later: int)
    requires since <= later
    ensures Above(Above(s, since), later) == Above(s, later)
  {
    if s != [] {
      var n := |s| - 1;
      var init, last := s[..n], [s[n]];
      assert s == init + last;
      AboveTwice(init, since, later);
      AboveOne(s[n], since);
      AboveOne(s[n], later);
      AboveConcat(init, last, since);
      AboveConcat(init, last, later);
      AboveConcat(Above(init, since), Above(last, since), later);
      assert Above([], later) == [];
    }
  }

  /** What a restart at `now` drops is not of the last day. */
  lemma {:induction false} AboveRecent(s: seq<Event>, now: int)
    ensures Above(Recent(s, now), now - DAY) == Above(s, now - DAY)
  {
    if s != [] {
      var n := |s| - 1;
      AboveRecent(s[..n], now);
      if s[n].at >= now - 25 * HOUR {
        assert (Recent(s[..n], now) + [s[n]])[..|Recent(s[..n], now)|] == Recent(s[..n], now);
      }
    }
  }

  /** In a log in time order they are its tail. */
  lemma {:induction false} AboveTail(s: seq<Event>, since: int) returns (k: nat)
    requires Sorted(s)
    ensures k <= |s| && Above(s, since) == s[k..] && forall e <- s[..k] :: e.at <= since
  {
    hide Above, Sorted;
    if s == [] {
      k := 0;
      NoneAbove(s, since);
    } else {
      var n := |s| - 1;
      LastIsLatest(s);
      if s[n].at <= since {
        NoneAbove(s, since);
        k := n + 1;
      } else {
        PrefixSorted(s, n);
        k := AboveTail(s[..n], since);
        assert s == s[..n] + [s[n]];
        AboveConcat(s[..n], [s[n]], since);
        AboveOne(s[n], since);
        assert s[k..] == s[..n][k..] + [s[n]];
        assert s[..k] == s[..n][..k];
      }
    }
  }

  lemma PrefixSorted(s: seq<Event>, n: nat)
    requires Sorted(s) && n <= |s|
    ensures Sorted(s[..n])
  {
  }

  lemma LastIsLatest(s: seq<Event>)
    requires Sorted(s) && s != []
    ensures forall e <- s :: e.at <= s[|s| - 1].at
  {
  }

  lemma AboveSuffix(s: seq<Event>, since: int)
    requires Sorted(s)
    ensures Above(Suffix(s), since) == Suffix(Above(s, since))
  {
    hide Above, Sorted, Suffix;
    var k := AboveTail(s, since);
    SuffixIsTail(s);
    SuffixIsTail(s[k..]);
    TailAbove(s, since, k, |s| - |Suffix(s)|);
  }

  lemma SuffixIsTail(s: seq<Event>)
    ensures |Suffix(s)| == Min(|s|, MAX_EVENTS) && Suffix(s) == s[|s| - |Suffix(s)|..]
  {
  }

  /** What is above in the tail of a log is the shorter of the two tails. */
  lemma TailAbove(s: seq<Event>, since: int, k: nat, m: nat)
    requires k <= |s| && m <= |s| && Above(s, since) == s[k..] && forall e <- s[..k] :: e.at <= since
    ensures Above(s[m..], since) == s[Max(k, m)..]
  {
    hide Above;
    AboveAre(s, since);
    if k <= m {
      assert forall e <- s[m..] :: e in s[k..];
      AboveAre(s[m..], since);
    } else {
      MiddleIn(s, m, k);
      NoneAbove(s[m..k], since);
      AboveAre(s[k..], since);
      AboveConcat(s[m..k], s[k..], since);
    }
  }

  lemma MiddleIn(s: seq<Event>, m: nat, k: nat)
    requires m < k <= |s|
    ensures s[m..] == s[m..k] + s[k..] && forall e <- s[m..k] :: e in s[..k]
  {
  }

  // ---- what a ring still recalls ----

  /** Of everything after `since`, the ring holds what it can of the unbounded log `h`, and
      will evict it in order. */
  ghost predicate Holds(r: Ring, h: seq<Event>, since: int) {
    && RingOk(r)
    && SortedAbove(EvictionOrder(r), since)
    && Above(EvictionOrder(r), since) == Suffix(Above(h, since))
  }

  lemma RefinesHolds(r: Ring, h: seq<Event>, since: int)
    requires Refines(r, h) && Sorted(h)
    ensures Holds(r, h, since)
  {
    hide EvictionOrder;
    AboveSuffix(h, since);
  }

  lemma HoldsLater(r: Ring, h: seq<Event>, since: int, later: int)
    requires Holds(r, h, since) && Sorted(h) && since <= later
    ensures Holds(r, h, later)
  {
    hide EvictionOrder, Above, Suffix;
    var o, recent := EvictionOrder(r), Above(h, since);
    AboveTwice(o, since, later);
    AboveTwice(h, since, later);
    var k := AboveTail(h, since);
    AboveSuffix(recent, later);
  }

  /** One append at an instant after `since`, not before anything logged. */
  lemma PushHolds(r: Ring, h: seq<Event>, e: Event, since: int)
    requires Holds(r, h, since) && e.at > since && forall x <- h :: x.at <= e.at
    ensures Holds(Push(r, e), h + [e], since)
  {
    hide EvictionOrder, Push, Suffix, Above;
    var o := EvictionOrder(r);
    PushEvicts(r, e);
    AboveAre(o, since);
    AboveAre(h, since);
    SuffixAre(Above(h, since));
    AboveConcat(h, [e], since);
    AboveOne(e, since);
    SuffixAppend(Above(h, since), e);
    if |r.stored| < MAX_EVENTS {
      AppendedAbove(o, e, since);
    } else {
      FirstEvicted(o, since);
      AppendedAbove(o[1..], e, since);
    }
  }

  /** Evicting the first event costs one of those above only when all are. */
  lemma FirstEvicted(o: seq<Event>, since: int)
    requires o != [] && SortedAbove(o, since)
    ensures SortedAbove(o[1..], since)
    ensures Above(o[1..], since) == if |Above(o, since)| == |o| then Above(o, since)[1..] else Above(o, since)
    ensures forall x <- Above(o[1..], since) :: x in Above(o, since)
  {
    hide Above, SortedAbove;
    FirstAbove(o, since);
    AboveAre(o, since);
    AboveAre(o[1..], since);
    if o[0].at <= since {
      assert o == [o[0]] + o[1..];
      AboveConcat([o[0]], o[1..], since);
      AboveOne(o[0], since);
    }
  }

  lemma FirstAbove(o: seq<Event>, since: int)
    requires o != [] && SortedAbove(o, since)
    ensures SortedAbove(o[1..], since)
    ensures o[0].at > since ==> forall x <- o :: x.at > since
  {
  }

  lemma SuffixAre(s: seq<Event>)
    ensures |Suffix(s)| <= MAX_EVENTS && forall e <- Suffix(s) :: e in s
  {
  }

  lemma AppendedAbove(s: seq<Event>, e: Event, since: int)
    requires SortedAbove(s, since) && e.at > since && forall x <- Above(s, since) :: x.at <= e.at
    ensures SortedAbove(s + [e], since) && Above(s + [e], since) == Above(s, since) + [e]
  {
    AboveConcat(s, [e], since);
    AboveOne(e, since);
    AboveAre(s, since);
    hide Above;
    forall i, j | 0 <= i < j < |s + [e]| && (s + [e])[i].at > since ensures (s + [e])[i].at <= (s + [e])[j].at {
      if j == |s| {
        assert s[i] in s;
      }
    }
  }

  lemma TailLost(h: seq<Event>, k: nat, cutoff: int)
    requires k <= |h| && forall e <- h[..k] :: e.at <= cutoff
    ensures Count(h, cutoff) == Count(h[k..], cutoff) && Tokens(h, cutoff) == Tokens(h[k..], cutoff)
    ensures Tokens(Lost(h), cutoff) == Tokens(Lost(h[k..]), cutoff)
  {
    hide Count, Tokens;
    CountBounds(h[..k], cutoff);
    assert h == h[..k] + h[k..];
    CountConcat(h[..k], h[k..], cutoff);
    var m := |h| - |Suffix(h)|;
    if m <= k {
      assert forall e <- h[..m] :: e in h[..k];
      CountBounds(h[..m], cutoff);
      assert Lost(h) == h[..m] && Lost(h[k..]) == [];
      hide Lost, Suffix;
      CountBounds([], cutoff);
    } else {
      assert Lost(h) == h[..k] + Lost(h[k..]);
      hide Lost, Suffix;
      CountConcat(h[..k], Lost(h[k..]), cutoff);
    }
  }

  /** As `RingMeasures`, at every cutoff the ring still answers for. */
  lemma HoldsMeasures(r: Ring, h: seq<Event>, since: int, cutoff: int)
    requires Holds(r, h, since) && Sorted(h) && since <= cutoff
    ensures Count(r.stored, cutoff) == Min(MAX_EVENTS, Count(h, cutoff))
    ensures Tokens(r.stored, cutoff) == Tokens(h, cutoff) - Tokens(Lost(h), cutoff)
    ensures NonNegative(h) ==> Tokens(Lost(h), cutoff) >= 0
    ensures Count(h, cutoff) <= MAX_EVENTS ==> Tokens(Lost(h), cutoff) == 0
  {
    hide EvictionOrder, Above, Suffix, Lost, Count, Tokens;
    var k := AboveTail(h, since);
    OrderIrrelevant(r, cutoff);
    AboveMeasures(EvictionOrder(r), since, cutoff);
    SuffixMeasures(h[k..], cutoff);
    TailLost(h, k, cutoff);
  }

  // ---- restarts ----

  /** A restart at `now` brings the events of the last day back in the order they would have
      been evicted in, none of them before an older one that is kept. */
  ghost predicate Restartable(r: Ring, now: int) {
    && RingOk(r)
    && SortedAbove(Recent(r.stored, now), now - DAY)
    && Above(Recent(r.stored, now), now - DAY) == Above(EvictionOrder(r), now - DAY)
  }

  lemma RestartHolds(r: Ring, h: seq<Event>, since: int, now: int)
    requires Holds(r, h, since) && Sorted(h) && since <= now - DAY && Restartable(r, now)
    ensures Holds(Load(r.stored, now), h, now - DAY)
  {
    hide EvictionOrder, Load, Recent, Above, Suffix;
    HoldsLater(r, h, since, now - DAY);
    KeptFits(r, now);
    LoadedOrder(r.stored, now);
  }

  lemma KeptFits(r: Ring, now: int)
    requires RingOk(r)
    ensures |Recent(r.stored, now)| <= MAX_EVENTS
  {
    RecentMeasures(r.stored, now, now, now);
  }
}
