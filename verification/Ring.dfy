/** The bounded event log as a value: the stored slots in storage order, and the
    next write position. */
module Rings {
  import opened Window

  const MAX_EVENTS: nat := 10000

  datatype Ring = Ring(stored: seq<Event>, head: nat)

  const EMPTY := Ring([], 0)

  ghost predicate RingOk(r: Ring) {
    && |r.stored| <= MAX_EVENTS
    && r.head < MAX_EVENTS
    && (|r.stored| < MAX_EVENTS ==> r.head == |r.stored|)
  }

  /** One append: fill a free slot, or overwrite the slot at `head`. */
  function Push(r: Ring, e: Event): (r': Ring)
    requires RingOk(r)
    ensures RingOk(r')
  {
    Ring(if |r.stored| < MAX_EVENTS then r.stored + [e] else r.stored[r.head := e],
         (r.head + 1) % MAX_EVENTS)
  }

  function PushAll(r: Ring, es: seq<Event>): (r': Ring)
    requires RingOk(r)
    ensures RingOk(r')
  {
    if es == [] then r else Push(PushAll(r, es[..|es| - 1]), es[|es| - 1])
  }

  /** The stored events in the order they will be evicted. */
  function EvictionOrder(r: Ring): seq<Event>
    requires RingOk(r)
  {
    r.stored[Min(r.head, |r.stored|)..] + r.stored[..Min(r.head, |r.stored|)]
  }

  /** What a log of at most MAX_EVENTS entries can still remember of `h`. */
  function Suffix(h: seq<Event>): seq<Event> {
    if |h| <= MAX_EVENTS then h else h[|h| - MAX_EVENTS..]
  }

  /** What it can not. */
  function Lost(h: seq<Event>): seq<Event> {
    h[..|h| - |Suffix(h)|]
  }

  /** The ring holds exactly the newest MAX_EVENTS entries of the unbounded log `h`. */
  ghost predicate Refines(r: Ring, h: seq<Event>) {
    RingOk(r) && EvictionOrder(r) == Suffix(h)
  }

  lemma EmptyRefines()
    ensures Refines(EMPTY, [])
  {
  }

  lemma PushFills(r: Ring, e: Event)
    requires RingOk(r) && |r.stored| < MAX_EVENTS
    ensures EvictionOrder(r) == r.stored && EvictionOrder(Push(r, e)) == r.stored + [e]
  {
    var r' := Push(r, e);
    assert r'.stored == r.stored + [e];
    assert r'.head == 0 || r'.head == |r'.stored|;
  }

  lemma PushOverwrites(r: Ring, e: Event)
    requires RingOk(r) && |r.stored| == MAX_EVENTS
    ensures EvictionOrder(Push(r, e)) == EvictionOrder(r)[1..] + [e]
  {
    var h, r' := r.head, Push(r, e);
    assert r'.stored == r.stored[..h] + [e] + r.stored[h + 1..];
    assert EvictionOrder(r)[1..] == r.stored[h + 1..] + r.stored[..h];
    if h + 1 == MAX_EVENTS {
      assert EvictionOrder(r') == r'.stored;
    } else {
      assert r'.stored[h + 1..] == r.stored[h + 1..];
      assert r'.stored[..h + 1] == r.stored[..h] + [e];
    }
  }

  lemma PushEvicts(r: Ring, e: Event)
    requires RingOk(r)
    ensures |EvictionOrder(r)| == |r.stored|
    ensures EvictionOrder(Push(r, e)) ==
            (if |r.stored| < MAX_EVENTS then EvictionOrder(r) else EvictionOrder(r)[1..]) + [e]
  {
    if |r.stored| < MAX_EVENTS {
      PushFills(r, e);
    } else {
      PushOverwrites(r, e);
    }
    hide Push;
  }

  lemma SuffixAppend(h: seq<Event>, e: Event)
    ensures Suffix(h + [e]) == (if |Suffix(h)| < MAX_EVENTS then Suffix(h) else Suffix(h)[1..]) + [e]
  {
    if |h| >= MAX_EVENTS {
      assert Suffix(h + [e]) == Suffix(h)[1..] + [e];
    }
  }

  lemma PushRefines(r: Ring, h: seq<Event>, e: Event)
    requires Refines(r, h)
    ensures Refines(Push(r, e), h + [e])
  {
    PushEvicts(r, e);
    SuffixAppend(h, e);
  }

  /** Measures do not depend on the storage order. */
  lemma OrderIrrelevant(r: Ring, cutoff: int)
    requires RingOk(r)
    ensures Count(r.stored, cutoff) == Count(EvictionOrder(r), cutoff)
    ensures Tokens(r.stored, cutoff) == Tokens(EvictionOrder(r), cutoff)
  {
    var k := Min(r.head, |r.stored|);
    assert r.stored == r.stored[..k] + r.stored[k..];
    CountConcat(r.stored[..k], r.stored[k..], cutoff);
    CountConcat(r.stored[k..], r.stored[..k], cutoff);
  }

  /** Cutting a time-ordered log at `k`: once the old part reaches past the cutoff,
      the whole new part does. */
  lemma CutMeasures(h: seq<Event>, k: nat, cutoff: int)
    requires SortedAbove(h, cutoff) && k <= |h|
    ensures Count(h, cutoff) == Count(h[..k], cutoff) + Count(h[k..], cutoff)
    ensures Tokens(h, cutoff) == Tokens(h[..k], cutoff) + Tokens(h[k..], cutoff)
    ensures Count(h[k..], cutoff) <= |h| - k
    ensures Count(h[..k], cutoff) > 0 ==> Count(h[k..], cutoff) == |h| - k
    ensures Count(h[..k], cutoff) == 0 ==> Tokens(h[..k], cutoff) == 0
    ensures NonNegative(h) ==> Tokens(h[..k], cutoff) >= 0
  {
    hide Count, Tokens;
    assert h == h[..k] + h[k..];
    CountConcat(h[..k], h[k..], cutoff);
    CountBounds(h[..k], cutoff);
    CountBounds(h[k..], cutoff);
    if Count(h[..k], cutoff) > 0 {
      var e :| e in h[..k] && e.at > cutoff;
      assert forall x <- h[k..] :: x.at >= e.at;
    }
  }

  lemma SuffixMeasures(h: seq<Event>, cutoff: int)
    requires SortedAbove(h, cutoff)
    ensures Count(Suffix(h), cutoff) == Min(MAX_EVENTS, Count(h, cutoff))
    ensures Tokens(Suffix(h), cutoff) == Tokens(h, cutoff) - Tokens(Lost(h), cutoff)
    ensures NonNegative(h) ==> Tokens(Lost(h), cutoff) >= 0
    ensures Count(h, cutoff) <= MAX_EVENTS ==> Tokens(Lost(h), cutoff) == 0
  {
    var k := |h| - |Suffix(h)|;
    assert Suffix(h) == h[k..] && Lost(h) == h[..k];
    hide Count, Tokens, Suffix, Lost;
    CutMeasures(h, k, cutoff);
    CountBounds(h, cutoff);
  }

  /** The ring refines the unbounded log: request counts saturate at MAX_EVENTS, and token
      sums fall short of the true ones by exactly what was lost, at every cutoff. */
  lemma RingMeasures(r: Ring, h: seq<Event>, cutoff: int)
    requires Refines(r, h) && Sorted(h)
    ensures Count(r.stored, cutoff) == Min(MAX_EVENTS, Count(h, cutoff))
    ensures Tokens(r.stored, cutoff) == Tokens(h, cutoff) - Tokens(Lost(h), cutoff)
    ensures NonNegative(h) ==> Tokens(Lost(h), cutoff) >= 0
    ensures Count(h, cutoff) <= MAX_EVENTS ==> Tokens(Lost(h), cutoff) == 0
  {
    OrderIrrelevant(r, cutoff);
    SuffixMeasures(h, cutoff);
  }

  // ---- restart ----

  /** A saved slice after `loadSlice`: entries older than 25 hours are dropped. */
  function Recent(events: seq<Event>, now: int): seq<Event> {
    if events == [] then []
    else
      var init := Recent(events[..|events| - 1], now);
      var e := events[|events| - 1];
      if e.at < now - 25 * HOUR then init else init + [e]
  }

  function Load(events: seq<Event>, now: int): (r: Ring)
    ensures RingOk(r)
  {
    PushAll(EMPTY, Recent(events, now))
  }

  lemma {:induction false} PushAllRoom(r: Ring, es: seq<Event>)
    requires RingOk(r) && |r.stored| + |es| <= MAX_EVENTS
    ensures PushAll(r, es).stored == r.stored + es
  {
    if es == [] {
      assert r.stored + es == r.stored;
    } else {
      PushAllRoom(r, es[..|es| - 1]);
      assert r.stored + es == (r.stored + es[..|es| - 1]) + [es[|es| - 1]];
    }
  }

  lemma {:induction false} RecentMeasures(events: seq<Event>, now: int, cutoff: int, t: int)
    requires cutoff >= now - 25 * HOUR
    ensures |Recent(events, now)| <= |events|
    ensures Count(Recent(events, now), cutoff) == Count(events, cutoff)
    ensures Tokens(Recent(events, now), cutoff) == Tokens(events, cutoff)
    ensures Oldest(Recent(events, now), cutoff, t) == Oldest(events, cutoff, t)
  {
    if events != [] {
      var n := |events| - 1;
      var init, e := Recent(events[..n], now), events[n];
      RecentMeasures(events[..n], now, cutoff, t);
      if e.at >= now - 25 * HOUR {
        assert (init + [e])[..|init|] == init;
      }
    }
  }

  lemma LoadStored(events: seq<Event>, now: int)
    requires |Recent(events, now)| <= MAX_EVENTS
    ensures Load(events, now).stored == Recent(events, now)
  {
  }

  /** A saved ring comes back with every measure over the last 25 hours intact, even
      when it had wrapped. */
  lemma LoadMeasures(r: Ring, now: int, cutoff: int, t: int)
    requires RingOk(r) && cutoff >= now - 25 * HOUR
    ensures Count(Load(r.stored, now).stored, cutoff) == Count(r.stored, cutoff)
    ensures Tokens(Load(r.stored, now).stored, cutoff) == Tokens(r.stored, cutoff)
    ensures Oldest(Load(r.stored, now).stored, cutoff, t) == Oldest(r.stored, cutoff, t)
  {
    RecentMeasures(r.stored, now, cutoff, t);
    LoadStored(r.stored, now);
  }

  lemma {:induction false} PushAllEvicts(r: Ring, es: seq<Event>)
    requires RingOk(r)
    ensures EvictionOrder(PushAll(r, es)) == Suffix(EvictionOrder(r) + es)
  {
    if es == [] {
      PushEvicts(r, Event(0, 0));
      assert EvictionOrder(r) + es == EvictionOrder(r);
    } else {
      var n := |es| - 1;
      var o := EvictionOrder(r);
      hide EvictionOrder, Push;
      PushAllEvicts(r, es[..n]);
      PushEvicts(PushAll(r, es[..n]), es[n]);
      assert o + es == (o + es[..n]) + [es[n]];
      hide PushAll;
      SuffixAppend(o + es[..n], es[n]);
    }
  }

  lemma LoadedOrder(events: seq<Event>, now: int)
    requires |Recent(events, now)| <= MAX_EVENTS
    ensures EvictionOrder(Load(events, now)) == Recent(events, now)
  {
    PushAllEvicts(EMPTY, Recent(events, now));
    assert EvictionOrder(EMPTY) + Recent(events, now) == Recent(events, now);
  }

  /** The ring remembers the newest ten thousand events, no more and no fewer. */
  lemma RemembersTenThousand(r: Ring, h: seq<Event>)
    requires Refines(r, h)
    ensures |h| <= 10_000 ==> multiset(r.stored) == multiset(h)
    ensures |h| > 10_000 ==> multiset(r.stored) == multiset(h[|h| - 10_000..])
  {
    var k := Min(r.head, |r.stored|);
    assert r.stored == r.stored[..k] + r.stored[k..];
    assert multiset(r.stored) == multiset(EvictionOrder(r));
  }

  /** A restart brings back exactly the events of the last twenty-five hours. */
  lemma RestoresTwentyFiveHours(r: Ring, now: int)
    requires RingOk(r)
    ensures forall e :: e in Load(r.stored, now).stored <==> e in r.stored && e.at >= now - 90_000_000_000_000
  {
    RecentMeasures(r.stored, now, now, now);
    LoadStored(r.stored, now);
    RecentAre(r.stored, now);
  }

  lemma {:induction false} RecentAre(es: seq<Event>, now: int)
    ensures forall e :: e in Recent(es, now) <==> e in es && e.at >= now - 25 * HOUR
    ensures Sorted(es) ==> Sorted(Recent(es, now))
  {
    if es != [] {
      var n := |es| - 1;
      RecentAre(es[..n], now);
      assert es == es[..n] + [es[n]];
    }
  }

  // ---- counting on after a restart ----

  /** From `now` on, whatever is recorded next, the ring counts requests as an unbounded
      log would, over every window a limit can ask about. */
  ghost predicate KeepsCounting(r: Ring, now: int)
    requires RingOk(r)
  {
    forall es: seq<Event>, cutoff: int ::
      Later(r, now, es) && cutoff >= now - DAY ==>
        Count(PushAll(r, es).stored, cutoff) == Min(MAX_EVENTS, Count(r.stored, cutoff) + Count(es, cutoff))
  }

  /** `es` could be the next appends: in time order, not before `now`, and not before
      anything stored. */
  ghost predicate Later(r: Ring, now: int, es: seq<Event>) {
    && Sorted(es)
    && (forall f <- es :: now <= f.at)
    && forall e <- r.stored, f <- es :: e.at <= f.at
  }

  lemma SameElements(r: Ring)
    requires RingOk(r)
    ensures forall e :: e in r.stored <==> e in EvictionOrder(r)
  {
  }

  lemma LaterInOrder(r: Ring, now: int, es: seq<Event>, floor: int)
    requires RingOk(r) && SortedAbove(EvictionOrder(r), floor) && Later(r, now, es)
    ensures SortedAbove(EvictionOrder(r) + es, floor)
  {
    SameElements(r);
    hide EvictionOrder;
    var o := EvictionOrder(r);
    forall i, j | 0 <= i < j < |o + es| && (o + es)[i].at > floor ensures (o + es)[i].at <= (o + es)[j].at {
      if i < |o| <= j {
        assert o[i] in o && es[j - |o|] in es;
      }
    }
  }

  lemma FloorRises(s: seq<Event>, floor: int, higher: int)
    requires SortedAbove(s, floor) && floor <= higher
    ensures SortedAbove(s, higher)
  {
  }

  lemma SortedKeepsCounting(r: Ring, now: int, es: seq<Event>, cutoff: int)
    requires RingOk(r) && SortedAbove(EvictionOrder(r), now - DAY)
    requires Later(r, now, es) && cutoff >= now - DAY
    ensures Count(PushAll(r, es).stored, cutoff) == Min(MAX_EVENTS, Count(r.stored, cutoff) + Count(es, cutoff))
  {
    hide EvictionOrder, PushAll, Suffix, Count, Tokens, SortedAbove, Lost, Later;
    var o := EvictionOrder(r);
    LaterInOrder(r, now, es, now - DAY);
    FloorRises(o + es, now - DAY, cutoff);
    PushAllEvicts(r, es);
    OrderIrrelevant(PushAll(r, es), cutoff);
    SuffixMeasures(o + es, cutoff);
    CountConcat(o, es, cutoff);
    OrderIrrelevant(r, cutoff);
  }

  function Repeat(e: Event, n: nat): (s: seq<Event>)
    ensures |s| == n && forall x <- s :: x == e
  {
    seq(n, _ => e)
  }

  function Latest(s: seq<Event>, floor: int): (t: int)
    ensures t >= floor && forall e <- s :: e.at <= t
  {
    if s == [] then floor
    else
      var t := Latest(s[..|s| - 1], floor);
      assert s == s[..|s| - 1] + [s[|s| - 1]];
      if s[|s| - 1].at > t then s[|s| - 1].at else t
  }

  /** Losing `o[..i + 1]`, which reaches past the cutoff, while keeping `o[j]`, which
      does not, leaves fewer counted than were there and than the ring can hold. */
  lemma EvictedCounts(o: seq<Event>, es: seq<Event>, i: nat, j: nat, cutoff: int)
    requires i < j < |o| && o[j].at <= cutoff < o[i].at
    ensures Count(o[i + 1..] + es, cutoff) < Count(o, cutoff) + Count(es, cutoff)
    ensures Count(o[i + 1..] + es, cutoff) < |o[i + 1..] + es|
  {
    CountConcat(o[i + 1..], es, cutoff);
    assert o == o[..i + 1] + o[i + 1..];
    CountConcat(o[..i + 1], o[i + 1..], cutoff);
    CountBounds(o[..i + 1], cutoff);
    assert o[i] in o[..i + 1];
    var o' := o[i + 1..] + es;
    CountBounds(o', cutoff);
    assert o'[j - i - 1] == o[j] && o'[j - i - 1] in o';
  }

  lemma PushingUndercounts(r: Ring, i: nat, j: nat, es: seq<Event>, cutoff: int)
    requires RingOk(r) && i < j < |EvictionOrder(r)|
    requires EvictionOrder(r)[j].at <= cutoff < EvictionOrder(r)[i].at
    requires |EvictionOrder(r)| + |es| == MAX_EVENTS + i + 1
    ensures Count(PushAll(r, es).stored, cutoff) < Min(MAX_EVENTS, Count(r.stored, cutoff) + Count(es, cutoff))
  {
    hide EvictionOrder, PushAll, Suffix, Count;
    var o := EvictionOrder(r);
    PushAllEvicts(r, es);
    SuffixAfter(o, es, i + 1);
    OrderIrrelevant(PushAll(r, es), cutoff);
    OrderIrrelevant(r, cutoff);
    EvictedCounts(o, es, i, j, cutoff);
  }

  /** Evicting an event a daily window still holds before an older one undercounts: pushing
      just enough to evict `o[i]` but not `o[j]` loses `o[i]` from a window without `o[j]`. */
  lemma UnsortedUndercounts(r: Ring, now: int, i: nat, j: nat)
    requires RingOk(r) && i < j < |EvictionOrder(r)|
    requires EvictionOrder(r)[i].at > EvictionOrder(r)[j].at
    requires EvictionOrder(r)[i].at > now - DAY
    ensures !KeepsCounting(r, now)
  {
    PushEvicts(r, Event(0, 0));
    hide EvictionOrder, PushAll, Count, Min;
    var o := EvictionOrder(r);
    var cutoff := Max(o[j].at, now - DAY);
    var es := Repeat(Event(Latest(r.stored, Max(cutoff + 1, now)), 0), MAX_EVENTS - |o| + i + 1);
    hide Latest, Repeat;
    assert Later(r, now, es);
    PushingUndercounts(r, i, j, es, cutoff);
  }

  lemma SuffixAfter(o: seq<Event>, es: seq<Event>, k: nat)
    requires 0 < k <= |o| && |o| + |es| == MAX_EVENTS + k
    ensures Suffix(o + es) == o[k..] + es
  {
  }

  /** A ring goes on counting like an unbounded log exactly when its eviction order is time
      order among the events of the last day. A ring built by appends has that order; one
      reloaded from a slice saved after a wrap need not. */
  lemma KeepsCountingIff(r: Ring, now: int)
    requires RingOk(r)
    ensures KeepsCounting(r, now) <==> SortedAbove(EvictionOrder(r), now - DAY)
  {
    var o := EvictionOrder(r);
    if SortedAbove(o, now - DAY) {
      forall es: seq<Event>, cutoff: int | Later(r, now, es) && cutoff >= now - DAY
        ensures Count(PushAll(r, es).stored, cutoff) == Min(MAX_EVENTS, Count(r.stored, cutoff) + Count(es, cutoff))
      {
        SortedKeepsCounting(r, now, es, cutoff);
      }
    } else {
      var i, j :| 0 <= i < j < |o| && o[i].at > now - DAY && o[i].at > o[j].at;
      UnsortedUndercounts(r, now, i, j);
    }
  }
}
