/** One log, one quota, and the gap between checking it and recording to it. */
module QuotaBound {
  import opened Window
  import opened Rings
  import opened Recall
  import opened Quotas

  /** What matters to one key: its ring, the unbounded history behind it, how many
      requests have been let through but not yet recorded, and the time. */
  datatype View = View(ring: Ring, hist: seq<Event>, flight: nat, clock: int)

  ghost predicate ViewOk(v: View) {
    && v.clock >= 0
    && RingOk(v.ring)
    && Holds(v.ring, v.hist, v.clock - DAY)
    && Sorted(v.hist)
    && NonNegative(v.hist)
    && forall e <- v.hist :: e.at <= v.clock
  }

  /** Time passes, or requests leave without being recorded; the process may have been
      restarted meanwhile. */
  ghost predicate Idles(v: View, v': View) {
    && v'.hist == v.hist && v'.flight <= v.flight && v'.clock >= v.clock
    && (v'.ring == v.ring || (Restartable(v.ring, v'.clock) && v'.ring == Load(v.ring.stored, v'.clock)))
  }

  /** A request is let through: no limit was reached when its log was checked. */
  ghost predicate Admits(v: View, v': View, q: Quota) {
    && v' == v.(flight := v.flight + 1)
    && forall l: Limit :: !l.Reached(v.ring.stored, q, v.clock)
  }

  /** A request in flight is recorded, having spent at most `most` tokens. */
  ghost predicate Records(v: View, v': View, most: int) {
    && v.flight > 0 && RingOk(v.ring)
    && exists tokens: int ::
         0 <= tokens <= most && v' == Recorded(v, tokens)
  }

  function Recorded(v: View, tokens: int): View
    requires v.flight > 0 && RingOk(v.ring)
  {
    var e := Event(v.clock, tokens);
    View(Push(v.ring, e), v.hist + [e], v.flight - 1, v.clock)
  }

  ghost predicate Moves(v: View, v': View, q: Quota, most: int) {
    Idles(v, v') || Admits(v, v', q) || Records(v, v', most)
  }

  /** What is in the current window, together with what is in flight, stays within
      `bound`, and so does every window of this span there ever was. */
  ghost predicate RequestsWithin(v: View, span: int, bound: int) {
    && Count(v.hist, v.clock - span) + v.flight <= bound
    && forall lo :: CountIn(v.hist, lo, span) <= bound
  }

  /** The same for tokens, each request in flight counted at its largest. */
  ghost predicate TokensWithin(v: View, span: int, bound: int, each: nat) {
    && Tokens(v.hist, v.clock - span) + Weight(v.flight, each) <= bound
    && forall lo :: TokensIn(v.hist, lo, span) <= bound
  }

  lemma AppendMeasures(h: seq<Event>, e: Event, cutoff: int, lo: int, span: int)
    ensures Count(h + [e], cutoff) == Count(h, cutoff) + (if e.at > cutoff then 1 else 0)
    ensures Tokens(h + [e], cutoff) == Tokens(h, cutoff) + (if e.at > cutoff then e.tokens else 0)
    ensures CountIn(h + [e], lo, span) == CountIn(h, lo, span) + (if lo < e.at <= lo + span then 1 else 0)
    ensures TokensIn(h + [e], lo, span) == TokensIn(h, lo, span) + (if lo < e.at <= lo + span then e.tokens else 0)
  {
  }

  lemma IdleKeepsOk(v: View, v': View)
    requires ViewOk(v) && Idles(v, v')
    ensures ViewOk(v')
  {
    hide Holds, Restartable, Load;
    if v'.ring == v.ring {
      HoldsLater(v.ring, v.hist, v.clock - DAY, v'.clock - DAY);
    } else {
      RestartHolds(v.ring, v.hist, v.clock - DAY, v'.clock);
    }
  }

  lemma RecordKeepsOk(v: View, tokens: int)
    requires ViewOk(v) && v.flight > 0 && tokens >= 0
    ensures ViewOk(Recorded(v, tokens))
  {
    hide Holds, Push;
    var e := Event(v.clock, tokens);
    var v' := Recorded(v, tokens);
    PushHolds(v.ring, v.hist, e, v.clock - DAY);
    forall i, j | 0 <= i < j < |v'.hist| ensures v'.hist[i].at <= v'.hist[j].at {
      if j == |v.hist| {
        assert v.hist[i] in v.hist;
      }
    }
  }

  lemma MoveKeepsOk(v: View, v': View, q: Quota, most: int)
    requires ViewOk(v) && Moves(v, v', q, most)
    ensures ViewOk(v')
  {
    hide ViewOk;
    if Idles(v, v') {
      IdleKeepsOk(v, v');
    } else if Records(v, v', most) {
      var tokens :| 0 <= tokens <= most && v' == Recorded(v, tokens);
      RecordKeepsOk(v, tokens);
    } else {
      AdmitKeepsOk(v, v', q);
    }
  }

  lemma AdmitKeepsOk(v: View, v': View, q: Quota)
    requires ViewOk(v) && Admits(v, v', q)
    ensures ViewOk(v')
  {
  }

  lemma IdleKeepsRequests(v: View, v': View, span: int, bound: int)
    requires Idles(v, v') && RequestsWithin(v, span, bound)
    ensures RequestsWithin(v', span, bound)
  {
    CountMonotone(v.hist, v.clock - span, v'.clock - span);
  }

  /** A full ring or not, an admission sees every request in the window. */
  lemma AdmitKeepsRequests(v: View, v': View, q: Quota, l: Limit, most: int)
    requires Holds(v.ring, v.hist, v.clock - DAY) && Sorted(v.hist)
    requires Admits(v, v', q) && v'.flight <= most
    requires l.CountsRequests() && 0 < l.Cap(q) <= MAX_EVENTS
    requires RequestsWithin(v, l.Span(), l.Cap(q) + most - 1)
    ensures RequestsWithin(v', l.Span(), l.Cap(q) + most - 1)
  {
    HeldVerdict(v.ring, v.hist, q, l, v.clock);
    assert !l.Reached(v.ring.stored, q, v.clock);
  }

  /** Appending at the current instant to windows that all had room for it. */
  lemma AppendKeepsCount(h: seq<Event>, e: Event, span: int, bound: int, lo: int)
    requires Count(h, e.at - span) + 1 <= bound && CountIn(h, lo, span) <= bound
    ensures CountIn(h + [e], lo, span) <= bound
  {
    AppendMeasures(h, e, e.at - span, lo, span);
    CountInWithinCount(h, lo, span);
    if lo < e.at <= lo + span {
      CountMonotone(h, e.at - span, lo);
    }
  }

  lemma AppendKeepsTokens(h: seq<Event>, e: Event, span: int, bound: int, lo: int)
    requires NonNegative(h)
    requires Tokens(h, e.at - span) + e.tokens <= bound && TokensIn(h, lo, span) <= bound
    ensures TokensIn(h + [e], lo, span) <= bound
  {
    AppendMeasures(h, e, e.at - span, lo, span);
    CountInWithinCount(h, lo, span);
    if lo < e.at <= lo + span {
      CountMonotone(h, e.at - span, lo);
    }
  }

  lemma RecordedIs(v: View, tokens: int)
    requires v.flight > 0 && RingOk(v.ring)
    ensures var v' := Recorded(v, tokens);
            v'.hist == v.hist + [Event(v.clock, tokens)] && v'.flight == v.flight - 1 && v'.clock == v.clock
  {
  }

  lemma RecordKeepsRequests(v: View, tokens: int, span: int, bound: int)
    requires v.flight > 0 && RingOk(v.ring) && span > 0
    requires RequestsWithin(v, span, bound)
    ensures RequestsWithin(Recorded(v, tokens), span, bound)
  {
    hide Recorded, RingOk, Count, CountIn;
    var e, v' := Event(v.clock, tokens), Recorded(v, tokens);
    RecordedIs(v, tokens);
    AppendMeasures(v.hist, e, v.clock - span, 0, span);
    assert Count(v.hist, e.at - span) + 1 <= bound;
    forall lo ensures CountIn(v'.hist, lo, span) <= bound {
      AppendKeepsCount(v.hist, e, span, bound, lo);
    }
  }

  lemma MoveKeepsRequests(v: View, v': View, q: Quota, l: Limit, most: int, tokens: int)
    requires Holds(v.ring, v.hist, v.clock - DAY) && Sorted(v.hist) && Moves(v, v', q, tokens)
    requires l.CountsRequests() && 0 < l.Cap(q) <= MAX_EVENTS
    requires v'.flight <= most
    requires RequestsWithin(v, l.Span(), l.Cap(q) + most - 1)
    ensures RequestsWithin(v', l.Span(), l.Cap(q) + most - 1)
  {
    hide Holds, RequestsWithin, Idles;
    if Idles(v, v') {
      IdleKeepsRequests(v, v', l.Span(), l.Cap(q) + most - 1);
    } else if Admits(v, v', q) {
      AdmitKeepsRequests(v, v', q, l, most);
    } else {
      var t :| 0 <= t <= tokens && v' == Recorded(v, t);
      RecordKeepsRequests(v, t, l.Span(), l.Cap(q) + most - 1);
    }
  }

  /** `n` requests of at most `each` tokens: n * each, by repeated addition. */
  function Weight(n: nat, each: nat): nat {
    if n == 0 then 0 else Weight(n - 1, each) + each
  }

  lemma {:induction false} WeightIsProduct(n: nat, each: nat)
    ensures Weight(n, each) == n * each
  {
    if n > 0 {
      WeightIsProduct(n - 1, each);
      assert (n - 1) * each + each == n * each;
    }
  }

  lemma {:induction false} WeightMonotone(a: nat, b: nat, each: nat)
    requires a <= b
    ensures Weight(a, each) <= Weight(b, each)
  {
    if a < b {
      WeightMonotone(a, b - 1, each);
    }
  }

  lemma IdleKeepsTokens(v: View, v': View, span: int, bound: int, each: nat)
    requires Idles(v, v') && NonNegative(v.hist) && TokensWithin(v, span, bound, each)
    ensures TokensWithin(v', span, bound, each)
  {
    CountMonotone(v.hist, v.clock - span, v'.clock - span);
    WeightMonotone(v'.flight, v.flight, each);
  }

  lemma AdmitKeepsTokens(v: View, v': View, q: Quota, l: Limit, most: nat, each: nat)
    requires Holds(v.ring, v.hist, v.clock - DAY) && Sorted(v.hist)
    requires Admits(v, v', q) && v'.flight <= most
    requires !l.CountsRequests() && 0 < l.Cap(q)
    requires Tokens(Lost(v.hist), v.clock - l.Span()) == 0
    requires TokensWithin(v, l.Span(), l.Cap(q) - 1 + Weight(most, each), each)
    ensures TokensWithin(v', l.Span(), l.Cap(q) - 1 + Weight(most, each), each)
  {
    hide Holds, Lost, Tokens, TokensIn;
    HeldVerdict(v.ring, v.hist, q, l, v.clock);
    assert !l.Reached(v.ring.stored, q, v.clock);
    WeightMonotone(v'.flight, most, each);
  }

  lemma RecordKeepsTokens(v: View, tokens: nat, span: int, bound: int, each: nat)
    requires v.flight > 0 && RingOk(v.ring) && span > 0 && NonNegative(v.hist) && tokens <= each
    requires TokensWithin(v, span, bound, each)
    ensures TokensWithin(Recorded(v, tokens), span, bound, each)
  {
    hide Push, RingOk, NonNegative, Tokens, TokensIn;
    var e, rest := Event(v.clock, tokens), v.flight - 1;
    assert Weight(v.flight, each) == Weight(rest, each) + each;
    WeightMonotone(0, rest, each);
    AppendMeasures(v.hist, e, v.clock - span, 0, span);
    assert Tokens(v.hist, e.at - span) + e.tokens <= bound;
    forall lo ensures TokensIn(v.hist + [e], lo, span) <= bound {
      AppendKeepsTokens(v.hist, e, span, bound, lo);
    }
  }

  lemma MoveKeepsTokens(v: View, v': View, q: Quota, l: Limit, most: nat, each: nat)
    requires ViewOk(v) && Moves(v, v', q, each)
    requires !l.CountsRequests() && 0 < l.Cap(q)
    requires v'.flight <= most
    requires Tokens(Lost(v.hist), v.clock - l.Span()) == 0
    requires TokensWithin(v, l.Span(), l.Cap(q) - 1 + Weight(most, each), each)
    ensures TokensWithin(v', l.Span(), l.Cap(q) - 1 + Weight(most, each), each)
  {
    hide Holds, Lost, Tokens, TokensWithin, Idles, Weight;
    if Idles(v, v') {
      IdleKeepsTokens(v, v', l.Span(), l.Cap(q) - 1 + Weight(most, each), each);
    } else if Admits(v, v', q) {
      AdmitKeepsTokens(v, v', q, l, most, each);
    } else {
      var t :| 0 <= t <= each && v' == Recorded(v, t);
      RecordKeepsTokens(v, t, l.Span(), l.Cap(q) - 1 + Weight(most, each), each);
    }
  }

  ghost predicate Starts(v: View) {
    v.ring == EMPTY && v.hist == [] && v.flight == 0 && v.clock >= 0
  }

  lemma StartOk(v: View)
    requires Starts(v)
    ensures ViewOk(v)
  {
    EmptyRefines();
    RefinesHolds(v.ring, v.hist, v.clock - DAY);
  }

  lemma StartWithin(v: View, q: Quota, l: Limit, most: nat, each: nat)
    requires Starts(v) && 0 < l.Cap(q)
    ensures RequestsWithin(v, l.Span(), l.Cap(q) + most - 1)
    ensures TokensWithin(v, l.Span(), l.Cap(q) - 1 + Weight(most, each), each)
  {
  }
}
