/** The six client-side rate limits and the verdict `check` gives on a log. */
module Quotas {
  import opened Window
  import opened Rings
  import opened Recall

  datatype Quota = Quota(rpm: int, rph: int, rpd: int, tpm: int, tph: int, tpd: int)

  const NO_QUOTA := Quota(0, 0, 0, 0, 0, 0)

  datatype Limit = RPM | RPH | RPD | TPM | TPH | TPD {
    predicate CountsRequests() { RPM? || RPH? || RPD? }

    function Span(): int {
      match this
      case RPM | TPM => MINUTE
      case RPH | TPH => HOUR
      case RPD | TPD => DAY
    }

    function Cap(q: Quota): int {
      match this
      case RPM => q.rpm
      case RPH => q.rph
      case RPD => q.rpd
      case TPM => q.tpm
      case TPH => q.tph
      case TPD => q.tpd
    }

    /** What this limit counts, over everything after `cutoff`. */
    function Measure(s: seq<Event>, cutoff: int): int {
      if CountsRequests() then Count(s, cutoff) else Tokens(s, cutoff)
    }

    /** The limit is configured, and its rolling window is full at `now`. */
    predicate Reached(s: seq<Event>, q: Quota, now: int) {
      Cap(q) > 0 && Measure(s, now - Span()) >= Cap(q)
    }

    /** When the oldest event of the window at `now` leaves it. */
    function Release(s: seq<Event>, now: int): int {
      Oldest(s, now - Span(), now) + Span()
    }
  }

  function Enforce(until: int, s: seq<Event>, q: Quota, l: Limit, now: int): int {
    if l.Reached(s, q, now) && l.Release(s, now) > until then l.Release(s, now) else until
  }

  /** The latest release among the reached limits, or instant 0 when none is reached. */
  function Check(s: seq<Event>, q: Quota, now: int): int {
    var a := Enforce(Enforce(Enforce(0, s, q, RPM, now), s, q, RPH, now), s, q, RPD, now);
    Enforce(Enforce(Enforce(a, s, q, TPM, now), s, q, TPH, now), s, q, TPD, now)
  }

  /** The verdict as `tripQuota` reads it: over quota at `now`. */
  predicate Trips(s: seq<Event>, q: Quota, now: int) {
    Check(s, q, now) > now
  }

  lemma ReleaseIsLater(s: seq<Event>, l: Limit, now: int)
    ensures now < l.Release(s, now) <= now + l.Span()
  {
    OldestIsMinimum(s, now - l.Span(), now);
  }

  /** `check` is the maximum release over the reached limits. */
  lemma CheckIsMaximum(s: seq<Event>, q: Quota, now: int)
    ensures forall l: Limit :: l.Reached(s, q, now) ==> l.Release(s, now) <= Check(s, q, now)
    ensures Check(s, q, now) == 0
            || exists l: Limit :: l.Reached(s, q, now) && Check(s, q, now) == l.Release(s, now)
  {
  }

  /** `check` reports a block exactly when some configured limit is reached. */
  lemma CheckExact(s: seq<Event>, q: Quota, now: int)
    requires now >= 0
    ensures Trips(s, q, now) <==> exists l: Limit :: l.Reached(s, q, now)
  {
    CheckIsMaximum(s, q, now);
    forall l: Limit ensures l.Release(s, now) > now { ReleaseIsLater(s, l, now); }
  }

  /** Some limit in `q` is used up at `now`: so many requests, or tokens, in the minute, hour
      or day just past, in nanoseconds. */
  predicate Full(s: seq<Event>, q: Quota, now: int) {
    || (q.rpm > 0 && Count(s, now - 60_000_000_000) >= q.rpm)
    || (q.rph > 0 && Count(s, now - 3_600_000_000_000) >= q.rph)
    || (q.rpd > 0 && Count(s, now - 86_400_000_000_000) >= q.rpd)
    || (q.tpm > 0 && Tokens(s, now - 60_000_000_000) >= q.tpm)
    || (q.tph > 0 && Tokens(s, now - 3_600_000_000_000) >= q.tph)
    || (q.tpd > 0 && Tokens(s, now - 86_400_000_000_000) >= q.tpd)
  }

  lemma FullIsReached(s: seq<Event>, q: Quota, now: int)
    ensures Full(s, q, now) <==> exists l: Limit :: l.Reached(s, q, now)
  {
    hide Count, Tokens;
    if Full(s, q, now) {
      assert RPM.Reached(s, q, now) || RPH.Reached(s, q, now) || RPD.Reached(s, q, now)
          || TPM.Reached(s, q, now) || TPH.Reached(s, q, now) || TPD.Reached(s, q, now);
    }
  }

  /** `check` trips on exactly six things: requests or tokens of the last minute, hour or day
      against their own cap. */
  lemma TripsOnSixLimits(s: seq<Event>, q: Quota, now: int)
    requires now >= 0
    ensures Trips(s, q, now) <==>
              || (q.rpm > 0 && Count(s, now - 60_000_000_000) >= q.rpm)
              || (q.rph > 0 && Count(s, now - 3_600_000_000_000) >= q.rph)
              || (q.rpd > 0 && Count(s, now - 86_400_000_000_000) >= q.rpd)
              || (q.tpm > 0 && Tokens(s, now - 60_000_000_000) >= q.tpm)
              || (q.tph > 0 && Tokens(s, now - 3_600_000_000_000) >= q.tph)
              || (q.tpd > 0 && Tokens(s, now - 86_400_000_000_000) >= q.tpd)
  {
    hide Count, Tokens, Trips;
    CheckExact(s, q, now);
    FullIsReached(s, q, now);
  }

  /** Until its oldest event leaves, a window keeps exactly the same events. */
  lemma WindowFrozen(s: seq<Event>, l: Limit, now: int, t: int)
    requires now <= t < l.Release(s, now)
    ensures l.Measure(s, t - l.Span()) == l.Measure(s, now - l.Span())
  {
    OldestIsMinimum(s, now - l.Span(), now);
    CountCongruent(s, now - l.Span(), t - l.Span());
  }

  /** `check` never over-blocks: with no new events, some limit is reached at every
      instant before the one it returned. */
  lemma CheckTight(s: seq<Event>, q: Quota, now: int, t: int)
    requires 0 <= now <= t < Check(s, q, now)
    ensures Trips(s, q, t)
  {
    CheckIsMaximum(s, q, now);
    var l: Limit :| l.Reached(s, q, now) && Check(s, q, now) == l.Release(s, now);
    WindowFrozen(s, l, now, t);
    assert l.Reached(s, q, t);
    CheckExact(s, q, t);
  }

  /** What the limit counts at exactly one instant. */
  function Tied(s: seq<Event>, l: Limit, at: int): int {
    if s == [] then 0
    else Tied(s[..|s| - 1], l, at) +
         (if s[|s| - 1].at != at then 0 else if l.CountsRequests() then 1 else s[|s| - 1].tokens)
  }

  lemma {:induction false} DropTied(s: seq<Event>, l: Limit, lo: int, o: int)
    requires lo < o && forall e <- s :: e.at > lo ==> e.at >= o
    ensures l.Measure(s, o) == l.Measure(s, lo) - Tied(s, l, o)
  {
    if s != [] {
      DropTied(s[..|s| - 1], l, lo, o);
    }
  }

  /** At its own release instant a limit is lifted exactly when the events tied for
      oldest account for all the excess. */
  lemma ReleaseExact(s: seq<Event>, q: Quota, l: Limit, now: int)
    requires l.Reached(s, q, now)
    requires forall e <- s :: e.at <= now
    ensures var u := l.Release(s, now);
            l.Reached(s, q, u) <==> l.Measure(s, now - l.Span()) - Tied(s, l, u - l.Span()) >= l.Cap(q)
  {
    OldestIsMinimum(s, now - l.Span(), now);
    DropTied(s, l, now - l.Span(), Oldest(s, now - l.Span(), now));
  }

  lemma {:induction false} TiedAtLeastOne(s: seq<Event>, l: Limit, e: Event)
    requires e in s && l.CountsRequests()
    ensures Tied(s, l, e.at) >= 1
  {
    var n := |s| - 1;
    assert s == s[..n] + [s[n]];
    if s[n] != e {
      TiedAtLeastOne(s[..n], l, e);
    } else {
      TiedNonNegative(s[..n], l, e.at);
    }
  }

  lemma {:induction false} TiedNonNegative(s: seq<Event>, l: Limit, at: int)
    requires l.CountsRequests()
    ensures Tied(s, l, at) >= 0
  {
    if s != [] {
      TiedNonNegative(s[..|s| - 1], l, at);
    }
  }

  /** A request limit met by exactly its cap is released at its own unblock instant. */
  lemma ExactlyFullIsReleased(s: seq<Event>, q: Quota, l: Limit, now: int)
    requires l.CountsRequests() && l.Cap(q) > 0 && Count(s, now - l.Span()) == l.Cap(q)
    requires forall e <- s :: e.at <= now
    ensures !l.Reached(s, q, l.Release(s, now))
  {
    ReleaseExact(s, q, l, now);
    OldestIsMinimum(s, now - l.Span(), now);
    CountBounds(s, now - l.Span());
    var w :| w in s && w.at > now - l.Span();
    var o := Oldest(s, now - l.Span(), now);
    if o == now {
      assert w.at == now;
      TiedAtLeastOne(s, l, w);
    } else {
      var e :| e in s && e.at > now - l.Span() && e.at == o;
      TiedAtLeastOne(s, l, e);
    }
  }

  /** Every request limit of at most MAX_EVENTS gets the unbounded log's verdict. */
  lemma RingVerdict(r: Ring, h: seq<Event>, q: Quota, l: Limit, now: int)
    requires Refines(r, h) && Sorted(h)
    ensures l.CountsRequests() && l.Cap(q) <= MAX_EVENTS ==>
              (l.Reached(r.stored, q, now) <==> l.Reached(h, q, now))
    ensures l.CountsRequests() && l.Cap(q) > MAX_EVENTS ==> !l.Reached(r.stored, q, now)
    ensures NonNegative(h) && l.Reached(r.stored, q, now) ==> l.Reached(h, q, now)
    ensures !l.CountsRequests() && Tokens(Lost(h), now - l.Span()) == 0 ==>
              (l.Reached(r.stored, q, now) <==> l.Reached(h, q, now))
  {
    RingMeasures(r, h, now - l.Span());
  }

  /** A ring that may have forgotten what is over a day old gets the same verdicts. */
  lemma HeldVerdict(r: Ring, h: seq<Event>, q: Quota, l: Limit, now: int)
    requires Holds(r, h, now - DAY) && Sorted(h)
    ensures l.CountsRequests() && l.Cap(q) <= MAX_EVENTS ==>
              (l.Reached(r.stored, q, now) <==> l.Reached(h, q, now))
    ensures NonNegative(h) && l.Reached(r.stored, q, now) ==> l.Reached(h, q, now)
    ensures !l.CountsRequests() && Tokens(Lost(h), now - l.Span()) == 0 ==>
              (l.Reached(r.stored, q, now) <==> l.Reached(h, q, now))
  {
    hide Holds, Sorted, Count, Tokens, Lost;
    assert l.Span() <= DAY;
    HoldsMeasures(r, h, now - DAY, now - l.Span());
  }

  /** Token limits get the unbounded log's verdict, whatever the cap, exactly while no
      event of the window that spent tokens was lost: past that some cap goes unnoticed. */
  lemma TokenVerdictIff(r: Ring, h: seq<Event>, l: Limit, now: int)
    requires Refines(r, h) && Sorted(h) && NonNegative(h) && !l.CountsRequests()
    ensures (forall q: Quota :: l.Reached(r.stored, q, now) <==> l.Reached(h, q, now))
            <==> (forall e <- Lost(h) :: e.at > now - l.Span() ==> e.tokens == 0)
  {
    hide Refines, Sorted, Count, Tokens, Suffix;
    var cutoff := now - l.Span();
    RingMeasures(r, h, cutoff);
    NothingSpent(Lost(h), cutoff);
    if Tokens(Lost(h), cutoff) > 0 {
      RingNonNegative(r, h, cutoff);
      hide Lost;
      var cap := Tokens(h, cutoff);
      var q := Quota(0, 0, 0, cap, cap, cap);
      assert l.Reached(h, q, now) && !l.Reached(r.stored, q, now);
    }
  }

  lemma {:induction false} NothingSpent(s: seq<Event>, cutoff: int)
    requires NonNegative(s)
    ensures Tokens(s, cutoff) >= 0
    ensures Tokens(s, cutoff) == 0 <==> forall e <- s :: e.at > cutoff ==> e.tokens == 0
  {
    if s != [] {
      var n := |s| - 1;
      NothingSpent(s[..n], cutoff);
      assert s == s[..n] + [s[n]];
    }
  }

  lemma RingNonNegative(r: Ring, h: seq<Event>, cutoff: int)
    requires Refines(r, h) && NonNegative(h)
    ensures Tokens(r.stored, cutoff) >= 0
  {
    SameElements(r);
    TokenLimits(r.stored, cutoff);
  }

  // ---- totals shown to the dashboard and the alerts ----

  function Midnight(now: int): int { now - now % DAY }

  /** Since-midnight totals never exceed the rolling 24-hour totals the daily limits use. */
  lemma DailyWithinRolling(s: seq<Event>, now: int)
    ensures Count(s, Midnight(now)) <= Count(s, now - DAY)
    ensures NonNegative(s) ==> Tokens(s, Midnight(now)) <= Tokens(s, now - DAY)
  {
    CountMonotone(s, now - DAY, Midnight(now));
  }

  /** What a daily total counts from: the last instant that begins a day. */
  lemma MidnightBeginsTheDay(now: int)
    ensures Midnight(now) % 86_400_000_000_000 == 0
    ensures Midnight(now) <= now < Midnight(now) + 86_400_000_000_000
  {
  }

  /** The log as a restart at `now` gives it back answers for every limit alike. */
  lemma LimitSurvivesLoad(r: Ring, q: Quota, l: Limit, now: int, t: int)
    requires RingOk(r) && now <= t
    ensures l.Reached(Load(r.stored, now).stored, q, t) <==> l.Reached(r.stored, q, t)
    ensures l.Release(Load(r.stored, now).stored, t) == l.Release(r.stored, t)
  {
    LoadMeasures(r, now, t - l.Span(), t);
  }

  /** Two logs that agree limit by limit get the same verdict. */
  lemma CheckCongruent(a: seq<Event>, b: seq<Event>, q: Quota, now: int)
    requires forall l: Limit :: l.Reached(a, q, now) <==> l.Reached(b, q, now)
    requires forall l: Limit :: l.Release(a, now) == l.Release(b, now)
    ensures Check(a, q, now) == Check(b, q, now)
  {
  }

  lemma CheckSurvivesLoad(r: Ring, q: Quota, now: int, t: int)
    requires RingOk(r) && now <= t
    ensures Check(Load(r.stored, now).stored, q, t) == Check(r.stored, q, t)
  {
    forall l: Limit
      ensures l.Reached(Load(r.stored, now).stored, q, t) <==> l.Reached(r.stored, q, t)
      ensures l.Release(Load(r.stored, now).stored, t) == l.Release(r.stored, t)
    {
      LimitSurvivesLoad(r, q, l, now, t);
    }
    CheckCongruent(Load(r.stored, now).stored, r.stored, q, t);
  }
}
