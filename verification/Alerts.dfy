/** Quota alerts: once per crossing, armed again when the window rolls over. */
module Alerts {
  import opened Window
  import opened Cyclic

  datatype Span = Daily | Hourly | Minutely | Unbounded {
    function Length(): int
      requires !Unbounded?
    {
      match this
      case Daily => DAY
      case Hourly => HOUR
      case Minutely => MINUTE
    }
  }

  /** When the current window began; a quota without a window has only ever had one. */
  function WindowStart(span: Span, now: int): int {
    if span.Unbounded? then 0 else now - now % span.Length()
  }

  lemma FloorsToMultiple(now: nat, later: nat, n: nat)
    requires n > 0 && now <= later
    ensures now - now % n <= later - later % n
    ensures (now - now % n) % n == 0
    ensures now - now % n <= now < now - now % n + n
  {
    var q1 := StepQuotient(now, n, 0);
    var q2 := StepQuotient(later, n, 0);
    StepIs(q1 * n, n, 0, q1, 0);
    assert (q1 - q2) * n == q1 * n - q2 * n;
    if q1 > q2 {
      ProductAtLeast(q1 - q2, n);
    } else {
      assert (q2 - q1) * n >= 0;
    }
  }

  /** Window starts are aligned, never step back, and cover the instant. */
  lemma WindowCovers(span: Span, now: int, later: int)
    requires 0 <= now <= later
    ensures WindowStart(span, now) <= WindowStart(span, later)
    ensures !span.Unbounded? ==>
              && WindowStart(span, now) % span.Length() == 0
              && WindowStart(span, now) <= now < WindowStart(span, now) + span.Length()
  {
    if !span.Unbounded? {
      FloorsToMultiple(now, later, span.Length());
    }
  }

  /** One evaluation of one provider's usage. */
  datatype Probe = Probe(provider: string, used: int, quota: int, now: int)

  predicate Crosses(threshold: int, p: Probe) {
    threshold > 0 && p.quota > 0 && p.used * 100 / p.quota >= threshold
  }

  /** Usage is reported from the threshold on, as a share of the quota, and only when both
      are set. */
  lemma CrossesFrom(threshold: int, p: Probe)
    requires p.used >= 0
    ensures Crosses(threshold, p) <==> threshold > 0 && p.quota > 0 && p.used * 100 >= threshold * p.quota
  {
    if threshold > 0 && p.quota > 0 {
      FloorAtLeast(p.used * 100, p.quota, threshold);
    }
  }

  lemma FloorAtLeast(a: nat, n: nat, t: nat)
    requires n > 0
    ensures a / n >= t <==> a >= t * n
  {
    var q, r := a / n, a % n;
    assert a == q * n + r;
    if q >= t {
      assert (q - t) * n >= 0;
    } else {
      assert (t - q - 1) * n >= 0;
    }
  }

  /** The windows are the day, the hour and the minute; without one there is only ever one. */
  lemma WindowsAre(span: Span, now: int)
    requires now >= 0
    ensures span == Daily ==> WindowStart(span, now) == now - now % 86_400_000_000_000
    ensures span == Hourly ==> WindowStart(span, now) == now - now % 3_600_000_000_000
    ensures span == Minutely ==> WindowStart(span, now) == now - now % 60_000_000_000
    ensures span == Unbounded ==> WindowStart(span, now) == 0
  {
  }

  function Check(threshold: int, fired: map<string, int>, span: Span, p: Probe): (map<string, int>, bool) {
    var start := WindowStart(span, p.now);
    if !Crosses(threshold, p) || (p.provider in fired && fired[p.provider] == start) then (fired, false)
    else (fired[p.provider := start], true)
  }

  class Alerter {
    const threshold: int
    var fired: map<string, int>

    constructor (threshold: int)
      ensures this.threshold == threshold && fired == map[]
    {
      this.threshold := threshold;
      fired := map[];
    }

    /** Whether this crossing is to be reported now. */
    method CheckUsage(provider: string, used: int, quota: int, span: Span, now: int) returns (fire: bool)
      requires used >= 0
      modifies this`fired
      ensures (fired, fire) == Check(threshold, old(fired), span, Probe(provider, used, quota, now))
    {
      if threshold <= 0 || quota <= 0 {
        return false;
      }
      var pct := used * 100 / quota;
      if pct < threshold {
        return false;
      }
      var start := WindowStart(span, now);
      if provider in fired && fired[provider] == start {
        return false;
      }
      fired := fired[provider := start];
      fire := true;
    }
  }

  // ---- whole runs ----

  /** The fired table and each probe's verdict after a run from a clean start. */
  function Run(threshold: int, spans: string -> Span, probes: seq<Probe>): (r: (map<string, int>, seq<bool>))
    ensures |r.1| == |probes|
  {
    if probes == [] then (map[], [])
    else
      var p := probes[|probes| - 1];
      var (fired, verdicts) := Run(threshold, spans, probes[..|probes| - 1]);
      var (fired', fire) := Check(threshold, fired, spans(p.provider), p);
      (fired', verdicts + [fire])
  }

  predicate InWindow(spans: string -> Span, p: Probe, provider: string, start: int) {
    p.provider == provider && WindowStart(spans(provider), p.now) == start
  }

  /** Alerts a provider got in the window that began at `start`. */
  function AlertsIn(threshold: int, spans: string -> Span, probes: seq<Probe>, provider: string, start: int): nat {
    if probes == [] then 0
    else
      AlertsIn(threshold, spans, probes[..|probes| - 1], provider, start)
      + (if InWindow(spans, probes[|probes| - 1], provider, start)
           && Run(threshold, spans, probes).1[|probes| - 1] then 1 else 0)
  }

  ghost predicate CrossedIn(threshold: int, spans: string -> Span, probes: seq<Probe>, provider: string, start: int) {
    exists p <- probes :: InWindow(spans, p, provider, start) && Crosses(threshold, p)
  }

  /** The clock never steps back. */
  ghost predicate Ordered(probes: seq<Probe>) {
    && (forall p <- probes :: p.now >= 0)
    && (forall i, j :: 0 <= i < j < |probes| ==> probes[i].now <= probes[j].now)
  }

  /** The table remembers the latest window a provider crossed in. */
  ghost predicate Remembers(threshold: int, spans: string -> Span, probes: seq<Probe>, provider: string) {
    var fired := Run(threshold, spans, probes).0;
    && (provider in fired ==> CrossedIn(threshold, spans, probes, provider, fired[provider]))
    && (forall start :: CrossedIn(threshold, spans, probes, provider, start) ==>
          provider in fired && start <= fired[provider])
  }

  lemma CrossedAppend(threshold: int, spans: string -> Span, probes: seq<Probe>, p: Probe, provider: string, start: int)
    ensures CrossedIn(threshold, spans, probes + [p], provider, start) <==>
            CrossedIn(threshold, spans, probes, provider, start)
            || (InWindow(spans, p, provider, start) && Crosses(threshold, p))
  {
  }

  lemma CrossedEarlier(threshold: int, spans: string -> Span, probes: seq<Probe>, p: Probe, provider: string, start: int)
    requires Ordered(probes + [p]) && CrossedIn(threshold, spans, probes, provider, start)
    ensures start <= WindowStart(spans(provider), p.now)
  {
    var q :| q in probes && InWindow(spans, q, provider, start) && Crosses(threshold, q);
    var i :| 0 <= i < |probes| && probes[i] == q;
    assert (probes + [p])[i] == q && (probes + [p])[|probes|] == p && q in probes + [p];
    WindowCovers(spans(provider), q.now, p.now);
  }

  lemma {:induction false} RunRemembers(threshold: int, spans: string -> Span, probes: seq<Probe>, provider: string)
    requires Ordered(probes)
    ensures Remembers(threshold, spans, probes, provider)
  {
    if probes != [] {
      var init, p := probes[..|probes| - 1], probes[|probes| - 1];
      assert probes == init + [p];
      RunRemembers(threshold, spans, init, provider);
      RunAppend(threshold, spans, init, p);
      hide Crosses, WindowStart, CrossedIn, Run;
      var fired := Run(threshold, spans, init).0;
      var fired' := Run(threshold, spans, probes).0;
      if provider in fired' {
        CrossedAppend(threshold, spans, init, p, provider, fired'[provider]);
        if provider in fired {
          CrossedAppend(threshold, spans, init, p, provider, fired[provider]);
        }
      }
      forall start | CrossedIn(threshold, spans, probes, provider, start)
        ensures provider in fired' && start <= fired'[provider]
      {
        CrossedAppend(threshold, spans, init, p, provider, start);
        if CrossedIn(threshold, spans, init, provider, start) {
          CrossedEarlier(threshold, spans, init, p, provider, start);
        }
      }
    }
  }

  lemma RunAppend(threshold: int, spans: string -> Span, probes: seq<Probe>, p: Probe)
    ensures var (fired, verdicts) := Run(threshold, spans, probes);
            var (fired', fire) := Check(threshold, fired, spans(p.provider), p);
            Run(threshold, spans, probes + [p]) == (fired', verdicts + [fire])
  {
  }

  lemma AlertsAppend(threshold: int, spans: string -> Span, probes: seq<Probe>, p: Probe, provider: string, start: int)
    ensures var fire := Check(threshold, Run(threshold, spans, probes).0, spans(p.provider), p).1;
            AlertsIn(threshold, spans, probes + [p], provider, start) ==
            AlertsIn(threshold, spans, probes, provider, start)
            + (if InWindow(spans, p, provider, start) && fire then 1 else 0)
  {
  }

  /** Exactly one alert in each window with a check at or above the threshold, and none in
      any other, however often usage is checked and whoever else is checked in between. */
  lemma {:induction false} OneAlertPerWindow(threshold: int, spans: string -> Span, probes: seq<Probe>, provider: string, start: int)
    requires Ordered(probes)
    ensures AlertsIn(threshold, spans, probes, provider, start) ==
            if CrossedIn(threshold, spans, probes, provider, start) then 1 else 0
  {
    if probes != [] {
      var init, p := probes[..|probes| - 1], probes[|probes| - 1];
      assert probes == init + [p];
      OneAlertPerWindow(threshold, spans, init, provider, start);
      RunRemembers(threshold, spans, init, provider);
      CrossedAppend(threshold, spans, init, p, provider, start);
      AlertsAppend(threshold, spans, init, p, provider, start);
      hide Crosses, WindowStart, CrossedIn, Run, AlertsIn;
      var fired := Run(threshold, spans, init).0;
      if InWindow(spans, p, provider, start) && Crosses(threshold, p) && CrossedIn(threshold, spans, init, provider, start) {
        CrossedEarlier(threshold, spans, init, p, provider, fired[provider]);
      }
    }
  }
}
