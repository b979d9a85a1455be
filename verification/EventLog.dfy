/** The ring buffer as the program holds it: a fixed array written in place. */
module EventLogs {
  import opened Window
  import opened Rings
  import opened Quotas

  class EventLog {
    const buf: array<Event>
    var head: nat
    var size: nat

    ghost predicate Valid()
      reads this
    {
      && buf.Length == MAX_EVENTS
      && size <= MAX_EVENTS
      && head < MAX_EVENTS
      && (size < MAX_EVENTS ==> head == size)
    }

    /** The log's abstract value; slots past `size` are not part of it. */
    ghost function Value(): (r: Ring)
      reads this, buf
      requires Valid()
      ensures RingOk(r)
    {
      Ring(buf[..size], head)
    }

    constructor ()
      ensures Valid() && fresh(buf)
      ensures Value() == EMPTY
    {
      buf := new Event[MAX_EVENTS](_ => Event(0, 0));
      head, size := 0, 0;
    }

    /** Writes one event at `head` and advances it. */
    method Put(e: Event)
      requires Valid()
      modifies this, buf
      ensures Valid()
      ensures Value() == Push(old(Value()), e)
    {
      ghost var was := buf[..size];
      buf[head] := e;
      head := (head + 1) % MAX_EVENTS;
      if size < MAX_EVENTS {
        size := size + 1;
        assert buf[..size] == was + [e];
      } else {
        assert buf[..size] == was[old(head) := e];
      }
    }

    method Record(tokens: int, now: int)
      requires Valid()
      modifies this, buf
      ensures Valid()
      ensures Value() == Push(old(Value()), Event(now, tokens))
    {
      Put(Event(now, tokens));
    }

    /** Requests and tokens strictly after `cutoff`. */
    method Since(cutoff: int) returns (reqs: nat, tokens: int)
      requires Valid()
      ensures reqs == Count(Value().stored, cutoff)
      ensures tokens == Tokens(Value().stored, cutoff)
    {
      reqs, tokens := 0, 0;
      for i := 0 to size
        invariant reqs == Count(buf[..i], cutoff)
        invariant tokens == Tokens(buf[..i], cutoff)
      {
        var e := buf[i];
        assert buf[..i + 1][..i] == buf[..i];
        if e.at > cutoff {
          reqs := reqs + 1;
          tokens := tokens + e.tokens;
        }
      }
    }

    method Totals(window: int, now: int) returns (reqs: nat, tokens: int)
      requires Valid()
      ensures reqs == Count(Value().stored, now - window)
      ensures tokens == Tokens(Value().stored, now - window)
    {
      reqs, tokens := Since(now - window);
    }

    /** Since UTC midnight. What it reports never exceeds the rolling day. */
    method DailyTotals(now: int) returns (reqs: nat, tokens: int)
      requires Valid()
      ensures reqs == Count(Value().stored, Midnight(now))
      ensures tokens == Tokens(Value().stored, Midnight(now))
      ensures reqs <= Count(Value().stored, now - DAY)
      ensures NonNegative(Value().stored) ==> tokens <= Tokens(Value().stored, now - DAY)
    {
      reqs, tokens := Since(now - now % DAY);
      DailyWithinRolling(Value().stored, now);
    }

    /** One (limit, window) pair of `check`: push `until` out to the moment the oldest
        in-window event leaves, when the limit is reached. */
    method EnforceLimit(until: int, q: Quota, l: Limit, count: int, now: int) returns (r: int)
      requires Valid()
      requires count == l.Measure(Value().stored, now - l.Span())
      ensures r == Enforce(until, Value().stored, q, l, now)
    {
      var limit, window := l.Cap(q), l.Span();
      if limit <= 0 || count < limit {
        return until;
      }
      var cutoff := now - window;
      var oldest := now;
      for i := 0 to size
        invariant oldest == Oldest(buf[..i], cutoff, now)
      {
        var e := buf[i];
        assert buf[..i + 1][..i] == buf[..i];
        if e.at > cutoff && e.at < oldest {
          oldest := e.at;
        }
      }
      var unblockAt := oldest + window;
      r := if unblockAt > until then unblockAt else until;
    }

    method CheckQuota(q: Quota, now: int) returns (until: int)
      requires Valid()
      ensures until == Check(Value().stored, q, now)
    {
      var rpm, tpm := Totals(MINUTE, now);
      var rph, tph := Totals(HOUR, now);
      var rpd, tpd := Totals(DAY, now);
      until := 0;
      until := EnforceLimit(until, q, RPM, rpm, now);
      until := EnforceLimit(until, q, RPH, rph, now);
      until := EnforceLimit(until, q, RPD, rpd, now);
      until := EnforceLimit(until, q, TPM, tpm, now);
      until := EnforceLimit(until, q, TPH, tph, now);
      until := EnforceLimit(until, q, TPD, tpd, now);
    }

    /** The saved form: valid slots in storage order. */
    method ToSlice() returns (events: seq<Event>)
      requires Valid()
      ensures events == Value().stored
    {
      events := buf[..size];
    }

    /** Replaces the contents with a saved slice, dropping what is over 25 hours old. */
    method LoadSlice(events: seq<Event>, now: int)
      requires Valid()
      modifies this, buf
      ensures Valid()
      ensures Value() == Load(events, now)
    {
      var cutoff := now - 25 * HOUR;
      head, size := 0, 0;
      for i := 0 to |events|
        invariant Valid()
        invariant Value() == Load(events[..i], now)
      {
        var e := events[i];
        LoadStep(events, i, now);
        if e.at < cutoff {
          continue;
        }
        Put(e);
      }
      assert events[..|events|] == events;
    }
  }

  lemma LoadStep(events: seq<Event>, i: nat, now: int)
    requires i < |events|
    ensures Load(events[..i + 1], now) ==
            if events[i].at < now - 25 * HOUR then Load(events[..i], now) else Push(Load(events[..i], now), events[i])
  {
    assert events[..i + 1][..i] == events[..i];
    var init := Recent(events[..i], now);
    assert (init + [events[i]])[..|init|] == init;
  }
}
