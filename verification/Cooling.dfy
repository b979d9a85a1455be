/** How long `pick` cools what it finds over quota, and what the quotas of what it returns
    still had room for. */
module Cooling {
  import opened Window
  import opened Quotas
  import opened Configs
  import opened Rotation
  import opened PickLaws
  import opened Blocked

  /** `q` is a quota this pick puts on the log of `key`: the global one, a candidate's, or a
      model's own. */
  ghost predicate Applies(s: State, active: seq<Provider>, key: string, q: Quota) {
    || (key == "__global__" && q == s.config.quota)
    || (exists p <- active :: p.name == key && p.quota == q)
    || (key in s.backendQuotas && s.backendQuotas[key] == q)
  }

  /** The instant `until` is when `log`, with nothing added, stops being over `q`: some limit
      is used up at every instant before, and it is when the oldest event leaves the window
      of a limit used up at `now`, the last of them to do so. */
  ghost predicate EndsWith(log: seq<Event>, q: Quota, now: int, until: int) {
    && now < until
    && (forall t :: now <= t < until ==> Full(log, q, t))
    && (exists l: Limit :: l.Reached(log, q, now) && until == l.Release(log, now))
    && (forall l: Limit :: l.Reached(log, q, now) ==> l.Release(log, now) <= until)
  }

  lemma CheckEndsWith(log: seq<Event>, q: Quota, now: int)
    requires 0 <= now < Check(log, q, now)
    ensures EndsWith(log, q, now, Check(log, q, now))
  {
    hide Check, Full, Trips;
    CheckIsMaximum(log, q, now);
    forall t | now <= t < Check(log, q, now) ensures Full(log, q, t) {
      FullWhileChecked(log, q, now, t);
    }
  }

  lemma FullWhileChecked(log: seq<Event>, q: Quota, now: int, t: int)
    requires 0 <= now <= t < Check(log, q, now)
    ensures Full(log, q, t)
  {
    hide Check, Full, Trips;
    CheckTight(log, q, now, t);
    CheckExact(log, q, t);
    FullIsReached(log, q, t);
  }

  /** Cooling `key` until `until` is what one of its quotas calls for. */
  ghost predicate CalledFor(s: State, active: seq<Provider>, key: string, now: int, until: int) {
    key in s.logs && exists q :: Applies(s, active, key, q) && EndsWith(s.logs[key].stored, q, now, until)
  }

  /** Whatever is cooling in `s'` and was not in `s` is cooled for as long as a quota calls for. */
  ghost predicate CoolsExactly(s: State, s': State, active: seq<Provider>, now: int) {
    forall key :: InCooldown(s'.blocked, key, now) && !InCooldown(s.blocked, key, now) ==>
      CalledFor(s, active, key, now, s'.blocked[key])
  }

  lemma TripCalledFor(s: State, active: seq<Provider>, key: string, q: Quota, now: int)
    requires now >= 0 && Applies(s, active, key, q) && TripQuota(s, key, q, now).1
    ensures var s' := TripQuota(s, key, q, now).0;
            key in s'.blocked && CalledFor(s, active, key, now, s'.blocked[key])
  {
    hide Check, EndsWith, Applies;
    CheckEndsWith(s.logs[key].stored, q, now);
  }

  lemma TripCoolsExactly(s: State, active: seq<Provider>, key: string, q: Quota, now: int)
    requires now >= 0 && Applies(s, active, key, q)
    ensures CoolsExactly(s, TripQuota(s, key, q, now).0, active, now)
  {
    var (s', tripped) := TripQuota(s, key, q, now);
    if tripped {
      TripCalledFor(s, active, key, q, now);
      hide CalledFor, Check, OverQuota;
      assert forall k :: k != key ==> (k in s'.blocked <==> k in s.blocked) && (k in s.blocked ==> s'.blocked[k] == s.blocked[k]);
    }
  }

  /** The two states differ in nothing a quota or a log depends on. */
  ghost predicate SameLimits(s: State, s': State) {
    s'.logs == s.logs && s'.config == s.config && s'.backendQuotas == s.backendQuotas
  }

  lemma CoolsExactlyThen(a: State, b: State, c: State, active: seq<Provider>, now: int)
    requires CoolsExactly(a, b, active, now) && CoolsExactly(b, c, active, now) && SameLimits(a, b)
    requires forall k :: InCooldown(b.blocked, k, now) ==> k in c.blocked && c.blocked[k] == b.blocked[k]
    ensures CoolsExactly(a, c, active, now)
  {
    hide EndsWith;
  }

  lemma ExamineCoolsExactly(s: State, active: seq<Provider>, p: Provider, now: int)
    requires p.models != [] && p in active && now >= 0
    ensures CoolsExactly(s, Examine(s, p, now).0, active, now)
  {
    hide CoolsExactly, Check, Trips;
    if !InCooldown(s.blocked, p.name, now) {
      var model := NextModel(s, p);
      var mk := ModelKey(p.name, model);
      ModelKeyLonger(p.name, model);
      var s1 := s.(modelIdx := s.modelIdx[p.name := NextIndex(s, p)]);
      CursorCoolsNothing(s, s1, active, now);
      TripCoolsExactly(s1, active, p.name, p.quota, now);
      TripOnlyCools(s1, p.name, p.quota, now);
      var s2 := TripQuota(s1, p.name, p.quota, now).0;
      CoolsExactlyThen(s, s1, s2, active, now);
      if !OverQuota(s, p.name, p.quota, now) && !InCooldown(s.blocked, mk, now) && mk in s.backendQuotas {
        var q := s2.backendQuotas[mk];
        TripCoolsExactly(s2, active, mk, q, now);
        TripOnlyCools(s2, mk, q, now);
        CoolsExactlyThen(s, s2, TripQuota(s2, mk, q, now).0, active, now);
      }
    } else {
      CursorCoolsNothing(s, s, active, now);
    }
  }

  lemma CursorCoolsNothing(s: State, s': State, active: seq<Provider>, now: int)
    requires s'.blocked == s.blocked
    ensures CoolsExactly(s, s', active, now)
  {
  }

  lemma {:induction false} PickFromCoolsExactly(s: State, active: seq<Provider>, ord: seq<Provider>, now: int)
    requires (forall p <- ord :: p.models != [] && p in active) && now >= 0
    ensures CoolsExactly(s, PickFrom(s, ord, now).0, active, now)
    decreases |ord|
  {
    hide CoolsExactly, Examine;
    if ord == [] {
      CursorCoolsNothing(s, s, active, now);
    } else {
      var (s1, c) := Examine(s, ord[0], now);
      ExamineCoolsExactly(s, active, ord[0], now);
      if c.None? {
        ExamineExact(s, ord[0], now);
        PickFromCoolsExactly(s1, active, ord[1..], now);
        PickFromOnlyCools(s1, ord[1..], now);
        CoolsExactlyThen(s, s1, PickFrom(s1, ord[1..], now).0, active, now);
      }
    }
  }

  /** What `pick` cools it cools for exactly as long as a quota calls for: with nothing
      recorded, some limit is used up at every instant until then, and none used up now
      lasts longer. */
  lemma PickCoolsExactly(s: State, active: seq<Provider>, strategy: string, ord: seq<Provider>, now: int)
    requires now >= 0 && Tries(s, active, strategy, ord)
    ensures var s' := Pick(s, active, strategy, ord, now).0;
            && CoolsExactly(s, s', active, now)
            && (GlobalOver(s, now) ==>
                  "__global__" in s'.blocked && CalledFor(s, active, "__global__", now, s'.blocked["__global__"]))
  {
    hide CoolsExactly, PickFrom, Applies, CalledFor;
    if GlobalOver(s, now) {
      GlobalApplies(s, active);
      TripCoolsExactly(s, active, GLOBAL, s.config.quota, now);
      TripCalledFor(s, active, GLOBAL, s.config.quota, now);
    } else {
      var s1 := AfterOrder(s, active, strategy);
      assert s1 == s || s1 == s.(rrCursor := s.rrCursor + 1);
      hide AfterOrder;
      IsOrderPermutes(s.rrCursor, active, strategy, ord);
      PickFromCoolsExactly(s1, active, ord, now);
      CursorCoolsNothing(s, s1, active, now);
      PickFromOnlyCools(s1, ord, now);
      CoolsExactlyThen(s, s1, PickFrom(s1, ord, now).0, active, now);
    }
  }

  lemma GlobalApplies(s: State, active: seq<Provider>)
    ensures Applies(s, active, GLOBAL, s.config.quota)
  {
  }

  // ---- when it ends ----

  /** Every limit used up at `now` counts requests and is met by exactly its cap. */
  ghost predicate JustMet(log: seq<Event>, q: Quota, now: int) {
    forall l: Limit :: l.Reached(log, q, now) ==>
      l.CountsRequests() && Count(log, now - l.Span()) == l.Cap(q)
  }

  lemma NotReachedLater(log: seq<Event>, q: Quota, l: Limit, now: int, t: int)
    requires now <= t && NonNegative(log) && !l.Reached(log, q, now)
    ensures !l.Reached(log, q, t)
  {
    CountMonotone(log, now - l.Span(), t - l.Span());
  }

  /** With nothing recorded, a key whose request limits were met by exactly their caps is free
      again the instant its cooldown ends. */
  lemma FreeWhenItEnds(log: seq<Event>, q: Quota, now: int, until: int)
    requires EndsWith(log, q, now, until) && JustMet(log, q, now)
    requires NonNegative(log) && forall e <- log :: e.at <= now
    ensures !Full(log, q, until)
  {
    hide Full, Count, Tokens;
    forall l: Limit ensures !l.Reached(log, q, until) {
      if l.Reached(log, q, now) {
        ExactlyFullIsReleased(log, q, l, now);
        NotReachedLater(log, q, l, l.Release(log, now), until);
      } else {
        NotReachedLater(log, q, l, now, until);
      }
    }
    FullIsReached(log, q, until);
  }

  // ---- what is returned ----

  /** Nothing in the way of a request to `model` on `p`, in so many words. */
  ghost predicate HasRoom(s: State, p: Provider, model: string, now: int) {
    var mk := p.name + "/" + model;
    && !(p.name in s.blocked && now < s.blocked[p.name])
    && !(mk in s.blocked && now < s.blocked[mk])
    && ("__global__" in s.logs ==> !Full(s.logs["__global__"].stored, s.config.quota, now))
    && (p.name in s.logs ==> !Full(s.logs[p.name].stored, p.quota, now))
    && (mk in s.logs && mk in s.backendQuotas ==> !Full(s.logs[mk].stored, s.backendQuotas[mk], now))
  }

  lemma NotOverHasRoom(s: State, key: string, q: Quota, now: int)
    requires now >= 0
    ensures OverQuota(s, key, q, now) <==> key in s.logs && Full(s.logs[key].stored, q, now)
  {
    hide Full, Trips;
    if key in s.logs {
      CheckExact(s.logs[key].stored, q, now);
      FullIsReached(s.logs[key].stored, q, now);
    }
  }

  lemma RoutableHasRoom(s: State, p: Provider, model: string, now: int)
    requires now >= 0
    ensures Routable(s, p, model, now) <==> HasRoom(s, p, model, now)
  {
    hide OverQuota, Full;
    var mk := ModelKey(p.name, model);
    NotOverHasRoom(s, GLOBAL, s.config.quota, now);
    NotOverHasRoom(s, p.name, p.quota, now);
    if mk in s.backendQuotas {
      NotOverHasRoom(s, mk, s.backendQuotas[mk], now);
    }
    NoQuotaNeverFull(s, now);
  }

  lemma NoQuotaNeverFull(s: State, now: int)
    ensures forall log :: !Full(log, NO_QUOTA, now)
  {
  }

  /** Whatever `pick` returns had room: neither of its keys cooling, and no limit of the
      minute, hour or day used up, globally, on the provider or on the model. */
  lemma PickedHasRoom(s: State, active: seq<Provider>, strategy: string, ord: seq<Provider>, now: int)
    requires now >= 0 && Tries(s, active, strategy, ord)
    ensures var choice := Pick(s, active, strategy, ord, now).1;
            choice.Some? ==>
              && choice.value.provider in active && choice.value.model in choice.value.provider.models
              && HasRoom(s, choice.value.provider, choice.value.model, now)
  {
    hide Pick, Routable, HasRoom, OnlyCools;
    PickSound(s, active, strategy, ord, now);
    var choice := Pick(s, active, strategy, ord, now).1;
    if choice.Some? {
      RoutableHasRoom(s, choice.value.provider, choice.value.model, now);
    }
  }
}
