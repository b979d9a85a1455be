/** The wait advertised when nothing could be attempted, and what it is worth. */
module Blocked {
  import opened Window
  import opened Rings
  import opened Quotas
  import opened Configs
  import opened Rotation
  import opened PickLaws

  /** The cooling keys of one provider's models, in order. */
  function CoolingModels(s: State, name: string, ms: seq<string>, now: int): seq<string> {
    if ms == [] then []
    else
      var mk := ModelKey(name, ms[|ms| - 1]);
      CoolingModels(s, name, ms[..|ms| - 1], now) + (if InCooldown(s.blocked, mk, now) then [mk] else [])
  }

  /** The keys `blockedSummary` reports: each cooling candidate, or its cooling models. */
  function Notes(s: State, active: seq<Provider>, now: int): seq<string> {
    if active == [] then []
    else
      var p := active[|active| - 1];
      Notes(s, active[..|active| - 1], now) +
      (if InCooldown(s.blocked, p.name, now) then [p.name] else CoolingModels(s, p.name, p.models, now))
  }

  function Left(s: State, key: string, now: int): int {
    Get(s.blocked, key, now) - now
  }

  /** The shortest wait among the keys, 0 when there are none. */
  function Shortest(s: State, keys: seq<string>, now: int): int {
    if keys == [] then 0
    else
      var soonest := Shortest(s, keys[..|keys| - 1], now);
      var left := Left(s, keys[|keys| - 1], now);
      if soonest == 0 || left < soonest then left else soonest
  }

  function Soonest(s: State, active: seq<Provider>, now: int): int {
    if InCooldown(s.blocked, GLOBAL, now) then s.blocked[GLOBAL] - now
    else Shortest(s, Notes(s, active, now), now)
  }

  lemma {:induction false} ShortestIsMinimum(s: State, keys: seq<string>, now: int)
    requires forall k <- keys :: InCooldown(s.blocked, k, now)
    ensures keys == [] ==> Shortest(s, keys, now) == 0
    ensures keys != [] ==> Shortest(s, keys, now) > 0
                           && exists k <- keys :: Left(s, k, now) == Shortest(s, keys, now)
    ensures forall k <- keys :: Shortest(s, keys, now) <= Left(s, k, now)
  {
    if keys != [] {
      var n := |keys| - 1;
      assert keys == keys[..n] + [keys[n]];
      assert keys[n] in keys && Left(s, keys[n], now) > 0;
      ShortestIsMinimum(s, keys[..n], now);
    }
  }

  lemma {:induction false} CoolingModelsAre(s: State, name: string, ms: seq<string>, now: int)
    ensures forall k <- CoolingModels(s, name, ms, now) :: InCooldown(s.blocked, k, now)
    ensures forall m <- ms :: InCooldown(s.blocked, ModelKey(name, m), now) ==>
              ModelKey(name, m) in CoolingModels(s, name, ms, now)
  {
    if ms != [] {
      assert ms == ms[..|ms| - 1] + [ms[|ms| - 1]];
      CoolingModelsAre(s, name, ms[..|ms| - 1], now);
    }
  }

  lemma {:induction false} NotesAre(s: State, active: seq<Provider>, now: int)
    ensures forall k <- Notes(s, active, now) :: InCooldown(s.blocked, k, now)
    ensures forall p <- active :: InCooldown(s.blocked, p.name, now) ==> p.name in Notes(s, active, now)
    ensures forall p <- active, m <- p.models ::
              !InCooldown(s.blocked, p.name, now) && InCooldown(s.blocked, ModelKey(p.name, m), now) ==>
                ModelKey(p.name, m) in Notes(s, active, now)
  {
    if active != [] {
      var n := |active| - 1;
      assert active == active[..n] + [active[n]];
      NotesAre(s, active[..n], now);
      CoolingModelsAre(s, active[n].name, active[n].models, now);
    }
  }

  lemma {:induction false} CoolingModelsExact(s: State, name: string, ms: seq<string>, now: int, key: string)
    ensures key in CoolingModels(s, name, ms, now) <==>
              key in s.blocked && now < s.blocked[key] && exists m <- ms :: key == name + "/" + m
  {
    if ms != [] {
      var n := |ms| - 1;
      assert ms == ms[..n] + [ms[n]];
      CoolingModelsExact(s, name, ms[..n], now, key);
      assert ModelKey(name, ms[n]) == name + "/" + ms[n];
      hide ModelKey;
    }
  }

  /** The keys reported are exactly the cooling candidates, and the cooling models of those
      that are not. */
  lemma {:induction false} NotesExact(s: State, active: seq<Provider>, now: int, key: string)
    ensures key in Notes(s, active, now) <==>
              key in s.blocked && now < s.blocked[key] &&
              exists p <- active ::
                key == p.name
                || (!(p.name in s.blocked && now < s.blocked[p.name]) && exists m <- p.models :: key == p.name + "/" + m)
  {
    if active != [] {
      hide CoolingModels;
      var n := |active| - 1;
      assert active == active[..n] + [active[n]];
      NotesExact(s, active[..n], now, key);
      CoolingModelsExact(s, active[n].name, active[n].models, now, key);
    }
  }

  /** `soonest` is what the global key has left while that is cooling, and else exactly the
      minimum remaining cooldown over the keys it reports. */
  lemma SoonestIsMinimum(s: State, active: seq<Provider>, now: int)
    ensures InCooldown(s.blocked, GLOBAL, now) ==> Soonest(s, active, now) == Left(s, GLOBAL, now) > 0
    ensures !InCooldown(s.blocked, GLOBAL, now) ==>
              var keys, d := Notes(s, active, now), Soonest(s, active, now);
              && (forall k <- keys :: InCooldown(s.blocked, k, now) && d <= Left(s, k, now))
              && (d > 0 <==> keys != [])
              && (keys != [] ==> exists k <- keys :: Left(s, k, now) == d)
  {
    NotesAre(s, active, now);
    ShortestIsMinimum(s, Notes(s, active, now), now);
  }

  /** Every candidate is cooling, or all of its models are. */
  ghost predicate AllShut(s: State, active: seq<Provider>, now: int) {
    forall p <- active ::
      InCooldown(s.blocked, p.name, now)
      || forall m <- p.models :: InCooldown(s.blocked, ModelKey(p.name, m), now)
  }

  /** What is cooling at `t` by the table of `s` is cooling at `t` by that of `s'`. */
  ghost predicate Outlives(s: State, s': State, t: int) {
    forall k :: k != GLOBAL && InCooldown(s.blocked, k, t) ==> InCooldown(s'.blocked, k, t)
  }

  lemma StillShut(s: State, s': State, active: seq<Provider>, now: int, t: int)
    requires AllShut(s, active, now) && Outlives(s, s', t)
    requires !InCooldown(s.blocked, GLOBAL, now) && now <= t < now + Soonest(s, active, now)
    requires forall p <- active :: p.name != GLOBAL
    ensures AllShut(s', active, t)
  {
    SoonestIsMinimum(s, active, now);
    NotesAre(s, active, now);
    forall p | p in active
      ensures InCooldown(s'.blocked, p.name, t)
              || forall m <- p.models :: InCooldown(s'.blocked, ModelKey(p.name, m), t)
    {
      if !InCooldown(s.blocked, p.name, now) {
        forall m | m in p.models ensures InCooldown(s'.blocked, ModelKey(p.name, m), t) {
          ModelKeyIsNotPlain(p.name, m);
          assert ModelKey(p.name, m) in Notes(s, active, now);
        }
      }
    }
  }

  lemma ShutYieldsNothing(s: State, active: seq<Provider>, strategy: string, ord: seq<Provider>, t: int)
    requires AllShut(s, active, t)
    requires forall p <- ord :: p.models != []
    requires IsOrder(s.rrCursor, active, strategy, ord)
    ensures Pick(s, active, strategy, ord, t).1.None?
  {
    PickSound(s, active, strategy, ord, t);
  }

  /** Retry-After is sound: while every candidate is shut, no pick before the advertised
      instant succeeds in any state that still holds the cooldowns reaching that far. */
  lemma NoPickBeforeSoonest(s: State, s': State, active: seq<Provider>, strategy: string, ord: seq<Provider>, now: int, t: int)
    requires AllShut(s, active, now) && Outlives(s, s', t)
    requires !InCooldown(s.blocked, GLOBAL, now) && now <= t < now + Soonest(s, active, now)
    requires forall p <- active :: p.name != GLOBAL
    requires forall p <- ord :: p.models != []
    requires IsOrder(s'.rrCursor, active, strategy, ord)
    ensures Pick(s', active, strategy, ord, t).1.None?
  {
    StillShut(s, s', active, now, t);
    ShutYieldsNothing(s', active, strategy, ord, t);
  }

  /** Cooldowns live at `now`, other than the global one, are untouched in `s'`. */
  ghost predicate Stands(s: State, s': State, now: int) {
    forall k :: k != GLOBAL && InCooldown(s.blocked, k, now) ==> k in s'.blocked && s'.blocked[k] == s.blocked[k]
  }

  /** Picking never takes a live cooldown away or moves its end, other than the global one:
      that is set afresh by whatever quota is in force. */
  lemma PickStands(s: State, active: seq<Provider>, strategy: string, ord: seq<Provider>, now: int)
    requires forall p <- ord :: p.models != []
    requires IsOrder(s.rrCursor, active, strategy, ord)
    ensures Stands(s, Pick(s, active, strategy, ord, now).0, now)
  {
    hide PickFrom, IsOrder, Check, Trips;
    if !GlobalOver(s, now) {
      PickFromOnlyCools(AfterOrder(s, active, strategy), ord, now);
    }
  }

  // ---- a refusal always comes with a wait ----

  /** The candidate, or one of its models, is cooling. */
  ghost predicate Cools(s: State, p: Provider, now: int) {
    || InCooldown(s.blocked, p.name, now)
    || exists m <- p.models :: InCooldown(s.blocked, ModelKey(p.name, m), now)
  }

  /** An examination that yields nothing leaves a cooldown to report. */
  lemma ExamineCools(s: State, p: Provider, now: int)
    requires p.models != [] && Examine(s, p, now).1.None?
    ensures Cools(Examine(s, p, now).0, p, now)
  {
    hide Check;
    var m := NextModel(s, p);
    assert m in p.models;
    ModelKeyLonger(p.name, m);
    var s' := Examine(s, p, now).0;
    assert InCooldown(s'.blocked, p.name, now) || InCooldown(s'.blocked, ModelKey(p.name, m), now);
  }

  lemma CoolsLater(s: State, s': State, p: Provider, now: int)
    requires Cools(s, p, now) && OnlyCools(s, s', now)
    ensures Cools(s', p, now)
  {
    if !InCooldown(s.blocked, p.name, now) {
      var m :| m in p.models && InCooldown(s.blocked, ModelKey(p.name, m), now);
      assert InCooldown(s'.blocked, ModelKey(p.name, m), now);
    }
  }

  lemma CoolingIsReported(s: State, active: seq<Provider>, p: Provider, now: int)
    requires p in active && Cools(s, p, now)
    ensures Soonest(s, active, now) > 0
  {
    SoonestIsMinimum(s, active, now);
    NotesAre(s, active, now);
    if !InCooldown(s.blocked, p.name, now) {
      var m :| m in p.models && InCooldown(s.blocked, ModelKey(p.name, m), now);
      assert !InCooldown(s.blocked, GLOBAL, now) ==> ModelKey(p.name, m) in Notes(s, active, now);
    }
  }

  /** Whenever `pick` fails there is something to wait for: a refused request never goes
      without a Retry-After. */
  lemma RefusalHasAWait(s: State, active: seq<Provider>, strategy: string, ord: seq<Provider>, now: int)
    requires active != [] && Tries(s, active, strategy, ord)
    ensures var (s', choice) := Pick(s, active, strategy, ord, now);
            choice.None? ==> Soonest(s', active, now) > 0
  {
    IsOrderPermutes(s.rrCursor, active, strategy, ord);
    if GlobalOver(s, now) {
      SoonestIsMinimum(TripQuota(s, GLOBAL, s.config.quota, now).0, active, now);
    } else {
      var s1 := AfterOrder(s, active, strategy);
      var (s2, first) := Examine(s1, ord[0], now);
      hide Examine, Soonest, Cools, OnlyCools, IsOrder, AfterOrder;
      if first.None? {
        ExamineCools(s1, ord[0], now);
        PickFromOnlyCools(s2, ord[1..], now);
        var s3 := PickFrom(s2, ord[1..], now).0;
        CoolsLater(s2, s3, ord[0], now);
        CoolingIsReported(s3, active, ord[0], now);
      }
    }
  }

  ghost predicate Tries(s: State, active: seq<Provider>, strategy: string, ord: seq<Provider>) {
    IsOrder(s.rrCursor, active, strategy, ord) && forall p <- ord :: p.models != []
  }

  // ---- exactly when the advertised wait is sound ----

  ghost predicate PickFails(s: State, active: seq<Provider>, strategy: string, ord: seq<Provider>, t: int)
    requires forall p <- ord :: p.models != []
  {
    Pick(s, active, strategy, ord, t).1.None?
  }

  ghost predicate LogsNonNegative(s: State) {
    forall k <- s.logs :: NonNegative(s.logs[k].stored)
  }

  /** Time only opens doors: with the logs as they are, what is over quota at `t` was so before. */
  lemma OverQuotaEarlier(s: State, key: string, q: Quota, now: int, t: int)
    requires 0 <= now <= t && OverQuota(s, key, q, t) && LogsNonNegative(s)
    ensures OverQuota(s, key, q, now)
  {
    var log := s.logs[key].stored;
    CheckExact(log, q, t);
    var l: Limit :| l.Reached(log, q, t);
    CountMonotone(log, now - l.Span(), t - l.Span());
    assert l.Reached(log, q, now);
    CheckExact(log, q, now);
  }

  lemma RoutableLater(s: State, p: Provider, m: string, now: int, t: int)
    requires 0 <= now <= t && LogsNonNegative(s) && Routable(s, p, m, now)
    ensures Routable(s, p, m, t)
  {
    hide OverQuota, ModelKey;
    var mk := ModelKey(p.name, m);
    if OverQuota(s, GLOBAL, s.config.quota, t) {
      OverQuotaEarlier(s, GLOBAL, s.config.quota, now, t);
    }
    if OverQuota(s, p.name, p.quota, t) {
      OverQuotaEarlier(s, p.name, p.quota, now, t);
    }
    if mk in s.backendQuotas && OverQuota(s, mk, s.backendQuotas[mk], t) {
      OverQuotaEarlier(s, mk, s.backendQuotas[mk], now, t);
    }
  }

  /** `s` with its cursors anywhere. */
  ghost predicate SameButCursors(s: State, s': State) {
    s' == s.(modelIdx := s'.modelIdx, rrCursor := s'.rrCursor)
  }

  /** The state in which `p` is about to be asked for its model `j`. */
  function Poised(s: State, p: Provider, j: nat): State
    requires j < |p.models|
  {
    s.(modelIdx := s.modelIdx[p.name := j + |p.models| - 1])
  }

  lemma PoisedYields(s: State, p: Provider, j: nat, now: int)
    requires j < |p.models| && Routable(s, p, p.models[j], now)
    ensures var s' := Poised(s, p, j);
            Ready(s', p, now) && !GlobalOver(s', now) && SameButCursors(s, s')
  {
    hide Trips;
    assert (j + |p.models| - 1 + 1) % |p.models| == j by {
      WrapsRound(j, |p.models|);
    }
  }

  lemma WrapsRound(j: nat, n: nat)
    requires j < n
    ensures (j + n) % n == j
  {
  }

  /** A routable model of a candidate is picked from some cursor position. */
  lemma RoutableSucceeds(s: State, active: seq<Provider>, strategy: string, p: Provider, m: string, now: int)
    returns (s': State, ord: seq<Provider>)
    requires (forall o <- active :: o.models != []) && KeysApart(active)
    requires p in active && m in p.models && Routable(s, p, m, now)
    ensures SameButCursors(s, s') && Tries(s', active, strategy, ord) && !PickFails(s', active, strategy, ord, now)
  {
    hide Routable, Ready;
    var j :| 0 <= j < |p.models| && p.models[j] == m;
    s' := Poised(s, p, j);
    PoisedYields(s, p, j, now);
    ord := AnyOrder(s'.rrCursor, active, strategy);
    IsOrderPermutes(s'.rrCursor, active, strategy, ord);
    PickSucceedsIff(s', active, strategy, ord, now);
  }

  /** With nothing recorded meanwhile, no pick before the wait is over succeeds, wherever
      the cursors stand. */
  ghost predicate WaitHolds(s: State, active: seq<Provider>, strategy: string, now: int) {
    forall s': State, ord: seq<Provider>, t: int ::
      SameButCursors(s, s') && Tries(s', active, strategy, ord) && now <= t < now + Soonest(s, active, now) ==>
        PickFails(s', active, strategy, ord, t)
  }

  /** The advertised wait holds exactly when no candidate model is routable an instant
      before it ends: each is cooling that long, or over its own quota, or the global quota
      stays reached. A cooling global key is not enough: `pick` never looks at it. */
  lemma WaitHoldsIff(s: State, active: seq<Provider>, strategy: string, now: int)
    requires forall p <- active :: p.models != []
    requires KeysApart(active) && LogsNonNegative(s) && now >= 0 && Soonest(s, active, now) > 0
    ensures WaitHolds(s, active, strategy, now) <==>
              var last := now + Soonest(s, active, now) - 1;
              forall p <- active, m <- p.models :: !Routable(s, p, m, last)
  {
    hide Routable, Soonest, Ready, KeysApart, OverQuota, IsOrder, PickFails;
    var last := now + Soonest(s, active, now) - 1;
    if p, m :| p in active && m in p.models && Routable(s, p, m, last) {
      var s', ord := RoutableSucceeds(s, active, strategy, p, m, last);
      assert !PickFails(s', active, strategy, ord, last);
    } else {
      forall s': State, ord: seq<Provider>, t: int
        | SameButCursors(s, s') && Tries(s', active, strategy, ord) && now <= t <= last
        ensures PickFails(s', active, strategy, ord, t)
      {
        NothingRoutableFails(s, s', active, strategy, ord, t, last);
      }
    }
  }

  lemma NothingRoutableFails(s: State, s': State, active: seq<Provider>, strategy: string, ord: seq<Provider>, t: int, last: int)
    requires LogsNonNegative(s) && 0 <= t <= last
    requires SameButCursors(s, s') && Tries(s', active, strategy, ord)
    requires forall p <- active, m <- p.models :: !Routable(s, p, m, last)
    ensures PickFails(s', active, strategy, ord, t)
  {
    PickSound(s', active, strategy, ord, t);
    var choice := Pick(s', active, strategy, ord, t).1;
    if choice.Some? {
      var p, m := choice.value.provider, choice.value.model;
      RoutableIgnoresCursors(s, s', p, m, t);
      RoutableLater(s, p, m, t, last);
      assert false;
    }
  }

  lemma RoutableIgnoresCursors(s: State, s': State, p: Provider, m: string, t: int)
    requires SameButCursors(s, s')
    ensures Routable(s', p, m, t) <==> Routable(s, p, m, t)
  {
  }

  /** Same cooldowns, configuration and global log; cursors and the other logs may differ. */
  ghost predicate SameWait(s: State, s': State) {
    && s'.blocked == s.blocked && s'.config == s.config && s'.backendQuotas == s.backendQuotas
    && s'.logs.Keys == s.logs.Keys && Get(s'.logs, GLOBAL, EMPTY) == Get(s.logs, GLOBAL, EMPTY)
  }

  /** No pick before the wait is over succeeds, wherever the cursors stand and whatever the
      providers and models have been serving. */
  ghost predicate WaitIsSound(s: State, active: seq<Provider>, strategy: string, now: int) {
    forall s': State, ord: seq<Provider>, t: int ::
      SameWait(s, s') && Tries(s', active, strategy, ord) && now <= t < now + Soonest(s, active, now) ==>
        PickFails(s', active, strategy, ord, t)
  }

  function Unserved(s: State): State {
    s.(logs := map k | k in s.logs :: if k == GLOBAL then s.logs[k] else EMPTY)
  }

  lemma UnservedRoutable(s: State, p: Provider, m: string, now: int)
    requires now >= 0 && p.name != GLOBAL && !GlobalOver(s, now)
    requires !InCooldown(s.blocked, p.name, now) && !InCooldown(s.blocked, ModelKey(p.name, m), now)
    ensures Routable(Unserved(s), p, m, now)
  {
    hide Check;
    var mk := ModelKey(p.name, m);
    ModelKeyIsNotPlain(p.name, m);
    CheckExact(EMPTY.stored, p.quota, now);
    CheckExact(EMPTY.stored, Get(s.backendQuotas, mk, NO_QUOTA), now);
  }

  /** Judged by cooldowns alone, the wait is sound, for all cursors and all logs but the
      global one, exactly when an instant before it ends the global quota is reached or
      every candidate is shut. */
  lemma WaitIsSoundIff(s: State, active: seq<Provider>, strategy: string, now: int)
    requires forall p <- active :: p.models != [] && p.name != GLOBAL
    requires KeysApart(active) && LogsNonNegative(s) && now >= 0 && Soonest(s, active, now) > 0
    ensures WaitIsSound(s, active, strategy, now) <==>
              var last := now + Soonest(s, active, now) - 1;
              GlobalOver(s, last) || AllShut(s, active, last)
  {
    hide Routable, Soonest, Ready, KeysApart, OverQuota, IsOrder, PickFails;
    var last := now + Soonest(s, active, now) - 1;
    if GlobalOver(s, last) || AllShut(s, active, last) {
      forall s': State, ord: seq<Provider>, t: int
        | SameWait(s, s') && Tries(s', active, strategy, ord) && now <= t <= last
        ensures PickFails(s', active, strategy, ord, t)
      {
        ShutOrOverFails(s, s', active, strategy, ord, t, last);
      }
    } else {
      var p :| p in active && !InCooldown(s.blocked, p.name, last)
               && exists m <- p.models :: !InCooldown(s.blocked, ModelKey(p.name, m), last);
      var m :| m in p.models && !InCooldown(s.blocked, ModelKey(p.name, m), last);
      UnservedRoutable(s, p, m, last);
      var s', ord := RoutableSucceeds(Unserved(s), active, strategy, p, m, last);
      assert SameWait(s, s');
      assert !PickFails(s', active, strategy, ord, last);
    }
  }

  lemma ShutOrOverFails(s: State, s': State, active: seq<Provider>, strategy: string, ord: seq<Provider>, t: int, last: int)
    requires LogsNonNegative(s) && 0 <= t <= last
    requires SameWait(s, s') && Tries(s', active, strategy, ord)
    requires GlobalOver(s, last) || AllShut(s, active, last)
    ensures PickFails(s', active, strategy, ord, t)
  {
    if GlobalOver(s, last) {
      OverQuotaEarlier(s, GLOBAL, s.config.quota, t, last);
    } else {
      assert AllShut(s', active, t);
      ShutYieldsNothing(s', active, strategy, ord, t);
    }
  }

  /** While no global cooldown is live, shut now is shut until the wait ends. */
  lemma ShutToTheEnd(s: State, active: seq<Provider>, now: int)
    requires !InCooldown(s.blocked, GLOBAL, now) && Soonest(s, active, now) > 0
    requires forall p <- active :: p.name != GLOBAL
    ensures AllShut(s, active, now + Soonest(s, active, now) - 1) <==> AllShut(s, active, now)
  {
    if AllShut(s, active, now) {
      StillShut(s, s, active, now, now + Soonest(s, active, now) - 1);
    }
  }

  const SOLE := Provider("p", "key", ["a"], NO_QUOTA, 1, "http")

  /** One provider that is back at instant 5, and a global cooldown of an hour, set under a
      global quota that a reload has since lifted. */
  function StaleGlobal(): State {
    var capped := Config([SOLE], [], map[], NO_QUOTA.(rph := 1));
    var cooling := New(capped).(
      blocked := map[GLOBAL := HOUR, "p" := 5], reason := map[GLOBAL := "limit", "p" := "error"]);
    Reload(cooling, Config([SOLE], [], map[], NO_QUOTA))
  }

  lemma StaleGlobalParts()
    ensures StaleGlobal().blocked == map[GLOBAL := HOUR, "p" := 5]
    ensures StaleGlobal().config.quota == NO_QUOTA && StaleGlobal().backendQuotas == map[]
    ensures StaleGlobal().logs.Keys == {GLOBAL, "p"} && StaleGlobal().logs["p"] == EMPTY
  {
    var c := Config([SOLE], [], map[], NO_QUOTA);
    assert SOLE in c.providers && SOLE.name == "p";
    assert Names(c.providers) == {"p"};
    assert BackendQuotas(c.models) == map[];
    assert LogKeys(c) == {GLOBAL, "p"};
  }

  /** A wait that does not hold: the reload keeps the global cooldown, so the full hour is
      advertised although a pick at instant 6 succeeds. */
  lemma StaleGlobalWait()
    ensures Soonest(StaleGlobal(), [SOLE], 0) == HOUR && AllShut(StaleGlobal(), [SOLE], 0)
    ensures Pick(StaleGlobal(), [SOLE], "order", [SOLE], 0).1 == None
    ensures Pick(StaleGlobal(), [SOLE], "order", [SOLE], 6).1 == Some(Choice(SOLE, "a"))
  {
    var s := StaleGlobal();
    StaleGlobalParts();
    hide StaleGlobal;
    ShutYieldsNothing(s, [SOLE], "order", [SOLE], 0);
    assert SOLE.models[NextIndex(s, SOLE)] == "a";
    assert |ModelKey("p", "a")| == 3 && |"p"| == 1;
    ModelKeyIsNotPlain("p", "a");
    CheckExact(EMPTY.stored, NO_QUOTA, 6);
    hide Check;
    assert Ready(s, SOLE, 6);
    ExamineExact(s, SOLE, 6);
  }
}
