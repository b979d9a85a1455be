/** The rotator as the program holds it: maps and logs updated in place, each operation
    proved to be its function in module Rotation. */
module Rotators {
  import opened Window
  import opened Rings
  import opened Quotas
  import opened EventLogs
  import opened Configs
  import opened Rotation
  import opened PickLaws
  import opened Weighted
  import opened Classify
  import opened Blocked
  import opened Dispatching

  lemma MapUpdated<K, V>(m: map<K, V>, was: map<K, V>, key: K, v: V)
    requires m.Keys == was.Keys + {key}
    requires m[key] == v && forall k <- was :: k != key ==> m[k] == was[k]
    ensures m == was[key := v]
  {
  }

  class Rotator {
    var providers: seq<Provider>
    var models: seq<Model>
    var aliases: map<string, string>
    var quota: Quota
    var modelIdx: map<string, nat>
    var blocked: map<string, int>
    var reason: map<string, string>
    var eventLogs: map<string, EventLog>
    var backendQuotas: map<string, Quota>
    var modelTokens: map<string, int>
    var modelRequests: map<string, int>
    var health: map<string, Health>
    var dirty: bool
    var rrCursor: nat
    ghost var Repr: set<object>  // the logs and their buffers

    ghost predicate Separate()
      reads this`eventLogs, this`Repr, Repr
    {
      this !in Repr && LogsApart()
    }

    /** Every log is well formed and owned by one key only. */
    ghost predicate LogsApart()
      reads this`eventLogs, this`Repr, Repr
    {
      && (forall k <- eventLogs :: eventLogs[k] in Repr && eventLogs[k].buf in Repr && eventLogs[k].Valid())
      && (forall j, k :: j in eventLogs && k in eventLogs && j != k ==>
            eventLogs[j] != eventLogs[k] && eventLogs[j].buf != eventLogs[k].buf)
    }

    ghost predicate Valid()
      reads this`eventLogs, this`Repr, Repr
    {
      Separate() && GLOBAL in eventLogs
    }

    ghost function Logs(): (logs: map<string, Ring>)
      reads this`eventLogs, this`Repr, Repr
      requires Separate()
      ensures logs.Keys == eventLogs.Keys
      ensures forall k <- logs :: RingOk(logs[k])
    {
      map k | k in eventLogs :: eventLogs[k].Value()
    }

    ghost function Value(): (s: State)
      reads this, Repr
      requires Separate()
    {
      State(Config(providers, models, aliases, quota), backendQuotas, modelIdx, rrCursor, blocked, reason,
            Logs(), modelTokens, modelRequests, health, dirty)
    }

    // ---- logs ----

    ghost predicate IsNew(l: EventLog)
      reads this`Repr
    {
      l !in Repr && l.buf !in Repr && this as object != l.buf
    }

    method AddLog(key: string, l: EventLog)
      requires Separate() && key !in eventLogs && l.Valid() && IsNew(l)
      modifies this`eventLogs, this`Repr
      ensures Separate() && Repr == old(Repr) + {l, l.buf}
      ensures Logs() == old(Logs())[key := l.Value()]
    {
      hide EventLog.Value, EventLog.Valid, RingOk;
      ghost var was := Logs();
      eventLogs := eventLogs[key := l];
      Repr := Repr + {l, l.buf};
      MapUpdated(Logs(), was, key, l.Value());
    }

    /** Gives `key` an empty log, unless it has one. */
    method EnsureLog(key: string)
      requires Separate()
      modifies this`eventLogs, this`Repr
      ensures Separate() && fresh(Repr - old(Repr))
      ensures Logs() == old(Logs())[key := Get(old(Logs()), key, EMPTY)]
    {
      hide EventLog.Value, EventLog.Valid, RingOk, EMPTY;
      ghost var was := Logs();
      if key !in eventLogs {
        var l := new EventLog();
        assert Logs() == was;
        AddLog(key, l);
      } else {
        MapUpdated(Logs(), was, key, was[key]);
      }
    }

    method RecordAt(key: string, tokens: int, now: int)
      requires Valid()
      modifies Repr
      ensures Valid()
      ensures Logs() == PushAt(old(Logs()), key, Event(now, tokens))
    {
      if key in eventLogs {
        ghost var was := Logs();
        eventLogs[key].Record(tokens, now);
        MapUpdated(Logs(), was, key, Push(was[key], Event(now, tokens)));
      }
    }

    method RecordUsage(name: string, model: string, tokens: int, now: int)
      requires Valid()
      modifies this`modelTokens, this`modelRequests, this`dirty, Repr
      ensures Valid()
      ensures Value() == Rotation.RecordUsage(old(Value()), name, model, tokens, now)
    {
      hide PushAt, Logs, LogsApart, RingOk, ModelKey;
      var mk := ModelKey(name, model);
      RecordAt(name, tokens, now);
      RecordAt(mk, tokens, now);
      RecordAt(GLOBAL, tokens, now);
      CountModel(mk, tokens);
    }

    method CountModel(mk: string, tokens: int)
      requires Valid()
      modifies this`modelTokens, this`modelRequests, this`dirty
      ensures Valid()
      ensures Value() == old(Value()).(
                modelRequests := old(modelRequests)[mk := Get(old(modelRequests), mk, 0) + 1],
                modelTokens := old(modelTokens)[mk := Get(old(modelTokens), mk, 0) + tokens],
                dirty := true)
    {
      hide Logs, LogsApart;
      modelRequests := modelRequests[mk := Get(modelRequests, mk, 0) + 1];
      modelTokens := modelTokens[mk := Get(modelTokens, mk, 0) + tokens];
      dirty := true;
    }

    /** The one place a cooldown is written: the last write wins. */
    method Cool(key: string, until: int, why: string)
      requires Valid()
      modifies this`blocked, this`reason, this`dirty
      ensures Valid()
      ensures Value() == old(Value()).(blocked := old(blocked)[key := until], reason := old(reason)[key := why], dirty := true)
    {
      hide Logs, LogsApart;
      blocked := blocked[key := until];
      reason := reason[key := why];
      dirty := true;
    }

    method Block(key: string, d: int, why: string, now: int)
      requires Valid()
      modifies this`blocked, this`reason, this`dirty
      ensures Valid()
      ensures Value() == Rotation.Block(old(Value()), key, d, why, now)
    {
      Cool(key, now + d, why);
    }

    method SetHealth(name: string, h: Health)
      requires Valid()
      modifies this`health
      ensures Valid()
      ensures Value() == old(Value()).(health := old(Value()).health[name := h])
    {
      hide Logs, LogsApart;
      health := health[name := h];
    }

    // ---- choosing a provider ----

    method TripQuota(key: string, q: Quota, now: int) returns (tripped: bool)
      requires Valid()
      modifies this`blocked, this`reason, this`dirty
      ensures Valid()
      ensures (Value(), tripped) == Rotation.TripQuota(old(Value()), key, q, now)
    {
      hide Check, EventLog.Value, EventLog.Valid, RingOk;
      if key !in eventLogs {
        return false;
      }
      var until := eventLogs[key].CheckQuota(q, now);
      assert until == Check(Logs()[key].stored, q, now);
      if until <= now {
        return false;
      }
      hide Logs, LogsApart;
      Cool(key, until, "limit");
      return true;
    }

    /** A random order: each position from the back swaps with one at or before it. */
    method Shuffle(active: seq<Provider>) returns (out: seq<Provider>)
      ensures Permutes(out, active)
    {
      out := active;
      var i := |active|;
      while i > 1
        invariant |out| == |active| && i <= |active|
        invariant Permutes(out, active)
      {
        i := i - 1;
        var j :| 0 <= j <= i;
        out := out[i := out[j]][j := out[i]];
      }
    }

    /** A random order biased by weight: each place goes to the provider of the remaining
        pool that a uniform draw below the pool's total weight selects. */
    method WeightedOrder(active: seq<Provider>) returns (out: seq<Provider>, ghost draws: seq<int>)
      ensures InRange(active, draws) && out == DrawnOrder(active, draws)
      ensures Permutes(out, active)
    {
      var pool := active;
      out, draws := [], [];
      forall rest: seq<int> | InRange(pool, rest) ensures DrawsOn(active, draws, out, pool, rest) {
        DrawsFromStart(active, rest);
      }
      while pool != []
        invariant forall rest: seq<int> :: InRange(pool, rest) ==> DrawsOn(active, draws, out, pool, rest)
        decreases |pool|
      {
        var total := TotalWeight(pool);
        var x :| 0 <= x < total;
        var idx := Draw(pool, x);
        ghost var before, sofar, taken := pool, draws, out;
        out := out + [pool[idx]];
        pool := pool[..idx] + pool[idx + 1..];
        draws := draws + [x];
        forall rest: seq<int> | InRange(pool, rest) ensures DrawsOn(active, draws, out, pool, rest) {
          DrawsStep(active, sofar, taken, before, x, rest);
        }
      }
      assert InRange(pool, []) && DrawsOn(active, draws, out, pool, []);
      assert draws + [] == draws && out + [] == out;
      DrawnOrderPermutes(active, draws);
    }

    method TotalWeight(pool: seq<Provider>) returns (total: int)
      ensures total == Total(pool)
    {
      total := 0;
      for i := 0 to |pool|
        invariant total == Total(pool[..i])
      {
        assert pool[..i + 1][..i] == pool[..i];
        total := total + ProviderWeight(pool[i]);
      }
      assert pool[..|pool|] == pool;
    }

    /** Walks the pool until the draw is used up. */
    method Draw(pool: seq<Provider>, draw: int) returns (idx: nat)
      requires pool != [] && 0 <= draw < Total(pool)
      ensures idx < |pool| && idx == Select(pool, draw)
    {
      assert pool[..|pool|] == pool;
      var x := draw;
      idx := |pool| - 1;
      for i := 0 to |pool|
        invariant x == draw - Total(pool[..i]) >= 0
      {
        TotalPrefixGrows(pool, i);
        x := x - ProviderWeight(pool[i]);
        if x < 0 {
          SelectCovers(pool, draw, i);
          idx := i;
          break;
        }
      }
    }

    method Order(active: seq<Provider>, strategy: string) returns (ord: seq<Provider>)
      requires Valid()
      modifies this`rrCursor
      ensures Valid()
      ensures IsOrder(old(rrCursor), active, strategy, ord)
      ensures Value() == AfterOrder(old(Value()), active, strategy)
    {
      if strategy == "round_robin" {
        if |active| == 0 {
          return active;
        }
        var start := rrCursor % |active|;
        rrCursor := rrCursor + 1;
        ord := Rotate(active, start);
      } else if strategy == "random" {
        ord := Shuffle(active);
      } else if strategy == "weighted" {
        ghost var draws;
        ord, draws := WeightedOrder(active);
      } else {
        ord := active;
      }
    }

    /** One turn of the loop over candidates. */
    method ExamineNext(p: Provider, now: int) returns (c: Option<Choice>)
      requires Valid() && p.models != []
      modifies this`modelIdx, this`blocked, this`reason, this`dirty
      ensures Valid()
      ensures (Value(), c) == Examine(old(Value()), p, now)
    {
      hide OverQuota, Logs, LogsApart;
      if InCooldown(blocked, p.name, now) {
        return None;
      }
      var i := (Get(modelIdx, p.name, 0) + 1) % |p.models|;
      var model := p.models[i];
      var mk := ModelKey(p.name, model);
      modelIdx := modelIdx[p.name := i];
      var over := TripQuota(p.name, p.quota, now);
      if over || InCooldown(blocked, mk, now) {
        return None;
      }
      if mk in backendQuotas {
        over := TripQuota(mk, backendQuotas[mk], now);
        if over {
          return None;
        }
      }
      return Some(Choice(p, model));
    }

    /** The next provider and model for a request; `ord` is the order that was tried. */
    method Pick(active: seq<Provider>, strategy: string, now: int) returns (ghost ord: seq<Provider>, choice: Option<Choice>)
      requires Valid() && forall p <- active :: p.models != []
      modifies this`rrCursor, this`modelIdx, this`blocked, this`reason, this`dirty
      ensures Valid()
      ensures IsOrder(old(Value()).rrCursor, active, strategy, ord) && forall p <- ord :: p.models != []
      ensures (Value(), choice) == Rotation.Pick(old(Value()), active, strategy, ord, now)
    {
      hide Examine, OverQuota, IsOrder, Logs, LogsApart;
      if quota != NO_QUOTA {
        var over := TripQuota(GLOBAL, quota, now);
        if over {
          ord := AnyOrder(rrCursor, active, strategy);
          IsOrderPermutes(rrCursor, active, strategy, ord);
          return ord, None;
        }
      }
      var tried := Order(active, strategy);
      ord := tried;
      IsOrderPermutes(old(rrCursor), active, strategy, ord);
      ghost var start := Value();
      for i := 0 to |tried|
        invariant Valid()
        invariant PickFrom(start, tried, now) == PickFrom(Value(), tried[i..], now)
      {
        choice := ExamineNext(tried[i], now);
        if choice.Some? {
          return;
        }
      }
      choice := None;
    }

    // ---- construction and reload ----

    constructor (c: Config)
      ensures Valid() && fresh(Repr)
      ensures Value() == New(c)
    {
      providers, models, aliases, quota := c.providers, c.models, c.aliases, c.quota;
      modelIdx, rrCursor, blocked, reason := map[], 0, map[], map[];
      eventLogs, modelTokens, modelRequests, health := map[], map[], map[], map[];
      backendQuotas, dirty, Repr := map[], false, {};
      new;
      assert Logs() == map[];
      hide LogsApart, LogKeys, BackendQuotas, EMPTY, Grown, Logs, New;
      NewIs(c);
      assert Value() == New(c).(backendQuotas := map[], logs := map[]);
      hide Value;
      var quotas := PopulateLogs(c);
      GrownFromNothing(LogKeys(c));
      SetQuotas(quotas);
    }

    method SetQuotas(quotas: map<string, Quota>)
      requires Valid()
      modifies this`backendQuotas
      ensures Valid()
      ensures Value() == old(Value()).(backendQuotas := quotas)
    {
      hide Logs, LogsApart;
      backendQuotas := quotas;
    }

    method EnsureOneMore(key: string, ghost was: map<string, Ring>, ghost keys: set<string>)
      requires Separate() && Logs() == Grown(was, keys)
      modifies this`eventLogs, this`Repr
      ensures Separate() && fresh(Repr - old(Repr))
      ensures Logs() == Grown(was, keys + {key})
    {
      hide LogsApart, Logs, Grown;
      EnsureLog(key);
      GrownStep(was, keys, key);
    }

    method PopulateProviders(ps: seq<Provider>, ghost was: map<string, Ring>)
      requires Separate() && Logs() == Grown(was, {})
      modifies this`eventLogs, this`Repr
      ensures Separate() && fresh(Repr - old(Repr))
      ensures Logs() == Grown(was, Names(ps))
    {
      hide LogsApart, Logs, Grown;
      assert Names(ps[..0]) == {};
      for i := 0 to |ps|
        invariant Separate() && fresh(Repr - old(Repr))
        invariant Logs() == Grown(was, Names(ps[..i]))
      {
        EnsureOneMore(ps[i].name, was, Names(ps[..i]));
        assert Names(ps[..i + 1]) == Names(ps[..i]) + {ps[i].name};
      }
      assert ps[..|ps|] == ps;
    }

    method PopulateBackends(bs: seq<Backend>, before: map<string, Quota>, ghost was: map<string, Ring>, ghost keys: set<string>)
      returns (quotas: map<string, Quota>)
      requires Separate() && Logs() == Grown(was, keys + before.Keys)
      modifies this`eventLogs, this`Repr
      ensures Separate() && fresh(Repr - old(Repr))
      ensures quotas == before + QuotasOf(bs)
      ensures Logs() == Grown(was, keys + quotas.Keys)
    {
      hide LogsApart, Logs, Grown;
      quotas := before;
      for i := 0 to |bs|
        invariant Separate() && fresh(Repr - old(Repr))
        invariant quotas == before + QuotasOf(bs[..i])
        invariant Logs() == Grown(was, keys + quotas.Keys)
      {
        var b := bs[i];
        assert bs[..i + 1][..i] == bs[..i];
        if b.quota.Some? {
          var mk := ModelKey(b.provider, b.model);
          EnsureOneMore(mk, was, keys + quotas.Keys);
          assert keys + quotas[mk := b.quota.value].Keys == keys + quotas.Keys + {mk};
          quotas := quotas[mk := b.quota.value];
        }
      }
      assert bs[..|bs|] == bs;
    }

    method PopulateModels(ms: seq<Model>, ghost was: map<string, Ring>, ghost keys: set<string>)
      returns (quotas: map<string, Quota>)
      requires Separate() && Logs() == Grown(was, keys)
      modifies this`eventLogs, this`Repr
      ensures Separate() && fresh(Repr - old(Repr))
      ensures quotas == BackendQuotas(ms)
      ensures Logs() == Grown(was, keys + quotas.Keys)
    {
      hide LogsApart, Logs, Grown, QuotasOf;
      quotas := map[];
      assert keys + quotas.Keys == keys;
      for i := 0 to |ms|
        invariant Separate() && fresh(Repr - old(Repr))
        invariant quotas == BackendQuotas(ms[..i])
        invariant Logs() == Grown(was, keys + quotas.Keys)
      {
        quotas := PopulateBackends(ms[i].backends, quotas, was, keys);
        assert ms[..i + 1][..i] == ms[..i];
      }
      assert ms[..|ms|] == ms;
    }

    /** A log for every provider, for the global key and for every backend with a quota;
        logs that are there already keep their events. */
    method PopulateLogs(c: Config) returns (quotas: map<string, Quota>)
      requires Separate()
      modifies this`eventLogs, this`Repr
      ensures Valid() && fresh(Repr - old(Repr))
      ensures Logs() == Grown(old(Logs()), LogKeys(c))
      ensures Value() == old(Value()).(logs := Grown(old(Value()).logs, LogKeys(c)))
      ensures quotas == BackendQuotas(c.models)
    {
      hide LogsApart, Logs, Grown, BackendQuotas;
      ghost var was := Logs();
      GrownNothing(was);
      PopulateProviders(c.providers, was);
      EnsureOneMore(GLOBAL, was, Names(c.providers));
      quotas := PopulateModels(c.models, was, Names(c.providers) + {GLOBAL});
      assert Names(c.providers) + {GLOBAL} + quotas.Keys == LogKeys(c);
      GrownHas(was, LogKeys(c), GLOBAL);
    }

    /** Swaps in a configuration, keeping what still has a key and dropping the rest. */
    method Reload(c: Config)
      requires Valid()
      modifies this
      ensures Valid() && fresh(Repr - old(Repr))
      ensures Value() == Rotation.Reload(old(Value()), c)
    {
      hide LogsApart, Logs, Restrict, BackendQuotas, EMPTY, Names, LogKeys, Get, Rotation.Reload;
      var quotas, keepKey := RebuildLogs(c);
      ReloadIs(old(Value()), c, Logs());
      SwapState(c, quotas, keepKey);
    }

    /** Adds the logs a configuration calls for and drops those it does not. */
    method RebuildLogs(c: Config) returns (quotas: map<string, Quota>, keepKey: set<string>)
      requires Separate()
      modifies this`eventLogs, this`Repr
      ensures Valid() && fresh(Repr - old(Repr))
      ensures quotas == BackendQuotas(c.models) && keepKey == LogKeys(c)
      ensures Logs() == map k | k in keepKey :: Get(old(Logs()), k, EMPTY)
    {
      hide LogsApart, Logs, Grown, Restrict, BackendQuotas, EMPTY;
      quotas := PopulateLogs(c);
      keepKey := (set p <- c.providers :: p.name) + {GLOBAL} + quotas.Keys;
      assert keepKey == LogKeys(c);
      ForgetLogs(keepKey);
      GrownRestricted(old(Logs()), keepKey);
    }

    method ForgetLogs(keep: set<string>)
      requires Separate()
      modifies this`eventLogs
      ensures Separate()
      ensures Logs() == Restrict(old(Logs()), keep)
    {
      eventLogs := Forget(eventLogs, keep);
    }

    method SwapState(c: Config, quotas: map<string, Quota>, keepKey: set<string>)
      requires Valid()
      modifies this`providers, this`models, this`aliases, this`quota, this`backendQuotas
      modifies this`modelTokens, this`modelRequests, this`blocked, this`reason, this`health, this`modelIdx
      ensures Valid() && Logs() == old(Logs())
      ensures Config(providers, models, aliases, quota) == c && backendQuotas == quotas
      ensures modelTokens == Restrict(old(modelTokens), keepKey)
      ensures modelRequests == Restrict(old(modelRequests), keepKey)
      ensures blocked == Restrict(old(blocked), keepKey) && reason == Restrict(old(reason), keepKey)
      ensures health == Restrict(old(health), Names(c.providers))
      ensures modelIdx == Restrict(old(modelIdx), Names(c.providers))
    {
      hide Restrict, Names, Separate, Logs;
      ForgetKeys(keepKey);
      ForgetProviders(c.providers);
      SetConfig(c, quotas);
    }

    method SetConfig(c: Config, quotas: map<string, Quota>)
      requires Valid()
      modifies this`providers, this`models, this`aliases, this`quota, this`backendQuotas
      ensures Valid() && Logs() == old(Logs())
      ensures Config(providers, models, aliases, quota) == c && backendQuotas == quotas
    {
      hide LogsApart, Logs;
      providers, models, aliases, quota := c.providers, c.models, c.aliases, c.quota;
      backendQuotas := quotas;
    }

    method ForgetProviders(ps: seq<Provider>)
      requires Valid()
      modifies this`health, this`modelIdx
      ensures Valid() && Logs() == old(Logs())
      ensures health == Restrict(old(health), Names(ps)) && modelIdx == Restrict(old(modelIdx), Names(ps))
    {
      hide Restrict, LogsApart, Logs;
      var keep := set p <- ps :: p.name;
      assert keep == Names(ps);
      health := Forget(health, keep);
      modelIdx := Forget(modelIdx, keep);
    }

    method ForgetKeys(keepKey: set<string>)
      requires Valid()
      modifies this`modelTokens, this`modelRequests, this`blocked, this`reason
      ensures Valid() && Logs() == old(Logs())
      ensures modelTokens == Restrict(old(modelTokens), keepKey)
      ensures modelRequests == Restrict(old(modelRequests), keepKey)
      ensures blocked == Restrict(old(blocked), keepKey) && reason == Restrict(old(reason), keepKey)
    {
      hide Restrict, Separate, Logs;
      ForgetCounters(keepKey);
      ForgetCooldowns(keepKey);
    }

    method ForgetCounters(keepKey: set<string>)
      requires Valid()
      modifies this`modelTokens, this`modelRequests
      ensures Valid() && Logs() == old(Logs())
      ensures modelTokens == Restrict(old(modelTokens), keepKey)
      ensures modelRequests == Restrict(old(modelRequests), keepKey)
    {
      hide Restrict, LogsApart, Logs;
      modelTokens := Forget(modelTokens, keepKey);
      modelRequests := Forget(modelRequests, keepKey);
    }

    method ForgetCooldowns(keepKey: set<string>)
      requires Valid()
      modifies this`blocked, this`reason
      ensures Valid() && Logs() == old(Logs())
      ensures blocked == Restrict(old(blocked), keepKey) && reason == Restrict(old(reason), keepKey)
    {
      hide Restrict, LogsApart, Logs;
      blocked := Forget(blocked, keepKey);
      reason := Forget(reason, keepKey);
    }

    // ---- persistence ----

    /** What goes to the state file, when anything changed since the last write. */
    method Persist(now: int) returns (saved: Option<Saved>)
      requires Valid()
      modifies this`dirty
      ensures Valid()
      ensures saved == if old(dirty) then Some(Snapshot(old(Value()), now)) else None
      ensures Value() == old(Value()).(dirty := false)
    {
      hide Logs, LogsApart, Live;
      if !dirty {
        return None;
      }
      var slices := SaveLogs();
      var untils, whys := Running(blocked, reason, now);
      saved := Some(Saved(slices, modelTokens, modelRequests, untils, whys));
      dirty := false;
    }

    method SaveLogs() returns (slices: map<string, seq<Event>>)
      requires Valid()
      ensures slices == map k | k in Logs() :: Logs()[k].stored
    {
      hide EventLog.Valid, EventLog.Value, RingOk;
      ghost var logs := Logs();
      slices := map[];
      var keys := eventLogs.Keys;
      while keys != {}
        invariant keys <= eventLogs.Keys
        invariant slices == map k | k in logs && k !in keys :: logs[k].stored
      {
        var k :| k in keys;
        keys := keys - {k};
        var events := eventLogs[k].ToSlice();
        assert events == logs[k].stored;
        slices := slices[k := events];
      }
    }

    method LoadLogs(slices: map<string, seq<Event>>, now: int)
      requires Valid()
      modifies Repr
      ensures Valid()
      ensures Value() == old(Value()).(
                logs := map k | k in old(Value()).logs :: if k in slices then Load(slices[k], now) else old(Value()).logs[k])
    {
      hide LogsApart, Logs, EventLog.Valid, EventLog.Value, RingOk, Load;
      ghost var was := Logs();
      var keys := slices.Keys;
      while keys != {}
        invariant Valid() && keys <= slices.Keys
        invariant Logs() == map k | k in was :: if k in slices && k !in keys then Load(slices[k], now) else was[k]
      {
        var k :| k in keys;
        keys := keys - {k};
        LoadLog(k, slices[k], now);
      }
    }

    method LoadLog(key: string, events: seq<Event>, now: int)
      requires Valid()
      modifies Repr
      ensures Valid()
      ensures Logs() == if key in old(Logs()) then old(Logs())[key := Load(events, now)] else old(Logs())
    {
      if key in eventLogs {
        ghost var was := Logs();
        eventLogs[key].LoadSlice(events, now);
        MapUpdated(Logs(), was, key, Load(events, now));
      }
    }

    /** Brings a saved image back: logs the configuration has, and cooldowns not yet over. */
    method Restore(saved: Saved, now: int)
      requires Valid()
      modifies this`modelTokens, this`modelRequests, this`blocked, this`reason, Repr
      ensures Valid()
      ensures Value() == Rotation.Restore(old(Value()), saved, now)
    {
      hide Logs, LogsApart, Load, Live, Value;
      LoadCounters(saved);
      LoadCooldowns(saved, now);
      ghost var s := Value();
      LoadLogs(saved.eventLogs, now);
      assert Value() == s.(logs := map k | k in s.logs :: if k in saved.eventLogs then Load(saved.eventLogs[k], now) else s.logs[k]);
    }

    method LoadCounters(saved: Saved)
      requires Valid()
      modifies this`modelTokens, this`modelRequests
      ensures Valid()
      ensures Value() == old(Value()).(
                modelTokens := old(Value()).modelTokens + saved.modelTokens,
                modelRequests := old(Value()).modelRequests + saved.modelRequests)
    {
      hide Logs, LogsApart;
      modelTokens := modelTokens + saved.modelTokens;
      modelRequests := modelRequests + saved.modelRequests;
    }

    method LoadCooldowns(saved: Saved, now: int)
      requires Valid()
      modifies this`blocked, this`reason
      ensures Valid()
      ensures Value() == old(Value()).(
                blocked := old(Value()).blocked + (map k | k in Live(saved.blocked, now) :: saved.blocked[k]),
                reason := old(Value()).reason + (map k | k in Live(saved.blocked, now) :: Get(saved.reason, k, "")))
    {
      hide Live, Logs, LogsApart;
      var untils, whys := Running(saved.blocked, saved.reason, now);
      blocked := blocked + untils;
      reason := reason + whys;
    }

    // ---- candidates ----

    method Active() returns (out: seq<Provider>)
      ensures out == Actives(providers)
    {
      out := [];
      for i := 0 to |providers|
        invariant out == Actives(providers[..i])
      {
        assert providers[..i + 1][..i] == providers[..i];
        if IsActive(providers[i]) {
          out := out + [providers[i]];
        }
      }
      assert providers[..|providers|] == providers;
    }

    /** The providers that may serve a model name, and the strategy to try them in. */
    method CandidatesFor(requested: string, need: Need) returns (active: seq<Provider>, strategy: string)
      requires Valid()
      ensures (active, strategy) == Configs.CandidatesFor(Value().config, requested, need)
      ensures forall p <- active :: p.models != []
    {
      var name := if requested in aliases then aliases[requested] else requested;
      active := Active();
      strategy := "order";
      var vm := FindModel(models, name);
      if name != "chicco:auto" && name != "" && vm.Some? {
        active := NarrowTo(active, vm.value.backends);
        strategy := vm.value.strategy;
      }
      if need.embeddings || need.tools {
        active := WithoutCli(active);
      }
      CandidatesUsable(Config(providers, models, aliases, quota), requested, need);
    }

    method WithoutCli(ps: seq<Provider>) returns (out: seq<Provider>)
      ensures out == DropCli(ps)
    {
      out := [];
      for i := 0 to |ps|
        invariant out == DropCli(ps[..i])
      {
        assert ps[..i + 1][..i] == ps[..i];
        if ps[i].kind != "cli" {
          out := out + [ps[i]];
        }
      }
      assert ps[..|ps|] == ps;
    }

    /** Keeps the providers a backend list names, each with only its listed models. */
    method NarrowTo(all: seq<Provider>, bs: seq<Backend>) returns (out: seq<Provider>)
      ensures out == NarrowAll(all, bs)
    {
      out := [];
      for i := 0 to |all|
        invariant out == NarrowAll(all[..i], bs)
      {
        assert all[..i + 1][..i] == all[..i];
        var p := all[i];
        var bm, weight := [], p.weight;
        for j := 0 to |bs|
          invariant bm == BackendModels(bs[..j], p.name)
          invariant weight == BackendWeight(bs[..j], p.name, p.weight)
        {
          assert bs[..j + 1][..j] == bs[..j];
          var b := bs[j];
          if b.provider == p.name {
            weight := if b.weight.Some? then b.weight.value else p.weight;
            if b.model != "" {
              bm := bm + [b.model];
            }
          }
        }
        assert bs[..|bs|] == bs;
        if bm != [] {
          out := out + [p.(models := bm, weight := weight)];
        }
      }
      assert all[..|all|] == all;
    }

    // ---- dispatch ----

    /** The shortest cooldown left among the candidates, 0 when none is cooling. */
    method BlockedSummary(active: seq<Provider>, now: int) returns (soonest: int)
      requires Valid()
      ensures soonest == Soonest(Value(), active, now)
    {
      hide Logs, LogsApart, Shortest, Notes;
      if InCooldown(blocked, GLOBAL, now) {
        return blocked[GLOBAL] - now;
      }
      soonest := NoteAll(active, now, Value());
    }

    method NoteAll(active: seq<Provider>, now: int, ghost s: State) returns (soonest: int)
      requires s.blocked == blocked
      ensures soonest == Shortest(s, Notes(s, active, now), now)
    {
      hide Shortest, CoolingModels, Notes;
      soonest := 0;
      NothingNoted(s, now);
      for i := 0 to |active|
        invariant soonest == Shortest(s, Notes(s, active[..i], now), now)
      {
        NotesStep(s, active, i, now);
        var p := active[i];
        ghost var before := Notes(s, active[..i], now);
        if InCooldown(blocked, p.name, now) {
          ShortestAppend(s, before, p.name, now);
          soonest := Note(soonest, p.name, now);
        } else {
          soonest := NoteModels(soonest, p, now, s, before);
        }
      }
      assert active[..|active|] == active;
    }

    method NoteModels(soFar: int, p: Provider, now: int, ghost s: State, ghost before: seq<string>) returns (soonest: int)
      requires s.blocked == blocked && soFar == Shortest(s, before, now)
      ensures soonest == Shortest(s, before + CoolingModels(s, p.name, p.models, now), now)
    {
      soonest := soFar;
      assert before + [] == before;
      for j := 0 to |p.models|
        invariant soonest == Shortest(s, before + CoolingModels(s, p.name, p.models[..j], now), now)
      {
        assert p.models[..j + 1][..j] == p.models[..j];
        var mk := ModelKey(p.name, p.models[j]);
        ghost var noted := CoolingModels(s, p.name, p.models[..j], now);
        if InCooldown(blocked, mk, now) {
          assert before + (noted + [mk]) == before + noted + [mk];
          ShortestAppend(s, before + noted, mk, now);
          soonest := Note(soonest, mk, now);
        } else {
          assert noted + [] == noted;
        }
      }
      assert p.models[..|p.models|] == p.models;
    }

    method Note(soonest: int, key: string, now: int) returns (r: int)
      requires key in blocked
      ensures r == if soonest == 0 || blocked[key] - now < soonest then blocked[key] - now else soonest
    {
      var left := blocked[key] - now;
      r := if soonest == 0 || left < soonest then left else soonest;
    }

    /** Applies one reply to the rotation state. */
    method ApplyReply(c: Choice, t: Turn)
      requires Valid()
      modifies this`blocked, this`reason, this`dirty, this`health
      ensures Valid()
      ensures Value() == AfterReply(old(Value()), c, t)
    {
      hide Logs, LogsApart, Value, ClassifyUpstream;
      if t.reply.Transport? {
        Block(c.provider.name, DEFAULT_COOLDOWN, "error", t.doneAt);
      } else if t.reply.status < 200 || t.reply.status >= 300 {
        var cls := ClassifyUpstream(t.reply.status, t.reply.body, t.reply.retryAfter);
        var key := if cls.modelScoped then ModelKey(c.provider.name, c.model) else c.provider.name;
        Block(key, cls.cooldown, cls.reason, t.doneAt);
        if cls.reason == "auth" {
          SetHealth(c.provider.name, HealthAuth);
        }
      } else {
        SetHealth(c.provider.name, HealthOK);
      }
    }

    /** Walks the candidates until one answers or none is left to try. `turns` says when
        each attempt picks and finishes, and what its upstream replies. */
    method Dispatch(active: seq<Provider>, strategy: string, turns: seq<Turn>, endAt: int)
      returns (out: Outcome, ghost trace: seq<Round>)
      requires Valid() && active != [] && (forall p <- active :: p.models != [])
      requires |turns| >= |active| && Chronological(turns)
      modifies this`rrCursor, this`modelIdx, this`blocked, this`reason, this`dirty, this`health
      ensures Valid()
      ensures IsDispatch(old(Value()), active, strategy, turns, endAt, trace, out, Value())
    {
      hide Value, Logs, LogsApart, Rotation.Pick, IsOrder, AfterReply, Soonest;
      trace := [];
      for i := 0 to |active|
        invariant Valid() && |trace| == i
        invariant Walked(old(Value()), active, strategy, turns, trace, Value())
      {
        ghost var before := Value();
        ghost var ord;
        var choice;
        ord, choice := Pick(active, strategy, turns[i].pickAt);
        if choice.None? {
          var wait := 0;
          if i == 0 {
            wait := BlockedSummary(active, endAt);
          }
          assert GaveUp(before, active, strategy, turns[i].pickAt, Value());
          return Exhausted(wait), trace;
        }
        ghost var picked := Value();
        ApplyReply(choice.value, turns[i]);
        ghost var round := Round(before, ord, choice.value, picked, Value());
        assert RoundOk(active, strategy, turns[i], round);
        WalkOn(old(Value()), active, strategy, turns, trace, round);
        trace := trace + [round];
        if turns[i].reply.Served() {
          return Served(choice.value), trace;
        }
      }
      out := Exhausted(0);
    }

    /** One request from its model name on: refused without a wait, and without touching
        anything, when no configured provider could ever serve it. */
    method DispatchRequest(requested: string, need: Need, turns: seq<Turn>, endAt: int)
      returns (out: Option<Outcome>, ghost trace: seq<Round>)
      requires Valid() && Chronological(turns)
      requires |turns| >= |Configs.CandidatesFor(Value().config, requested, need).0|
      modifies this`rrCursor, this`modelIdx, this`blocked, this`reason, this`dirty, this`health
      ensures Valid()
      ensures var (active, strategy) := Configs.CandidatesFor(old(Value()).config, requested, need);
              if active == [] then out == None && Value() == old(Value())
              else out.Some? && IsDispatch(old(Value()), active, strategy, turns, endAt, trace, out.value, Value())
    {
      hide Value, Logs, LogsApart, IsDispatch, Chronological, Configs.CandidatesFor;
      var active, strategy := CandidatesFor(requested, need);
      if active == [] {
        return None, [];
      }
      var outcome;
      outcome, trace := Dispatch(active, strategy, turns, endAt);
      out := Some(outcome);
    }
  }

  lemma NewIs(c: Config)
    ensures New(c) == State(c, BackendQuotas(c.models), map[], 0, map[], map[],
                            map k | k in LogKeys(c) :: EMPTY, map[], map[], map[], false)
  {
  }

  lemma ReloadIs(s: State, c: Config, logs: map<string, Ring>)
    requires logs == map k | k in LogKeys(c) :: Get(s.logs, k, EMPTY)
    ensures Rotation.Reload(s, c) ==
            State(c, BackendQuotas(c.models), Restrict(s.modelIdx, Names(c.providers)), s.rrCursor,
                  Restrict(s.blocked, LogKeys(c)), Restrict(s.reason, LogKeys(c)), logs,
                  Restrict(s.modelTokens, LogKeys(c)), Restrict(s.modelRequests, LogKeys(c)),
                  Restrict(s.health, Names(c.providers)), s.dirty)
  {
    hide LogKeys, BackendQuotas, Restrict, Names, Get;
  }

  /** The attempts so far, all failed, led from `s` to `s'`. */
  ghost predicate Walked(s: State, active: seq<Provider>, strategy: string, turns: seq<Turn>, trace: seq<Round>, s': State) {
    && IsTrace(active, strategy, turns, trace) && Undisturbed(trace)
    && (|trace| > 0 ==> trace[0].before == s)
    && (|trace| > 0 ==> !turns[|trace| - 1].reply.Served())
    && s' == if |trace| == 0 then s else trace[|trace| - 1].after
  }

  lemma WalkOn(s: State, active: seq<Provider>, strategy: string, turns: seq<Turn>, trace: seq<Round>, r: Round)
    requires Walked(s, active, strategy, turns, trace, r.before)
    requires |trace| < |active| <= |turns| && RoundOk(active, strategy, turns[|trace|], r)
    ensures IsTrace(active, strategy, turns, trace + [r]) && Undisturbed(trace + [r])
    ensures (trace + [r])[0].before == s
  {
    hide RoundOk;
    forall i | 0 < i < |trace + [r]| ensures Linked(trace + [r], i) {
      if i < |trace| {
        assert Linked(trace, i);
      }
    }
  }

  lemma NothingNoted(s: State, now: int)
    ensures Notes(s, [], now) == [] && Shortest(s, [], now) == 0
  {
  }

  lemma NotesStep(s: State, active: seq<Provider>, i: nat, now: int)
    requires i < |active|
    ensures var p := active[i];
            Notes(s, active[..i + 1], now) == Notes(s, active[..i], now)
            + (if InCooldown(s.blocked, p.name, now) then [p.name] else CoolingModels(s, p.name, p.models, now))
  {
    hide CoolingModels;
    assert active[..i + 1][..i] == active[..i];
  }

  lemma ShortestAppend(s: State, keys: seq<string>, key: string, now: int)
    ensures Shortest(s, keys + [key], now) ==
            var soonest := Shortest(s, keys, now);
            if soonest == 0 || Left(s, key, now) < soonest then Left(s, key, now) else soonest
  {
  }

  /** Deletes every entry whose key is not kept. */
  method Forget<V>(m: map<string, V>, keep: set<string>) returns (kept: map<string, V>)
    ensures kept == Restrict(m, keep)
  {
    kept := m;
    var keys := m.Keys;
    while keys != {}
      invariant keys <= m.Keys
      invariant kept == map k | k in m && (k in keep || k in keys) :: m[k]
    {
      var k :| k in keys;
      keys := keys - {k};
      if k !in keep {
        kept := kept - {k};
      }
    }
  }

  /** The cooldowns still running at `now`, each with its reason. */
  method Running(blocked: map<string, int>, reason: map<string, string>, now: int)
    returns (untils: map<string, int>, whys: map<string, string>)
    ensures untils == map k | k in Live(blocked, now) :: blocked[k]
    ensures whys == map k | k in Live(blocked, now) :: Get(reason, k, "")
  {
    untils, whys := map[], map[];
    var keys := blocked.Keys;
    while keys != {}
      invariant keys <= blocked.Keys
      invariant untils == map k | k in Live(blocked, now) && k !in keys :: blocked[k]
      invariant whys == map k | k in Live(blocked, now) && k !in keys :: Get(reason, k, "")
    {
      var k :| k in keys;
      keys := keys - {k};
      if blocked[k] > now {
        untils := untils[k := blocked[k]];
        whys := whys[k := Get(reason, k, "")];
      }
    }
  }

  ghost function Grown(was: map<string, Ring>, keys: set<string>): map<string, Ring> {
    map k | k in was.Keys + keys :: Get(was, k, EMPTY)
  }

  lemma GrownStep(was: map<string, Ring>, keys: set<string>, key: string)
    ensures Grown(was, keys)[key := Get(Grown(was, keys), key, EMPTY)] == Grown(was, keys + {key})
  {
  }

  /** Draws `rest` after `draws` finish the order `out` began, taking what is in `pool`. */
  ghost predicate DrawsOn(active: seq<Provider>, draws: seq<int>, out: seq<Provider>, pool: seq<Provider>, rest: seq<int>)
    requires InRange(pool, rest)
  {
    InRange(active, draws + rest) && DrawnOrder(active, draws + rest) == out + DrawnOrder(pool, rest)
  }

  lemma DrawsFromStart(active: seq<Provider>, rest: seq<int>)
    requires InRange(active, rest)
    ensures DrawsOn(active, [], [], active, rest)
  {
    assert [] + rest == rest && [] + DrawnOrder(active, rest) == DrawnOrder(active, rest);
  }

  lemma DrawsStep(active: seq<Provider>, draws: seq<int>, out: seq<Provider>, pool: seq<Provider>, x: int, rest: seq<int>)
    requires pool != [] && 0 <= x < Total(pool) && InRange(Remaining(pool, x), rest)
    requires InRange(pool, [x] + rest) ==> DrawsOn(active, draws, out, pool, [x] + rest)
    ensures Select(pool, x) < |pool|
    ensures DrawsOn(active, draws + [x], out + [pool[Select(pool, x)]], Remaining(pool, x), rest)
  {
    hide Total, ProviderWeight;
    assert ([x] + rest)[0] == x && ([x] + rest)[1..] == rest;
    SelectInPool(pool, x);
    hide Select;
    DrawnFirst(pool, x, rest);
    assert draws + ([x] + rest) == draws + [x] + rest;
    var p, tail := pool[Select(pool, x)], DrawnOrder(Remaining(pool, x), rest);
    hide Remaining, DrawnOrder;
    assert out + ([p] + tail) == out + [p] + tail;
  }

  lemma DrawnFirst(pool: seq<Provider>, x: int, rest: seq<int>)
    requires pool != [] && 0 <= x < Total(pool) && InRange(Remaining(pool, x), rest)
    ensures Select(pool, x) < |pool| && InRange(pool, [x] + rest)
    ensures DrawnOrder(pool, [x] + rest) == [pool[Select(pool, x)]] + DrawnOrder(Remaining(pool, x), rest)
  {
    assert ([x] + rest)[1..] == rest;
    SelectInPool(pool, x);
    hide Total, Select, Remaining;
  }

  lemma GrownNothing(was: map<string, Ring>)
    ensures Grown(was, {}) == was
  {
  }

  lemma GrownFromNothing(keys: set<string>)
    ensures Grown(map[], keys) == map k | k in keys :: EMPTY
  {
  }

  lemma GrownHas(was: map<string, Ring>, keys: set<string>, key: string)
    requires key in keys
    ensures key in Grown(was, keys)
  {
  }

  lemma GrownRestricted(was: map<string, Ring>, keys: set<string>)
    ensures Restrict(Grown(was, keys), keys) == map k | k in keys :: Get(was, k, EMPTY)
  {
  }
}
