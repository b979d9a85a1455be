/** What a configuration registers: which keys own a log, which quota each model gets, and
    where a served request is written. */
module Registry {
  import opened Window
  import opened Rings
  import opened Configs
  import opened Rotation

  /** Entry `j` of virtual model `i` sets the quota of `key`. */
  ghost predicate Sets(ms: seq<Model>, i: int, j: int, key: string) {
    && 0 <= i < |ms| && 0 <= j < |ms[i].backends|
    && ms[i].backends[j].quota.Some?
    && ms[i].backends[j].provider + "/" + ms[i].backends[j].model == key
  }

  /** No later entry sets it again. */
  ghost predicate SetsLast(ms: seq<Model>, i: int, j: int, key: string) {
    Sets(ms, i, j, key) && forall i', j' :: Sets(ms, i', j', key) ==> i' < i || (i' == i && j' <= j)
  }

  ghost predicate Entry(bs: seq<Backend>, j: int, key: string) {
    0 <= j < |bs| && bs[j].quota.Some? && bs[j].provider + "/" + bs[j].model == key
  }

  lemma EntryInInit(bs: seq<Backend>, key: string)
    requires bs != []
    ensures forall j :: Entry(bs[..|bs| - 1], j, key) <==> Entry(bs, j, key) && j != |bs| - 1
    ensures forall j :: Entry(bs, j, key) ==> 0 <= j < |bs| && bs[j].quota.Some?
  {
  }

  lemma QuotasOfStep(bs: seq<Backend>, key: string)
    requires bs != []
    ensures var n, m := |bs| - 1, QuotasOf(bs[..|bs| - 1]);
            if Entry(bs, n, key) then key in QuotasOf(bs) && QuotasOf(bs)[key] == bs[n].quota.value
            else (key in QuotasOf(bs) <==> key in m) && (key in m ==> QuotasOf(bs)[key] == m[key])
  {
    var b := bs[|bs| - 1];
    assert ModelKey(b.provider, b.model) == b.provider + "/" + b.model;
    hide ModelKey;
    assert QuotasOf(bs) == if b.quota.None? then QuotasOf(bs[..|bs| - 1])
                           else QuotasOf(bs[..|bs| - 1])[ModelKey(b.provider, b.model) := b.quota.value];
    hide QuotasOf;
  }

  lemma {:induction false} QuotasOfExact(bs: seq<Backend>, key: string)
    ensures key in QuotasOf(bs) <==> exists j :: Entry(bs, j, key)
    ensures forall j :: Entry(bs, j, key) && (forall j' :: Entry(bs, j', key) ==> j' <= j) ==>
              key in QuotasOf(bs) && QuotasOf(bs)[key] == bs[j].quota.value
  {
    if bs != [] {
      hide QuotasOf, Entry;
      var n := |bs| - 1;
      QuotasOfExact(bs[..n], key);
      QuotasOfStep(bs, key);
      EntryInInit(bs, key);
      forall j | Entry(bs, j, key) && forall j' :: Entry(bs, j', key) ==> j' <= j
        ensures key in QuotasOf(bs) && QuotasOf(bs)[key] == bs[j].quota.value
      {
        if j != n {
          assert Entry(bs[..n], j, key) && !Entry(bs, n, key);
          assert forall j' :: Entry(bs[..n], j', key) ==> Entry(bs, j', key);
          assert bs[..n][j] == bs[j];
        }
      }
      if j :| Entry(bs, j, key) {
        assert j == n || Entry(bs[..n], j, key);
      }
      if key in QuotasOf(bs) && !Entry(bs, n, key) {
        var j :| Entry(bs[..n], j, key);
        assert Entry(bs, j, key);
      }
    }
  }

  lemma SetsInInit(ms: seq<Model>, key: string)
    requires ms != []
    ensures var n := |ms| - 1;
            && (forall i, j :: Sets(ms[..n], i, j, key) <==> Sets(ms, i, j, key) && i < n)
            && (forall j :: Entry(ms[n].backends, j, key) <==> Sets(ms, n, j, key))
  {
  }

  /** A model has a quota of its own exactly when some entry names it with one, under its
      provider's name, a slash and its own; and the last such entry is the one that counts. */
  lemma {:induction false} BackendQuotasExact(ms: seq<Model>, key: string)
    ensures key in BackendQuotas(ms) <==> exists i, j :: Sets(ms, i, j, key)
    ensures forall i, j :: SetsLast(ms, i, j, key) ==>
              key in BackendQuotas(ms) && BackendQuotas(ms)[key] == ms[i].backends[j].quota.value
  {
    if ms != [] {
      var n := |ms| - 1;
      var bs := ms[n].backends;
      BackendQuotasExact(ms[..n], key);
      QuotasOfExact(bs, key);
      SetsInInit(ms, key);
      assert BackendQuotas(ms) == BackendQuotas(ms[..n]) + QuotasOf(bs);
      hide BackendQuotas, QuotasOf, Sets, Entry;
      forall i, j | SetsLast(ms, i, j, key)
        ensures key in BackendQuotas(ms) && BackendQuotas(ms)[key] == ms[i].backends[j].quota.value
      {
        SetsInRange(ms, i, j, key);
        if i == n {
          assert Entry(bs, j, key);
        } else {
          assert Sets(ms[..n], i, j, key);
          assert forall j' :: !Entry(bs, j', key);
          assert SetsLast(ms[..n], i, j, key);
        }
      }
      if key in BackendQuotas(ms) {
        if key in QuotasOf(bs) {
          var j :| Entry(bs, j, key);
          assert Sets(ms, n, j, key);
        } else {
          var i, j :| Sets(ms[..n], i, j, key);
          assert Sets(ms, i, j, key);
        }
      }
      if i, j :| Sets(ms, i, j, key) {
        SetsInRange(ms, i, j, key);
        if i == n {
          assert Entry(bs, j, key);
        } else {
          assert Sets(ms[..n], i, j, key);
        }
      }
    }
  }

  lemma SetsInRange(ms: seq<Model>, i: int, j: int, key: string)
    requires Sets(ms, i, j, key)
    ensures 0 <= i < |ms| && 0 <= j < |ms[i].backends| && ms[i].backends[j].quota.Some?
  {
  }

  /** The configuration calls for a log under `key`. */
  ghost predicate Registered(c: Config, key: string) {
    || key == "__global__"
    || (exists p <- c.providers :: p.name == key)
    || (exists i, j :: Sets(c.models, i, j, key))
  }

  /** A rotator knows exactly the logs and the model quotas its configuration calls for. */
  ghost predicate Registers(s: State, c: Config) {
    && s.config == c
    && (forall key :: key in s.logs <==> Registered(c, key))
    && (forall key :: key in s.backendQuotas <==> exists i, j :: Sets(c.models, i, j, key))
    && (forall key, i, j :: SetsLast(c.models, i, j, key) ==>
          key in s.backendQuotas && s.backendQuotas[key] == c.models[i].backends[j].quota.value)
  }

  lemma LogKeysExact(c: Config, key: string)
    ensures key in LogKeys(c) <==> Registered(c, key)
  {
    hide BackendQuotas, Sets;
    BackendQuotasExact(c.models, key);
  }

  lemma RegistersBy(s: State, c: Config)
    requires s.config == c && s.backendQuotas == BackendQuotas(c.models) && s.logs.Keys == LogKeys(c)
    ensures Registers(s, c)
  {
    hide BackendQuotas, LogKeys, Sets, SetsLast, Registered;
    forall key ensures key in s.logs <==> Registered(c, key) {
      LogKeysExact(c, key);
    }
    forall key
      ensures key in s.backendQuotas <==> exists i, j :: Sets(c.models, i, j, key)
      ensures forall i, j :: SetsLast(c.models, i, j, key) ==>
                0 <= i < |c.models| && 0 <= j < |c.models[i].backends| && c.models[i].backends[j].quota.Some?
                && key in s.backendQuotas && s.backendQuotas[key] == c.models[i].backends[j].quota.value
    {
      BackendQuotasExact(c.models, key);
      forall i, j | SetsLast(c.models, i, j, key)
        ensures 0 <= i < |c.models| && 0 <= j < |c.models[i].backends| && c.models[i].backends[j].quota.Some?
      {
        LastSets(c.models, i, j, key);
        SetsInRange(c.models, i, j, key);
      }
    }
  }

  lemma LastSets(ms: seq<Model>, i: int, j: int, key: string)
    requires SetsLast(ms, i, j, key)
    ensures Sets(ms, i, j, key)
  {
  }

  /** Construction registers exactly the configuration, every log empty and nothing cooling. */
  lemma NewRegisters(c: Config)
    ensures Registers(New(c), c)
    ensures forall key <- New(c).logs :: New(c).logs[key].stored == []
    ensures New(c).blocked == map[] && New(c).modelTokens == map[] && New(c).modelRequests == map[]
  {
    hide BackendQuotas, LogKeys, Registers;
    RegistersBy(New(c), c);
  }

  /** `m'` is `m` without the keys the configuration does not call for. */
  ghost predicate KeptFor<V(!new)>(c: Config, m: map<string, V>, m': map<string, V>) {
    && (forall key :: key in m' <==> key in m && Registered(c, key))
    && (forall key <- m' :: m'[key] == m[key])
  }

  ghost predicate KeptForProviders<V(!new)>(c: Config, m: map<string, V>, m': map<string, V>) {
    && (forall key :: key in m' <==> key in m && exists p <- c.providers :: p.name == key)
    && (forall key <- m' :: m'[key] == m[key])
  }

  lemma RestrictKeeps<V(!new)>(c: Config, m: map<string, V>)
    ensures KeptFor(c, m, Restrict(m, LogKeys(c)))
    ensures KeptForProviders(c, m, Restrict(m, Names(c.providers)))
  {
    hide LogKeys, Registered;
    forall key ensures key in LogKeys(c) <==> Registered(c, key) {
      LogKeysExact(c, key);
    }
  }

  /** A reload registers exactly the new configuration: surviving logs, cooldowns, reasons and
      counters as they were, new logs empty, and health and cursors kept by provider. */
  lemma ReloadRegisters(s: State, c: Config)
    ensures var s' := Reload(s, c);
            && Registers(s', c)
            && (forall key <- s'.logs :: if key in s.logs then s'.logs[key] == s.logs[key] else s'.logs[key].stored == [])
            && KeptFor(c, s.blocked, s'.blocked) && KeptFor(c, s.reason, s'.reason)
            && KeptFor(c, s.modelTokens, s'.modelTokens) && KeptFor(c, s.modelRequests, s'.modelRequests)
            && KeptForProviders(c, s.health, s'.health) && KeptForProviders(c, s.modelIdx, s'.modelIdx)
            && s'.rrCursor == s.rrCursor && s'.dirty == s.dirty
  {
    hide BackendQuotas, LogKeys, Registers, Restrict, Names, KeptFor, KeptForProviders;
    RegistersBy(Reload(s, c), c);
    RestrictKeeps(c, s.blocked);
    RestrictKeeps(c, s.reason);
    RestrictKeeps(c, s.modelTokens);
    RestrictKeeps(c, s.modelRequests);
    RestrictKeeps(c, s.health);
    RestrictKeeps(c, s.modelIdx);
  }

  /** After a reload every request has the candidates it would have on a rotator freshly built
      from the new configuration: aliases, models, providers and all. */
  lemma ReloadRoutesAfresh(s: State, c: Config, requested: string, need: Need)
    ensures CandidatesFor(Reload(s, c).config, requested, need) == CandidatesFor(c, requested, need)
    ensures CandidatesFor(New(c).config, requested, need) == CandidatesFor(c, requested, need)
    ensures Reload(s, c).config.quota == c.quota
  {
  }

  // ---- recording ----

  /** A served request is written, at its instant and with its tokens, to the logs of its
      provider, of its model and of all together, and to no other, and counted on its model. */
  lemma RecordWrites(s: State, name: string, model: string, tokens: int, now: int)
    requires LogsOk(s.logs) && PlainName(name)
    ensures var s', mk, e := RecordUsage(s, name, model, tokens, now), name + "/" + model, Event(now, tokens);
            && s'.logs.Keys == s.logs.Keys
            && (forall key <- s.logs ::
                  s'.logs[key] == if key == name || key == mk || key == "__global__" then Push(s.logs[key], e)
                                  else s.logs[key])
            && s'.modelRequests == s.modelRequests[mk := (if mk in s.modelRequests then s.modelRequests[mk] else 0) + 1]
            && s'.modelTokens == s.modelTokens[mk := (if mk in s.modelTokens then s.modelTokens[mk] else 0) + tokens]
            && s'.blocked == s.blocked && s'.dirty
  {
    hide Push;
    ModelKeyIsNotPlain(name, model);
  }
}
