/** What the configured quotas promise, cap by cap, in the configuration's own words. */
module QuotaPromises {
  import opened Window
  import opened Rings
  import opened Quotas
  import opened Configs
  import opened Rotation
  import opened QuotaProtocol
  import opened Registry

  /** The configuration puts quota `q` on everything, on a provider, or on one model of one. */
  ghost predicate Configured(c: Config, key: string, q: Quota) {
    || (key == "__global__" && q == c.quota)
    || (exists p <- c.providers :: p.name == key && p.quota == q)
    || (exists i, j :: SetsLast(c.models, i, j, key) && c.models[i].backends[j].quota == Some(q))
  }

  lemma ConfiguredGoverns(c: Config, key: string, q: Quota)
    requires Configured(c, key, q)
    ensures Governs(c, key, q)
  {
    hide BackendQuotas;
    BackendQuotasExact(c.models, key);
    if i, j :| SetsLast(c.models, i, j, key) && c.models[i].backends[j].quota == Some(q) {
      LastSets(c.models, i, j, key);
    }
  }

  /** Everything recorded so far to the log of `key`. */
  function HistoryOf(s: System, key: string): seq<Event> {
    Get(s.hist, key, [])
  }

  /** Over every interleaving, with at most `most` requests to a key between pick and record,
      no minute, hour or day ever holds more than the key's cap for it and most - 1 more. */
  lemma RequestCapsHold(c: Config, tokens: nat, run: seq<System>, key: string, q: Quota, most: nat, i: nat, lo: int)
    requires IsRun(c, tokens, run) && WellNamed(c) && Configured(c, key, q) && i < |run|
    requires forall j :: 0 <= j < |run| ==> Concurrent(run[j], key, most)
    ensures 0 < q.rpm <= 10_000 ==> CountIn(HistoryOf(run[i], key), lo, 60_000_000_000) <= q.rpm + most - 1
    ensures 0 < q.rph <= 10_000 ==> CountIn(HistoryOf(run[i], key), lo, 3_600_000_000_000) <= q.rph + most - 1
    ensures 0 < q.rpd <= 10_000 ==> CountIn(HistoryOf(run[i], key), lo, 86_400_000_000_000) <= q.rpd + most - 1
  {
    ConfiguredGoverns(c, key, q);
    hide IsRun, WellNamed, Configured, Governs, CountIn;
    if 0 < q.rpm <= 10_000 {
      RequestQuotaHolds(c, tokens, run, key, q, RPM, most, i, lo);
    }
    if 0 < q.rph <= 10_000 {
      RequestQuotaHolds(c, tokens, run, key, q, RPH, most, i, lo);
    }
    if 0 < q.rpd <= 10_000 {
      RequestQuotaHolds(c, tokens, run, key, q, RPD, most, i, lo);
    }
  }

  /** The log of `key` never lost tokens it should still have counted over `span`. */
  ghost predicate Remembers(run: seq<System>, key: string, span: int) {
    forall j :: 0 <= j < |run| ==> RingHoldsWindow(run[j], key, span)
  }

  /** ... nor spends more than its cap less one and `most` of the largest requests. */
  lemma TokenCapsHold(c: Config, tokens: nat, run: seq<System>, key: string, q: Quota, most: nat, i: nat, lo: int)
    requires IsRun(c, tokens, run) && WellNamed(c) && Configured(c, key, q) && i < |run|
    requires forall j :: 0 <= j < |run| ==> Concurrent(run[j], key, most)
    ensures 0 < q.tpm && Remembers(run, key, 60_000_000_000) ==>
              TokensIn(HistoryOf(run[i], key), lo, 60_000_000_000) <= q.tpm - 1 + most * tokens
    ensures 0 < q.tph && Remembers(run, key, 3_600_000_000_000) ==>
              TokensIn(HistoryOf(run[i], key), lo, 3_600_000_000_000) <= q.tph - 1 + most * tokens
    ensures 0 < q.tpd && Remembers(run, key, 86_400_000_000_000) ==>
              TokensIn(HistoryOf(run[i], key), lo, 86_400_000_000_000) <= q.tpd - 1 + most * tokens
  {
    ConfiguredGoverns(c, key, q);
    hide IsRun, WellNamed, Configured, Governs, TokensIn, RingHoldsWindow;
    if 0 < q.tpm && Remembers(run, key, 60_000_000_000) {
      TokenQuotaHolds(c, tokens, run, key, q, TPM, most, i, lo);
    }
    if 0 < q.tph && Remembers(run, key, 3_600_000_000_000) {
      TokenQuotaHolds(c, tokens, run, key, q, TPH, most, i, lo);
    }
    if 0 < q.tpd && Remembers(run, key, 86_400_000_000_000) {
      TokenQuotaHolds(c, tokens, run, key, q, TPD, most, i, lo);
    }
  }

  /** A backend's own quota is kept under the key its requests are recorded to. */
  lemma BackendCapsHold(c: Config, tokens: nat, run: seq<System>, m: nat, b: nat, most: nat, i: nat, lo: int)
    requires IsRun(c, tokens, run) && WellNamed(c) && i < |run|
    requires m < |c.models| && b < |c.models[m].backends| && c.models[m].backends[b].quota.Some?
    requires var e := c.models[m].backends[b]; SetsLast(c.models, m, b, e.provider + "/" + e.model)
    requires var e := c.models[m].backends[b];
             forall j :: 0 <= j < |run| ==> Concurrent(run[j], e.provider + "/" + e.model, most)
    ensures var e := c.models[m].backends[b];
            var q, h := e.quota.value, HistoryOf(run[i], e.provider + "/" + e.model);
            && (0 < q.rpm <= 10_000 ==> CountIn(h, lo, 60_000_000_000) <= q.rpm + most - 1)
            && (0 < q.rph <= 10_000 ==> CountIn(h, lo, 3_600_000_000_000) <= q.rph + most - 1)
            && (0 < q.rpd <= 10_000 ==> CountIn(h, lo, 86_400_000_000_000) <= q.rpd + most - 1)
  {
    hide IsRun, WellNamed, SetsLast, Concurrent, CountIn;
    var e := c.models[m].backends[b];
    var key := e.provider + "/" + e.model;
    assert Configured(c, key, e.quota.value);
    hide Configured;
    RequestCapsHold(c, tokens, run, key, e.quota.value, most, i, lo);
  }

  // ---- what a history is ----

  /** What a step records under `key`: the request it completes, if that was sent to the
      provider or the model of that name. */
  function Records(a: System, step: Step, key: string): seq<Event> {
    match step
    case Complete(i, tokens) =>
      if i >= |a.flight| then []
      else
        var q := a.flight[i];
        if key == q.provider || key == q.provider + "/" + q.model || key == "__global__"
        then [Event(a.clock, tokens)] else []
    case _ => []
  }

  /** A key's history is every request completed on it, in order, and nothing else. */
  lemma HistoryGrows(c: Config, tokens: int, a: System, b: System, step: Step, key: string)
    requires SystemOk(c, a) && WellNamed(c) && Next(c, tokens, a, b, step) && Registered(c, key)
    ensures HistoryOf(b, key) == HistoryOf(a, key) + Records(a, step, key)
  {
    hide Pick, CandidatesFor, IsOrder, Reload, Restore, Snapshot, RecordUsage, BackendQuotas, LogKeys, Registered;
    LogKeysExact(c, key);
    match step
    case Complete(i, _) => CompleteGrows(c, a, i, step.tokens, key);
    case _ => assert HistoryOf(a, key) + [] == HistoryOf(a, key);
  }

  lemma CompleteGrows(c: Config, a: System, i: nat, tokens: int, key: string)
    requires SystemOk(c, a) && WellNamed(c) && i < |a.flight| && key in LogKeys(c)
    ensures HistoryOf(Completed(a, i, tokens), key) == HistoryOf(a, key) + Records(a, Complete(i, tokens), key)
  {
    RecordedOnce(c, a, i, tokens, key);
    KeysStay(c, a, i, tokens);
    hide Completed, LogKeys, BackendQuotas;
    assert HistoryOf(a, key) + [] == HistoryOf(a, key);
  }

  lemma KeysStay(c: Config, a: System, i: nat, tokens: int)
    requires SystemOk(c, a) && i < |a.flight|
    ensures a.hist.Keys == LogKeys(c) && Completed(a, i, tokens).hist.Keys == LogKeys(c)
  {
    hide LogKeys, BackendQuotas, Push;
  }
}
