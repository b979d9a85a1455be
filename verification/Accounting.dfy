/** Token and request counters over whole runs: nothing served goes uncounted. */
module Accounting {
  import opened Window
  import opened Configs
  import opened Tables
  import opened Rotation
  import opened Lifecycle
  import opened QuotaProtocol

  /** All tokens of a history. */
  function AllTokens(h: seq<Event>): int {
    if h == [] then 0 else AllTokens(h[..|h| - 1]) + h[|h| - 1].tokens
  }

  /** The per-model counters add up to what the global history holds. */
  ghost predicate Conserved(s: System) {
    && GLOBAL in s.hist
    && Tally(s.r.modelRequests) == |s.hist[GLOBAL]|
    && Tally(s.r.modelTokens) == AllTokens(s.hist[GLOBAL])
  }

  lemma CountsGrow(r: State, r2: State, h: seq<Event>, mk: string, e: Event)
    requires Tally(r.modelRequests) == |h| && Tally(r.modelTokens) == AllTokens(h)
    requires r2.modelRequests == r.modelRequests[mk := Get(r.modelRequests, mk, 0) + 1]
    requires r2.modelTokens == r.modelTokens[mk := Get(r.modelTokens, mk, 0) + e.tokens]
    ensures Tally(r2.modelRequests) == |h + [e]| && Tally(r2.modelTokens) == AllTokens(h + [e])
  {
    hide Tally;
    TallyAdd(r.modelRequests, mk, 1);
    TallyAdd(r.modelTokens, mk, e.tokens);
    assert (h + [e])[..|h|] == h;
  }

  lemma CompleteConserves(c: Config, a: System, i: nat, tokens: int)
    requires SystemOk(c, a) && WellNamed(c) && i < |a.flight| && Conserved(a)
    ensures Conserved(Completed(a, i, tokens))
  {
    hide Tally, AllTokens, SystemOk, WellNamed, Completed, LogsOk, ModelKey;
    CountersAfter(c, a, i, tokens);
    GlobalRecorded(c, a, i, tokens);
    CountsGrow(a.r, Completed(a, i, tokens).r, a.hist[GLOBAL],
      ModelKey(a.flight[i].provider, a.flight[i].model), Event(a.clock, tokens));
  }

  lemma CountersAfter(c: Config, a: System, i: nat, tokens: int)
    requires SystemOk(c, a) && i < |a.flight|
    ensures LogsOk(a.r.logs)
    ensures var mk := ModelKey(a.flight[i].provider, a.flight[i].model);
            var r := Completed(a, i, tokens).r;
            && r.modelRequests == a.r.modelRequests[mk := Get(a.r.modelRequests, mk, 0) + 1]
            && r.modelTokens == a.r.modelTokens[mk := Get(a.r.modelTokens, mk, 0) + tokens]
  {
    hide PushAt;
  }

  lemma GlobalRecorded(c: Config, a: System, i: nat, tokens: int)
    requires SystemOk(c, a) && WellNamed(c) && i < |a.flight|
    ensures GLOBAL in a.hist && GLOBAL in Completed(a, i, tokens).hist
    ensures Completed(a, i, tokens).hist[GLOBAL] == a.hist[GLOBAL] + [Event(a.clock, tokens)]
  {
    RecordedOnce(c, a, i, tokens, GLOBAL);
  }

  lemma NextConserves(c: Config, most: int, a: System, b: System, step: Step)
    requires SystemOk(c, a) && WellNamed(c) && Next(c, most, a, b, step) && Conserved(a)
    requires !step.Reconfigure?
    ensures Conserved(b)
  {
    hide SystemOk, WellNamed, CandidatesFor, IsOrder, Pick, Tally, Completed, Restore, Snapshot;
    match step
    case Tick(_) =>
    case Arrive(requested, need, ord) =>
      var (active, strategy) := CandidatesFor(c, requested, need);
      PickSavesAlike(a.r, active, strategy, ord, a.clock);
    case Complete(i, tokens) => CompleteConserves(c, a, i, tokens);
    case Fail(_, _, _, _) =>
    case Abandon(_) =>
    case Restart(to) => RestartLogs(c, a, to);
  }

  /** A step other than a reload, which forgets the counters of models without a quota. */
  ghost predicate Serves(c: Config, most: int, a: System, b: System) {
    exists step: Step :: !step.Reconfigure? && Next(c, most, a, b, step)
  }

  ghost predicate NeverReloads(c: Config, most: int, run: seq<System>) {
    forall i :: 0 < i < |run| ==> ServesAt(c, most, run, i)
  }

  ghost predicate ServesAt(c: Config, most: int, run: seq<System>, i: nat)
    requires 0 < i < |run|
  {
    Serves(c, most, run[i - 1], run[i])
  }

  lemma ServesConserves(c: Config, most: int, a: System, b: System)
    requires SystemOk(c, a) && WellNamed(c) && Serves(c, most, a, b) && Conserved(a)
    ensures Conserved(b)
  {
    hide Next, SystemOk, WellNamed, Conserved;
    var step: Step :| !step.Reconfigure? && Next(c, most, a, b, step);
    NextConserves(c, most, a, b, step);
  }

  lemma InitConserved(c: Config, s: System)
    requires Init(c, s)
    ensures Conserved(s)
  {
  }

  lemma ServedAt(c: Config, most: int, run: seq<System>, i: nat)
    requires NeverReloads(c, most, run) && 0 < i < |run|
    ensures Serves(c, most, run[i - 1], run[i])
  {
    hide Serves;
    assert ServesAt(c, most, run, i);
  }

  /** Usage is conserved over every interleaving, restarts included: until a reload, the
      per-model request and token counters together hold exactly what the global log was
      ever given, ring overwrites and all. */
  lemma {:induction false} UsageIsConserved(c: Config, most: int, run: seq<System>, i: nat)
    requires IsRun(c, most, run) && NeverReloads(c, most, run) && WellNamed(c) && i < |run|
    ensures Conserved(run[i])
  {
    hide *;
    RunFollows(c, most, run, i);
    if i == 0 {
      InitConserved(c, run[0]);
    } else {
      UsageIsConserved(c, most, run, i - 1);
      RunOk(c, most, run, i - 1);
      ServedAt(c, most, run, i);
      ServesConserves(c, most, run[i - 1], run[i]);
    }
  }

  // ---- counters a reload keeps ----

  /** The counters of a model with a quota of its own hold what its log was ever given. */
  ghost predicate Counted(s: System, key: string) {
    && key in s.hist
    && Get(s.r.modelRequests, key, 0) == |s.hist[key]|
    && Get(s.r.modelTokens, key, 0) == AllTokens(s.hist[key])
  }

  lemma CompleteCounts(c: Config, a: System, i: nat, tokens: int, key: string)
    requires SystemOk(c, a) && WellNamed(c) && i < |a.flight| && Counted(a, key)
    requires key in BackendQuotas(c.models)
    ensures Counted(Completed(a, i, tokens), key)
  {
    hide AllTokens, SystemOk, WellNamed, Completed, LogsOk, BackendQuotas;
    CountersAfter(c, a, i, tokens);
    QuotaKeyTouched(c, a, i, tokens, key);
    TokensAppend(a.hist[key], Event(a.clock, tokens));
  }

  lemma TokensAppend(h: seq<Event>, e: Event)
    ensures AllTokens(h + [e]) == AllTokens(h) + e.tokens
  {
    assert (h + [e])[..|h|] == h;
  }

  lemma QuotaKeyTouched(c: Config, a: System, i: nat, tokens: int, key: string)
    requires SystemOk(c, a) && WellNamed(c) && i < |a.flight| && key in BackendQuotas(c.models)
    ensures var h := Completed(a, i, tokens).hist;
            && key in a.hist && key in h
            && h[key] == if key == ModelKey(a.flight[i].provider, a.flight[i].model)
                         then a.hist[key] + [Event(a.clock, tokens)] else a.hist[key]
  {
    RecordedOnce(c, a, i, tokens, key);
    BackendQuotaKeys(c.models);
    assert a.flight[i] in a.flight;
    assert PlainName(a.flight[i].provider);
  }

  lemma ReloadCounts(c: Config, s: State, key: string)
    requires key in BackendQuotas(c.models)
    ensures Get(Reload(s, c).modelRequests, key, 0) == Get(s.modelRequests, key, 0)
    ensures Get(Reload(s, c).modelTokens, key, 0) == Get(s.modelTokens, key, 0)
  {
    hide BackendQuotas;
    assert key in LogKeys(c);
  }

  lemma NextCounts(c: Config, most: int, a: System, b: System, step: Step, key: string)
    requires SystemOk(c, a) && WellNamed(c) && Next(c, most, a, b, step) && Counted(a, key)
    requires key in BackendQuotas(c.models)
    ensures Counted(b, key)
  {
    hide SystemOk, WellNamed, CandidatesFor, IsOrder, Pick, Completed, Reload, Restore, Snapshot, BackendQuotas, AllTokens;
    match step
    case Tick(_) =>
    case Arrive(requested, need, ord) =>
      var (active, strategy) := CandidatesFor(c, requested, need);
      PickSavesAlike(a.r, active, strategy, ord, a.clock);
    case Complete(i, tokens) => CompleteCounts(c, a, i, tokens, key);
    case Fail(_, _, _, _) =>
    case Abandon(_) =>
    case Reconfigure => ReloadCounts(c, a.r, key);
    case Restart(to) => RestartLogs(c, a, to);
  }

  lemma FollowsCounts(c: Config, most: int, a: System, b: System, key: string)
    requires SystemOk(c, a) && WellNamed(c) && Follows(c, most, a, b) && Counted(a, key)
    requires key in BackendQuotas(c.models)
    ensures Counted(b, key)
  {
    hide Next, SystemOk, WellNamed, Counted, BackendQuotas;
    var step :| Next(c, most, a, b, step);
    NextCounts(c, most, a, b, step, key);
  }

  lemma InitCounted(c: Config, s: System, key: string)
    requires Init(c, s) && key in BackendQuotas(c.models)
    ensures Counted(s, key)
  {
    hide BackendQuotas;
    assert key in LogKeys(c);
  }

  /** Model by model, over every run, reloads and restarts included: where a model has a
      quota of its own, its counters are what its log was ever given. */
  lemma {:induction false} QuotaCountersMatch(c: Config, most: int, run: seq<System>, i: nat, key: string)
    requires IsRun(c, most, run) && WellNamed(c) && i < |run| && key in BackendQuotas(c.models)
    ensures Counted(run[i], key)
  {
    hide *;
    RunFollows(c, most, run, i);
    if i == 0 {
      InitCounted(c, run[0], key);
    } else {
      QuotaCountersMatch(c, most, run, i - 1, key);
      RunOk(c, most, run, i - 1);
      FollowsCounts(c, most, run[i - 1], run[i], key);
    }
  }
}
