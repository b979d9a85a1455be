/** The rotator's whole state as one value, and each of its operations as a function
    of that value and one clock reading. */
module Rotation {
  import opened Window
  import opened Rings
  import opened Quotas
  import opened Configs

  datatype Health = HealthUnknown | HealthOK | HealthAuth | HealthDown

  datatype State = State(
    config: Config,
    backendQuotas: map<string, Quota>,
    modelIdx: map<string, nat>,
    rrCursor: nat,
    blocked: map<string, int>,
    reason: map<string, string>,
    logs: map<string, Ring>,
    modelTokens: map<string, int>,
    modelRequests: map<string, int>,
    health: map<string, Health>,
    dirty: bool)

  /** A provider and the model on it, as `pick` hands them to `dispatch`. */
  datatype Choice = Choice(provider: Provider, model: string)

  ghost predicate LogsOk(logs: map<string, Ring>) {
    GLOBAL in logs && forall k <- logs :: RingOk(logs[k])
  }

  // ---- quotas and cooldowns ----

  predicate InCooldown(blocked: map<string, int>, key: string, now: int) {
    key in blocked && now < blocked[key]
  }

  /** The log of `key` is over quota `q` at `now`. */
  predicate OverQuota(s: State, key: string, q: Quota, now: int) {
    key in s.logs && Trips(s.logs[key].stored, q, now)
  }

  /** Cools `key` down until `check` says, when it is over quota. */
  function TripQuota(s: State, key: string, q: Quota, now: int): (State, bool) {
    if !OverQuota(s, key, q, now) then (s, false)
    else (s.(blocked := s.blocked[key := Check(s.logs[key].stored, q, now)],
             reason := s.reason[key := "limit"],
             dirty := true), true)
  }

  // ---- pick ----

  function NextIndex(s: State, p: Provider): nat
    requires p.models != []
  {
    (Get(s.modelIdx, p.name, 0) + 1) % |p.models|
  }

  function NextModel(s: State, p: Provider): string
    requires p.models != []
  {
    p.models[NextIndex(s, p)]
  }

  /** One turn of `pick`'s loop: the model this candidate yields, if any. */
  function Examine(s: State, p: Provider, now: int): (State, Option<Choice>)
    requires p.models != []
  {
    if InCooldown(s.blocked, p.name, now) then (s, None)
    else
      var model := NextModel(s, p);
      var mk := ModelKey(p.name, model);
      var s1 := s.(modelIdx := s.modelIdx[p.name := NextIndex(s, p)]);
      var (s2, overProvider) := TripQuota(s1, p.name, p.quota, now);
      if overProvider || InCooldown(s2.blocked, mk, now) then (s2, None)
      else if mk in s2.backendQuotas then
        var (s3, overModel) := TripQuota(s2, mk, s2.backendQuotas[mk], now);
        (s3, if overModel then None else Some(Choice(p, model)))
      else (s2, Some(Choice(p, model)))
  }

  function PickFrom(s: State, ord: seq<Provider>, now: int): (State, Option<Choice>)
    requires forall p <- ord :: p.models != []
    decreases |ord|
  {
    if ord == [] then (s, None)
    else
      var (s', c) := Examine(s, ord[0], now);
      if c.Some? then (s', c) else PickFrom(s', ord[1..], now)
  }

  function Rotate<T>(a: seq<T>, k: nat): (r: seq<T>)
    requires k <= |a|
  {
    a[k..] + a[..k]
  }

  predicate Permutes<T(==)>(a: seq<T>, b: seq<T>) {
    multiset(a) == multiset(b)
  }

  /** `ord` is a sequence the strategy may try the candidates in. */
  predicate IsOrder(cursor: nat, active: seq<Provider>, strategy: string, ord: seq<Provider>) {
    if strategy == "round_robin" then
      ord == if active == [] then [] else Rotate(active, cursor % |active|)
    else if strategy == "random" || strategy == "weighted" then Permutes(ord, active)
    else ord == active
  }

  function AfterOrder(s: State, active: seq<Provider>, strategy: string): State {
    if strategy == "round_robin" && active != [] then s.(rrCursor := s.rrCursor + 1) else s
  }

  predicate GlobalOver(s: State, now: int) {
    s.config.quota != NO_QUOTA && OverQuota(s, GLOBAL, s.config.quota, now)
  }

  /** `pick`, given the order the strategy chose. */
  function Pick(s: State, active: seq<Provider>, strategy: string, ord: seq<Provider>, now: int): (State, Option<Choice>)
    requires forall p <- ord :: p.models != []
  {
    if GlobalOver(s, now) then (TripQuota(s, GLOBAL, s.config.quota, now).0, None)
    else PickFrom(AfterOrder(s, active, strategy), ord, now)
  }

  // ---- recording and blocking ----

  function PushAt(logs: map<string, Ring>, key: string, e: Event): (r: map<string, Ring>)
    requires LogsOk(logs)
    ensures LogsOk(r)
  {
    if key in logs then logs[key := Push(logs[key], e)] else logs
  }

  function RecordUsage(s: State, name: string, model: string, tokens: int, now: int): State
    requires LogsOk(s.logs)
  {
    var e := Event(now, tokens);
    var mk := ModelKey(name, model);
    s.(logs := PushAt(PushAt(PushAt(s.logs, name, e), mk, e), GLOBAL, e),
       modelRequests := s.modelRequests[mk := Get(s.modelRequests, mk, 0) + 1],
       modelTokens := s.modelTokens[mk := Get(s.modelTokens, mk, 0) + tokens],
       dirty := true)
  }

  function Block(s: State, key: string, d: int, reason: string, now: int): State {
    s.(blocked := s.blocked[key := now + d], reason := s.reason[key := reason], dirty := true)
  }

  // ---- construction and reload ----

  function QuotasOf(bs: seq<Backend>): map<string, Quota> {
    if bs == [] then map[]
    else
      var b := bs[|bs| - 1];
      var m := QuotasOf(bs[..|bs| - 1]);
      if b.quota.None? then m else m[ModelKey(b.provider, b.model) := b.quota.value]
  }

  /** Per-model quotas over the whole table; the last entry for a key wins. */
  function BackendQuotas(ms: seq<Model>): map<string, Quota> {
    if ms == [] then map[]
    else BackendQuotas(ms[..|ms| - 1]) + QuotasOf(ms[|ms| - 1].backends)
  }

  lemma {:induction false} QuotasOfKeys(bs: seq<Backend>)
    ensures forall k <- QuotasOf(bs) :: !PlainName(k) && k != GLOBAL
  {
    if bs != [] {
      QuotasOfKeys(bs[..|bs| - 1]);
      ModelKeyIsNotPlain(bs[|bs| - 1].provider, bs[|bs| - 1].model);
    }
  }

  lemma {:induction false} BackendQuotaKeys(ms: seq<Model>)
    ensures forall k <- BackendQuotas(ms) :: !PlainName(k) && k != GLOBAL
  {
    if ms != [] {
      BackendQuotaKeys(ms[..|ms| - 1]);
      QuotasOfKeys(ms[|ms| - 1].backends);
    }
  }

  function Names(ps: seq<Provider>): set<string> {
    set p <- ps :: p.name
  }

  /** The keys that own a log: every provider, every backend with a quota, and the global one. */
  function LogKeys(c: Config): set<string> {
    Names(c.providers) + BackendQuotas(c.models).Keys + {GLOBAL}
  }

  function Restrict<V>(m: map<string, V>, keep: set<string>): map<string, V> {
    map k | k in m && k in keep :: m[k]
  }

  function New(c: Config): State {
    State(c, BackendQuotas(c.models), map[], 0, map[], map[],
          map k | k in LogKeys(c) :: EMPTY, map[], map[], map[], false)
  }

  function Reload(s: State, c: Config): State {
    var keep := LogKeys(c);
    s.(config := c,
       backendQuotas := BackendQuotas(c.models),
       logs := map k | k in keep :: Get(s.logs, k, EMPTY),
       modelTokens := Restrict(s.modelTokens, keep),
       modelRequests := Restrict(s.modelRequests, keep),
       blocked := Restrict(s.blocked, keep),
       reason := Restrict(s.reason, keep),
       health := Restrict(s.health, Names(c.providers)),
       modelIdx := Restrict(s.modelIdx, Names(c.providers)))
  }

  // ---- persistence ----

  datatype Saved = Saved(
    eventLogs: map<string, seq<Event>>,
    modelTokens: map<string, int>,
    modelRequests: map<string, int>,
    blocked: map<string, int>,
    reason: map<string, string>)

  function Live(blocked: map<string, int>, now: int): set<string> {
    set k <- blocked | blocked[k] > now
  }

  function Snapshot(s: State, now: int): Saved {
    var live := Live(s.blocked, now);
    Saved(map k | k in s.logs :: s.logs[k].stored,
          s.modelTokens, s.modelRequests,
          map k | k in live :: s.blocked[k],
          map k | k in live :: Get(s.reason, k, ""))
  }

  function Restore(s: State, saved: Saved, now: int): State {
    var live := Live(saved.blocked, now);
    s.(logs := map k | k in s.logs :: if k in saved.eventLogs then Load(saved.eventLogs[k], now) else s.logs[k],
       modelTokens := s.modelTokens + saved.modelTokens,
       modelRequests := s.modelRequests + saved.modelRequests,
       blocked := s.blocked + (map k | k in live :: saved.blocked[k]),
       reason := s.reason + (map k | k in live :: Get(saved.reason, k, "")))
  }
}
