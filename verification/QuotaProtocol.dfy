/** Requests interleaving on one rotator: each is picked, answered outside the lock, and
    only then recorded. What the quotas still guarantee across every interleaving. */
module QuotaProtocol {
  import opened Window
  import opened Rings
  import opened Recall
  import opened Quotas
  import opened Configs
  import opened Rotation
  import opened PickLaws
  import opened QuotaBound

  /** A request between its pick and its record. */
  datatype Req = Req(provider: string, model: string)

  /** The rotator, the full history behind each of its logs, who is in flight, and the time. */
  datatype System = System(r: State, hist: map<string, seq<Event>>, flight: seq<Req>, clock: int)

  datatype Step =
    | Tick(to: int)
    | Arrive(requested: string, need: Need, ord: seq<Provider>)
    | Complete(i: nat, tokens: int)
    | Fail(i: nat, key: string, cooldown: int, reason: string)
    | Abandon(i: nat)
    | Reconfigure
    | Restart(to: int)

  function HistAt(h: map<string, seq<Event>>, key: string, e: Event): map<string, seq<Event>> {
    if key in h then h[key := h[key] + [e]] else h
  }

  function Without<T>(s: seq<T>, i: nat): seq<T>
    requires i < |s|
  {
    s[..i] + s[i + 1..]
  }

  /** One step. The configuration may be loaded again as it is, and the process may stop,
      losing whoever is in flight, and start again later from the image it left, provided
      every log brings its last day back in order. */
  ghost predicate Next(c: Config, most: int, a: System, b: System, step: Step) {
    match step
    case Tick(to) => a.clock <= to && b == a.(clock := to)
    case Arrive(requested, need, ord) =>
      var (active, strategy) := CandidatesFor(c, requested, need);
      && IsOrder(a.r.rrCursor, active, strategy, ord)
      && (forall p <- ord :: p.models != [])
      && var (r', choice) := Pick(a.r, active, strategy, ord, a.clock);
         b == a.(r := r', flight := a.flight + Arrived(choice))
    case Complete(i, tokens) =>
      && i < |a.flight| && 0 <= tokens <= most && LogsOk(a.r.logs)
      && b == Completed(a, i, tokens)
    case Fail(i, key, cooldown, reason) =>
      && i < |a.flight|
      && b == a.(r := Block(a.r, key, cooldown, reason, a.clock), flight := Without(a.flight, i))
    case Abandon(i) =>
      i < |a.flight| && b == a.(flight := Without(a.flight, i))
    case Reconfigure => b == a.(r := Reload(a.r, c))
    case Restart(to) =>
      && a.clock <= to && (forall k <- a.r.logs :: Restartable(a.r.logs[k], to))
      && b == System(Restore(New(c), Snapshot(a.r, a.clock), to), a.hist, [], to)
  }

  function Arrived(choice: Option<Choice>): seq<Req> {
    if choice.None? then [] else [Req(choice.value.provider.name, choice.value.model)]
  }

  function Completed(a: System, i: nat, tokens: int): System
    requires i < |a.flight| && LogsOk(a.r.logs)
  {
    var q, e := a.flight[i], Event(a.clock, tokens);
    a.(r := RecordUsage(a.r, q.provider, q.model, tokens, a.clock),
       hist := HistAt(HistAt(HistAt(a.hist, q.provider, e), ModelKey(q.provider, q.model), e), GLOBAL, e),
       flight := Without(a.flight, i))
  }

  ghost predicate Init(c: Config, s: System) {
    && s.r == New(c) && s.clock >= 0 && s.flight == []
    && s.hist == map k | k in LogKeys(c) :: []
  }

  ghost predicate Follows(c: Config, most: int, a: System, b: System) {
    exists step :: Next(c, most, a, b, step)
  }

  ghost predicate NextAt(c: Config, most: int, run: seq<System>, i: nat)
    requires 0 < i < |run|
  {
    Follows(c, most, run[i - 1], run[i])
  }

  /** A run under one configuration, each request spending at most `most` tokens. */
  ghost predicate IsRun(c: Config, most: int, run: seq<System>) {
    && |run| > 0 && Init(c, run[0])
    && forall i :: 0 < i < |run| ==> NextAt(c, most, run, i)
  }

  /** Provider names as configs write them: plain, and each used once. */
  ghost predicate WellNamed(c: Config) {
    && (forall p <- c.providers :: PlainName(p.name))
    && (forall p, o :: p in c.providers && o in c.providers && p.name == o.name ==> p == o)
  }

  /** Recording the request writes to the log of `key`. */
  predicate Touches(q: Req, key: string) {
    key == q.provider || key == ModelKey(q.provider, q.model) || key == GLOBAL
  }

  function InFlight(flight: seq<Req>, key: string): nat {
    if flight == [] then 0
    else InFlight(flight[..|flight| - 1], key) + (if Touches(flight[|flight| - 1], key) then 1 else 0)
  }

  /** `q` is the quota the configuration puts on the log of `key`. */
  ghost predicate Governs(c: Config, key: string, q: Quota) {
    || (key == GLOBAL && q == c.quota)
    || (exists p <- c.providers :: p.name == key && p.quota == q)
    || (key in BackendQuotas(c.models) && q == BackendQuotas(c.models)[key])
  }

  ghost predicate SystemOk(c: Config, s: System) {
    && s.r.config == c && s.r.backendQuotas == BackendQuotas(c.models)
    && s.clock >= 0
    && LogsOk(s.r.logs)
    && s.r.logs.Keys == LogKeys(c) && s.hist.Keys == LogKeys(c)
    && (forall q <- s.flight :: q.provider in Names(c.providers))
  }

  /** The system as one key sees it. */
  function ViewOf(s: System, key: string): View {
    View(Get(s.r.logs, key, EMPTY), Get(s.hist, key, []), InFlight(s.flight, key), s.clock)
  }

  // ---- counting who is in flight ----

  lemma {:induction false} InFlightConcat(a: seq<Req>, b: seq<Req>, key: string)
    ensures InFlight(a + b, key) == InFlight(a, key) + InFlight(b, key)
  {
    if b == [] {
      assert a + b == a;
    } else {
      assert (a + b)[..|a + b| - 1] == a + b[..|b| - 1];
      InFlightConcat(a, b[..|b| - 1], key);
    }
  }

  lemma InFlightWithout(flight: seq<Req>, i: nat, key: string)
    requires i < |flight|
    ensures InFlight(flight, key) == InFlight(Without(flight, i), key) + (if Touches(flight[i], key) then 1 else 0)
    ensures forall q <- Without(flight, i) :: q in flight
  {
    assert flight == flight[..i] + ([flight[i]] + flight[i + 1..]);
    InFlightConcat(flight[..i], [flight[i]] + flight[i + 1..], key);
    InFlightConcat([flight[i]], flight[i + 1..], key);
    InFlightConcat(flight[..i], flight[i + 1..], key);
    assert InFlight([flight[i]], key) == (if Touches(flight[i], key) then 1 else 0) by {
      assert [flight[i]][..0] == [];
    }
  }

  lemma InFlightArrived(flight: seq<Req>, q: Req, key: string)
    ensures InFlight(flight + [q], key) == InFlight(flight, key) + (if Touches(q, key) then 1 else 0)
  {
  }

  // ---- keys ----

  lemma GovernedHasLog(c: Config, key: string, q: Quota)
    requires Governs(c, key, q)
    ensures key in LogKeys(c)
  {
  }

  // ---- each step, seen from one key ----

  lemma ArriveKeepsOk(c: Config, a: System, b: System, requested: string, need: Need, ord: seq<Provider>)
    requires SystemOk(c, a) && Next(c, 0, a, b, Arrive(requested, need, ord))
    ensures SystemOk(c, b) && b.r.logs == a.r.logs
  {
    var (active, strategy) := CandidatesFor(c, requested, need);
    var (r', choice) := Pick(a.r, active, strategy, ord, a.clock);
    PickSound(a.r, active, strategy, ord, a.clock);
    assert r'.logs == a.r.logs && r'.config == c && r'.backendQuotas == a.r.backendQuotas;
    CandidatesUsable(c, requested, need);
    if choice.Some? {
      assert ComesFrom(choice.value.provider, c);
      assert b.flight == a.flight + [Req(choice.value.provider.name, choice.value.model)];
    }
  }

  lemma CompleteKeepsOk(c: Config, a: System, i: nat, tokens: int)
    requires SystemOk(c, a) && i < |a.flight|
    ensures SystemOk(c, Completed(a, i, tokens))
  {
    hide Push, ModelKey, BackendQuotas, LogKeys;
  }

  lemma CompletedFrame(a: System, i: nat, tokens: int)
    requires i < |a.flight| && LogsOk(a.r.logs)
    ensures var b := Completed(a, i, tokens);
            b.clock == a.clock && b.flight == Without(a.flight, i) && b.r.blocked == a.r.blocked
  {
    hide PushAt, HistAt;
  }

  /** Loading the same configuration again keeps every log. */
  lemma ReloadLogs(c: Config, a: System)
    requires SystemOk(c, a)
    ensures var r := Reload(a.r, c);
            r.logs == a.r.logs && r.config == c && r.backendQuotas == a.r.backendQuotas
  {
    hide BackendQuotas, LogKeys;
  }

  lemma RestartLogs(c: Config, a: System, to: int)
    requires SystemOk(c, a)
    ensures var r := Restore(New(c), Snapshot(a.r, a.clock), to);
            && r.logs.Keys == LogKeys(c) && r.config == c && r.backendQuotas == BackendQuotas(c.models)
            && (forall k <- r.logs :: r.logs[k] == Load(a.r.logs[k].stored, to))
            && r.modelTokens == a.r.modelTokens && r.modelRequests == a.r.modelRequests
  {
    hide BackendQuotas, LogKeys, Load, Live;
  }

  lemma NextKeepsOk(c: Config, most: int, a: System, b: System, step: Step)
    requires SystemOk(c, a) && Next(c, most, a, b, step)
    ensures SystemOk(c, b)
  {
    hide Completed, Reload, Restore, Snapshot, BackendQuotas, LogKeys, Load, Restartable, CandidatesFor, Pick;
    match step
    case Tick(_) =>
    case Arrive(requested, need, ord) => ArriveKeepsOk(c, a, b, requested, need, ord);
    case Complete(i, tokens) => CompleteKeepsOk(c, a, i, tokens);
    case Fail(i, _, _, _) => InFlightWithout(a.flight, i, GLOBAL);
    case Abandon(i) => InFlightWithout(a.flight, i, GLOBAL);
    case Reconfigure => ReloadLogs(c, a);
    case Restart(to) => RestartLogs(c, a, to);
  }

  /** A request that was let through passed the check of every log it will be recorded to. */
  lemma PickChecked(c: Config, s: State, requested: string, need: Need, ord: seq<Provider>, now: int,
                    key: string, q: Quota)
    requires s.config == c && s.backendQuotas == BackendQuotas(c.models) && now >= 0
    requires WellNamed(c) && Governs(c, key, q) && s.logs.Keys == LogKeys(c)
    requires forall p <- ord :: p.models != []
    requires var (active, strategy) := CandidatesFor(c, requested, need);
             IsOrder(s.rrCursor, active, strategy, ord)
    requires var (active, strategy) := CandidatesFor(c, requested, need);
             var choice := Pick(s, active, strategy, ord, now).1;
             choice.Some? && Touches(Req(choice.value.provider.name, choice.value.model), key)
    ensures key in s.logs && !Trips(s.logs[key].stored, q, now)
  {
    hide Pick, CandidatesFor, IsOrder, Check, BackendQuotas, ModelKey, OnlyCools;
    var (active, strategy) := CandidatesFor(c, requested, need);
    var choice := Pick(s, active, strategy, ord, now).1.value;
    PickSound(s, active, strategy, ord, now);
    CandidatesUsable(c, requested, need);
    var name, mk := choice.provider.name, ModelKey(choice.provider.name, choice.model);
    ModelKeyIsNotPlain(name, choice.model);
    BackendQuotaKeys(c.models);
    assert ComesFrom(choice.provider, c);
    if key == GLOBAL {
      assert q == c.quota;
      CheckIsMaximum(s.logs[GLOBAL].stored, q, now);
    } else if key == name {
      assert exists p <- c.providers :: p.name == key && p.quota == q;
    } else {
      assert key == mk;
      assert key in BackendQuotas(c.models);
    }
  }

  lemma RecordedOnce(c: Config, a: System, i: nat, tokens: int, key: string)
    requires SystemOk(c, a) && WellNamed(c) && i < |a.flight| && key in LogKeys(c)
    ensures var e := Event(a.clock, tokens);
            var b := Completed(a, i, tokens);
            if Touches(a.flight[i], key)
            then b.r.logs[key] == Push(a.r.logs[key], e) && b.hist[key] == a.hist[key] + [e]
            else b.r.logs[key] == a.r.logs[key] && b.hist[key] == a.hist[key]
  {
    hide ModelKey, Push, BackendQuotas, LogKeys;
    var q := a.flight[i];
    assert q in a.flight;
    ModelKeyIsNotPlain(q.provider, q.model);
    assert PlainName(q.provider);
  }

  lemma NextMoves(c: Config, most: int, a: System, b: System, step: Step, key: string, q: Quota)
    requires SystemOk(c, a) && SystemOk(c, b) && Next(c, most, a, b, step)
    requires WellNamed(c) && Governs(c, key, q)
    ensures key in LogKeys(c) && Moves(ViewOf(a, key), ViewOf(b, key), q, most)
  {
    hide Completed, Reload, Restore, Snapshot, LogKeys, Restartable, CandidatesFor, Pick, Arrived, Without;
    hide Governs, WellNamed, SystemOk, ViewOf, Idles, Admits, Records, LogsOk;
    GovernedHasLog(c, key, q);
    match step
    case Tick(_) =>
      QuietIdles(a, b, key);
    case Arrive(requested, need, ord) =>
      ArriveMoves(c, a, b, requested, need, ord, key, q);
    case Complete(i, tokens) =>
      CompleteMoves(c, most, a, i, tokens, key);
    case Fail(i, _, _, _) =>
      LeavingIdles(a, b, i, key);
    case Abandon(i) =>
      LeavingIdles(a, b, i, key);
    case Reconfigure =>
      ReloadLogs(c, a);
      QuietIdles(a, b, key);
    case Restart(to) =>
      RestartIdles(c, a, b, to, key);
  }

  lemma QuietIdles(a: System, b: System, key: string)
    requires b.r.logs == a.r.logs && b.hist == a.hist && b.flight == a.flight && a.clock <= b.clock
    ensures Idles(ViewOf(a, key), ViewOf(b, key))
  {
  }

  lemma LeavingIdles(a: System, b: System, i: nat, key: string)
    requires i < |a.flight| && b.flight == Without(a.flight, i)
    requires b.r.logs == a.r.logs && b.hist == a.hist && b.clock == a.clock
    ensures Idles(ViewOf(a, key), ViewOf(b, key))
  {
    InFlightWithout(a.flight, i, key);
  }

  lemma RestartIdles(c: Config, a: System, b: System, to: int, key: string)
    requires SystemOk(c, a) && Next(c, 0, a, b, Restart(to)) && key in LogKeys(c)
    ensures Idles(ViewOf(a, key), ViewOf(b, key))
  {
    hide Restore, Snapshot, BackendQuotas, LogKeys, Load, Restartable;
    RestartLogs(c, a, to);
  }

  lemma CompleteMoves(c: Config, most: int, a: System, i: nat, tokens: int, key: string)
    requires SystemOk(c, a) && WellNamed(c) && i < |a.flight| && key in LogKeys(c) && 0 <= tokens <= most
    ensures var b := Completed(a, i, tokens);
            key in b.r.logs && key in b.hist
            && (Idles(ViewOf(a, key), ViewOf(b, key)) || Records(ViewOf(a, key), ViewOf(b, key), most))
  {
    CompleteKeepsOk(c, a, i, tokens);
    RecordedOnce(c, a, i, tokens, key);
    CompletedFrame(a, i, tokens);
    InFlightWithout(a.flight, i, key);
    hide Completed, Push, WellNamed, LogKeys;
    if Touches(a.flight[i], key) {
      assert ViewOf(Completed(a, i, tokens), key) == Recorded(ViewOf(a, key), tokens);
    }
  }

  lemma ArriveMoves(c: Config, a: System, b: System, requested: string, need: Need, ord: seq<Provider>,
                    key: string, q: Quota)
    requires SystemOk(c, a) && Next(c, 0, a, b, Arrive(requested, need, ord))
    requires WellNamed(c) && Governs(c, key, q) && key in LogKeys(c)
    ensures Idles(ViewOf(a, key), ViewOf(b, key)) || Admits(ViewOf(a, key), ViewOf(b, key), q)
  {
    hide CandidatesFor, Pick, IsOrder, WellNamed, Governs, Trips;
    ArriveKeepsOk(c, a, b, requested, need, ord);
    var (active, strategy) := CandidatesFor(c, requested, need);
    var (r', choice) := Pick(a.r, active, strategy, ord, a.clock);
    if choice.None? {
      assert b.flight == a.flight;
    } else {
      var req := Req(choice.value.provider.name, choice.value.model);
      InFlightArrived(a.flight, req, key);
      if Touches(req, key) {
        PickChecked(c, a.r, requested, need, ord, a.clock, key, q);
        CheckExact(a.r.logs[key].stored, q, a.clock);
      }
    }
  }

  // ---- whole runs ----

  lemma RunFollows(c: Config, most: int, run: seq<System>, i: nat)
    requires IsRun(c, most, run) && i < |run|
    ensures i == 0 ==> Init(c, run[0])
    ensures i > 0 ==> Follows(c, most, run[i - 1], run[i])
  {
    hide Next, Init, Follows;
    if i > 0 {
      assert NextAt(c, most, run, i);
    }
  }

  lemma FollowsKeepsOk(c: Config, most: int, a: System, b: System)
    requires SystemOk(c, a) && Follows(c, most, a, b)
    ensures SystemOk(c, b)
  {
    hide Next, SystemOk;
    var step :| Next(c, most, a, b, step);
    NextKeepsOk(c, most, a, b, step);
  }

  lemma InitOk(c: Config, s: System)
    requires Init(c, s)
    ensures SystemOk(c, s)
  {
  }

  lemma {:induction false} RunOk(c: Config, most: int, run: seq<System>, i: nat)
    requires IsRun(c, most, run) && i < |run|
    ensures SystemOk(c, run[i])
  {
    hide *;
    RunFollows(c, most, run, i);
    if i == 0 {
      InitOk(c, run[0]);
    } else {
      RunOk(c, most, run, i - 1);
      FollowsKeepsOk(c, most, run[i - 1], run[i]);
    }
  }

  lemma FollowsMoves(c: Config, most: int, a: System, b: System, key: string, q: Quota)
    requires SystemOk(c, a) && SystemOk(c, b) && Follows(c, most, a, b)
    requires WellNamed(c) && Governs(c, key, q)
    ensures key in LogKeys(c) && Moves(ViewOf(a, key), ViewOf(b, key), q, most)
  {
    hide Next, SystemOk, WellNamed, Governs, Moves;
    var step :| Next(c, most, a, b, step);
    NextMoves(c, most, a, b, step, key, q);
  }

  lemma InitStarts(c: Config, s: System, key: string)
    requires Init(c, s) && key in LogKeys(c)
    ensures Starts(ViewOf(s, key)) && ViewOk(ViewOf(s, key))
  {
    hide ViewOk;
    StartOk(ViewOf(s, key));
  }

  ghost predicate KeyOk(c: Config, s: System, key: string) {
    SystemOk(c, s) && key in LogKeys(c) && ViewOk(ViewOf(s, key))
  }

  lemma InitKeyOk(c: Config, s: System, key: string, q: Quota)
    requires Init(c, s) && Governs(c, key, q)
    ensures KeyOk(c, s, key)
  {
    GovernedHasLog(c, key, q);
    InitStarts(c, s, key);
  }

  lemma FollowsKeepsKey(c: Config, most: int, a: System, b: System, key: string, q: Quota)
    requires KeyOk(c, a, key) && SystemOk(c, b) && Follows(c, most, a, b)
    requires WellNamed(c) && Governs(c, key, q)
    ensures KeyOk(c, b, key) && Moves(ViewOf(a, key), ViewOf(b, key), q, most)
  {
    FollowsMoves(c, most, a, b, key, q);
    MoveKeepsOk(ViewOf(a, key), ViewOf(b, key), q, most);
  }

  /** At most `most` requests to the log of `key` are between pick and record. */
  ghost predicate Concurrent(s: System, key: string, most: int) {
    InFlight(s.flight, key) <= most
  }

  ghost predicate RequestBound(c: Config, s: System, key: string, q: Quota, l: Limit, most: int) {
    KeyOk(c, s, key) && RequestsWithin(ViewOf(s, key), l.Span(), l.Cap(q) + most - 1)
  }

  lemma FollowsKeepsRequests(c: Config, tokens: nat, a: System, b: System, key: string, q: Quota, l: Limit, most: nat)
    requires SystemOk(c, b) && Follows(c, tokens, a, b)
    requires WellNamed(c) && Governs(c, key, q)
    requires l.CountsRequests() && 0 < l.Cap(q) <= MAX_EVENTS
    requires RequestBound(c, a, key, q, l, most) && Concurrent(b, key, most)
    ensures RequestBound(c, b, key, q, l, most)
  {
    hide Follows, WellNamed, Governs, SystemOk, Moves, RequestsWithin, Holds;
    FollowsKeepsKey(c, tokens, a, b, key, q);
    GovernedHasLog(c, key, q);
    MoveKeepsRequests(ViewOf(a, key), ViewOf(b, key), q, l, most, tokens);
  }

  ghost predicate TokenBound(c: Config, s: System, key: string, q: Quota, l: Limit, most: nat, tokens: nat) {
    KeyOk(c, s, key) && TokensWithin(ViewOf(s, key), l.Span(), l.Cap(q) - 1 + Weight(most, tokens), tokens)
  }

  lemma InitBounded(c: Config, s: System, key: string, q: Quota, l: Limit, most: nat, tokens: nat)
    requires Init(c, s) && Governs(c, key, q) && 0 < l.Cap(q)
    ensures RequestBound(c, s, key, q, l, most) && TokenBound(c, s, key, q, l, most, tokens)
  {
    InitKeyOk(c, s, key, q);
    InitStarts(c, s, key);
    StartWithin(ViewOf(s, key), q, l, most, tokens);
  }

  lemma {:induction false} RunKeepsRequests(c: Config, tokens: nat, run: seq<System>, key: string, q: Quota, l: Limit, most: nat, i: nat)
    requires IsRun(c, tokens, run) && WellNamed(c) && Governs(c, key, q)
    requires l.CountsRequests() && 0 < l.Cap(q) <= MAX_EVENTS
    requires forall j :: 0 <= j < |run| ==> Concurrent(run[j], key, most)
    requires i < |run|
    ensures RequestBound(c, run[i], key, q, l, most)
  {
    hide *;
    RunFollows(c, tokens, run, i);
    if i == 0 {
      InitBounded(c, run[0], key, q, l, most, tokens);
    } else {
      RunKeepsRequests(c, tokens, run, key, q, l, most, i - 1);
      RunOk(c, tokens, run, i);
      FollowsKeepsRequests(c, tokens, run[i - 1], run[i], key, q, l, most);
    }
  }

  /** Request quotas hold across every interleaving. With at most `most` requests of a
      log between pick and record, no window of the limit's span ever holds more than
      cap + most - 1 recorded requests; with one at a time, never more than the cap. */
  lemma RequestQuotaHolds(c: Config, tokens: nat, run: seq<System>, key: string, q: Quota, l: Limit, most: nat, i: nat, lo: int)
    requires IsRun(c, tokens, run) && WellNamed(c) && Governs(c, key, q)
    requires l.CountsRequests() && 0 < l.Cap(q) <= MAX_EVENTS
    requires forall j :: 0 <= j < |run| ==> Concurrent(run[j], key, most)
    requires i < |run|
    ensures key in run[i].hist && CountIn(run[i].hist[key], lo, l.Span()) <= l.Cap(q) + most - 1
  {
    RunKeepsRequests(c, tokens, run, key, q, l, most, i);
  }

  /** The ring of `key` has lost no tokens of the current window. */
  ghost predicate RingHoldsWindow(s: System, key: string, span: int) {
    key in s.hist && Tokens(Lost(s.hist[key]), s.clock - span) == 0
  }

  lemma FollowsKeepsTokens(c: Config, tokens: nat, a: System, b: System, key: string, q: Quota, l: Limit, most: nat)
    requires SystemOk(c, b) && Follows(c, tokens, a, b)
    requires WellNamed(c) && Governs(c, key, q)
    requires !l.CountsRequests() && 0 < l.Cap(q)
    requires TokenBound(c, a, key, q, l, most, tokens)
    requires Concurrent(b, key, most)
    requires RingHoldsWindow(a, key, l.Span())
    ensures TokenBound(c, b, key, q, l, most, tokens)
  {
    hide Follows, WellNamed, Governs, SystemOk, Moves, TokensWithin, Lost, Tokens, Weight, Holds;
    FollowsKeepsKey(c, tokens, a, b, key, q);
    GovernedHasLog(c, key, q);
    MoveKeepsTokens(ViewOf(a, key), ViewOf(b, key), q, l, most, tokens);
  }

  lemma {:induction false} RunKeepsTokens(c: Config, tokens: nat, run: seq<System>, key: string, q: Quota, l: Limit, most: nat, i: nat)
    requires IsRun(c, tokens, run) && WellNamed(c) && Governs(c, key, q)
    requires !l.CountsRequests() && 0 < l.Cap(q)
    requires forall j :: 0 <= j < |run| ==> Concurrent(run[j], key, most) && RingHoldsWindow(run[j], key, l.Span())
    requires i < |run|
    ensures TokenBound(c, run[i], key, q, l, most, tokens)
  {
    hide *;
    RunFollows(c, tokens, run, i);
    if i == 0 {
      InitBounded(c, run[0], key, q, l, most, tokens);
    } else {
      RunKeepsTokens(c, tokens, run, key, q, l, most, i - 1);
      RunOk(c, tokens, run, i);
      FollowsKeepsTokens(c, tokens, run[i - 1], run[i], key, q, l, most);
    }
  }

  /** Token quotas too, as long as the ring has not lost any of the window: no window
      exceeds the cap by more than `most` requests' worth of tokens, less one. */
  lemma TokenQuotaHolds(c: Config, tokens: nat, run: seq<System>, key: string, q: Quota, l: Limit, most: nat, i: nat, lo: int)
    requires IsRun(c, tokens, run) && WellNamed(c) && Governs(c, key, q)
    requires !l.CountsRequests() && 0 < l.Cap(q)
    requires forall j :: 0 <= j < |run| ==> Concurrent(run[j], key, most) && RingHoldsWindow(run[j], key, l.Span())
    requires i < |run|
    ensures key in run[i].hist && TokensIn(run[i].hist[key], lo, l.Span()) <= l.Cap(q) - 1 + most * tokens
  {
    RunKeepsTokens(c, tokens, run, key, q, l, most, i);
    WeightIsProduct(most, tokens);
  }
}
