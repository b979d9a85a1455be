/** Restarts and reloads: what comes back, what is forgotten, and what always holds. */
module Lifecycle {
  import opened Window
  import opened Rings
  import opened Recall
  import opened Quotas
  import opened Configs
  import opened Rotation
  import opened PickLaws

  /** The logs are exactly those the configuration calls for. */
  ghost predicate Consistent(s: State) {
    && LogsOk(s.logs)
    && s.logs.Keys == LogKeys(s.config)
    && s.backendQuotas == BackendQuotas(s.config.models)
  }

  // ---- restart ----

  /** What a fresh rotator holds after saving at `saved` and loading at `loaded`. */
  function Restarted(s: State, saved: int, loaded: int): State {
    Restore(New(s.config), Snapshot(s, saved), loaded)
  }

  lemma RestartedLog(s: State, saved: int, loaded: int, key: string)
    requires Consistent(s) && key in s.logs
    ensures key in Restarted(s, saved, loaded).logs
    ensures Restarted(s, saved, loaded).logs[key] == Load(s.logs[key].stored, loaded)
  {
  }

  /** Every later cooldown question gets the same answer, reason included. */
  lemma RestartKeepsCooldowns(s: State, saved: int, loaded: int, key: string, t: int)
    requires saved <= loaded <= t
    ensures InCooldown(Restarted(s, saved, loaded).blocked, key, t) <==> InCooldown(s.blocked, key, t)
    ensures InCooldown(s.blocked, key, t) ==>
              && Restarted(s, saved, loaded).blocked[key] == s.blocked[key]
              && Get(Restarted(s, saved, loaded).reason, key, "") == Get(s.reason, key, "")
  {
  }

  /** Every later quota question too, on a wrapped ring as well, and so do the totals
      since midnight. */
  lemma RestartKeepsQuotas(s: State, saved: int, loaded: int, key: string, q: Quota, t: int)
    requires Consistent(s) && saved <= loaded <= t
    ensures OverQuota(Restarted(s, saved, loaded), key, q, t) <==> OverQuota(s, key, q, t)
    ensures key in s.logs ==>
              && key in Restarted(s, saved, loaded).logs
              && var a, b := Restarted(s, saved, loaded).logs[key].stored, s.logs[key].stored;
                 && Check(a, q, t) == Check(b, q, t)
                 && Count(a, Midnight(t)) == Count(b, Midnight(t))
                 && Tokens(a, Midnight(t)) == Tokens(b, Midnight(t))
  {
    hide Check, Restore, Snapshot, New, Load;
    if key in s.logs {
      RestartedLog(s, saved, loaded, key);
      CheckSurvivesLoad(s.logs[key], q, loaded, t);
      LoadMeasures(s.logs[key], loaded, Midnight(t), t);
    } else {
      assert Restarted(s, saved, loaded).logs.Keys == s.logs.Keys by {
        RestartedKeys(s, saved, loaded);
      }
    }
  }

  lemma RestartedKeys(s: State, saved: int, loaded: int)
    requires Consistent(s)
    ensures Restarted(s, saved, loaded).logs.Keys == s.logs.Keys
    ensures Restarted(s, saved, loaded).backendQuotas == s.backendQuotas
    ensures Restarted(s, saved, loaded).config == s.config
    ensures Restarted(s, saved, loaded).modelTokens == s.modelTokens
    ensures Restarted(s, saved, loaded).modelRequests == s.modelRequests
  {
    hide Load, BackendQuotas, Live;
  }

  /** A restart changes nothing about who may be sent a request, at any later instant. */
  lemma RestartKeepsRouting(s: State, saved: int, loaded: int, p: Provider, model: string, t: int)
    requires Consistent(s) && saved <= loaded <= t
    ensures Routable(Restarted(s, saved, loaded), p, model, t) <==> Routable(s, p, model, t)
  {
    hide OverQuota, Restarted;
    var mk := ModelKey(p.name, model);
    RestartedKeys(s, saved, loaded);
    RestartKeepsCooldowns(s, saved, loaded, p.name, t);
    RestartKeepsCooldowns(s, saved, loaded, mk, t);
    RestartKeepsQuotas(s, saved, loaded, GLOBAL, s.config.quota, t);
    RestartKeepsQuotas(s, saved, loaded, p.name, p.quota, t);
    RestartKeepsQuotas(s, saved, loaded, mk, Get(s.backendQuotas, mk, NO_QUOTA), t);
  }

  lemma {:induction false} RecentConcat(a: seq<Event>, b: seq<Event>, now: int)
    ensures Recent(a + b, now) == Recent(a, now) + Recent(b, now)
  {
    if b == [] {
      assert a + b == a;
    } else {
      assert (a + b)[..|a + b| - 1] == a + b[..|b| - 1];
      RecentConcat(a, b[..|b| - 1], now);
    }
  }

  /** Two sorted pieces, the second of which belongs before the first, are in order above a
      floor exactly when nothing in the first that is above it is newer than anything in
      the second. */
  lemma SwappedSortedIff(a: seq<Event>, b: seq<Event>, floor: int)
    requires Sorted(a) && Sorted(b)
    ensures SortedAbove(a + b, floor) <==> forall x <- a, y <- b :: x.at > floor ==> x.at <= y.at
  {
    var s := a + b;
    if SortedAbove(s, floor) {
      forall x, y | x in a && y in b && x.at > floor ensures x.at <= y.at {
        var i, j :| 0 <= i < |a| && a[i] == x && 0 <= j < |b| && b[j] == y;
        assert s[i] == x && s[|a| + j] == y;
      }
    } else {
      var i, j :| 0 <= i < j < |s| && s[i].at > floor && s[i].at > s[j].at;
      assert i < |a| <= j;
      assert s[i] in a && s[j] in b;
    }
  }

  /** A log that never wrapped goes on counting faithfully after a restart. */
  lemma UnwrappedRestartKeepsCounting(r: Ring, h: seq<Event>, now: int)
    requires Refines(r, h) && Sorted(h) && |h| < MAX_EVENTS
    ensures KeepsCounting(Load(r.stored, now), now)
  {
    PushEvicts(r, Event(0, 0));
    assert r.stored[r.head..] == [];
    RestartCountsIff(r, now);
  }

  /** Whatever a log in time order holds when it is saved, after the restart it goes on
      counting faithfully exactly when its write position was at slot 0, or it had no event of the
      last day, or every entry from the write position on that is kept is as new as its
      newest one: otherwise events still in a window are the next to be overwritten. */
  lemma RestartCountsIff(r: Ring, now: int)
    requires RingOk(r) && Sorted(EvictionOrder(r))
    ensures KeepsCounting(Load(r.stored, now), now) <==>
              || r.head == 0
              || r.stored[r.head - 1].at <= now - DAY
              || forall e <- r.stored[r.head..] :: e.at >= now - 25 * HOUR ==> e.at == r.stored[r.head - 1].at
  {
    hide EvictionOrder, Load, KeepsCounting, Recent, Sorted, SortedAbove;
    var a, b := r.stored[..r.head], r.stored[r.head..];
    StoredParts(r);
    SavedSliceCountsIff(r, now);
    RecentConcat(a, b, now);
    SwappedRecentIff(a, b, now);
  }

  /** A log in time order brings its last day back in order whenever the write position was
      at slot 0, it had no event of the last day, or nothing from the write position on is
      kept. */
  lemma RestartableIf(r: Ring, now: int)
    requires RingOk(r) && Sorted(EvictionOrder(r))
    requires || r.head == 0
             || r.stored[r.head - 1].at <= now - DAY
             || forall e <- r.stored[r.head..] :: e.at < now - 25 * HOUR
    ensures Restartable(r, now)
  {
    hide EvictionOrder, Recent, SortedAbove, Above;
    var a, b := r.stored[..r.head], r.stored[r.head..];
    StoredParts(r);
    RecentConcat(a, b, now);
    SwappedRecentIff(a, b, now);
    AboveRecent(r.stored, now);
    AboveConcat(a, b, now - DAY);
    AboveConcat(b, a, now - DAY);
    PartsSorted(b, a);
    if r.head == 0 {
      NoneAbove(a, now - DAY);
    } else if a[r.head - 1].at <= now - DAY {
      assert forall e <- a :: e.at <= a[r.head - 1].at by { LastIsLatest(a); }
      assert a[r.head - 1] in a;
      NoneAbove(a, now - DAY);
      NoneAbove(b, now - DAY);
    } else {
      NoneAbove(b, now - DAY);
    }
  }

  lemma LastPush(r: Ring, es: seq<Event>)
    requires RingOk(r) && es != []
    ensures PushAll(r, es) == Push(PushAll(r, es[..|es| - 1]), es[|es| - 1])
  {
  }

  lemma FullRing(es: seq<Event>)
    requires |es| == MAX_EVENTS
    ensures PushAll(EMPTY, es) == Ring(es, 0)
  {
    hide PushAll;
    PushAllRoom(EMPTY, es);
    PushAllRoom(EMPTY, es[..MAX_EVENTS - 1]);
    LastPush(EMPTY, es);
    assert [] + es == es;
  }

  lemma OverwritesFirst(es: seq<Event>, e: Event)
    requires |es| == MAX_EVENTS
    ensures Push(Ring(es, 0), e) == Ring(es[0 := e], 1)
  {
  }

  lemma OneTooMany(es: seq<Event>)
    requires |es| == MAX_EVENTS + 1
    ensures var r := PushAll(EMPTY, es);
            Refines(r, es) && r.head == 1 && r.stored == es[..MAX_EVENTS][0 := es[MAX_EVENTS]]
  {
    assert EvictionOrder(EMPTY) + es == es;
    hide EvictionOrder, Suffix, PushAll, Push;
    PushAllEvicts(EMPTY, es);
    FullRing(es[..MAX_EVENTS]);
    LastPush(EMPTY, es);
    OverwritesFirst(es[..MAX_EVENTS], es[MAX_EVENTS]);
  }

  /** The failing side is reached: one request a nanosecond, one more than the log holds. */
  lemma WrappedRestartUndercounts(now: int)
    ensures var es := seq(MAX_EVENTS + 1, i => Event(now - MAX_EVENTS - 1 + i, 0));
            var r := PushAll(EMPTY, es);
            Sorted(es) && Refines(r, es) && !KeepsCounting(Load(r.stored, now), now)
  {
    var es := seq(MAX_EVENTS + 1, i => Event(now - MAX_EVENTS - 1 + i, 0));
    var r := PushAll(EMPTY, es);
    OneTooMany(es);
    hide PushAll, Load, KeepsCounting;
    SuffixSorted(es);
    hide EvictionOrder;
    RestartCountsIff(r, now);
    assert r.stored[1..][0] == es[1] && es[1] in r.stored[1..];
  }

  lemma SuffixSorted(es: seq<Event>)
    requires Sorted(es)
    ensures Sorted(Suffix(es))
  {
  }

  /** Any log at all, even one an earlier restart left out of order, goes on counting
      faithfully after a restart exactly when the slice saved is in time order over the
      last day. */
  lemma SavedSliceCountsIff(r: Ring, now: int)
    requires RingOk(r)
    ensures KeepsCounting(Load(r.stored, now), now) <==> SortedAbove(Recent(r.stored, now), now - DAY)
  {
    KeptFits(r, now);
    LoadedOrder(r.stored, now);
    KeepsCountingIff(Load(r.stored, now), now);
  }

  lemma StoredParts(r: Ring)
    requires RingOk(r)
    ensures r.head <= |r.stored|
    ensures r.stored == r.stored[..r.head] + r.stored[r.head..]
    ensures EvictionOrder(r) == r.stored[r.head..] + r.stored[..r.head]
  {
  }

  lemma SwappedRecentIff(a: seq<Event>, b: seq<Event>, now: int)
    requires Sorted(b + a)
    ensures SortedAbove(Recent(a, now) + Recent(b, now), now - DAY) <==>
              || a == []
              || a[|a| - 1].at <= now - DAY
              || forall e <- b :: e.at >= now - 25 * HOUR ==> e.at == a[|a| - 1].at
  {
    hide SortedAbove, Recent, Sorted;
    PartsSorted(b, a);
    RecentAre(a, now);
    RecentAre(b, now);
    SwappedSortedIff(Recent(a, now), Recent(b, now), now - DAY);
    if a != [] {
      var newest := a[|a| - 1];
      LastIsLatest(a);
      assert newest in a;
      if newest.at > now - DAY {
        assert newest in Recent(a, now);
      }
    }
  }

  lemma PartsSorted(b: seq<Event>, a: seq<Event>)
    requires Sorted(b + a)
    ensures Sorted(b) && Sorted(a) && forall x <- b, y <- a :: x.at <= y.at
  {
    forall i, j | 0 <= i < j < |b| ensures b[i].at <= b[j].at {
      assert (b + a)[i] == b[i] && (b + a)[j] == b[j];
    }
    forall i, j | 0 <= i < j < |a| ensures a[i].at <= a[j].at {
      assert (b + a)[|b| + i] == a[i] && (b + a)[|b| + j] == a[j];
    }
    forall x, y | x in b && y in a ensures x.at <= y.at {
      var i, j :| 0 <= i < |b| && b[i] == x && 0 <= j < |a| && a[j] == y;
      assert (b + a)[i] == x && (b + a)[|b| + j] == y;
    }
  }

  // ---- reload ----

  /** Reload leaves exactly the logs the new configuration calls for: survivors with
      their events, new ones empty, the rest gone. Cooldowns survive with their key. */
  lemma ReloadExact(s: State, c: Config, key: string, now: int)
    requires LogsOk(s.logs)
    ensures Consistent(Reload(s, c))
    ensures key in Reload(s, c).logs <==> key in LogKeys(c)
    ensures key in LogKeys(c) ==> Reload(s, c).logs[key] == (if key in s.logs then s.logs[key] else EMPTY)
    ensures InCooldown(Reload(s, c).blocked, key, now) <==> key in LogKeys(c) && InCooldown(s.blocked, key, now)
    ensures InCooldown(Reload(s, c).blocked, key, now) ==>
              Reload(s, c).blocked[key] == s.blocked[key] && Get(Reload(s, c).reason, key, "") == Get(s.reason, key, "")
  {
  }

  /** Reloading an unchanged configuration is not quite a no-op: the cooldown of a model
      without a quota of its own is forgotten, and nothing else about routing changes. */
  lemma ReloadForgetsModelCooldowns(s: State, p: Provider, model: string, now: int)
    requires Consistent(s) && p in s.config.providers
    requires forall o <- s.config.providers :: PlainName(o.name)
    ensures var mk := ModelKey(p.name, model);
            Routable(Reload(s, s.config), p, model, now) <==>
              && !GlobalOver(s, now) && ProviderOpen(s, p, now)
              && (ModelFree(s, p, model, now) || mk !in s.backendQuotas)
  {
    hide OverQuota, Reload;
    var mk := ModelKey(p.name, model);
    ModelKeyIsNotPlain(p.name, model);
    assert mk in LogKeys(s.config) <==> mk in s.backendQuotas;
    ReloadExact(s, s.config, p.name, now);
    ReloadExact(s, s.config, mk, now);
    ReloadSameQuotas(s, p.name, p.quota, now);
    ReloadSameQuotas(s, GLOBAL, s.config.quota, now);
    ReloadSameQuotas(s, mk, Get(s.backendQuotas, mk, NO_QUOTA), now);
  }

  lemma ReloadSameQuotas(s: State, key: string, q: Quota, now: int)
    requires Consistent(s)
    ensures var s' := Reload(s, s.config);
            && (OverQuota(s', key, q, now) <==> OverQuota(s, key, q, now))
            && s'.backendQuotas == s.backendQuotas && s'.config == s.config
  {
  }

  // ---- every run ----

  datatype Op =
    | DoPick(active: seq<Provider>, strategy: string, ord: seq<Provider>, now: int)
    | DoRecord(name: string, model: string, tokens: int, now: int)
    | DoBlock(key: string, cooldown: int, reason: string, now: int)
    | DoHealth(name: string, h: Health)
    | DoPersist(now: int)
    | DoReload(c: Config)
    | DoRestart(c: Config, now: int)

  /** The rotator and the state file beside it. */
  datatype Process = Process(s: State, file: Option<Saved>)

  /** `Persist` writes only what is marked dirty. */
  function Persist(pr: Process, now: int): Process {
    if pr.s.dirty then Process(pr.s.(dirty := false), Some(Snapshot(pr.s, now))) else pr
  }

  ghost predicate CanApply(pr: Process, op: Op) {
    match op
    case DoPick(active, strategy, ord, _) =>
      IsOrder(pr.s.rrCursor, active, strategy, ord) && forall p <- ord :: p.models != []
    case DoRecord(_, _, _, _) => LogsOk(pr.s.logs)
    case _ => true
  }

  function Apply(pr: Process, op: Op): Process
    requires CanApply(pr, op)
  {
    match op
    case DoPick(active, strategy, ord, now) => pr.(s := Pick(pr.s, active, strategy, ord, now).0)
    case DoRecord(name, model, tokens, now) => pr.(s := RecordUsage(pr.s, name, model, tokens, now))
    case DoBlock(key, cooldown, reason, now) => pr.(s := Block(pr.s, key, cooldown, reason, now))
    case DoHealth(name, h) => pr.(s := pr.s.(health := pr.s.health[name := h]))
    case DoPersist(now) => Persist(pr, now)
    case DoReload(c) => pr.(s := Reload(pr.s, c))
    case DoRestart(c, now) =>
      pr.(s := if pr.file.None? then New(c) else Restore(New(c), pr.file.value, now))
  }

  /** `after` is where the operations lead from `before`. */
  ghost predicate Leads(before: Process, ops: seq<Op>, after: Process)
    decreases |ops|
  {
    if ops == [] then after == before
    else CanApply(before, ops[0]) && Leads(Apply(before, ops[0]), ops[1..], after)
  }

  lemma ApplyKeepsConsistent(pr: Process, op: Op)
    requires Consistent(pr.s) && CanApply(pr, op)
    ensures Consistent(Apply(pr, op).s)
  {
    hide Restore, New, Load, Reload, BackendQuotas, LogKeys;
    match op
    case DoPick(active, strategy, ord, now) =>
      hide Pick, IsOrder;
      PickSavesAlike(pr.s, active, strategy, ord, now);
    case DoRecord(_, _, _, _) =>
    case DoBlock(_, _, _, _) =>
    case DoHealth(_, _) =>
    case DoPersist(_) =>
    case DoReload(c) => ReloadExact(pr.s, c, GLOBAL, 0);
    case DoRestart(c, now) =>
      NewIsConsistent(c);
      if pr.file.Some? {
        RestoreKeepsConsistent(New(c), pr.file.value, now);
      }
  }

  lemma RestoreKeepsConsistent(s: State, saved: Saved, now: int)
    requires Consistent(s)
    ensures Consistent(Restore(s, saved, now))
  {
    hide Load, LogKeys, BackendQuotas, Live;
  }

  /** Nothing that is saved changed, unless it was marked. */
  ghost predicate SavesAlike(s: State, s': State) {
    && s'.logs == s.logs && s'.config == s.config && s'.backendQuotas == s.backendQuotas
    && s'.modelTokens == s.modelTokens && s'.modelRequests == s.modelRequests
    && (!s'.dirty ==> !s.dirty && s'.blocked == s.blocked && s'.reason == s.reason)
  }

  lemma TripSavesAlike(s: State, key: string, q: Quota, now: int)
    ensures SavesAlike(s, TripQuota(s, key, q, now).0)
  {
  }

  lemma OrderOnlyTurns(s: State, active: seq<Provider>, strategy: string)
    ensures var s' := AfterOrder(s, active, strategy); s' == s.(rrCursor := s'.rrCursor)
  {
    var s' := AfterOrder(s, active, strategy);
    assert s' == s || s' == s.(rrCursor := s.rrCursor + 1);
    hide *;
  }

  lemma OrderSavesAlike(s: State, active: seq<Provider>, strategy: string, s': State)
    requires SavesAlike(AfterOrder(s, active, strategy), s')
    ensures SavesAlike(s, s')
  {
    OrderOnlyTurns(s, active, strategy);
    hide AfterOrder;
  }

  lemma PickFromSavesAlike(s: State, ord: seq<Provider>, now: int)
    requires forall p <- ord :: p.models != []
    ensures SavesAlike(s, PickFrom(s, ord, now).0)
  {
    hide PickFrom, OnlyCools;
    PickFromOnlyCools(s, ord, now);
    OnlyCoolsFrame(s, PickFrom(s, ord, now).0, now);
  }

  lemma PickSavesAlike(s: State, active: seq<Provider>, strategy: string, ord: seq<Provider>, now: int)
    requires forall p <- ord :: p.models != []
    ensures SavesAlike(s, Pick(s, active, strategy, ord, now).0)
  {
    hide PickFrom, TripQuota, SavesAlike, GlobalOver, AfterOrder;
    TripSavesAlike(s, GLOBAL, s.config.quota, now);
    PickFromSavesAlike(AfterOrder(s, active, strategy), ord, now);
    OrderSavesAlike(s, active, strategy, PickFrom(AfterOrder(s, active, strategy), ord, now).0);
  }

  /** Over every run of picks, records, blocks, saves, reloads and restarts, the logs are
      exactly the configured ones: the global log is always there to record to. */
  lemma {:induction false} RunsStayConsistent(before: Process, ops: seq<Op>, after: Process)
    requires Consistent(before.s) && Leads(before, ops, after)
    ensures Consistent(after.s) && GLOBAL in after.s.logs
    decreases |ops|
  {
    if ops != [] {
      ApplyKeepsConsistent(before, ops[0]);
      RunsStayConsistent(Apply(before, ops[0]), ops[1..], after);
    }
  }

  lemma NewIsConsistent(c: Config)
    ensures Consistent(New(c))
  {
  }

  /** So it is from construction on, for a process that starts without a state file. */
  lemma EveryProcessIsConsistent(c: Config, ops: seq<Op>, after: Process)
    requires Leads(Process(New(c), None), ops, after)
    ensures Consistent(after.s) && GLOBAL in after.s.logs
  {
    NewIsConsistent(c);
    RunsStayConsistent(Process(New(c), None), ops, after);
  }

  /** What is saved: every log slot by slot, every counter, and exactly the cooldowns still
      running, each with its reason. */
  lemma SavesWhatLives(s: State, now: int, key: string)
    ensures var saved := Snapshot(s, now);
            && saved.eventLogs.Keys == s.logs.Keys
            && (key in s.logs ==> saved.eventLogs[key] == s.logs[key].stored)
            && saved.modelTokens == s.modelTokens && saved.modelRequests == s.modelRequests
            && (key in saved.blocked <==> key in s.blocked && now < s.blocked[key])
            && (key in saved.reason <==> key in s.blocked && now < s.blocked[key])
            && (key in saved.blocked ==> saved.blocked[key] == s.blocked[key])
            && (key in saved.reason ==> saved.reason[key] == if key in s.reason then s.reason[key] else "")
  {
  }

  /** What is brought back: the saved log of every key that has one, every saved counter, and
      exactly the saved cooldowns still running, over whatever was there. */
  lemma RestoresWhatLives(s: State, saved: Saved, now: int, key: string)
    ensures var s' := Restore(s, saved, now);
            && s'.logs.Keys == s.logs.Keys && s'.config == s.config
            && (key in s.logs && key in saved.eventLogs ==> s'.logs[key] == Load(saved.eventLogs[key], now))
            && (key in s.logs && key !in saved.eventLogs ==> s'.logs[key] == s.logs[key])
            && Get(s'.modelTokens, key, 0) == Get(saved.modelTokens, key, Get(s.modelTokens, key, 0))
            && Get(s'.modelRequests, key, 0) == Get(saved.modelRequests, key, Get(s.modelRequests, key, 0))
            && (if key in saved.blocked && now < saved.blocked[key]
                then key in s'.blocked && s'.blocked[key] == saved.blocked[key]
                     && key in s'.reason && s'.reason[key] == Get(saved.reason, key, "")
                else (key in s'.blocked <==> key in s.blocked) && (key in s.blocked ==> s'.blocked[key] == s.blocked[key]))
  {
    hide Load;
  }

  // ---- the dirty mark ----

  /** Whatever changes the saved image marks it dirty, save for a reload. */
  lemma CleanMeansUnchanged(pr: Process, op: Op, t: int)
    requires CanApply(pr, op) && !op.DoReload? && !op.DoRestart? && !op.DoPersist?
    requires !Apply(pr, op).s.dirty
    ensures !pr.s.dirty && Snapshot(Apply(pr, op).s, t) == Snapshot(pr.s, t)
  {
    match op
    case DoPick(active, strategy, ord, now) => PickSavesAlike(pr.s, active, strategy, ord, now);
    case _ =>
  }

  /** What a process is after a reload to `c`, a save at `later` and a restart at `loaded`. */
  function ReloadedAndBack(pr: Process, c: Config, later: int, loaded: int): Process {
    Apply(Persist(Process(Reload(pr.s, c), pr.file), later), DoRestart(c, loaded))
  }

  /** What is cooling at `t` by the state file. */
  predicate FileCools(pr: Process, key: string, t: int) {
    pr.file.Some? && InCooldown(pr.file.value.blocked, key, t)
  }

  /** As far as the cooldown of `key` at `t` goes, a clean state is the one in the file. */
  ghost predicate FileAgrees(pr: Process, key: string, t: int) {
    !pr.s.dirty ==> (FileCools(pr, key, t) <==> InCooldown(pr.s.blocked, key, t))
  }

  /** What reaches the file, or is read from it, does so by `t`. */
  predicate FiledBy(op: Op, t: int) {
    match op
    case DoPersist(now) => now <= t
    case DoRestart(_, now) => now <= t
    case _ => true
  }

  lemma ApplyAgrees(pr: Process, op: Op, key: string, t: int)
    requires CanApply(pr, op) && !op.DoReload? && FiledBy(op, t) && FileAgrees(pr, key, t)
    ensures FileAgrees(Apply(pr, op), key, t)
  {
    match op
    case DoPick(active, strategy, ord, now) =>
      hide Pick, IsOrder;
      PickSavesAlike(pr.s, active, strategy, ord, now);
    case DoRecord(_, _, _, _) => hide PushAt;
    case DoBlock(_, _, _, _) =>
    case DoHealth(_, _) =>
    case DoPersist(_) =>
    case DoRestart(c, _) => hide Load, LogKeys, BackendQuotas;
  }

  /** Over every run without a reload, whatever was picked, recorded, cooled, saved or
      restarted in whatever order, a clean state and its file agree on every cooldown. */
  lemma {:induction false} RunsAgree(before: Process, ops: seq<Op>, after: Process, key: string, t: int)
    requires Leads(before, ops, after) && FileAgrees(before, key, t)
    requires forall op <- ops :: !op.DoReload? && FiledBy(op, t)
    ensures FileAgrees(after, key, t)
    decreases |ops|
  {
    if ops != [] {
      hide CanApply, Apply, FileAgrees;
      assert ops[0] in ops && forall op <- ops[1..] :: op in ops;
      ApplyAgrees(before, ops[0], key, t);
      RunsAgree(Apply(before, ops[0]), ops[1..], after, key, t);
    }
  }

  /** So it is from construction on. */
  lemma EveryProcessAgrees(c: Config, ops: seq<Op>, after: Process, key: string, t: int)
    requires Leads(Process(New(c), None), ops, after)
    requires forall op <- ops :: !op.DoReload? && FiledBy(op, t)
    ensures FileAgrees(after, key, t)
  {
    RunsAgree(Process(New(c), None), ops, after, key, t);
  }

  /** A reload forgets the cooldowns of keys the new configuration does not call for. That
      survives a restart exactly when something else had marked the state dirty, or there
      was nothing to forget: otherwise the file keeps the old image, and the restart
      brings the cooldown back. */
  lemma ReloadSurvivesRestartIff(pr: Process, c: Config, key: string, later: int, loaded: int, t: int)
    requires later <= loaded <= t && FileAgrees(pr, key, t)
    ensures (InCooldown(ReloadedAndBack(pr, c, later, loaded).s.blocked, key, t)
             <==> InCooldown(Reload(pr.s, c).blocked, key, t))
            <==> pr.s.dirty || key in LogKeys(c) || !InCooldown(pr.s.blocked, key, t)
  {
    hide LogKeys, Load, BackendQuotas, Reload, Restore, New;
    ReloadedCools(pr.s, c, key, t);
    if pr.s.dirty {
      var reloaded := Reload(pr.s, c);
      RestoredCools(c, Snapshot(reloaded, later), loaded, key, t);
      SnapshotCools(reloaded, later, key, t);
    } else if pr.file.Some? {
      RestoredCools(c, pr.file.value, loaded, key, t);
    } else {
      NewCools(c, key, t);
    }
  }

  lemma ReloadedCools(s: State, c: Config, key: string, t: int)
    ensures InCooldown(Reload(s, c).blocked, key, t) <==> key in LogKeys(c) && InCooldown(s.blocked, key, t)
    ensures Reload(s, c).dirty == s.dirty
  {
    hide LogKeys, BackendQuotas;
  }

  lemma RestoredCools(c: Config, saved: Saved, loaded: int, key: string, t: int)
    requires loaded <= t
    ensures InCooldown(Restore(New(c), saved, loaded).blocked, key, t) <==> InCooldown(saved.blocked, key, t)
  {
    hide LogKeys, BackendQuotas, Load;
  }

  lemma SnapshotCools(s: State, now: int, key: string, t: int)
    requires now <= t
    ensures InCooldown(Snapshot(s, now).blocked, key, t) <==> InCooldown(s.blocked, key, t)
  {
  }

  lemma NewCools(c: Config, key: string, t: int)
    ensures !InCooldown(New(c).blocked, key, t)
  {
    hide LogKeys, BackendQuotas;
  }

  /** The failing case spelled out: nothing is written after the reload, and a cooldown
      that is gone from memory is back after the restart. */
  lemma ForgottenCooldownReturns(s: State, c: Config, key: string, saved: int, later: int, loaded: int, t: int)
    requires !s.dirty && key !in LogKeys(c)
    requires saved <= loaded <= t && InCooldown(s.blocked, key, t)
    ensures var file := Some(Snapshot(s, saved));
            var reloaded := Persist(Process(Reload(s, c), file), later);
            && reloaded == Process(Reload(s, c), file)
            && !InCooldown(reloaded.s.blocked, key, t)
            && InCooldown(Apply(reloaded, DoRestart(c, loaded)).s.blocked, key, t)
  {
  }
}
