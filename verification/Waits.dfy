/** The advertised wait against everything other requests may do before it is over. */
module Waits {
  import opened Window
  import opened Rings
  import opened Quotas
  import opened Configs
  import opened Rotation
  import opened Blocked
  import opened Lifecycle

  /** `op` happens at or after `now` and not after `t`, and cuts no cooldown short that
      reaches past `t`. A failing request overwrites the cooldown of its key, so it may
      shorten one; reloads and restarts are not part of a wait. */
  ghost predicate Spares(s: State, op: Op, now: int, t: int) {
    match op
    case DoPick(_, _, _, at) => now <= at <= t
    case DoRecord(name, _, tokens, at) => now <= at <= t && tokens >= 0 && name != GLOBAL
    case DoBlock(key, cooldown, _, at) => now <= at <= t && (t < at + cooldown || !InCooldown(s.blocked, key, t))
    case DoHealth(_, _) => true
    case DoPersist(_) => true
    case DoReload(_) => false
    case DoRestart(_, _) => false
  }

  /** The time after `op`, when it was `now` before. */
  function Then(op: Op, now: int): int {
    match op
    case DoPick(_, _, _, at) => at
    case DoRecord(_, _, _, at) => at
    case DoBlock(_, _, _, at) => at
    case _ => now
  }

  /** The operations lead from `before` to `after`, in time order between `now` and `t`. */
  ghost predicate Passes(before: Process, ops: seq<Op>, after: Process, now: int, t: int)
    decreases |ops|
  {
    if ops == [] then after == before && now <= t
    else
      && CanApply(before, ops[0]) && Spares(before.s, ops[0], now, t)
      && Passes(Apply(before, ops[0]), ops[1..], after, Then(ops[0], now), t)
  }

  /** A failure overwrites the cooldown of its key, so it keeps the wait exactly when it
      cools past the end of it, or the key was not cooling that long. */
  lemma BlockOutlivesIff(s: State, key: string, d: int, reason: string, at: int, t: int)
    requires key != GLOBAL
    ensures Outlives(s, Block(s, key, d, reason, at), t) <==> t < at + d || !InCooldown(s.blocked, key, t)
  {
    var s' := Block(s, key, d, reason, at);
    assert InCooldown(s'.blocked, key, t) <==> t < at + d;
  }

  lemma ApplyOutlives(pr: Process, op: Op, now: int, t: int)
    requires CanApply(pr, op) && Spares(pr.s, op, now, t)
    ensures Outlives(pr.s, Apply(pr, op).s, t)
  {
    match op
    case DoPick(active, strategy, ord, at) =>
      hide Pick, IsOrder;
      PickStands(pr.s, active, strategy, ord, at);
    case _ =>
      hide PushAt, Snapshot;
  }

  lemma {:induction false} PassesOutlives(before: Process, ops: seq<Op>, after: Process, now: int, t: int)
    requires Passes(before, ops, after, now, t)
    ensures Outlives(before.s, after.s, t)
    decreases |ops|
  {
    if ops != [] {
      hide CanApply, Apply, Spares, InCooldown;
      ApplyOutlives(before, ops[0], now, t);
      PassesOutlives(Apply(before, ops[0]), ops[1..], after, Then(ops[0], now), t);
    }
  }

  /** Retry-After is sound over every run: once every candidate is shut, however other
      requests are picked, recorded or cooled meanwhile, no pick before the advertised
      instant succeeds, so long as none of them cuts a cooldown short. */
  lemma NoPickWhileShut(before: Process, ops: seq<Op>, after: Process, active: seq<Provider>, strategy: string,
                        ord: seq<Provider>, now: int, t: int)
    requires AllShut(before.s, active, now) && !InCooldown(before.s.blocked, GLOBAL, now)
    requires now <= t < now + Soonest(before.s, active, now)
    requires Passes(before, ops, after, now, t)
    requires forall p <- active :: p.name != GLOBAL
    requires Tries(after.s, active, strategy, ord)
    ensures PickFails(after.s, active, strategy, ord, t)
  {
    PassesOutlives(before, ops, after, now, t);
    NoPickBeforeSoonest(before.s, after.s, active, strategy, ord, now, t);
  }

  // ---- the global wait ----

  function ServedBy(op: Op): seq<Event> {
    match op
    case DoRecord(_, _, tokens, at) => [Event(at, tokens)]
    case _ => []
  }

  /** Everything the operations record. */
  function Served(ops: seq<Op>): seq<Event> {
    if ops == [] then [] else ServedBy(ops[0]) + Served(ops[1..])
  }

  /** The global log holds what it can of `h`, under the configuration `c`. */
  ghost predicate Logs(s: State, c: Config, h: seq<Event>) {
    LogsOk(s.logs) && s.config == c && Refines(s.logs[GLOBAL], h)
  }

  lemma RecordLogs(s: State, c: Config, h: seq<Event>, name: string, model: string, tokens: int, at: int)
    requires Logs(s, c, h) && name != GLOBAL
    ensures Logs(RecordUsage(s, name, model, tokens, at), c, h + [Event(at, tokens)])
  {
    hide Refines, Push;
    ModelKeyIsNotPlain(name, model);
    PushRefines(s.logs[GLOBAL], h, Event(at, tokens));
  }

  lemma ApplyLogs(pr: Process, c: Config, h: seq<Event>, op: Op, now: int, t: int)
    requires CanApply(pr, op) && Spares(pr.s, op, now, t) && Logs(pr.s, c, h)
    ensures Logs(Apply(pr, op).s, c, h + ServedBy(op))
  {
    hide Refines;
    match op
    case DoPick(active, strategy, ord, at) =>
      hide Pick, IsOrder;
      PickSavesAlike(pr.s, active, strategy, ord, at);
      assert h + [] == h;
    case DoRecord(name, model, tokens, at) => RecordLogs(pr.s, c, h, name, model, tokens, at);
    case DoBlock(_, _, _, _) => assert h + [] == h;
    case DoHealth(_, _) => assert h + [] == h;
    case DoPersist(_) =>
      hide Snapshot;
      assert h + [] == h;
    case DoReload(_) =>
    case DoRestart(_, _) =>
  }

  lemma {:induction false} PassesLogs(before: Process, c: Config, h: seq<Event>, ops: seq<Op>, after: Process, now: int, t: int)
    requires Passes(before, ops, after, now, t) && Logs(before.s, c, h)
    ensures Logs(after.s, c, h + Served(ops))
    decreases |ops|
  {
    hide CanApply, Apply, Spares, Logs, ServedBy, Then;
    if ops == [] {
      assert h + Served(ops) == h;
    } else {
      var one, rest := ServedBy(ops[0]), Served(ops[1..]);
      ApplyLogs(before, c, h, ops[0], now, t);
      PassesLogs(Apply(before, ops[0]), c, h + one, ops[1..], after, Then(ops[0], now), t);
      assert h + Served(ops) == h + one + rest;
    }
  }

  lemma {:induction false} ServedInOrder(before: Process, ops: seq<Op>, after: Process, now: int, t: int)
    requires Passes(before, ops, after, now, t)
    ensures Sorted(Served(ops)) && NonNegative(Served(ops))
    ensures forall e <- Served(ops) :: now <= e.at
    decreases |ops|
  {
    if ops != [] {
      hide CanApply, Apply;
      ServedInOrder(Apply(before, ops[0]), ops[1..], after, Then(ops[0], now), t);
      ThenIsLater(before.s, ops[0], now, t);
    }
  }

  lemma ThenIsLater(s: State, op: Op, now: int, t: int)
    requires Spares(s, op, now, t)
    ensures now <= Then(op, now)
    ensures forall e <- ServedBy(op) :: e.at == Then(op, now) && e.tokens >= 0
  {
  }

  lemma AppendedInOrder(h: seq<Event>, es: seq<Event>, now: int)
    requires Sorted(h) && Sorted(es) && NonNegative(h) && NonNegative(es)
    requires (forall e <- h :: e.at <= now) && (forall e <- es :: now <= e.at)
    ensures Sorted(h + es) && NonNegative(h + es)
  {
    forall i, j | 0 <= i < j < |h + es| ensures (h + es)[i].at <= (h + es)[j].at {
      if i < |h| <= j {
        assert h[i] in h && es[j - |h|] in es;
      }
    }
  }

  /** Recording more never lifts a limit before its window moves on, unless the ring loses
      tokens the window still counts. */
  lemma MoreStaysReached(r: Ring, h: seq<Event>, r': Ring, es: seq<Event>, q: Quota, l: Limit, t: int)
    requires Refines(r, h) && Refines(r', h + es) && Sorted(h) && Sorted(h + es)
    requires NonNegative(h) && NonNegative(es) && l.Reached(r.stored, q, t)
    requires l.CountsRequests() || Tokens(Lost(h + es), t - l.Span()) == 0
    ensures l.Reached(r'.stored, q, t)
  {
    hide Refines, Count, Tokens, Lost;
    var cutoff := t - l.Span();
    RingMeasures(r, h, cutoff);
    RingMeasures(r', h + es, cutoff);
    CountConcat(h, es, cutoff);
    TokenLimits(es, cutoff);
  }

  /** The ring has not lost tokens that a reached token limit still counts at `t`. */
  ghost predicate KeepsTokens(r: Ring, h: seq<Event>, q: Quota, since: int, t: int) {
    forall l: Limit :: l.Reached(r.stored, q, since) && !l.CountsRequests() ==> Tokens(Lost(h), t - l.Span()) == 0
  }

  lemma StillTrips(r: Ring, h: seq<Event>, r': Ring, es: seq<Event>, q: Quota, since: int, t: int)
    requires Refines(r, h) && Refines(r', h + es) && Sorted(h) && Sorted(h + es)
    requires NonNegative(h) && NonNegative(es)
    requires 0 <= since <= t < Check(r.stored, q, since)
    requires KeepsTokens(r, h + es, q, since, t)
    ensures Trips(r'.stored, q, t) && q != NO_QUOTA
  {
    hide Refines, Check, Lost;
    CheckIsMaximum(r.stored, q, since);
    var l: Limit :| l.Reached(r.stored, q, since) && Check(r.stored, q, since) == l.Release(r.stored, since);
    WindowFrozen(r.stored, l, since, t);
    MoreStaysReached(r, h, r', es, q, l, t);
    CheckExact(r'.stored, q, t);
  }

  /** The global wait is sound over every run too. A pick at `since` cooled the global key
      for as long as its log called for; until then every pick fails, whatever is recorded
      meanwhile, as long as the ring keeps the tokens a reached token limit counts. */
  lemma NoPickBeforeGlobal(before: Process, h: seq<Event>, ops: seq<Op>, after: Process, active: seq<Provider>,
                           strategy: string, ord: seq<Provider>, since: int, t: int)
    requires Logs(before.s, before.s.config, h) && Sorted(h) && NonNegative(h)
    requires 0 <= since <= t && forall e <- h :: e.at <= since
    requires GLOBAL in before.s.blocked && t < before.s.blocked[GLOBAL]
    requires before.s.blocked[GLOBAL] == Check(before.s.logs[GLOBAL].stored, before.s.config.quota, since)
    requires Passes(before, ops, after, since, t)
    requires KeepsTokens(before.s.logs[GLOBAL], h + Served(ops), before.s.config.quota, since, t)
    requires Tries(after.s, active, strategy, ord)
    ensures PickFails(after.s, active, strategy, ord, t)
  {
    hide Passes, Check, Refines, KeepsTokens, Sorted;
    PassesLogs(before, before.s.config, h, ops, after, since, t);
    ServedInOrder(before, ops, after, since, t);
    AppendedInOrder(h, Served(ops), since);
    StillTrips(before.s.logs[GLOBAL], h, after.s.logs[GLOBAL], Served(ops), before.s.config.quota, since, t);
  }
}
