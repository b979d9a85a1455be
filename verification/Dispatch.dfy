/** One request walking the rotation until a provider answers or nothing is left to try. */
module Dispatching {
  import opened Configs
  import opened Rotation
  import opened PickLaws
  import opened Classify
  import opened Blocked

  /** What came back from one attempt. */
  datatype Reply = Transport | Http(status: int, retryAfter: int, body: Body) {
    predicate Served() { Http? && 200 <= status < 300 }
  }

  /** One attempt's clock readings and its reply. */
  datatype Turn = Turn(pickAt: int, doneAt: int, reply: Reply)

  datatype Outcome = Served(choice: Choice) | Exhausted(retryAfter: int)

  ghost predicate TurnOk(t: Turn) {
    t.pickAt <= t.doneAt && (t.reply.Http? ==> t.reply.retryAfter >= 0)
  }

  /** The cooldown a failed attempt leaves behind: which key, how long, and why. */
  datatype Penalty = Penalty(key: string, cooldown: int, reason: string)

  function PenaltyFor(c: Choice, reply: Reply): Penalty {
    match reply
    case Transport => Penalty(c.provider.name, DEFAULT_COOLDOWN, "error")
    case Http(status, retryAfter, body) =>
      var cls := ClassifyUpstream(status, body, retryAfter);
      Penalty(if cls.modelScoped then ModelKey(c.provider.name, c.model) else c.provider.name, cls.cooldown, cls.reason)
  }

  /** The state after a reply: healthy on success, else cooled, and grey on a bad key. */
  function AfterReply(s: State, c: Choice, t: Turn): State {
    if t.reply.Served() then s.(health := s.health[c.provider.name := HealthOK])
    else
      var p := PenaltyFor(c, t.reply);
      var s' := Block(s, p.key, p.cooldown, p.reason, t.doneAt);
      if t.reply.Http? && p.reason == "auth" then s'.(health := s'.health[c.provider.name := HealthAuth]) else s'
  }

  /** One attempt as it touched the state: before its pick, after it, and after its reply. */
  datatype Round = Round(before: State, ord: seq<Provider>, choice: Choice, picked: State, after: State)

  ghost predicate RoundOk(active: seq<Provider>, strategy: string, t: Turn, r: Round) {
    && IsOrder(r.before.rrCursor, active, strategy, r.ord)
    && (forall p <- r.ord :: p.models != [])
    && Pick(r.before, active, strategy, r.ord, t.pickAt) == (r.picked, Some(r.choice))
    && r.after == AfterReply(r.picked, r.choice, t)
  }

  /** The clock never steps back over the attempts. */
  ghost predicate Chronological(turns: seq<Turn>) {
    && (forall i :: 0 <= i < |turns| ==> TurnOk(turns[i]))
    && (forall i, j :: 0 <= i < j < |turns| ==> turns[i].doneAt <= turns[j].pickAt)
  }

  /** Every attempt but the last failed. Other requests may have changed the rotator
      between two attempts. */
  ghost predicate IsTrace(active: seq<Provider>, strategy: string, turns: seq<Turn>, trace: seq<Round>) {
    && |trace| <= |active| && |trace| <= |turns|
    && Chronological(turns)
    && (forall i :: 0 <= i < |trace| ==> RoundOk(active, strategy, turns[i], trace[i]))
    && (forall i :: 0 <= i < |trace| - 1 ==> !turns[i].reply.Served())
  }

  ghost predicate Linked(trace: seq<Round>, i: nat)
    requires 0 < i < |trace|
  {
    trace[i].before == trace[i - 1].after
  }

  /** Nobody else touched the rotator between the attempts. */
  ghost predicate Undisturbed(trace: seq<Round>) {
    forall i :: 0 < i < |trace| ==> Linked(trace, i)
  }

  /** How a dispatch that started in `s` and ended in `s'` came to its outcome. */
  ghost predicate IsDispatch(s: State, active: seq<Provider>, strategy: string, turns: seq<Turn>, endAt: int,
                             trace: seq<Round>, out: Outcome, s': State)
  {
    var n := |trace|;
    var last := if n == 0 then s else trace[n - 1].after;
    && IsTrace(active, strategy, turns, trace) && Undisturbed(trace)
    && (n > 0 ==> trace[0].before == s)
    && match out
       case Served(c) => n > 0 && turns[n - 1].reply.Served() && c == trace[n - 1].choice && s' == last
       case Exhausted(wait) =>
         && (n > 0 ==> !turns[n - 1].reply.Served())
         && (if n == |active| then s' == last
             else n < |turns| && GaveUp(last, active, strategy, turns[n].pickAt, s'))
         && wait == if n == 0 then Soonest(s', active, endAt) else 0
  }

  ghost predicate GaveUp(s: State, active: seq<Provider>, strategy: string, now: int, s': State) {
    exists ord: seq<Provider> ::
      IsOrder(s.rrCursor, active, strategy, ord) && (forall p <- ord :: p.models != [])
      && Pick(s, active, strategy, ord, now) == (s', None)
  }

  // ---- what a failed attempt leaves behind ----

  function KeyOf(r: Round, t: Turn): string {
    PenaltyFor(r.choice, t.reply).key
  }

  /** Every failure path cools, for a strictly positive time, a key the next pick of that
      provider and model consults. */
  lemma FailureCools(active: seq<Provider>, strategy: string, t: Turn, r: Round)
    requires TurnOk(t) && RoundOk(active, strategy, t, r) && !t.reply.Served()
    ensures var p := PenaltyFor(r.choice, t.reply);
            && p.cooldown > 0
            && (p.key == r.choice.provider.name || p.key == ModelKey(r.choice.provider.name, r.choice.model))
            && InCooldown(r.after.blocked, p.key, t.doneAt)
            && r.after.blocked[p.key] == t.doneAt + p.cooldown
  {
    if t.reply.Http? {
      EveryFailureCools(t.reply.status, t.reply.body, t.reply.retryAfter);
    }
  }

  /** While the cooldowns an earlier attempt set still stand when a later pick is made, the
      later one is for another model, and, after a provider-wide failure, for another
      provider. */
  lemma NeverTheSameTwice(active: seq<Provider>, strategy: string, turns: seq<Turn>, trace: seq<Round>, i: nat, j: nat)
    requires IsTrace(active, strategy, turns, trace) && i < j < |trace|
    requires InCooldown(trace[j].before.blocked, KeyOf(trace[i], turns[i]), turns[j].pickAt)
    ensures var a, b := trace[i].choice, trace[j].choice;
            && (a.provider.name, a.model) != (b.provider.name, b.model)
            && (KeyOf(trace[i], turns[i]) == a.provider.name ==> a.provider.name != b.provider.name)
  {
    assert RoundOk(active, strategy, turns[i], trace[i]) && RoundOk(active, strategy, turns[j], trace[j]);
    PickSound(trace[j].before, active, strategy, trace[j].ord, turns[j].pickAt);
    FailureCools(active, strategy, turns[i], trace[i]);
  }

  lemma BlockDoes(s: State, key: string, d: int, reason: string, now: int)
    ensures var s' := Block(s, key, d, reason, now);
            && s'.blocked == s.blocked[key := now + d] && s'.reason == s.reason[key := reason]
            && s'.health == s.health && s'.logs == s.logs && s'.modelIdx == s.modelIdx
  {
  }

  lemma PenaltyIs(c: Choice, reply: Reply)
    ensures var p := PenaltyFor(c, reply);
            match reply
            case Transport => p == Penalty(c.provider.name, 60_000_000_000, "error")
            case Http(status, retryAfter, body) =>
              var cls := ClassifyUpstream(status, body, retryAfter);
              p == Penalty(if cls.modelScoped then c.provider.name + "/" + c.model else c.provider.name,
                           cls.cooldown, cls.reason)
  {
    hide ClassifyUpstream;
  }

  lemma ServedIs(reply: Reply)
    ensures reply.Served() <==> reply.Http? && 200 <= reply.status <= 299
  {
  }

  /** What a reply does to the rotator: a 2xx marks the provider healthy and cools nothing;
      a failure to reach it cools the provider for a minute; any other status cools, for as
      long as it is classed, the provider, or the model alone; a bad key marks it so. */
  lemma ReplyDoes(s: State, c: Choice, t: Turn)
    ensures var s', name := AfterReply(s, c, t), c.provider.name;
            match t.reply
            case Transport =>
              && s'.blocked == s.blocked[name := t.doneAt + 60_000_000_000]
              && s'.reason == s.reason[name := "error"] && s'.health == s.health
            case Http(status, retryAfter, body) =>
              if 200 <= status <= 299 then
                s'.blocked == s.blocked && s'.reason == s.reason && s'.health == s.health[name := HealthOK]
              else
                var cls := ClassifyUpstream(status, body, retryAfter);
                var key := if cls.modelScoped then name + "/" + c.model else name;
                && s'.blocked == s.blocked[key := t.doneAt + cls.cooldown]
                && s'.reason == s.reason[key := cls.reason]
                && s'.health == if cls.reason == "auth" then s.health[name := HealthAuth] else s.health
    ensures AfterReply(s, c, t).logs == s.logs && AfterReply(s, c, t).modelIdx == s.modelIdx
  {
    hide ClassifyUpstream, PenaltyFor, AfterReply, Reply.Served;
    ServedIs(t.reply);
    PenaltyIs(c, t.reply);
    if t.reply.Served() {
      SuccessDoes(s, c, t);
    } else {
      FailureDoes(s, c, t);
    }
  }

  lemma SuccessDoes(s: State, c: Choice, t: Turn)
    requires t.reply.Served()
    ensures AfterReply(s, c, t) == s.(health := s.health[c.provider.name := HealthOK])
  {
    hide Block, PenaltyFor;
  }

  lemma FailureDoes(s: State, c: Choice, t: Turn)
    requires !t.reply.Served()
    ensures var s', p := AfterReply(s, c, t), PenaltyFor(c, t.reply);
            && s'.blocked == s.blocked[p.key := t.doneAt + p.cooldown] && s'.reason == s.reason[p.key := p.reason]
            && s'.health == (if t.reply.Http? && p.reason == "auth" then s.health[c.provider.name := HealthAuth] else s.health)
            && s'.logs == s.logs && s'.modelIdx == s.modelIdx
  {
    hide Block, PenaltyFor;
    var p := PenaltyFor(c, t.reply);
    BlockDoes(s, p.key, p.cooldown, p.reason, t.doneAt);
  }

  lemma PenaltyKey(c: Choice, reply: Reply)
    ensures PenaltyFor(c, reply).key in {c.provider.name, ModelKey(c.provider.name, c.model)}
  {
    hide ClassifyUpstream, ModelKey;
  }

  lemma ReplySpares(s: State, c: Choice, t: Turn, key: string)
    requires key in s.blocked && key != c.provider.name && key != ModelKey(c.provider.name, c.model)
    ensures var s' := AfterReply(s, c, t);
            key in s'.blocked && s'.blocked[key] == s.blocked[key]
  {
    hide PenaltyFor, ModelKey;
    PenaltyKey(c, t.reply);
    var p := PenaltyFor(c, t.reply);
    assert Block(s, p.key, p.cooldown, p.reason, t.doneAt).blocked == s.blocked[p.key := t.doneAt + p.cooldown];
    hide Block;
  }

  /** Between its own attempts a dispatch keeps the cooldowns it has set. */
  lemma RoundKeeps(active: seq<Provider>, strategy: string, t: Turn, r: Round, key: string, until: int)
    requires RoundOk(active, strategy, t, r)
    requires key in r.before.blocked && r.before.blocked[key] == until && t.pickAt < until
    requires key != GLOBAL
    ensures key in r.after.blocked && r.after.blocked[key] == until
  {
    hide Pick, IsOrder, AfterReply, OverQuota, GlobalOver, OnlyCools, ModelKey;
    PickSound(r.before, active, strategy, r.ord, t.pickAt);
    PickStands(r.before, active, strategy, r.ord, t.pickAt);
    assert InCooldown(r.before.blocked, key, t.pickAt);
    assert r.picked.blocked[key] == until;
    ReplySpares(r.picked, r.choice, t, key);
  }

  ghost predicate Outlasts(turns: seq<Turn>, trace: seq<Round>, i: nat, j: nat)
    requires i < j < |trace| <= |turns|
  {
    turns[j].pickAt < turns[i].doneAt + PenaltyFor(trace[i].choice, turns[i].reply).cooldown
  }

  lemma KeyIsNotGlobal(active: seq<Provider>, strategy: string, t: Turn, r: Round)
    requires RoundOk(active, strategy, t, r) && forall p <- active :: p.name != GLOBAL
    ensures KeyOf(r, t) != GLOBAL
  {
    hide Pick, IsOrder, ClassifyUpstream;
    PickSound(r.before, active, strategy, r.ord, t.pickAt);
    ModelKeyIsNotPlain(r.choice.provider.name, r.choice.model);
  }

  lemma {:induction false} CooldownLasts(active: seq<Provider>, strategy: string, turns: seq<Turn>, trace: seq<Round>, i: nat, j: nat)
    requires IsTrace(active, strategy, turns, trace) && Undisturbed(trace) && i < j < |trace|
    requires forall p <- active :: p.name != GLOBAL
    requires Outlasts(turns, trace, i, j)
    ensures Get(trace[j].before.blocked, KeyOf(trace[i], turns[i]), 0) ==
            turns[i].doneAt + PenaltyFor(trace[i].choice, turns[i].reply).cooldown
    ensures InCooldown(trace[j].before.blocked, KeyOf(trace[i], turns[i]), turns[j].pickAt)
  {
    hide RoundOk, PenaltyFor, Linked;
    var key := KeyOf(trace[i], turns[i]);
    var until := turns[i].doneAt + PenaltyFor(trace[i].choice, turns[i].reply).cooldown;
    assert RoundOk(active, strategy, turns[i], trace[i]) && TurnOk(turns[i]);
    FailureCools(active, strategy, turns[i], trace[i]);
    LinkedAt(trace, j);
    if j > i + 1 {
      assert turns[j - 1].pickAt <= turns[j - 1].doneAt <= turns[j].pickAt;
      CooldownLasts(active, strategy, turns, trace, i, j - 1);
      KeyIsNotGlobal(active, strategy, turns[i], trace[i]);
      assert RoundOk(active, strategy, turns[j - 1], trace[j - 1]);
      RoundKeeps(active, strategy, turns[j - 1], trace[j - 1], key, until);
    }
  }

  lemma LinkedAt(trace: seq<Round>, j: nat)
    requires Undisturbed(trace) && 0 < j < |trace|
    ensures trace[j].before == trace[j - 1].after
  {
    assert Linked(trace, j);
  }

  /** One dispatch makes at most one attempt per candidate. Two of its attempts are for
      different models, and after a provider-wide failure for different providers, unless
      the cooldown the first one set had already run out by the second one's pick. */
  lemma DispatchNeverRepeats(s: State, active: seq<Provider>, strategy: string, turns: seq<Turn>, endAt: int,
                             trace: seq<Round>, out: Outcome, s': State, i: nat, j: nat)
    requires IsDispatch(s, active, strategy, turns, endAt, trace, out, s')
    requires forall p <- active :: p.name != GLOBAL
    requires i < j < |trace|
    ensures |trace| <= |active|
    ensures var a, b := trace[i].choice, trace[j].choice;
            Outlasts(turns, trace, i, j) ==>
              && (a.provider.name, a.model) != (b.provider.name, b.model)
              && (KeyOf(trace[i], turns[i]) == a.provider.name ==> a.provider.name != b.provider.name)
  {
    if Outlasts(turns, trace, i, j) {
      CooldownLasts(active, strategy, turns, trace, i, j);
      NeverTheSameTwice(active, strategy, turns, trace, i, j);
    }
  }

  /** A served request was routable when picked, and a wait is advertised only when
      nothing was attempted. */
  lemma DispatchOutcome(s: State, active: seq<Provider>, strategy: string, turns: seq<Turn>, endAt: int,
                        trace: seq<Round>, out: Outcome, s': State)
    requires IsDispatch(s, active, strategy, turns, endAt, trace, out, s')
    ensures out.Served? ==>
              var n := |trace| - 1;
              && n >= 0 && out.choice.provider in active && out.choice.model in out.choice.provider.models
              && Routable(trace[n].before, out.choice.provider, out.choice.model, turns[n].pickAt)
    ensures out.Exhausted? && out.retryAfter != 0 ==> trace == [] && out.retryAfter == Soonest(s', active, endAt)
  {
    hide IsTrace, Undisturbed, GaveUp, Soonest, Routable, RoundOk, AfterReply;
    if out.Served? {
      var n := |trace| - 1;
      LastRound(active, strategy, turns, trace);
      RoundIsRoutable(active, strategy, turns[n], trace[n]);
    }
  }

  /** Some pick at `now` tries the candidates and finds none. */
  ghost predicate FindsNothing(s: State, active: seq<Provider>, strategy: string, now: int) {
    exists ord: seq<Provider> :: Tries(s, active, strategy, ord) && PickFails(s, active, strategy, ord, now)
  }

  /** A dispatch gives up only when as many attempts as there are candidates have failed, or
      when, after the last of them, a pick finds nothing. */
  lemma DispatchPersists(s: State, active: seq<Provider>, strategy: string, turns: seq<Turn>, endAt: int,
                         trace: seq<Round>, out: Outcome, s': State)
    requires IsDispatch(s, active, strategy, turns, endAt, trace, out, s') && out.Exhausted?
    ensures |trace| <= |turns| && forall i :: 0 <= i < |trace| ==> !turns[i].reply.Served()
    ensures |trace| < |active| ==>
              && |trace| < |turns|
              && FindsNothing(if trace == [] then s else trace[|trace| - 1].after, active, strategy, turns[|trace|].pickAt)
    ensures trace != [] ==> out.retryAfter == 0
  {
    hide Pick, IsOrder, Soonest, RoundOk, Undisturbed;
    var n := |trace|;
    if n < |active| {
      var last := if n == 0 then s else trace[n - 1].after;
      assert GaveUp(last, active, strategy, turns[n].pickAt, s');
      var ord: seq<Provider> :|
        IsOrder(last.rrCursor, active, strategy, ord) && (forall p <- ord :: p.models != [])
        && Pick(last, active, strategy, ord, turns[n].pickAt) == (s', None);
      assert Tries(last, active, strategy, ord) && PickFails(last, active, strategy, ord, turns[n].pickAt);
    }
  }

  /** A request refused without an attempt, summed up at the instant of its one pick, is
      told how long to wait. */
  lemma RefusedIsToldToWait(s: State, active: seq<Provider>, strategy: string, turns: seq<Turn>, endAt: int,
                            trace: seq<Round>, out: Outcome, s': State)
    requires IsDispatch(s, active, strategy, turns, endAt, trace, out, s')
    requires active != [] && out.Exhausted? && trace == []
    ensures |turns| > 0 && (endAt == turns[0].pickAt ==> out.retryAfter > 0)
  {
    hide Pick, IsOrder, Soonest, IsTrace, Undisturbed;
    var ord: seq<Provider> :|
      IsOrder(s.rrCursor, active, strategy, ord) && (forall p <- ord :: p.models != [])
      && Pick(s, active, strategy, ord, turns[0].pickAt) == (s', None);
    RefusalHasAWait(s, active, strategy, ord, turns[0].pickAt);
  }

  lemma LastRound(active: seq<Provider>, strategy: string, turns: seq<Turn>, trace: seq<Round>)
    requires IsTrace(active, strategy, turns, trace) && trace != []
    ensures |trace| <= |turns| && RoundOk(active, strategy, turns[|trace| - 1], trace[|trace| - 1])
  {
    hide RoundOk, Chronological;
  }

  lemma RoundIsRoutable(active: seq<Provider>, strategy: string, t: Turn, r: Round)
    requires RoundOk(active, strategy, t, r)
    ensures r.choice.provider in active && r.choice.model in r.choice.provider.models
    ensures Routable(r.before, r.choice.provider, r.choice.model, t.pickAt)
  {
    hide Pick, IsOrder, AfterReply, Routable, OnlyCools;
    PickSound(r.before, active, strategy, r.ord, t.pickAt);
  }
}
