/** What `pick` promises: it returns the first routable candidate, disturbs nothing else,
    and its model cursor starves nobody. */
module PickLaws {
  import opened Window
  import opened Quotas
  import opened Configs
  import opened Rotation
  import opened Cyclic

  predicate ProviderOpen(s: State, p: Provider, now: int) {
    !InCooldown(s.blocked, p.name, now) && !OverQuota(s, p.name, p.quota, now)
  }

  predicate ModelFree(s: State, p: Provider, model: string, now: int) {
    var mk := ModelKey(p.name, model);
    && !InCooldown(s.blocked, mk, now)
    && (mk in s.backendQuotas ==> !OverQuota(s, mk, s.backendQuotas[mk], now))
  }

  /** A request may be sent to this model of this provider at `now`. */
  predicate Routable(s: State, p: Provider, model: string, now: int) {
    !GlobalOver(s, now) && ProviderOpen(s, p, now) && ModelFree(s, p, model, now)
  }

  /** The candidate yields its next model. */
  predicate Ready(s: State, p: Provider, now: int)
    requires p.models != []
  {
    ProviderOpen(s, p, now) && ModelFree(s, p, NextModel(s, p), now)
  }

  function FirstReady(s: State, ord: seq<Provider>, now: int): Option<Choice>
    requires forall p <- ord :: p.models != []
  {
    if ord == [] then None
    else if Ready(s, ord[0], now) then Some(Choice(ord[0], NextModel(s, ord[0])))
    else FirstReady(s, ord[1..], now)
  }

  /** Nothing but cursors and expired cooldowns moves between `s` and `s'`. */
  ghost predicate OnlyCools(s: State, s': State, now: int) {
    && s' == s.(modelIdx := s'.modelIdx, blocked := s'.blocked, reason := s'.reason, dirty := s'.dirty)
    && (s.dirty ==> s'.dirty)
    && (!s'.dirty ==> s'.blocked == s.blocked && s'.reason == s.reason)
    && (forall k :: InCooldown(s.blocked, k, now) ==>
          k in s'.blocked && s'.blocked[k] == s.blocked[k] && Get(s'.reason, k, "") == Get(s.reason, k, ""))
    && (forall k <- s.blocked :: k in s'.blocked)
    && (forall k :: InCooldown(s'.blocked, k, now) && !InCooldown(s.blocked, k, now) ==>
          s'.dirty && k in s.logs && k in s'.reason && s'.reason[k] == "limit")
    && (forall k :: !InCooldown(s'.blocked, k, now) ==>
          (k in s'.blocked <==> k in s.blocked) && (k in s.blocked ==> s'.blocked[k] == s.blocked[k]))
  }

  lemma OnlyCoolsFrame(s: State, s': State, now: int)
    requires OnlyCools(s, s', now)
    ensures s'.logs == s.logs && s'.config == s.config && s'.backendQuotas == s.backendQuotas
    ensures s'.modelTokens == s.modelTokens && s'.modelRequests == s.modelRequests
    ensures !s'.dirty ==> !s.dirty && s'.blocked == s.blocked && s'.reason == s.reason
  {
  }

  lemma ModelKeyLonger(name: string, model: string)
    ensures ModelKey(name, model) != name
  {
  }

  lemma TripOnlyCools(s: State, key: string, q: Quota, now: int)
    requires !InCooldown(s.blocked, key, now)
    ensures OnlyCools(s, TripQuota(s, key, q, now).0, now)
    ensures TripQuota(s, key, q, now).1 <==> OverQuota(s, key, q, now)
    ensures InCooldown(TripQuota(s, key, q, now).0.blocked, key, now) <==> OverQuota(s, key, q, now)
    ensures forall k :: k != key ==>
              (InCooldown(TripQuota(s, key, q, now).0.blocked, k, now) <==> InCooldown(s.blocked, k, now))
  {
  }

  lemma OnlyCoolsTransitive(a: State, b: State, c: State, now: int)
    requires OnlyCools(a, b, now) && OnlyCools(b, c, now)
    ensures OnlyCools(a, c, now)
  {
  }

  /** One examination: exact result and exact cursor; cooldowns only where a log is over. */
  lemma ExamineExact(s: State, p: Provider, now: int)
    requires p.models != []
    ensures var (s', c) := Examine(s, p, now);
            && OnlyCools(s, s', now)
            && c == (if Ready(s, p, now) then Some(Choice(p, NextModel(s, p))) else None)
            && s'.modelIdx == (if InCooldown(s.blocked, p.name, now) then s.modelIdx
                               else s.modelIdx[p.name := NextIndex(s, p)])
            && (forall k :: k != p.name && k != ModelKey(p.name, NextModel(s, p)) ==>
                  (InCooldown(s'.blocked, k, now) <==> InCooldown(s.blocked, k, now)))
  {
    hide Trips, Check;
    if !InCooldown(s.blocked, p.name, now) {
      var model := NextModel(s, p);
      var mk := ModelKey(p.name, model);
      ModelKeyLonger(p.name, model);
      var s1 := s.(modelIdx := s.modelIdx[p.name := NextIndex(s, p)]);
      assert OnlyCools(s, s1, now);
      TripOnlyCools(s1, p.name, p.quota, now);
      var s2 := TripQuota(s1, p.name, p.quota, now).0;
      OnlyCoolsTransitive(s, s1, s2, now);
      if !OverQuota(s, p.name, p.quota, now) && !InCooldown(s.blocked, mk, now) && mk in s.backendQuotas {
        TripOnlyCools(s2, mk, s2.backendQuotas[mk], now);
        OnlyCoolsTransitive(s, s2, TripQuota(s2, mk, s2.backendQuotas[mk], now).0, now);
      }
    }
  }

  /** A cooldown `pick` newly sets lies on an exhausted log, so it closes nothing that was open. */
  lemma ExamineClosesNothing(s: State, p: Provider, now: int, m: string)
    requires p.models != [] && ProviderOpen(s, p, now)
    ensures ProviderOpen(Examine(s, p, now).0, p, now)
    ensures ModelFree(Examine(s, p, now).0, p, m, now) <==> ModelFree(s, p, m, now)
  {
    hide Trips, Check;
    ModelKeyLonger(p.name, m);
    ModelKeyLonger(p.name, NextModel(s, p));
  }

  lemma {:induction false} PickFromOnlyCools(s: State, ord: seq<Provider>, now: int)
    requires forall p <- ord :: p.models != []
    ensures OnlyCools(s, PickFrom(s, ord, now).0, now)
    decreases |ord|
  {
    if ord != [] {
      ExamineExact(s, ord[0], now);
      var (s', c) := Examine(s, ord[0], now);
      if c.None? {
        PickFromOnlyCools(s', ord[1..], now);
        OnlyCoolsTransitive(s, s', PickFrom(s', ord[1..], now).0, now);
      }
    }
  }

  /** Whatever is returned was routable when `pick` was called: no name is assumed plain,
      no provider unique. */
  lemma {:induction false} PickFromSound(s: State, ord: seq<Provider>, now: int)
    requires forall p <- ord :: p.models != []
    ensures PickFrom(s, ord, now).1.Some? ==>
              var c := PickFrom(s, ord, now).1.value;
              && c.provider in ord && c.model in c.provider.models
              && ProviderOpen(s, c.provider, now) && ModelFree(s, c.provider, c.model, now)
    decreases |ord|
  {
    if ord != [] {
      ExamineExact(s, ord[0], now);
      var (s', c) := Examine(s, ord[0], now);
      if c.None? {
        PickFromSound(s', ord[1..], now);
      }
    }
  }

  /** Everything `pick` returns is routable at that instant, and it is one of the candidates. */
  lemma PickSound(s: State, active: seq<Provider>, strategy: string, ord: seq<Provider>, now: int)
    requires forall p <- ord :: p.models != []
    requires IsOrder(s.rrCursor, active, strategy, ord)
    ensures OnlyCoolsButGlobal(s, AfterPickCursor(s, active, strategy, now), Pick(s, active, strategy, ord, now).0, now)
    ensures Pick(s, active, strategy, ord, now).1.Some? ==>
              var c := Pick(s, active, strategy, ord, now).1.value;
              c.provider in active && c.model in c.provider.models && Routable(s, c.provider, c.model, now)
  {
    if !GlobalOver(s, now) {
      var s1 := AfterOrder(s, active, strategy);
      PickFromOnlyCools(s1, ord, now);
      PickFromSound(s1, ord, now);
      IsOrderPermutes(s.rrCursor, active, strategy, ord);
    }
  }

  function AfterPickCursor(s: State, active: seq<Provider>, strategy: string, now: int): State {
    if GlobalOver(s, now) then s else AfterOrder(s, active, strategy)
  }

  /** As `OnlyCools`, save that the global cooldown may be set afresh. */
  ghost predicate OnlyCoolsButGlobal(s: State, s1: State, s': State, now: int) {
    if GlobalOver(s, now) then s' == TripQuota(s, GLOBAL, s.config.quota, now).0 else OnlyCools(s1, s', now)
  }

  /** Every strategy tries exactly the candidates, each as often as it was listed. */
  lemma IsOrderPermutes(cursor: nat, active: seq<Provider>, strategy: string, ord: seq<Provider>)
    requires IsOrder(cursor, active, strategy, ord)
    ensures multiset(ord) == multiset(active) && |ord| == |active|
    ensures forall p :: p in ord <==> p in active
  {
    if strategy == "round_robin" && active != [] {
      var k := cursor % |active|;
      assert active == active[..k] + active[k..];
    }
    assert |multiset(ord)| == |ord| && |multiset(active)| == |active|;
    forall p ensures p in ord <==> p in active {
      assert p in ord <==> p in multiset(ord);
      assert p in active <==> p in multiset(active);
    }
  }

  /** An order every strategy might try. */
  ghost function AnyOrder(cursor: nat, active: seq<Provider>, strategy: string): (ord: seq<Provider>)
    ensures IsOrder(cursor, active, strategy, ord)
  {
    if strategy == "round_robin" && active != [] then Rotate(active, cursor % |active|) else active
  }

  /** No key of one provider is a key of the other. */
  ghost predicate Apart(p: Provider, q: Provider) {
    && p.name != q.name
    && (forall m <- p.models :: ModelKey(p.name, m) != q.name)
    && (forall m <- q.models :: ModelKey(q.name, m) != p.name)
    && (forall m <- p.models, n <- q.models :: ModelKey(p.name, m) != ModelKey(q.name, n))
  }

  ghost predicate KeysApart(ord: seq<Provider>) {
    forall i, j :: 0 <= i < j < |ord| ==> Apart(ord[i], ord[j])
  }

  /** So are any candidates named as configurations name them, each once and plainly. */
  lemma PlainKeysApart(ord: seq<Provider>)
    requires forall p <- ord :: PlainName(p.name)
    requires forall i, j :: 0 <= i < j < |ord| ==> ord[i].name != ord[j].name
    ensures KeysApart(ord)
  {
    forall i, j | 0 <= i < j < |ord| ensures Apart(ord[i], ord[j]) {
      PlainApart(ord[i], ord[j]);
    }
  }

  lemma PlainApart(p: Provider, q: Provider)
    requires PlainName(p.name) && PlainName(q.name) && p.name != q.name
    ensures Apart(p, q)
  {
    forall m ensures ModelKey(p.name, m) != q.name && ModelKey(q.name, m) != p.name {
      ModelKeyIsNotPlain(p.name, m);
      ModelKeyIsNotPlain(q.name, m);
    }
    forall m, n ensures ModelKey(p.name, m) != ModelKey(q.name, n) {
      if ModelKey(p.name, m) == ModelKey(q.name, n) {
        ModelKeyInjective(p.name, m, q.name, n);
      }
    }
  }

  /** Examining one provider changes nothing for another. */
  lemma ExamineIndependent(s: State, p: Provider, q: Provider, now: int)
    requires p.models != [] && q.models != [] && Apart(p, q)
    ensures NextIndex(Examine(s, p, now).0, q) == NextIndex(s, q)
    ensures Ready(Examine(s, p, now).0, q, now) == Ready(s, q, now)
  {
    ExamineExact(s, p, now);
    var m, n := NextModel(s, p), NextModel(s, q);
    assert m in p.models && n in q.models;
    assert ModelKey(p.name, m) != ModelKey(q.name, n);
  }

  lemma {:induction false} FirstReadyIndependent(s: State, p: Provider, rest: seq<Provider>, now: int)
    requires p.models != [] && forall q <- rest :: q.models != []
    requires forall q <- rest :: Apart(p, q)
    ensures FirstReady(Examine(s, p, now).0, rest, now) == FirstReady(s, rest, now)
    decreases |rest|
  {
    if rest != [] {
      ExamineIndependent(s, p, rest[0], now);
      FirstReadyIndependent(s, p, rest[1..], now);
    }
  }

  /** `pick` returns exactly the first candidate, in strategy order, whose provider is open
      and whose cursor lands on a free model, judged on the state it was called in. It
      fails exactly when there is none, even if some other model was free. */
  lemma {:induction false} PickFromExact(s: State, ord: seq<Provider>, now: int)
    requires forall p <- ord :: p.models != []
    requires KeysApart(ord)
    ensures PickFrom(s, ord, now).1 == FirstReady(s, ord, now)
    decreases |ord|
  {
    if ord != [] {
      ExamineExact(s, ord[0], now);
      if !Ready(s, ord[0], now) {
        forall q | q in ord[1..] ensures Apart(ord[0], q) {
          var i :| 0 <= i < |ord[1..]| && ord[1..][i] == q;
          assert ord[i + 1] == q;
        }
        FirstReadyIndependent(s, ord[0], ord[1..], now);
        PickFromExact(Examine(s, ord[0], now).0, ord[1..], now);
      }
    }
  }

  lemma {:induction false} FirstReadyIs(s: State, ord: seq<Provider>, now: int, i: nat)
    requires forall p <- ord :: p.models != []
    requires i < |ord| && Ready(s, ord[i], now) && forall k :: 0 <= k < i ==> !Ready(s, ord[k], now)
    ensures FirstReady(s, ord, now) == Some(Choice(ord[i], NextModel(s, ord[i])))
    decreases |ord|
  {
    if i > 0 {
      hide Ready, NextModel;
      assert forall k :: 0 <= k < i - 1 ==> ord[1..][k] == ord[k + 1];
      FirstReadyIs(s, ord[1..], now, i - 1);
    }
  }

  /** Where no other strategy is named, `pick` keeps to the candidates' own order: it returns
      the first that is ready, at the model its cursor moves to. */
  lemma InOrderPicksFirst(s: State, active: seq<Provider>, strategy: string, ord: seq<Provider>, now: int, i: nat)
    requires strategy != "round_robin" && strategy != "random" && strategy != "weighted"
    requires (forall p <- active :: p.models != []) && KeysApart(active) && IsOrder(s.rrCursor, active, strategy, ord)
    requires !GlobalOver(s, now)
    requires i < |active| && Ready(s, active[i], now) && forall k :: 0 <= k < i ==> !Ready(s, active[k], now)
    ensures var p := active[i];
            Pick(s, active, strategy, ord, now).1
            == Some(Choice(p, p.models[((if p.name in s.modelIdx then s.modelIdx[p.name] else 0) + 1) % |p.models|]))
  {
    hide PickFrom, Ready, KeysApart;
    PickFromExact(s, active, now);
    FirstReadyIs(s, active, now, i);
  }

  lemma {:induction false} FirstReadyIff(s: State, ord: seq<Provider>, now: int)
    requires forall p <- ord :: p.models != []
    ensures FirstReady(s, ord, now).Some? <==> exists p <- ord :: Ready(s, p, now)
    decreases |ord|
  {
    if ord != [] {
      hide Ready;
      FirstReadyIff(s, ord[1..], now);
      assert ord == [ord[0]] + ord[1..];
    }
  }

  lemma {:induction false} NamedOnce(active: seq<Provider>, p: Provider)
    requires KeysApart(active)
    ensures multiset(active)[p] <= 1
  {
    if active != [] {
      var n := |active| - 1;
      assert active == active[..n] + [active[n]];
      assert forall q <- active[..n] :: q in active;
      NamedOnce(active[..n], p);
      if p == active[n] {
        assert p !in active[..n];
      }
    }
  }

  lemma OccursTwice(ord: seq<Provider>, i: nat, j: nat)
    requires i < j < |ord| && ord[i] == ord[j]
    ensures multiset(ord)[ord[i]] >= 2
  {
    var front, back := ord[..j], ord[j..];
    assert ord == front + back && front[i] == ord[i] && back[0] == ord[i];
    assert ord[i] in front && ord[i] in back;
  }

  lemma ApartSymmetric(p: Provider, q: Provider)
    requires Apart(p, q)
    ensures Apart(q, p)
  {
  }

  lemma PermutedApart(active: seq<Provider>, ord: seq<Provider>)
    requires KeysApart(active) && Permutes(ord, active)
    ensures KeysApart(ord)
  {
    forall p ensures p in ord <==> p in active {
      assert p in ord <==> p in multiset(ord);
      assert p in active <==> p in multiset(active);
    }
    forall i, j | 0 <= i < j < |ord| ensures Apart(ord[i], ord[j]) {
      assert ord[i] in active && ord[j] in active;
      NotTwice(active, ord, i, j);
      var a, b :| 0 <= a < |active| && active[a] == ord[i] && 0 <= b < |active| && active[b] == ord[j];
      assert Apart(active[Min(a, b)], active[Max(a, b)]);
      ApartSymmetric(active[Min(a, b)], active[Max(a, b)]);
    }
  }

  lemma NotTwice(active: seq<Provider>, ord: seq<Provider>, i: nat, j: nat)
    requires KeysApart(active) && Permutes(ord, active) && i < j < |ord|
    ensures ord[i] != ord[j]
  {
    if ord[i] == ord[j] {
      NamedOnce(active, ord[i]);
      OccursTwice(ord, i, j);
    }
  }

  /** Whether a request is served is no matter of strategy: `pick` succeeds exactly when no
      global limit is reached and some candidate is ready, in whatever order they are tried. */
  lemma PickSucceedsIff(s: State, active: seq<Provider>, strategy: string, ord: seq<Provider>, now: int)
    requires (forall p <- active :: p.models != []) && (forall p <- ord :: p.models != [])
    requires KeysApart(active) && IsOrder(s.rrCursor, active, strategy, ord)
    ensures Pick(s, active, strategy, ord, now).1.Some? <==>
              !GlobalOver(s, now) && exists p <- active :: Ready(s, p, now)
  {
    IsOrderPermutes(s.rrCursor, active, strategy, ord);
    PermutedApart(active, ord);
    hide IsOrder, PickFrom, Ready, FirstReady;
    var s1 := AfterOrder(s, active, strategy);
    PickFromExact(s1, ord, now);
    FirstReadyIff(s1, ord, now);
    forall p | p in active ensures Ready(s1, p, now) <==> Ready(s, p, now) {
      CursorAside(s, active, strategy, p, now);
    }
  }

  lemma CursorAside(s: State, active: seq<Provider>, strategy: string, p: Provider, now: int)
    requires p.models != []
    ensures Ready(AfterOrder(s, active, strategy), p, now) <==> Ready(s, p, now)
  {
    hide Trips, ModelKey, NextIndex;
    assert NextModel(AfterOrder(s, active, strategy), p) == NextModel(s, p) by {
      SameCursorSameModel(s, AfterOrder(s, active, strategy), p);
    }
    hide NextModel;
  }

  lemma SameCursorSameModel(s: State, s': State, p: Provider)
    requires p.models != [] && s'.modelIdx == s.modelIdx
    ensures NextModel(s', p) == NextModel(s, p)
  {
  }

  /** `pick` may come back empty although a candidate could serve: here the cursor lands on
      the cooling one of two models, while the other is routable at that very instant. */
  lemma FreeModelStranded()
    ensures var p := Provider("p", "key", ["a", "b"], NO_QUOTA, 1, "http");
            var s := New(Config([p], [], map[], NO_QUOTA)).(blocked := map["p/b" := 10], reason := map["p/b" := "error"]);
            && Pick(s, [p], "order", [p], 5).1 == None
            && Routable(s, p, "a", 5)
  {
    var p := Provider("p", "key", ["a", "b"], NO_QUOTA, 1, "http");
    var s := New(Config([p], [], map[], NO_QUOTA)).(blocked := map["p/b" := 10], reason := map["p/b" := "error"]);
    assert ModelKey("p", "b") == "p/b" && ModelKey("p", "a")[2] != "p/b"[2];
    assert ModelKey("p", "b")[1] == '/';
    CheckExact([], NO_QUOTA, 5);
    assert NextModel(s, p) == "b";
    assert !Ready(s, p, 5);
    ExamineExact(s, p, 5);
    assert PickFrom(s, [p], 5).1 == None by {
      assert [p][1..] == [];
    }
    assert "p" != "p/b";
  }

  // ---- the model cursor ----

  function ExamineTimes(s: State, p: Provider, now: int, k: nat): State
    requires p.models != []
  {
    if k == 0 then s else Examine(ExamineTimes(s, p, now, k - 1), p, now).0
  }

  /** Where the k-th examination from now lands. */
  function Turn(s: State, p: Provider, k: nat): nat
    requires p.models != []
  {
    Step(Get(s.modelIdx, p.name, 0) + 1, |p.models|, k)
  }

  lemma {:induction false} StaysOpen(s: State, p: Provider, now: int, k: nat)
    requires p.models != [] && ProviderOpen(s, p, now)
    ensures ProviderOpen(ExamineTimes(s, p, now, k), p, now)
    ensures forall m :: ModelFree(ExamineTimes(s, p, now, k), p, m, now) <==> ModelFree(s, p, m, now)
  {
    if k > 0 {
      StaysOpen(s, p, now, k - 1);
      hide Examine, ModelFree, ProviderOpen;
      forall m ensures ModelFree(ExamineTimes(s, p, now, k), p, m, now) <==> ModelFree(s, p, m, now) {
        ExamineClosesNothing(ExamineTimes(s, p, now, k - 1), p, now, m);
      }
      ExamineClosesNothing(ExamineTimes(s, p, now, k - 1), p, now, "");
    }
  }

  lemma CursorAfter(s: State, p: Provider, now: int)
    requires p.models != [] && ProviderOpen(s, p, now)
    ensures Get(Examine(s, p, now).0.modelIdx, p.name, 0) == NextIndex(s, p)
  {
  }

  lemma NextIndexIsStep(s: State, p: Provider)
    requires p.models != []
    ensures NextIndex(s, p) == Step(Get(s.modelIdx, p.name, 0), |p.models|, 1)
    ensures NextIndex(s, p) == Turn(s, p, 0)
  {
  }

  lemma {:induction false} TurnIsNextIndex(s: State, p: Provider, now: int, k: nat)
    requires p.models != [] && ProviderOpen(s, p, now)
    ensures NextIndex(ExamineTimes(s, p, now, k), p) == Turn(s, p, k)
  {
    if k == 0 {
      NextIndexIsStep(s, p);
    } else {
      TurnIsNextIndex(s, p, now, k - 1);
      StaysOpen(s, p, now, k - 1);
      CursorAfter(ExamineTimes(s, p, now, k - 1), p, now);
      TurnAdvances(s, ExamineTimes(s, p, now, k), p, k);
    }
  }

  lemma TurnAdvances(s: State, after: State, p: Provider, k: nat)
    requires p.models != [] && k > 0
    requires Get(after.modelIdx, p.name, 0) == Turn(s, p, k - 1)
    ensures NextIndex(after, p) == Turn(s, p, k)
  {
    NextIndexIsStep(after, p);
    StepFromStep(Get(s.modelIdx, p.name, 0) + 1, |p.models|, k - 1);
  }

  /** With logs and clock unchanged, an open provider's k-th examination yields its k-th
      model in cursor order when that model is free, and nothing when it is not. */
  lemma TurnsExact(s: State, p: Provider, now: int, k: nat)
    requires p.models != [] && ProviderOpen(s, p, now)
    ensures var m := p.models[Turn(s, p, k)];
            Examine(ExamineTimes(s, p, now, k), p, now).1 ==
            if ModelFree(s, p, m, now) then Some(Choice(p, m)) else None
  {
    StaysOpen(s, p, now, k);
    TurnIsNextIndex(s, p, now, k);
    ExamineExact(ExamineTimes(s, p, now, k), p, now);
  }

  /** The cursor is fair: among the next len(Models) examinations each model position has
      exactly one turn, and a free model is yielded on it, blocked siblings or not. */
  lemma CursorIsFair(s: State, p: Provider, now: int, j: nat) returns (k: nat)
    requires j < |p.models| && ProviderOpen(s, p, now)
    ensures k < |p.models| && Turn(s, p, k) == j
    ensures forall k': nat :: k' < |p.models| && Turn(s, p, k') == j ==> k' == k
    ensures Examine(ExamineTimes(s, p, now, k), p, now).1 ==
            if ModelFree(s, p, p.models[j], now) then Some(Choice(p, p.models[j])) else None
  {
    hide Step, Examine, ExamineTimes, ModelFree, ProviderOpen;
    k := ExactlyOnce(Get(s.modelIdx, p.name, 0) + 1, |p.models|, j);
    TurnsExact(s, p, now, k);
    forall k': nat | k' < |p.models| && Turn(s, p, k') == j ensures k' == k {
      assert Step(Get(s.modelIdx, p.name, 0) + 1, |p.models|, k') == j;
    }
  }

  // ---- round robin ----

  lemma {:induction false} WalkKeepsCursor(s: State, ord: seq<Provider>, now: int)
    requires forall p <- ord :: p.models != []
    ensures PickFrom(s, ord, now).0.rrCursor == s.rrCursor
    decreases |ord|
  {
    hide OnlyCools;
    PickFromOnlyCools(s, ord, now);
    OnlyCoolsCursor(s, PickFrom(s, ord, now).0, now);
  }

  lemma OnlyCoolsCursor(s: State, s': State, now: int)
    requires OnlyCools(s, s', now)
    ensures s'.rrCursor == s.rrCursor
  {
  }

  /** Every pick in turn moves the round-robin cursor by one, unless the global quota stops it. */
  lemma PickTurns(s: State, active: seq<Provider>, strategy: string, ord: seq<Provider>, now: int)
    requires forall p <- ord :: p.models != []
    ensures Pick(s, active, strategy, ord, now).0.rrCursor
         == s.rrCursor + (if strategy == "round_robin" && active != [] && !GlobalOver(s, now) then 1 else 0)
  {
    hide PickFrom, TripQuota, GlobalOver, AfterOrder;
    TripKeepsCursor(s, GLOBAL, s.config.quota, now);
    OrderTurns(s, active, strategy);
    WalkKeepsCursor(AfterOrder(s, active, strategy), ord, now);
  }

  lemma TripKeepsCursor(s: State, key: string, q: Quota, now: int)
    ensures TripQuota(s, key, q, now).0.rrCursor == s.rrCursor
  {
    hide OverQuota, Check;
  }

  lemma OrderTurns(s: State, active: seq<Provider>, strategy: string)
    ensures AfterOrder(s, active, strategy).rrCursor
         == s.rrCursor + (if strategy == "round_robin" && active != [] then 1 else 0)
  {
    var s' := AfterOrder(s, active, strategy);
    if strategy == "round_robin" && active != [] {
      assert s' == s.(rrCursor := s.rrCursor + 1);
    } else {
      assert s' == s;
    }
    hide *;
  }

  lemma OrderLeads(cursor: nat, active: seq<Provider>, ord: seq<Provider>)
    requires active != [] && IsOrder(cursor, active, "round_robin", ord)
    ensures |ord| == |active| && ord[0] == active[cursor % |active|]
  {
  }

  /** One round-robin pick after another, at `times`, none of them stopped by the global quota. */
  ghost predicate TakesTurns(s: State, active: seq<Provider>, ords: seq<seq<Provider>>, times: seq<int>)
    decreases |ords|
  {
    |ords| == |times| &&
    (ords != [] ==>
       && IsOrder(s.rrCursor, active, "round_robin", ords[0]) && (forall p <- ords[0] :: p.models != [])
       && !GlobalOver(s, times[0])
       && TakesTurns(Pick(s, active, "round_robin", ords[0], times[0]).0, active, ords[1..], times[1..]))
  }

  /** The candidates take turns to lead, in their own order, starting over after the last. */
  lemma {:induction false} LeadersTakeTurns(s: State, active: seq<Provider>, ords: seq<seq<Provider>>, times: seq<int>, k: nat)
    requires active != [] && TakesTurns(s, active, ords, times) && k < |ords|
    ensures |ords[k]| == |active| && ords[k][0] == active[(s.rrCursor + k) % |active|]
    decreases k
  {
    hide Pick, GlobalOver, IsOrder;
    if k == 0 {
      OrderLeads(s.rrCursor, active, ords[0]);
    } else {
      PickTurns(s, active, "round_robin", ords[0], times[0]);
      LeadersTakeTurns(Pick(s, active, "round_robin", ords[0], times[0]).0, active, ords[1..], times[1..], k - 1);
    }
  }

  /** Over any n consecutive round-robin picks of n candidates each one leads exactly once. */
  lemma RoundRobinLeads(cursor: nat, active: seq<Provider>, j: nat) returns (k: nat)
    requires j < |active|
    ensures k < |active| && Step(cursor, |active|, k) == j
    ensures IsOrder(cursor + k, active, "round_robin", Rotate(active, j)) && Rotate(active, j)[0] == active[j]
    ensures forall k': nat :: k' < |active| && Step(cursor, |active|, k') == j ==> k' == k
  {
    k := ExactlyOnce(cursor, |active|, j);
  }
}
