/** How long a routable model can go unserved: picks that fail one after another. */
module Fairness {
  import opened Configs
  import opened Rotation
  import opened PickLaws
  import opened Cyclic

  /** The picks all fail, one after another at `now`, each trying the candidates in the next
      of `ords`. */
  ghost predicate AllFail(s: State, active: seq<Provider>, strategy: string, ords: seq<seq<Provider>>, now: int)
    decreases |ords|
  {
    ords != [] ==>
      && IsOrder(s.rrCursor, active, strategy, ords[0]) && (forall p <- ords[0] :: p.models != [])
      && Pick(s, active, strategy, ords[0], now).1.None?
      && AllFail(Pick(s, active, strategy, ords[0], now).0, active, strategy, ords[1..], now)
  }

  /** To `p` the two states are one, but for where its cursor stands. */
  ghost predicate SameFor(s: State, s': State, p: Provider, now: int) {
    && (GlobalOver(s', now) <==> GlobalOver(s, now))
    && (ProviderOpen(s', p, now) <==> ProviderOpen(s, p, now))
    && (forall m <- p.models :: ModelFree(s', p, m, now) <==> ModelFree(s, p, m, now))
  }

  /** Examining another provider leaves `p` as it was, cursor included. */
  lemma OtherExamined(s: State, q: Provider, p: Provider, now: int)
    requires q.models != [] && Apart(q, p)
    ensures var s' := Examine(s, q, now).0;
            SameFor(s, s', p, now) && Get(s'.modelIdx, p.name, 0) == Get(s.modelIdx, p.name, 0)
  {
    hide Examine, OverQuota, NextIndex;
    ExamineExact(s, q, now);
    var s' := Examine(s, q, now).0;
    OnlyCoolsFrame(s, s', now);
    SameLogs(s, s', p, now);
    var n := NextModel(s, q);
    NextIsListed(s, q);
    hide OnlyCools;
    forall m | m in p.models ensures ModelKey(p.name, m) != q.name && ModelKey(p.name, m) != ModelKey(q.name, n) {
    }
  }

  lemma NextIsListed(s: State, q: Provider)
    requires q.models != []
    ensures NextModel(s, q) in q.models
  {
  }

  lemma SameLogs(s: State, s': State, p: Provider, now: int)
    requires s'.logs == s.logs && s'.config == s.config && s'.backendQuotas == s.backendQuotas
    ensures GlobalOver(s', now) <==> GlobalOver(s, now)
    ensures forall key, q :: OverQuota(s', key, q, now) <==> OverQuota(s, key, q, now)
  {
  }

  lemma SameForTransitive(a: State, b: State, c: State, p: Provider, now: int)
    requires SameFor(a, b, p, now) && SameFor(b, c, p, now)
    ensures SameFor(a, c, p, now)
  {
    hide ModelFree, ProviderOpen, GlobalOver;
  }

  lemma {:induction false} OthersExamined(s: State, rest: seq<Provider>, p: Provider, now: int)
    requires forall q <- rest :: q.models != [] && Apart(q, p)
    ensures var s' := PickFrom(s, rest, now).0;
            SameFor(s, s', p, now) && Get(s'.modelIdx, p.name, 0) == Get(s.modelIdx, p.name, 0)
    decreases |rest|
  {
    if rest != [] {
      hide Examine, SameFor;
      var (s1, c) := Examine(s, rest[0], now);
      OtherExamined(s, rest[0], p, now);
      if c.None? {
        OthersExamined(s1, rest[1..], p, now);
        SameForTransitive(s, s1, PickFrom(s1, rest[1..], now).0, p, now);
      }
    } else {
      SameAsItself(s, p, now);
    }
  }

  lemma SameAsItself(s: State, p: Provider, now: int)
    ensures SameFor(s, s, p, now)
  {
  }

  /** Its own examination, when it is open, changes nothing for `p` but the cursor. */
  lemma SelfExamined(s: State, p: Provider, now: int)
    requires p.models != [] && ProviderOpen(s, p, now)
    ensures var s' := Examine(s, p, now).0;
            SameFor(s, s', p, now) && Get(s'.modelIdx, p.name, 0) == NextIndex(s, p)
  {
    hide Examine, ModelFree, ProviderOpen, OverQuota, NextIndex;
    ExamineExact(s, p, now);
    var s' := Examine(s, p, now).0;
    OnlyCoolsFrame(s, s', now);
    SameLogs(s, s', p, now);
    hide OnlyCools;
    forall m | m in p.models ensures ModelFree(s', p, m, now) <==> ModelFree(s, p, m, now) {
      ExamineClosesNothing(s, p, now, m);
    }
    ExamineClosesNothing(s, p, now, "");
    OpenIsNotCooling(s, p, now);
  }

  lemma OpenIsNotCooling(s: State, p: Provider, now: int)
    requires ProviderOpen(s, p, now)
    ensures !InCooldown(s.blocked, p.name, now)
  {
  }

  /** A failed walk of the candidates asks each open one for exactly one model. */
  lemma {:induction false} WalkAdvances(s: State, ord: seq<Provider>, p: Provider, now: int)
    requires (forall q <- ord :: q.models != []) && KeysApart(ord) && p in ord
    requires ProviderOpen(s, p, now) && PickFrom(s, ord, now).1.None?
    ensures var s' := PickFrom(s, ord, now).0;
            SameFor(s, s', p, now) && Get(s'.modelIdx, p.name, 0) == NextIndex(s, p)
    decreases |ord|
  {
    hide Examine, SameFor, Apart, ProviderOpen, ModelFree, NextIndex;
    var s1 := Examine(s, ord[0], now).0;
    if p == ord[0] {
      SelfExamined(s, p, now);
      forall q | q in ord[1..] ensures Apart(q, p) {
        LaterApart(ord, q);
      }
      OthersExamined(s1, ord[1..], p, now);
      SameForTransitive(s, s1, PickFrom(s1, ord[1..], now).0, p, now);
    } else {
      assert ord == [ord[0]] + ord[1..];
      assert p in ord[1..];
      LaterApart(ord, p);
      ApartSymmetric(p, ord[0]);
      OtherExamined(s, ord[0], p, now);
      SameCursor(s, s1, p);
      StillOpen(s, s1, p, now);
      WalkAdvances(s1, ord[1..], p, now);
      SameForTransitive(s, s1, PickFrom(s1, ord[1..], now).0, p, now);
    }
  }

  lemma LaterApart(ord: seq<Provider>, q: Provider)
    requires KeysApart(ord) && ord != [] && q in ord[1..]
    ensures Apart(q, ord[0])
  {
    var i :| 0 <= i < |ord[1..]| && ord[1..][i] == q;
    ApartSymmetric(ord[0], ord[i + 1]);
  }

  lemma SameCursor(s: State, s': State, p: Provider)
    requires p.models != [] && Get(s'.modelIdx, p.name, 0) == Get(s.modelIdx, p.name, 0)
    ensures NextIndex(s', p) == NextIndex(s, p)
  {
  }

  lemma StillOpen(s: State, s': State, p: Provider, now: int)
    requires SameFor(s, s', p, now)
    ensures ProviderOpen(s', p, now) <==> ProviderOpen(s, p, now)
  {
  }

  /** A failed pick leaves everything as it was for an open candidate, but for its cursor,
      which has moved on by one: the model it moved to was not free. */
  lemma FailedPick(s: State, active: seq<Provider>, strategy: string, ord: seq<Provider>, p: Provider, now: int)
    requires IsOrder(s.rrCursor, active, strategy, ord) && (forall q <- ord :: q.models != [])
    requires KeysApart(active) && p in active && p.models != []
    requires ProviderOpen(s, p, now) && !GlobalOver(s, now)
    requires Pick(s, active, strategy, ord, now).1.None?
    ensures var s' := Pick(s, active, strategy, ord, now).0;
            SameFor(s, s', p, now) && Get(s'.modelIdx, p.name, 0) == NextIndex(s, p)
    ensures !ModelFree(s, p, NextModel(s, p), now)
  {
    hide PickFrom, Ready, SameFor, ProviderOpen, ModelFree, NextIndex, NextModel, KeysApart, GlobalOver, IsOrder;
    IsOrderPermutes(s.rrCursor, active, strategy, ord);
    PermutesApart(s.rrCursor, active, strategy, ord);
    var s1 := AfterOrder(s, active, strategy);
    OrderIsNothing(s, active, strategy, p, now);
    forall q | q in active ensures q.models != [] {
    }
    PickSucceedsIff(s, active, strategy, ord, now);
    NotReady(s, p, now);
    WalkAdvances(s1, ord, p, now);
    SameForTransitive(s, s1, PickFrom(s1, ord, now).0, p, now);
  }

  lemma NotReady(s: State, p: Provider, now: int)
    requires p.models != [] && ProviderOpen(s, p, now) && !Ready(s, p, now)
    ensures !ModelFree(s, p, NextModel(s, p), now)
  {
  }

  lemma PermutesApart(cursor: nat, active: seq<Provider>, strategy: string, ord: seq<Provider>)
    requires IsOrder(cursor, active, strategy, ord) && KeysApart(active)
    ensures KeysApart(ord)
  {
    IsOrderPermutes(cursor, active, strategy, ord);
    PermutedApart(active, ord);
  }

  lemma OrderIsNothing(s: State, active: seq<Provider>, strategy: string, p: Provider, now: int)
    requires p.models != []
    ensures var s1 := AfterOrder(s, active, strategy);
            && SameFor(s, s1, p, now) && NextIndex(s1, p) == NextIndex(s, p)
            && (ProviderOpen(s1, p, now) <==> ProviderOpen(s, p, now))
  {
    var s1 := AfterOrder(s, active, strategy);
    assert s1 == s || s1 == s.(rrCursor := s.rrCursor + 1);
    hide AfterOrder;
  }

  /** However the strategy orders them, no model free on an open candidate goes unserved for
      as many picks in a row as that candidate has models: fewer can fail. */
  lemma FewPicksFail(s: State, active: seq<Provider>, strategy: string, ords: seq<seq<Provider>>,
                     p: Provider, m: string, now: int)
    requires KeysApart(active) && p in active && m in p.models && Routable(s, p, m, now)
    requires AllFail(s, active, strategy, ords, now)
    ensures |ords| < |p.models|
  {
    hide Step, AllFail, KeysApart, ProviderOpen, ModelFree, GlobalOver;
    var j :| 0 <= j < |p.models| && p.models[j] == m;
    var k := ExactlyOnce(Get(s.modelIdx, p.name, 0) + 1, |p.models|, j);
    if k < |ords| {
      NotYetServed(s, active, strategy, ords, p, now, k);
      assert false;
    }
  }

  /** The k-th failing pick found the k-th model in cursor order not free. */
  lemma {:induction false} NotYetServed(s: State, active: seq<Provider>, strategy: string, ords: seq<seq<Provider>>,
                                        p: Provider, now: int, k: nat)
    requires KeysApart(active) && p in active && p.models != []
    requires ProviderOpen(s, p, now) && !GlobalOver(s, now)
    requires AllFail(s, active, strategy, ords, now) && k < |ords|
    ensures !ModelFree(s, p, p.models[Turn(s, p, k)], now)
    decreases k
  {
    hide Pick, ModelFree, ProviderOpen, GlobalOver, IsOrder, KeysApart, NextIndex, Step;
    FailedPick(s, active, strategy, ords[0], p, now);
    if k == 0 {
      NextIndexIsStep(s, p);
    } else {
      var s' := Pick(s, active, strategy, ords[0], now).0;
      NotYetServed(s', active, strategy, ords[1..], p, now, k - 1);
      TurnShifts(s, s', p, k);
    }
  }

  lemma TurnShifts(s: State, s': State, p: Provider, k: nat)
    requires p.models != [] && k > 0 && Get(s'.modelIdx, p.name, 0) == NextIndex(s, p)
    ensures Turn(s', p, k - 1) == Turn(s, p, k)
  {
    hide Step;
    NextIndexIsStep(s, p);
    StepShifts(Get(s.modelIdx, p.name, 0) + 1, |p.models|, k - 1);
  }
}
