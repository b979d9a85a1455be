/** Who may serve a request, said of the configuration itself. */
module Candidates {
  import opened Configs

  /** The provider can be used at all: it has models, and a key unless it needs none. */
  ghost predicate Works(p: Provider) {
    p.models != [] && (p.kind == "cli" || exists c <- p.apiKey :: !IsSpace(c))
  }

  /** ... and for a request with these needs. */
  ghost predicate Serves(p: Provider, need: Need) {
    Works(p) && (need.embeddings || need.tools ==> p.kind != "cli")
  }

  /** The backend list names a model on this provider. */
  ghost predicate Lists(bs: seq<Backend>, name: string) {
    exists b <- bs :: b.provider == name && b.model != ""
  }

  /** Entry `i` is the first with this id. */
  ghost predicate FirstNamed(ms: seq<Model>, i: int, id: string) {
    0 <= i < |ms| && ms[i].id == id && forall k :: 0 <= k < i ==> ms[k].id != id
  }

  /** Entry `j` is the last for this provider. */
  ghost predicate LastFor(bs: seq<Backend>, j: int, name: string) {
    0 <= j < |bs| && bs[j].provider == name && forall k :: j < k < |bs| ==> bs[k].provider != name
  }

  /** Positions in a list of `n`, each after the one before. */
  ghost predicate Rising(at: seq<nat>, n: nat) {
    (forall k :: 0 <= k < |at| ==> at[k] < n) && forall j, k :: 0 <= j < k < |at| ==> at[j] < at[k]
  }

  // ---- positions ----

  lemma {:induction false} ActivesAt(ps: seq<Provider>) returns (at: seq<nat>)
    ensures Rising(at, |ps|) && |at| == |Actives(ps)|
    ensures forall k :: 0 <= k < |at| ==> Actives(ps)[k] == ps[at[k]]
    ensures forall n: nat :: n < |ps| ==> (n in at <==> IsActive(ps[n]))
  {
    hide IsActive;
    if ps == [] {
      at := [];
    } else {
      var n := |ps| - 1;
      var init := ActivesAt(ps[..n]);
      at := init + (if IsActive(ps[n]) then [n] else []);
      assert Actives(ps) == Actives(ps[..n]) + (if IsActive(ps[n]) then [ps[n]] else []);
      hide Actives;
      forall i: nat | i < |ps| ensures i in at <==> IsActive(ps[i]) {
        if i < n {
          assert ps[..n][i] == ps[i];
        }
      }
    }
  }

  lemma {:induction false} DropCliAt(ps: seq<Provider>) returns (at: seq<nat>)
    ensures Rising(at, |ps|) && |at| == |DropCli(ps)|
    ensures forall k :: 0 <= k < |at| ==> DropCli(ps)[k] == ps[at[k]]
    ensures forall n: nat :: n < |ps| ==> (n in at <==> ps[n].kind != "cli")
  {
    if ps == [] {
      at := [];
    } else {
      var n := |ps| - 1;
      var init := DropCliAt(ps[..n]);
      at := init + (if ps[n].kind != "cli" then [n] else []);
      assert DropCli(ps) == DropCli(ps[..n]) + (if ps[n].kind == "cli" then [] else [ps[n]]);
      hide DropCli;
      forall i: nat | i < |ps| ensures i in at <==> ps[i].kind != "cli" {
        if i < n {
          assert ps[..n][i] == ps[i];
        }
      }
    }
  }

  function Through(a: seq<nat>, b: seq<nat>): (c: seq<nat>)
    requires forall k :: 0 <= k < |b| ==> b[k] < |a|
    ensures |c| == |b| && forall k :: 0 <= k < |b| ==> c[k] == a[b[k]]
  {
    seq(|b|, k requires 0 <= k < |b| => a[b[k]])
  }

  lemma ThroughRises(a: seq<nat>, b: seq<nat>, n: nat)
    requires Rising(a, n) && Rising(b, |a|)
    ensures Rising(Through(a, b), n)
    ensures forall j: nat :: j < |a| ==> (a[j] in Through(a, b) <==> j in b)
    ensures forall i: nat :: i in Through(a, b) ==> i in a
  {
    var c := Through(a, b);
    forall j: nat | j < |a| ensures a[j] in c <==> j in b {
      if j in b {
        var k :| 0 <= k < |b| && b[k] == j;
        assert c[k] == a[j];
      }
      if a[j] in c {
        var k :| 0 <= k < |c| && c[k] == a[j];
        assert a[b[k]] == a[j];
        assert b[k] == j;
        assert b[k] in b;
      }
    }
  }

  lemma ActiveWorks(p: Provider)
    ensures IsActive(p) <==> Works(p)
  {
  }

  // ---- the model asked for ----

  lemma {:induction false} FindModelIsFirst(ms: seq<Model>, id: string)
    ensures forall i :: FirstNamed(ms, i, id) ==> FindModel(ms, id) == Some(ms[i])
    ensures (forall i :: 0 <= i < |ms| ==> ms[i].id != id) ==> FindModel(ms, id) == None
  {
    if ms != [] {
      FindModelIsFirst(ms[1..], id);
      if ms[0].id == id {
        assert forall i :: FirstNamed(ms, i, id) ==> i == 0;
      } else {
        forall i | FirstNamed(ms, i, id) ensures FindModel(ms, id) == Some(ms[i]) {
          assert forall k :: 0 <= k < i - 1 ==> ms[1..][k] == ms[k + 1];
          assert FirstNamed(ms[1..], i - 1, id);
        }
        if forall i :: 0 <= i < |ms| ==> ms[i].id != id {
          assert forall i :: 0 <= i < |ms[1..]| ==> ms[1..][i] == ms[i + 1];
        }
      }
    }
  }

  lemma {:induction false} LastForWeighs(bs: seq<Backend>, name: string, fallback: int)
    ensures forall j :: LastFor(bs, j, name) ==>
              BackendWeight(bs, name, fallback) == if bs[j].weight.Some? then bs[j].weight.value else fallback
  {
    if bs != [] {
      var n := |bs| - 1;
      LastForWeighs(bs[..n], name, fallback);
      forall j | LastFor(bs, j, name)
        ensures BackendWeight(bs, name, fallback) == if bs[j].weight.Some? then bs[j].weight.value else fallback
      {
        if bs[n].provider != name {
          assert LastFor(bs[..n], j, name);
        }
      }
    }
  }

  lemma ListsModels(bs: seq<Backend>, name: string)
    ensures BackendModels(bs, name) != [] <==> Lists(bs, name)
    ensures forall m :: m in BackendModels(bs, name) <==>
              m != "" && exists b <- bs :: b.provider == name && b.model == m
  {
    forall m ensures m in BackendModels(bs, name) <==>
                       m != "" && exists b <- bs :: b.provider == name && b.model == m {
      BackendModelsExact(bs, name, m);
    }
    if BackendModels(bs, name) != [] {
      var m := BackendModels(bs, name)[0];
      assert m in BackendModels(bs, name);
    }
    if Lists(bs, name) {
      var b :| b in bs && b.provider == name && b.model != "";
      assert b.model in BackendModels(bs, name);
    }
  }

  /** A narrowed list keeps the backend list's own order. */
  lemma {:induction false} BackendModelsAt(bs: seq<Backend>, name: string) returns (at: seq<nat>)
    ensures Rising(at, |bs|) && |at| == |BackendModels(bs, name)|
    ensures forall k :: 0 <= k < |at| ==> BackendModels(bs, name)[k] == bs[at[k]].model
    ensures forall n: nat :: n < |bs| ==> (n in at <==> bs[n].provider == name && bs[n].model != "")
  {
    if bs == [] {
      at := [];
    } else {
      var n := |bs| - 1;
      var init := BackendModelsAt(bs[..n], name);
      var named := bs[n].provider == name && bs[n].model != "";
      at := init + (if named then [n] else []);
      assert BackendModels(bs, name) == BackendModels(bs[..n], name) + (if named then [bs[n].model] else []);
      hide BackendModels;
      forall i: nat | i < |bs| ensures i in at <==> bs[i].provider == name && bs[i].model != "" {
        if i < n {
          assert bs[..n][i] == bs[i];
        }
      }
    }
  }

  /** `models` are the models `bs` names on one provider, in the order it names them. */
  ghost predicate ListedModels(bs: seq<Backend>, name: string, models: seq<string>) {
    exists at: seq<nat> ::
      && Rising(at, |bs|) && |at| == |models|
      && (forall k :: 0 <= k < |at| ==> models[k] == bs[at[k]].model)
      && forall n: nat :: n < |bs| ==> (n in at <==> bs[n].provider == name && bs[n].model != "")
  }

  // ---- the candidates ----

  /** What the request is for, once an alias is followed. */
  function Named(c: Config, requested: string): string {
    if requested in c.aliases then c.aliases[requested] else requested
  }

  lemma ActivesServe(ps: seq<Provider>, bs: seq<Backend>) returns (at: seq<nat>)
    ensures Rising(at, |ps|) && |at| == |NarrowAll(Actives(ps), bs)|
    ensures forall k :: 0 <= k < |at| ==> NarrowAll(Actives(ps), bs)[k] == Narrow(ps[at[k]], bs)
    ensures forall n: nat :: n < |ps| ==> (n in at <==> Works(ps[n]) && Lists(bs, ps[n].name))
  {
    hide Works, Lists, NarrowAll, Narrow, Actives, IsActive, BackendModels;
    var a := ActivesAt(ps);
    var b := NarrowAllInConfigOrder(Actives(ps), bs);
    assert Rising(b, |a|);
    at := Through(a, b);
    ThroughRises(a, b, |ps|);
    forall n: nat | n < |ps| ensures n in at <==> Works(ps[n]) && Lists(bs, ps[n].name) {
      ActiveWorks(ps[n]);
      ListsModels(bs, ps[n].name);
      if n in a {
        var j :| 0 <= j < |a| && a[j] == n;
        assert n in at <==> j in b;
      }
    }
  }

  /** `at` says where in the configuration each candidate stands: they keep its order, and are
      exactly the providers that serve such a request, and `listed` names. */
  ghost predicate Stand(c: Config, need: Need, active: seq<Provider>, at: seq<nat>, listed: set<string>) {
    && Rising(at, |c.providers|) && |at| == |active|
    && forall n: nat :: n < |c.providers| ==>
         (n in at <==> Serves(c.providers[n], need) && c.providers[n].name in listed)
  }

  ghost function Listed(bs: seq<Backend>): set<string> {
    set b <- bs | b.model != "" :: b.provider
  }

  lemma DropsCli(c: Config, need: Need, all: seq<Provider>, a: seq<nat>, listed: set<string>) returns (at: seq<nat>, b: seq<nat>)
    requires Rising(a, |c.providers|) && |a| == |all|
    requires forall k :: 0 <= k < |all| ==> all[k].kind == c.providers[a[k]].kind
    requires forall n: nat :: n < |c.providers| ==> (n in a <==> Works(c.providers[n]) && c.providers[n].name in listed)
    requires need.embeddings || need.tools
    ensures Stand(c, need, DropCli(all), at, listed)
    ensures |b| == |at| == |DropCli(all)|
    ensures forall k :: 0 <= k < |b| ==> b[k] < |a| && a[b[k]] == at[k] && DropCli(all)[k] == all[b[k]]
  {
    hide Works, DropCli;
    b := DropCliAt(all);
    at := Through(a, b);
    ThroughRises(a, b, |c.providers|);
    forall n: nat | n < |c.providers| ensures n in at <==> Serves(c.providers[n], need) && c.providers[n].name in listed {
      if n in a {
        var j :| 0 <= j < |a| && a[j] == n;
        assert n in at <==> j in b;
        assert all[j].kind == c.providers[n].kind;
      }
    }
  }

  /** A request for a virtual model goes to the first entry of that id: by its strategy, to
      the serving providers its backend list names a model on, in configuration order, each
      with exactly its listed models and the weight its last entry gives it. */
  lemma ModelCandidates(c: Config, requested: string, need: Need, i: nat) returns (at: seq<nat>)
    requires var name := Named(c, requested); name != "" && name != "chicco:auto" && FirstNamed(c.models, i, name)
    ensures var (active, strategy) := CandidatesFor(c, requested, need);
            var bs := c.models[i].backends;
            && strategy == c.models[i].strategy
            && Stand(c, need, active, at, Listed(bs))
            && (forall k :: 0 <= k < |active| ==>
                  var p := c.providers[at[k]];
                  && active[k] == p.(models := active[k].models, weight := active[k].weight)
                  && ListedModels(bs, p.name, active[k].models)
                  && (forall j :: LastFor(bs, j, p.name) ==>
                        active[k].weight == if bs[j].weight.Some? then bs[j].weight.value else p.weight))
  {
    var name, bs := Named(c, requested), c.models[i].backends;
    FindModelIsFirst(c.models, name);
    assert Resolve(c.aliases, requested) == name;
    assert ActiveForModel(c, requested) == (NarrowAll(Actives(c.providers), bs), c.models[i].strategy);
    var (active, strategy) := CandidatesFor(c, requested, need);
    assert active == if need.embeddings || need.tools then DropCli(NarrowAll(Actives(c.providers), bs))
                     else NarrowAll(Actives(c.providers), bs);
    hide CandidatesFor, Works, NarrowAll, Actives, DropCli, FirstNamed, FindModel, BackendModels, BackendWeight, LastFor;
    var a := ActivesServe(c.providers, bs);
    ListedIs(bs);
    if need.embeddings || need.tools {
      var b;
      at, b := DropsCli(c, need, NarrowAll(Actives(c.providers), bs), a, Listed(bs));
    } else {
      at := a;
    }
    forall k | 0 <= k < |active|
      ensures active[k] == Narrow(c.providers[at[k]], bs)
    {
    }
    forall k | 0 <= k < |active|
      ensures ListedModels(bs, c.providers[at[k]].name, active[k].models)
      ensures forall j :: LastFor(bs, j, c.providers[at[k]].name) ==>
                && 0 <= j < |bs|
                && active[k].weight == if bs[j].weight.Some? then bs[j].weight.value else c.providers[at[k]].weight
    {
      NarrowIs(c.providers[at[k]], bs);
    }
  }

  lemma ListedIs(bs: seq<Backend>)
    ensures forall name :: name in Listed(bs) <==> Lists(bs, name)
  {
  }

  lemma NarrowIs(p: Provider, bs: seq<Backend>)
    ensures Narrow(p, bs) == p.(models := Narrow(p, bs).models, weight := Narrow(p, bs).weight)
    ensures ListedModels(bs, p.name, Narrow(p, bs).models)
    ensures forall j :: LastFor(bs, j, p.name) ==>
              && 0 <= j < |bs|
              && Narrow(p, bs).weight == if bs[j].weight.Some? then bs[j].weight.value else p.weight
  {
    hide BackendModels, BackendWeight;
    var at := BackendModelsAt(bs, p.name);
    LastForWeighs(bs, p.name, p.weight);
  }

  /** Any other request may go to every serving provider, as configured, in configuration order. */
  lemma OtherCandidates(c: Config, requested: string, need: Need) returns (at: seq<nat>)
    requires var name := Named(c, requested);
             name == "" || name == "chicco:auto" || forall i :: 0 <= i < |c.models| ==> c.models[i].id != name
    ensures var (active, strategy) := CandidatesFor(c, requested, need);
            && strategy == "order"
            && Stand(c, need, active, at, set p <- c.providers :: p.name)
            && (forall k :: 0 <= k < |active| ==> active[k] == c.providers[at[k]])
  {
    var name := Named(c, requested);
    FindModelIsFirst(c.models, name);
    assert Resolve(c.aliases, requested) == name;
    assert ActiveForModel(c, requested) == (Actives(c.providers), "order");
    var (active, strategy) := CandidatesFor(c, requested, need);
    var all := Actives(c.providers);
    assert active == if need.embeddings || need.tools then DropCli(all) else all;
    hide CandidatesFor, Actives, DropCli, FindModel, Works, IsActive;
    var a := ActivesAt(c.providers);
    var listed := set p <- c.providers :: p.name;
    forall n: nat | n < |c.providers| ensures n in a <==> Works(c.providers[n]) && c.providers[n].name in listed {
      ActiveWorks(c.providers[n]);
      assert c.providers[n] in c.providers;
    }
    if need.embeddings || need.tools {
      var b;
      at, b := DropsCli(c, need, all, a, listed);
    } else {
      at := a;
    }
  }

  // ---- aliases ----

  /** What an alias may point at, and may not be called. */
  ghost predicate IsModel(c: Config, name: string) {
    name == "chicco:auto" || exists i :: 0 <= i < |c.models| && c.models[i].id == name
  }

  /** An alias table is accepted exactly when every alias has a target that is a model, and
      none is called like one. */
  lemma AcceptedIff(c: Config)
    ensures Accepted(c) <==>
              forall name <- c.aliases :: c.aliases[name] != "" && IsModel(c, c.aliases[name]) && !IsModel(c, name)
  {
    forall name | name in c.aliases
      ensures AliasFault(c, name).None? <==>
                c.aliases[name] != "" && IsModel(c, c.aliases[name]) && !IsModel(c, name)
    {
      FaultIs(c, name);
    }
  }

  lemma FaultIs(c: Config, name: string)
    requires name in c.aliases
    ensures var target, fault := c.aliases[name], AliasFault(c, name);
            && (fault.None? <==> target != "" && IsModel(c, target) && !IsModel(c, name))
            && (fault == Some(NoTarget(name)) <==> target == "")
            && (fault == Some(Shadows(name)) <==> target != "" && IsModel(c, name))
            && (fault == Some(Dangling(name, target)) <==> target != "" && !IsModel(c, name) && !IsModel(c, target))
  {
  }
}
