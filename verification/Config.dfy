/** Configured providers and virtual models, and the candidate set for a request. */
module Configs {
  import opened Quotas

  datatype Option<+T> = None | Some(value: T)

  /** A table entry, or `absent` when there is none. */
  function Get<V>(m: map<string, V>, key: string, absent: V): V {
    if key in m then m[key] else absent
  }

  datatype Provider = Provider(
    name: string, apiKey: string, models: seq<string>, quota: Quota, weight: int, kind: string)

  datatype Backend = Backend(provider: string, model: string, quota: Option<Quota>, weight: Option<int>)

  datatype Model = Model(id: string, strategy: string, backends: seq<Backend>)

  datatype Config = Config(
    providers: seq<Provider>, models: seq<Model>, aliases: map<string, string>, quota: Quota)

  /** The key of the log that combines every provider. */
  const GLOBAL := "__global__"

  /** The key of one model on one provider. */
  function ModelKey(provider: string, model: string): string {
    provider + "/" + model
  }

  /** A provider name as configs write them: it never looks like a model key or the
      global key, so the three kinds of key cannot collide. */
  predicate PlainName(name: string) {
    '/' !in name && name != GLOBAL
  }

  lemma ModelKeyIsNotPlain(provider: string, model: string)
    ensures !PlainName(ModelKey(provider, model))
    ensures ModelKey(provider, model) != GLOBAL
  {
    assert ModelKey(provider, model)[|provider|] == '/';
    assert forall c <- GLOBAL :: c != '/';
  }

  lemma ModelKeyInjective(p1: string, m1: string, p2: string, m2: string)
    requires PlainName(p1) && PlainName(p2)
    requires ModelKey(p1, m1) == ModelKey(p2, m2)
    ensures p1 == p2 && m1 == m2
  {
    var k := ModelKey(p1, m1);
    assert k[|p1|] == '/' && k[|p2|] == '/';
    assert forall i :: 0 <= i < |p1| ==> k[i] == p1[i] && p1[i] in p1;
    assert forall i :: 0 <= i < |p2| ==> k[i] == p2[i] && p2[i] in p2;
    assert |p1| == |p2|;
    assert p1 == k[..|p1|] && p2 == k[..|p2|];
    assert m1 == k[|p1| + 1..] && m2 == k[|p2| + 1..];
  }

  predicate IsSpace(c: char) {
    c in {' ', '\t', '\n', '\r', '\U{000B}', '\U{000C}', '\U{0085}', '\U{00A0}'}
  }

  predicate Blank(s: string) {
    forall c <- s :: IsSpace(c)
  }

  predicate IsActive(p: Provider) {
    p.models != [] && (p.kind == "cli" || !Blank(p.apiKey))
  }

  function Actives(ps: seq<Provider>): seq<Provider> {
    if ps == [] then []
    else Actives(ps[..|ps| - 1]) + (if IsActive(ps[|ps| - 1]) then [ps[|ps| - 1]] else [])
  }

  /** The first virtual model with this id. */
  function FindModel(ms: seq<Model>, id: string): Option<Model> {
    if ms == [] then None
    else if ms[0].id == id then Some(ms[0])
    else FindModel(ms[1..], id)
  }

  /** The models `bs` names on one provider, in backend-list order. */
  function BackendModels(bs: seq<Backend>, name: string): seq<string> {
    if bs == [] then []
    else
      var b := bs[|bs| - 1];
      BackendModels(bs[..|bs| - 1], name) + (if b.provider == name && b.model != "" then [b.model] else [])
  }

  /** The weight the last backend entry of a provider gives it, or its own. */
  function BackendWeight(bs: seq<Backend>, name: string, fallback: int): int {
    if bs == [] then fallback
    else
      var b := bs[|bs| - 1];
      if b.provider == name then (if b.weight.Some? then b.weight.value else fallback)
      else BackendWeight(bs[..|bs| - 1], name, fallback)
  }

  function Narrow(p: Provider, bs: seq<Backend>): Provider {
    p.(models := BackendModels(bs, p.name), weight := BackendWeight(bs, p.name, p.weight))
  }

  /** Active providers that `bs` names, in provider order, each cut down to its backend models. */
  function NarrowAll(ps: seq<Provider>, bs: seq<Backend>): seq<Provider> {
    if ps == [] then []
    else
      var p := ps[|ps| - 1];
      NarrowAll(ps[..|ps| - 1], bs) + (if BackendModels(bs, p.name) != [] then [Narrow(p, bs)] else [])
  }

  function Resolve(aliases: map<string, string>, requested: string): string {
    if requested in aliases then aliases[requested] else requested
  }

  /** Who may serve a request for an already resolved name, and in which strategy. */
  function Routing(providers: seq<Provider>, models: seq<Model>, name: string): (seq<Provider>, string) {
    var all := Actives(providers);
    var vm := FindModel(models, name);
    if name == "chicco:auto" || name == "" || vm.None? then (all, "order")
    else (NarrowAll(all, vm.value.backends), vm.value.strategy)
  }

  function ActiveForModel(c: Config, requested: string): (seq<Provider>, string) {
    Routing(c.providers, c.models, Resolve(c.aliases, requested))
  }

  /** What a request needs that a CLI provider cannot give. */
  datatype Need = Need(embeddings: bool, tools: bool)

  function DropCli(ps: seq<Provider>): seq<Provider> {
    if ps == [] then []
    else DropCli(ps[..|ps| - 1]) + (if ps[|ps| - 1].kind == "cli" then [] else [ps[|ps| - 1]])
  }

  function CandidatesFor(c: Config, requested: string, need: Need): (seq<Provider>, string) {
    var (ps, strategy) := ActiveForModel(c, requested);
    (if need.embeddings || need.tools then DropCli(ps) else ps, strategy)
  }

  // ---- what the candidate set guarantees ----

  /** `p` is a configured provider, possibly with its model list and weight replaced. */
  ghost predicate ComesFrom(p: Provider, c: Config) {
    exists o <- c.providers ::
      p == o.(models := p.models, weight := p.weight)
  }

  ghost predicate Usable(ps: seq<Provider>, c: Config) {
    forall p <- ps :: p.models != [] && ComesFrom(p, c)
  }

  lemma {:induction false} ActivesUsable(ps: seq<Provider>)
    ensures forall p <- Actives(ps) :: p in ps && IsActive(p)
    ensures forall p <- ps :: IsActive(p) ==> p in Actives(ps)
  {
    if ps != [] {
      ActivesUsable(ps[..|ps| - 1]);
      assert ps == ps[..|ps| - 1] + [ps[|ps| - 1]];
    }
  }

  lemma {:induction false} NarrowAllUsable(ps: seq<Provider>, bs: seq<Backend>)
    ensures forall p <- NarrowAll(ps, bs) ::
              p.models == BackendModels(bs, p.name) != []
              && exists o <- ps :: p == o.(models := p.models, weight := p.weight)
  {
    if ps != [] {
      NarrowAllUsable(ps[..|ps| - 1], bs);
      assert ps == ps[..|ps| - 1] + [ps[|ps| - 1]];
    }
  }

  lemma {:induction false} DropCliKeeps(ps: seq<Provider>)
    ensures forall p :: p in DropCli(ps) <==> p in ps && p.kind != "cli"
  {
    if ps != [] {
      DropCliKeeps(ps[..|ps| - 1]);
      assert ps == ps[..|ps| - 1] + [ps[|ps| - 1]];
    }
  }

  /** Every candidate is a configured provider with at least one model, so the cursor
      modulus is never zero; embeddings and tool requests never see a CLI provider. */
  lemma CandidatesUsable(c: Config, requested: string, need: Need)
    ensures Usable(CandidatesFor(c, requested, need).0, c)
    ensures need.embeddings || need.tools ==>
              forall p <- CandidatesFor(c, requested, need).0 :: p.kind != "cli"
  {
    var name := Resolve(c.aliases, requested);
    var all := Actives(c.providers);
    ActivesUsable(c.providers);
    forall p | p in all ensures p.models != [] && ComesFrom(p, c) {
      assert p in c.providers && p == p.(models := p.models, weight := p.weight);
    }
    var vm := FindModel(c.models, name);
    if vm.Some? {
      NarrowAllUsable(all, vm.value.backends);
    }
    DropCliKeeps(ActiveForModel(c, requested).0);
  }

  /** A provider's narrowed list is exactly the models the backend list names on it. */
  lemma {:induction false} BackendModelsExact(bs: seq<Backend>, name: string, model: string)
    ensures model in BackendModels(bs, name) <==>
            model != "" && exists b <- bs :: b.provider == name && b.model == model
  {
    if bs != [] {
      var init, b := bs[..|bs| - 1], bs[|bs| - 1];
      assert bs == init + [b];
      BackendModelsExact(init, name, model);
    }
  }

  /** Candidates of a virtual model keep the configuration's provider order, whatever the
      order of its backend list, and every provider the list names is among them. `at` says
      which configured provider each candidate is. */
  lemma {:induction false} NarrowAllInConfigOrder(ps: seq<Provider>, bs: seq<Backend>) returns (at: seq<nat>)
    ensures |at| == |NarrowAll(ps, bs)|
    ensures forall k :: 0 <= k < |at| ==> at[k] < |ps| && NarrowAll(ps, bs)[k] == Narrow(ps[at[k]], bs)
    ensures forall j, k :: 0 <= j < k < |at| ==> at[j] < at[k]
    ensures forall i: nat :: i < |ps| ==> (i in at <==> BackendModels(bs, ps[i].name) != [])
  {
    hide BackendModels, Narrow;
    if ps == [] {
      at := [];
    } else {
      var n := |ps| - 1;
      var init := NarrowAllInConfigOrder(ps[..n], bs);
      var kept := BackendModels(bs, ps[n].name) != [];
      assert NarrowAll(ps, bs) == NarrowAll(ps[..n], bs) + (if kept then [Narrow(ps[n], bs)] else []);
      hide NarrowAll;
      at := init + (if kept then [n] else []);
      forall i: nat | i < |ps| ensures i in at <==> BackendModels(bs, ps[i].name) != [] {
        if i < n {
          assert ps[..n][i] == ps[i];
        }
      }
    }
  }

  // ---- aliases ----

  predicate KnownModel(models: seq<Model>, name: string) {
    name == "chicco:auto" || exists i :: 0 <= i < |models| && models[i].id == name
  }

  datatype AliasError = NoTarget(name: string) | Shadows(name: string) | Dangling(name: string, target: string)

  function AliasFault(c: Config, name: string): Option<AliasError>
    requires name in c.aliases
  {
    if c.aliases[name] == "" then Some(NoTarget(name))
    else if KnownModel(c.models, name) then Some(Shadows(name))
    else if !KnownModel(c.models, c.aliases[name]) then Some(Dangling(name, c.aliases[name]))
    else None
  }

  /** The alias table `validateAliases` lets through. */
  ghost predicate Accepted(c: Config) {
    forall name <- c.aliases :: AliasFault(c, name).None?
  }

  /** `a` sorts before `b`, or is `b`. */
  predicate Before(a: string, b: string) {
    a == [] || (b != [] && (a[0] < b[0] || (a[0] == b[0] && Before(a[1..], b[1..]))))
  }

  lemma {:induction false} BeforeTotal(a: string, b: string)
    ensures Before(a, b) || Before(b, a)
  {
    if a != [] && b != [] && a[0] == b[0] {
      BeforeTotal(a[1..], b[1..]);
    }
  }

  lemma {:induction false} BeforeTransitive(a: string, b: string, c: string)
    requires Before(a, b) && Before(b, c)
    ensures Before(a, c)
  {
    if a != [] && a[0] == b[0] && b[0] == c[0] {
      BeforeTransitive(a[1..], b[1..], c[1..]);
    }
  }

  ghost predicate Ascending(names: seq<string>) {
    forall i, j :: 0 <= i < j < |names| ==> Before(names[i], names[j])
  }

  function Insert(names: seq<string>, name: string): (r: seq<string>)
    requires Ascending(names)
    ensures Ascending(r) && forall n :: n in r <==> n in names || n == name
  {
    if names == [] then [name]
    else if Before(name, names[0]) then
      FirstIsLeast(names, name);
      [name] + names
    else
      BeforeTotal(name, names[0]);
      assert names == [names[0]] + names[1..];
      assert forall n <- names[1..] :: Before(names[0], n);
      var rest := Insert(names[1..], name);
      assert forall i :: 0 <= i < |rest| ==> rest[i] in rest;
      [names[0]] + rest
  }

  lemma FirstIsLeast(names: seq<string>, name: string)
    requires Ascending(names) && names != [] && Before(name, names[0])
    ensures forall i :: 0 <= i < |names| ==> Before(name, names[i])
  {
    forall i | 0 < i < |names| ensures Before(name, names[i]) {
      BeforeTransitive(name, names[0], names[i]);
    }
  }

  method SortNames(names: set<string>) returns (out: seq<string>)
    ensures Ascending(out) && forall n :: n in out <==> n in names
  {
    out := [];
    var left := names;
    while left != {}
      invariant left <= names && Ascending(out)
      invariant forall n :: n in out <==> n in names && n !in left
    {
      var n :| n in left;
      left := left - {n};
      out := Insert(out, n);
    }
  }

  /** Refuses an alias that points at nothing, or hides a model; of several, the first by name. */
  method ValidateAliases(c: Config) returns (fault: Option<AliasError>)
    ensures fault.None? <==> Accepted(c)
    ensures fault.Some? ==>
              exists name <- c.aliases ::
                && fault == AliasFault(c, name)
                && forall other <- c.aliases :: AliasFault(c, other).Some? ==> Before(name, other)
  {
    var names := SortNames(c.aliases.Keys);
    for i := 0 to |names|
      invariant forall j :: 0 <= j < i ==> AliasFault(c, names[j]).None?
    {
      var name := names[i];
      fault := AliasFault(c, name);
      if fault.Some? {
        assert name in c.aliases.Keys;
        forall other <- c.aliases | AliasFault(c, other).Some? ensures Before(name, other) {
          assert other in names;
          BeforeTotal(name, name);
        }
        return;
      }
    }
    assert forall name <- c.aliases :: name in names;
    fault := None;
  }

  lemma {:induction false} FindModelFinds(ms: seq<Model>, id: string)
    ensures FindModel(ms, id).Some? <==> exists i :: 0 <= i < |ms| && ms[i].id == id
  {
    if ms != [] && ms[0].id != id {
      FindModelFinds(ms[1..], id);
      if i :| 0 <= i < |ms| && ms[i].id == id {
        assert ms[1..][i - 1].id == id;
      }
      if j :| 0 <= j < |ms[1..]| && ms[1..][j].id == id {
        assert ms[j + 1].id == id;
      }
    }
  }

  /** With an accepted table, resolving twice is resolving once, an alias routes exactly
      as its target does, and it never falls through to full rotation by accident. */
  lemma AliasRoutesLikeTarget(c: Config, requested: string, need: Need)
    requires Accepted(c)
    ensures Resolve(c.aliases, Resolve(c.aliases, requested)) == Resolve(c.aliases, requested)
    ensures requested in c.aliases ==>
              var target := c.aliases[requested];
              CandidatesFor(c, requested, need) == CandidatesFor(c, target, need)
              && (target == "chicco:auto" || FindModel(c.models, target).Some?)
  {
    if requested in c.aliases {
      assert AliasFault(c, requested).None?;
      var target := c.aliases[requested];
      FindModelFinds(c.models, target);
      assert target in c.aliases ==> AliasFault(c, target).None?;
    }
  }
}
