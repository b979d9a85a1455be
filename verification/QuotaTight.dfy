/** The concurrency allowance in the quota bounds is really used up: some run reaches it. */
module QuotaTight {
  import opened Window
  import opened Rings
  import opened Recall
  import opened Quotas
  import opened Configs
  import opened Rotation
  import opened PickLaws
  import opened QuotaBound
  import opened QuotaProtocol

  function OnlyProvider(q: Quota): Provider {
    Provider("p", "key", ["m"], q, 1, "http")
  }

  /** One provider, one model, one quota. */
  function Solo(q: Quota): Config {
    Config([OnlyProvider(q)], [], map[], NO_QUOTA)
  }

  const ANY := Need(false, false)

  lemma SoloCandidates(q: Quota)
    ensures CandidatesFor(Solo(q), "chicco:auto", ANY) == ([OnlyProvider(q)], "order")
    ensures WellNamed(Solo(q)) && Governs(Solo(q), "p", q)
    ensures "p" in LogKeys(Solo(q))
  {
    var ps := [OnlyProvider(q)];
    assert ps[..0] == [];
    assert OnlyProvider(q) in Solo(q).providers;
    assert "key"[0] in "key" && !IsSpace("key"[0]);
    assert IsActive(OnlyProvider(q));
    assert Actives(ps) == Actives(ps[..0]) + [ps[0]] == ps;
    assert Resolve(Solo(q).aliases, "chicco:auto") == "chicco:auto";
  }

  /** `done` requests recorded, all at instant 0, `spent` tokens between them, and `flying`
      requests in flight. */
  ghost predicate At(s: System, q: Quota, done: nat, spent: nat, flying: nat) {
    && KeyOk(Solo(q), s, "p")
    && s.clock == 0 && s.r.blocked == map[]
    && |s.flight| == flying && (forall r <- s.flight :: r == Req("p", "m"))
    && |s.hist["p"]| == done && Tokens(s.hist["p"], -MINUTE) == spent && (forall e <- s.hist["p"] :: e.at == 0)
  }

  /** One limit a minute, of requests or of tokens, with room for one more. */
  ghost predicate Room(q: Quota, done: nat, spent: nat) {
    || (q == NO_QUOTA.(rpm := q.rpm) && done < q.rpm)
    || (q == NO_QUOTA.(tpm := q.tpm) && spent < q.tpm)
  }

  lemma {:induction false} SameRequests(flight: seq<Req>)
    requires forall r <- flight :: r == Req("p", "m")
    ensures InFlight(flight, "p") == |flight|
  {
    if flight != [] {
      var n := |flight| - 1;
      assert forall r <- flight[..n] :: r in flight;
      assert flight[n] in flight && Touches(flight[n], "p");
      SameRequests(flight[..n]);
    }
  }

  /** At most `done` requests recorded so far. */
  ghost predicate Within(s: System, done: nat) {
    "p" in s.hist && |s.hist["p"]| <= done && s.clock == 0
  }

  lemma AtCounts(s: System, q: Quota, done: nat, spent: nat, flying: nat)
    requires At(s, q, done, spent, flying)
    ensures Within(s, done)
    ensures Count(s.hist["p"], -MINUTE) == done && InFlight(s.flight, "p") == flying
  {
    CountBounds(s.hist["p"], -MINUTE);
    SameRequests(s.flight);
  }

  /** A provider that is ready only moves its cursor. */
  lemma ReadyOnlyMoves(s: State, p: Provider, now: int)
    requires p.models != [] && Ready(s, p, now)
    ensures Examine(s, p, now) ==
            (s.(modelIdx := s.modelIdx[p.name := NextIndex(s, p)]), Some(Choice(p, NextModel(s, p))))
  {
  }

  lemma OneLimitOpen(s: seq<Event>, q: Quota, done: nat, spent: nat)
    requires Room(q, done, spent) && Count(s, -MINUTE) <= done && Tokens(s, -MINUTE) <= spent
    ensures !Trips(s, q, 0)
  {
    CheckExact(s, q, 0);
    hide Trips, Tokens, Count;
  }

  lemma LogHasRoom(s: System, q: Quota, done: nat, spent: nat, flying: nat)
    requires At(s, q, done, spent, flying) && Room(q, done, spent)
    ensures "p" in s.r.logs && !Trips(s.r.logs["p"].stored, q, 0)
  {
    hide Trips, Tokens, Count, Lost, Holds, Room, SystemOk;
    AtCounts(s, q, done, spent, flying);
    KeysOf(Solo(q), s);
    HoldsMeasures(s.r.logs["p"], s.hist["p"], -DAY, -MINUTE);
    OneLimitOpen(s.r.logs["p"].stored, q, done, spent);
  }

  lemma KeysOf(c: Config, s: System)
    requires SystemOk(c, s)
    ensures LogsOk(s.r.logs) && s.r.logs.Keys == LogKeys(c) == s.hist.Keys && s.r.backendQuotas == BackendQuotas(c.models)
  {
  }

  lemma RoomMeansReady(s: System, q: Quota, done: nat, spent: nat, flying: nat)
    requires At(s, q, done, spent, flying) && Room(q, done, spent)
    ensures Ready(s.r, OnlyProvider(q), 0)
  {
    hide Trips, Room, SystemOk, ViewOk, Tokens;
    LogHasRoom(s, q, done, spent, flying);
    KeysOf(Solo(q), s);
  }

  /** The one provider is picked, and nothing but its cursor moves. */
  lemma PicksP(s: System, q: Quota, done: nat, spent: nat, flying: nat)
    requires At(s, q, done, spent, flying) && Room(q, done, spent)
    ensures var p, (r', choice) := OnlyProvider(q), Pick(s.r, [OnlyProvider(q)], "order", [OnlyProvider(q)], 0);
            r' == s.r.(modelIdx := r'.modelIdx) && choice == Some(Choice(p, "m"))
  {
    var p := OnlyProvider(q);
    RoomMeansReady(s, q, done, spent, flying);
    ReadyOnlyMoves(s.r, p, 0);
    hide Ready, NextIndex, ViewOk, Tokens;
    assert NextModel(s.r, p) == "m";
  }

  lemma ArriveFollows(s: System, q: Quota, each: int)
    requires var ps := [OnlyProvider(q)];
             Pick(s.r, ps, "order", ps, s.clock).1 == Some(Choice(OnlyProvider(q), "m"))
    ensures var ps := [OnlyProvider(q)];
            Follows(Solo(q), each, s, s.(r := Pick(s.r, ps, "order", ps, s.clock).0, flight := s.flight + [Req("p", "m")]))
  {
    hide CandidatesFor, Pick, Solo;
    var ps := [OnlyProvider(q)];
    SoloCandidates(q);
    var s' := s.(r := Pick(s.r, ps, "order", ps, s.clock).0, flight := s.flight + [Req("p", "m")]);
    assert Next(Solo(q), each, s, s', Arrive("chicco:auto", ANY, ps));
  }

  lemma Arrives(s: System, q: Quota, each: int, done: nat, spent: nat, flying: nat) returns (s': System)
    requires At(s, q, done, spent, flying) && Room(q, done, spent)
    ensures At(s', q, done, spent, flying + 1) && Follows(Solo(q), each, s, s')
  {
    hide CandidatesFor, Pick, Room, ViewOk, Tokens, Solo;
    var ps := [OnlyProvider(q)];
    SoloCandidates(q);
    PicksP(s, q, done, spent, flying);
    s' := s.(r := Pick(s.r, ps, "order", ps, 0).0, flight := s.flight + [Req("p", "m")]);
    hide Next, Follows;
    ArriveFollows(s, q, each);
    FollowsKeepsOk(Solo(q), each, s, s');
    FollowsKeepsKey(Solo(q), each, s, s', "p", q);
    hide SystemOk, KeyOk;
  }

  lemma CompletesAt(s: System, q: Quota, done: nat, spent: nat, flying: nat, tokens: nat)
    requires At(s, q, done, spent, flying) && flying > 0
    requires KeyOk(Solo(q), Completed(s, 0, tokens), "p")
    ensures At(Completed(s, 0, tokens), q, done + 1, spent + tokens, flying - 1)
  {
    hide ViewOk, SystemOk, Completed, Tokens, Solo, Touches;
    SoloCandidates(q);
    KeysOf(Solo(q), s);
    RecordedOnce(Solo(q), s, 0, tokens, "p");
    CompletedFrame(s, 0, tokens);
    InFlightWithout(s.flight, 0, "p");
    assert s.flight[0] in s.flight;
    TouchesP();
    AppendMeasures(s.hist["p"], Event(0, tokens), -MINUTE, 0, MINUTE);
  }

  lemma TouchesP()
    ensures Touches(Req("p", "m"), "p")
  {
  }

  lemma Completes(s: System, q: Quota, each: int, done: nat, spent: nat, flying: nat, tokens: nat) returns (s': System)
    requires At(s, q, done, spent, flying) && flying > 0 && tokens <= each
    ensures At(s', q, done + 1, spent + tokens, flying - 1) && Follows(Solo(q), each, s, s')
  {
    hide ViewOk, Completed, Tokens, Solo, Follows, Next;
    SoloCandidates(q);
    s' := Completed(s, 0, tokens);
    CompleteFollows(Solo(q), each, s, tokens);
    FollowsKeepsOk(Solo(q), each, s, s');
    FollowsKeepsKey(Solo(q), each, s, s', "p", q);
    hide SystemOk, KeyOk;
    CompletesAt(s, q, done, spent, flying, tokens);
  }

  lemma CompleteFollows(c: Config, each: int, s: System, tokens: nat)
    requires SystemOk(c, s) && s.flight != [] && tokens <= each
    ensures Follows(c, each, s, Completed(s, 0, tokens))
  {
    hide Completed;
    assert Next(c, each, s, Completed(s, 0, tokens), Complete(0, tokens));
  }

  /** A run so far, never with more than `most` in flight nor more recorded than now. */
  ghost predicate Reaches(run: seq<System>, q: Quota, each: int, most: nat, done: nat, spent: nat, flying: nat) {
    && IsRun(Solo(q), each, run)
    && (forall j :: 0 <= j < |run| ==> Concurrent(run[j], "p", most) && Within(run[j], done))
    && At(run[|run| - 1], q, done, spent, flying)
  }

  lemma ReachOne(run: seq<System>, q: Quota, each: int, most: nat, done: nat, spent: nat, flying: nat,
                 s: System, done': nat, spent': nat, flying': nat)
    requires Reaches(run, q, each, most, done, spent, flying)
    requires Follows(Solo(q), each, run[|run| - 1], s)
    requires At(s, q, done', spent', flying') && flying' <= most && done <= done'
    ensures Reaches(run + [s], q, each, most, done', spent', flying')
  {
    hide Follows, At, Init, Solo;
    AtCounts(s, q, done', spent', flying');
    var run' := run + [s];
    forall i | 0 < i < |run'| ensures NextAt(Solo(q), each, run', i) {
      if i < |run| {
        assert NextAt(Solo(q), each, run, i);
      }
    }
    forall j | 0 <= j < |run'| ensures Concurrent(run'[j], "p", most) && Within(run'[j], done') {
      if j < |run| {
        assert Within(run[j], done);
      }
    }
  }

  lemma StartsAt(q: Quota) returns (s: System)
    ensures Init(Solo(q), s) && At(s, q, 0, 0, 0)
  {
    hide Solo, ViewOk, SystemOk;
    SoloCandidates(q);
    var c := Solo(q);
    s := System(New(c), map k | k in LogKeys(c) :: [], [], 0);
    InitKeyOk(c, s, "p", q);
  }

  lemma StartsEmpty(q: Quota, each: int, most: nat) returns (run: seq<System>)
    ensures Reaches(run, q, each, most, 0, 0, 0)
  {
    hide At, Init, Solo;
    var s := StartsAt(q);
    AtCounts(s, q, 0, 0, 0);
    run := [s];
  }

  lemma {:induction false} ArriveMany(run: seq<System>, q: Quota, each: int, most: nat, done: nat, spent: nat, n: nat)
    returns (run': seq<System>)
    requires Reaches(run, q, each, most, done, spent, 0) && Room(q, done, spent) && n <= most
    ensures Reaches(run', q, each, most, done, spent, n)
  {
    hide At, Follows, Init, NextAt, Concurrent, Solo, Within, Room;
    if n == 0 {
      run' := run;
    } else {
      var before := ArriveMany(run, q, each, most, done, spent, n - 1);
      var s := Arrives(before[|before| - 1], q, each, done, spent, n - 1);
      ReachOne(before, q, each, most, done, spent, n - 1, s, done, spent, n);
      run' := before + [s];
    }
  }

  lemma {:induction false} CompleteMany(run: seq<System>, q: Quota, each: int, most: nat, done: nat, spent: nat,
                                        flying: nat, tokens: nat, n: nat) returns (run': seq<System>)
    requires Reaches(run, q, each, most, done, spent, flying) && n <= flying <= most && tokens <= each
    ensures Reaches(run', q, each, most, done + n, spent + Weight(n, tokens), flying - n)
  {
    hide At, Follows, Init, NextAt, Concurrent, Solo, Within;
    if n == 0 {
      run' := run;
    } else {
      var before := CompleteMany(run, q, each, most, done, spent, flying, tokens, n - 1);
      var sofar := spent + Weight(n - 1, tokens);
      var s := Completes(before[|before| - 1], q, each, done + (n - 1), sofar, flying - (n - 1), tokens);
      ReachOne(before, q, each, most, done + (n - 1), sofar, flying - (n - 1), s, done + n, sofar + tokens, flying - n);
      run' := before + [s];
    }
  }

  /** One request from pick to record. */
  lemma ServeOne(run: seq<System>, q: Quota, each: int, most: nat, done: nat, spent: nat, tokens: nat)
    returns (run': seq<System>)
    requires Reaches(run, q, each, most, done, spent, 0) && Room(q, done, spent) && most > 0 && tokens <= each
    ensures Reaches(run', q, each, most, done + 1, spent + tokens, 0)
  {
    hide Reaches;
    var arrived := ArriveMany(run, q, each, most, done, spent, 1);
    run' := CompleteMany(arrived, q, each, most, done, spent, 1, tokens, 1);
    assert Weight(1, tokens) == tokens;
  }

  // ---- the request bound ----

  function PerMinute(cap: nat): Quota { NO_QUOTA.(rpm := cap) }

  /** Requests served one after another, up to one short of the cap. */
  lemma {:induction false} ServeMany(cap: nat, most: nat, n: nat) returns (run: seq<System>)
    requires n < cap && most > 0
    ensures Reaches(run, PerMinute(cap), 0, most, n, 0, 0)
  {
    hide Reaches;
    if n == 0 {
      run := StartsEmpty(PerMinute(cap), 0, most);
    } else {
      var before := ServeMany(cap, most, n - 1);
      run := ServeOne(before, PerMinute(cap), 0, most, n - 1, 0, 0);
    }
  }

  /** For every cap and every concurrency there is a run that records exactly
      cap + most - 1 requests inside one minute: the bound cannot be improved. */
  lemma BoundIsReached(cap: nat, most: nat) returns (run: seq<System>)
    requires cap > 0 && most > 0
    ensures IsRun(Solo(PerMinute(cap)), 0, run)
    ensures forall j :: 0 <= j < |run| ==> Concurrent(run[j], "p", most)
    ensures var s := run[|run| - 1];
            "p" in s.hist && CountIn(s.hist["p"], -1, MINUTE) == cap + most - 1
  {
    hide Reaches, Room;
    RoomLeft(cap, 0);
    var q := PerMinute(cap);
    var served := ServeMany(cap, most, cap - 1);
    var arrived := ArriveMany(served, q, 0, most, cap - 1, 0, most);
    run := CompleteMany(arrived, q, 0, most, cap - 1, 0, most, 0, most);
    ReachesParts(run, q, 0, most, cap - 1 + most, Weight(most, 0), 0);
  }

  lemma RoomLeft(cap: nat, done: nat)
    requires cap > 0
    ensures Room(PerMinute(cap), cap - 1, 0)
    ensures Room(TokensPerMinute(cap), done, cap - 1)
  {
  }

  lemma ReachesParts(run: seq<System>, q: Quota, each: int, most: nat, done: nat, spent: nat, flying: nat)
    requires Reaches(run, q, each, most, done, spent, flying)
    ensures IsRun(Solo(q), each, run)
    ensures forall j :: 0 <= j < |run| ==> Concurrent(run[j], "p", most)
    ensures done <= MAX_EVENTS ==> forall j :: 0 <= j < |run| ==> RingHoldsWindow(run[j], "p", MINUTE)
    ensures var s := run[|run| - 1];
            "p" in s.hist && CountIn(s.hist["p"], -1, MINUTE) == done && TokensIn(s.hist["p"], -1, MINUTE) == spent
  {
    AllInOneMinute(run[|run| - 1].hist["p"]);
    hide Solo, KeyOk, Init, NextAt, Concurrent, Tokens, TokensIn, CountIn, Lost;
    if done <= MAX_EVENTS {
      forall j | 0 <= j < |run| ensures RingHoldsWindow(run[j], "p", MINUTE) {
        assert Within(run[j], done);
        FewLoseNothing(run[j].hist["p"]);
      }
    }
  }

  lemma FewLoseNothing(h: seq<Event>)
    requires |h| <= MAX_EVENTS
    ensures forall cutoff :: Tokens(Lost(h), cutoff) == 0
  {
    assert Lost(h) == [];
  }

  lemma {:induction false} AllInOneMinute(h: seq<Event>)
    requires forall e <- h :: e.at == 0
    ensures CountIn(h, -1, MINUTE) == |h| && TokensIn(h, -1, MINUTE) == Tokens(h, -MINUTE)
  {
    if h != [] {
      AllInOneMinute(h[..|h| - 1]);
    }
  }

  // ---- the token bound ----

  function TokensPerMinute(cap: nat): Quota { NO_QUOTA.(tpm := cap) }

  /** How many requests of at most `each` tokens it takes to spend `n`. */
  function Requests(n: nat, each: nat): nat
    requires each > 0
  {
    if n == 0 then 0 else if n <= each then 1 else Requests(n - each, each) + 1
  }

  /** Exactly `n` tokens, spent in as few requests as possible. */
  lemma {:induction false} Spend(cap: nat, each: nat, most: nat, n: nat) returns (run: seq<System>)
    requires n < cap && each > 0 && most > 0
    ensures Reaches(run, TokensPerMinute(cap), each, most, Requests(n, each), n, 0)
    decreases n
  {
    hide Reaches;
    if n == 0 {
      run := StartsEmpty(TokensPerMinute(cap), each, most);
    } else {
      var last := Min(n, each);
      var before := Spend(cap, each, most, n - last);
      run := ServeOne(before, TokensPerMinute(cap), each, most, Requests(n - last, each), n - last, last);
    }
  }

  /** The token bound is reached as well: some run spends exactly cap - 1 + most * each
      tokens inside one minute, and loses none of it as long as the ring is large enough
      for the requests that takes. */
  lemma TokenBoundIsReached(cap: nat, each: nat, most: nat) returns (run: seq<System>)
    requires cap > 0 && each > 0 && most > 0
    ensures IsRun(Solo(TokensPerMinute(cap)), each, run)
    ensures forall j :: 0 <= j < |run| ==> Concurrent(run[j], "p", most)
    ensures Requests(cap - 1, each) + most <= MAX_EVENTS ==>
              forall j :: 0 <= j < |run| ==> RingHoldsWindow(run[j], "p", MINUTE)
    ensures var s := run[|run| - 1];
            "p" in s.hist && TokensIn(s.hist["p"], -1, MINUTE) == cap - 1 + most * each
  {
    hide Reaches, Room;
    var q, n := TokensPerMinute(cap), Requests(cap - 1, each);
    RoomLeft(cap, n);
    var served := Spend(cap, each, most, cap - 1);
    var arrived := ArriveMany(served, q, each, most, n, cap - 1, most);
    run := CompleteMany(arrived, q, each, most, n, cap - 1, most, each, most);
    ReachesParts(run, q, each, most, n + most, cap - 1 + Weight(most, each), 0);
    WeightIsProduct(most, each);
  }
}
