/** Session spend per model and per provider, and the requests it could not price.
    Money is exact here: reals stand for the program's floats. */
module Costs {
  import opened Configs
  import opened Pieces
  import opened Tables

  datatype Price = Price(inputPerMillion: real, outputPerMillion: real)

  // ---- pricing ----

  /** The price of one request, or none for a model without one. A bare total is charged
      at the output rate. */
  function Cost(prices: map<string, Price>, model: string, u: Usage): Option<real> {
    if model !in prices then None
    else
      var (input, output) := if u.prompt == 0 && u.completion == 0 then (0, u.total) else (u.prompt, u.completion);
      Some(input as real / 1000000.0 * prices[model].inputPerMillion
           + output as real / 1000000.0 * prices[model].outputPerMillion)
  }

  /** Charging a bare total at the output rate never understates what a split of it would
      have cost, exactly when output is not the cheaper side. */
  lemma BareTotalIsSafeIff(prices: map<string, Price>, model: string)
    requires model in prices
    ensures (forall input: nat, output: nat :: SafeFor(prices, model, input, output))
            <==> prices[model].outputPerMillion >= prices[model].inputPerMillion
  {
    var price := prices[model];
    if price.outputPerMillion >= price.inputPerMillion {
      forall input: nat, output: nat ensures SafeFor(prices, model, input, output) {
        SplitGap(input, output, price);
        Scaled(input as real / 1000000.0, price.outputPerMillion - price.inputPerMillion);
      }
    } else {
      SplitGap(1, 0, price);
      assert !SafeFor(prices, model, 1, 0);
    }
  }

  /** A reply of `input` and `output` tokens costs no more than their bare total. */
  predicate SafeFor(prices: map<string, Price>, model: string, input: nat, output: nat)
    requires model in prices
  {
    Cost(prices, model, Usage(input, output, input + output)).value
    <= Cost(prices, model, Usage(0, 0, input + output)).value
  }

  lemma SplitGap(input: nat, output: nat, price: Price)
    ensures (input + output) as real / 1000000.0 * price.outputPerMillion
            - (input as real / 1000000.0 * price.inputPerMillion + output as real / 1000000.0 * price.outputPerMillion)
            == input as real / 1000000.0 * (price.outputPerMillion - price.inputPerMillion)
  {
    assert (input + output) as real == input as real + output as real;
    var a, b := input as real / 1000000.0, output as real / 1000000.0;
    assert (input + output) as real / 1000000.0 == a + b;
    assert (a + b) * price.outputPerMillion == a * price.outputPerMillion + b * price.outputPerMillion;
  }

  /** Each prompt token costs the input rate and each completion token the output rate, by
      the million; a bare total is all output. */
  lemma RatesApply(prices: map<string, Price>, model: string, u: Usage)
    ensures Cost(prices, model, u).Some? <==> model in prices
    ensures model in prices && (u.prompt != 0 || u.completion != 0) ==>
              1000000.0 * Cost(prices, model, u).value
              == u.prompt as real * prices[model].inputPerMillion + u.completion as real * prices[model].outputPerMillion
    ensures model in prices && u.prompt == 0 && u.completion == 0 ==>
              1000000.0 * Cost(prices, model, u).value == u.total as real * prices[model].outputPerMillion
  {
    if model in prices {
      var (input, output) := if u.prompt == 0 && u.completion == 0 then (0, u.total) else (u.prompt, u.completion);
      PerMillion(input as real, prices[model].inputPerMillion);
      PerMillion(output as real, prices[model].outputPerMillion);
    }
  }

  lemma PerMillion(n: real, rate: real)
    ensures 1000000.0 * (n / 1000000.0 * rate) == n * rate
  {
    var x := n / 1000000.0;
    assert n == 1000000.0 * x;
    assert 1000000.0 * (x * rate) == (1000000.0 * x) * rate;
  }

  datatype Ledger = Ledger(
    prices: map<string, Price>, byModel: map<string, real>, byProvider: map<string, real>,
    unpriced: map<string, int>, requests: int)

  function Empty(prices: map<string, Price>): Ledger {
    Ledger(prices, map[], map[], map[], 0)
  }

  datatype Charge = Charge(provider: string, model: string, usage: Usage)

  function Record(l: Ledger, c: Charge): Ledger {
    var cost := Cost(l.prices, c.model, c.usage);
    if cost.None? then
      l.(requests := l.requests + 1, unpriced := l.unpriced[c.model := Get(l.unpriced, c.model, 0) + 1])
    else
      l.(requests := l.requests + 1,
         byModel := l.byModel[c.model := Get(l.byModel, c.model, 0.0) + cost.value],
         byProvider := l.byProvider[c.provider := Get(l.byProvider, c.provider, 0.0) + cost.value])
  }

  function RecordAll(prices: map<string, Price>, cs: seq<Charge>): Ledger {
    if cs == [] then Empty(prices) else Record(RecordAll(prices, cs[..|cs| - 1]), cs[|cs| - 1])
  }

  /** What the priced requests cost together, and how many they were. */
  function Spent(prices: map<string, Price>, cs: seq<Charge>): real {
    if cs == [] then 0.0
    else
      var cost := Cost(prices, cs[|cs| - 1].model, cs[|cs| - 1].usage);
      Spent(prices, cs[..|cs| - 1]) + (if cost.Some? then cost.value else 0.0)
  }

  function Priced(prices: map<string, Price>, cs: seq<Charge>): nat {
    if cs == [] then 0
    else Priced(prices, cs[..|cs| - 1]) + (if cs[|cs| - 1].model in prices then 1 else 0)
  }

  /** Spend is conserved over every run: the two breakdowns add up to the same exact sum,
      and no request is left uncounted. */
  lemma {:induction false} SpendIsConserved(prices: map<string, Price>, cs: seq<Charge>)
    ensures var l := RecordAll(prices, cs);
            && l.prices == prices
            && Sum(l.byModel) == Spent(prices, cs)
            && Sum(l.byProvider) == Spent(prices, cs)
            && l.requests == |cs| == Priced(prices, cs) + Tally(l.unpriced)
  {
    if cs != [] {
      var init, c := cs[..|cs| - 1], cs[|cs| - 1];
      hide Cost, Sum, Tally, Record;
      SpendIsConserved(prices, init);
      RecordAdds(RecordAll(prices, init), c);
      PricedIff(prices, c);
    } else {
      assert RecordAll(prices, cs) == Empty(prices);
    }
  }

  lemma RecordAdds(l: Ledger, c: Charge)
    ensures var l', cost := Record(l, c), Cost(l.prices, c.model, c.usage);
            var spent := if cost.Some? then cost.value else 0.0;
            && l'.prices == l.prices && l'.requests == l.requests + 1
            && Sum(l'.byModel) == Sum(l.byModel) + spent
            && Sum(l'.byProvider) == Sum(l.byProvider) + spent
            && Tally(l'.unpriced) == Tally(l.unpriced) + (if cost.Some? then 0 else 1)
  {
    hide Cost, Sum, Tally;
    var cost := Cost(l.prices, c.model, c.usage);
    if cost.Some? {
      SumAdd(l.byModel, c.model, cost.value);
      SumAdd(l.byProvider, c.provider, cost.value);
    } else {
      TallyAdd(l.unpriced, c.model, 1);
    }
  }

  /** What the priced requests of one provider, or for one model, cost. */
  function SpentOn(prices: map<string, Price>, cs: seq<Charge>, provider: bool, key: string): real {
    if cs == [] then 0.0
    else
      var c := cs[|cs| - 1];
      var cost := Cost(prices, c.model, c.usage);
      SpentOn(prices, cs[..|cs| - 1], provider, key)
      + (if cost.Some? && (if provider then c.provider else c.model) == key then cost.value else 0.0)
  }

  /** How many requests for one model had no price. */
  function UnpricedFor(prices: map<string, Price>, cs: seq<Charge>, model: string): nat {
    if cs == [] then 0
    else
      UnpricedFor(prices, cs[..|cs| - 1], model)
      + (if cs[|cs| - 1].model == model && model !in prices then 1 else 0)
  }

  /** Each provider and each model is charged for its own requests and no others', and each
      unpriced request is counted on its own model. */
  lemma {:induction false} ChargedWhereDue(prices: map<string, Price>, cs: seq<Charge>, key: string)
    ensures var l := RecordAll(prices, cs);
            && Get(l.byProvider, key, 0.0) == SpentOn(prices, cs, true, key)
            && Get(l.byModel, key, 0.0) == SpentOn(prices, cs, false, key)
            && Get(l.unpriced, key, 0) == UnpricedFor(prices, cs, key)
  {
    if cs != [] {
      hide Cost;
      var init, c := cs[..|cs| - 1], cs[|cs| - 1];
      ChargedWhereDue(prices, init, key);
      SpendIsConserved(prices, init);
      PricedIff(prices, c);
    }
  }

  lemma PricedIff(prices: map<string, Price>, c: Charge)
    ensures Cost(prices, c.model, c.usage).Some? <==> c.model in prices
  {
  }

  // ---- rounding ----

  /** Truncation toward zero, as a float-to-integer conversion does. */
  function Truncate(v: real): int {
    if v >= 0.0 then v.Floor else -((-v).Floor)
  }

  function Round4(v: real): real {
    Truncate(v * 10000.0 + 0.5) as real / 10000.0
  }

  lemma RoundsToNearest(v: real)
    requires v >= 0.0
    ensures -1.0 / 20000.0 <= Round4(v) - v <= 1.0 / 20000.0
  {
  }

  /** Every figure in the table rounded. */
  function Rounded(m: map<string, real>): map<string, real> {
    map k | k in m :: Round4(m[k])
  }

  ghost predicate NonNegativeTable(m: map<string, real>) {
    forall k <- m :: m[k] >= 0.0
  }

  lemma RoundedWithout(m: map<string, real>, k: string)
    requires k in m
    ensures Sum(Rounded(m)) == Round4(m[k]) + Sum(Rounded(m - {k}))
    ensures |m - {k}| == |m| - 1
  {
    hide Round4;
    SumWithout(Rounded(m), k);
    assert Rounded(m) - {k} == Rounded(m - {k});
    assert (m - {k}).Keys == m.Keys - {k};
    assert |m.Keys - {k}| == |m.Keys| - 1;
  }

  lemma GapsAdd(n: nat, gap: real, one: real)
    requires -(n as real) / 20000.0 <= gap <= n as real / 20000.0
    requires -1.0 / 20000.0 <= one <= 1.0 / 20000.0
    ensures -(n as real + 1.0) / 20000.0 <= gap + one <= (n as real + 1.0) / 20000.0
  {
  }

  lemma {:induction false} RoundedSum(m: map<string, real>)
    requires NonNegativeTable(m)
    ensures Sum(m) >= 0.0
    ensures -(|m| as real) / 20000.0 <= Sum(Rounded(m)) - Sum(m) <= |m| as real / 20000.0
    decreases |m|
  {
    if m != map[] {
      var k :| k in m;
      SumWithout(m, k);
      RoundedWithout(m, k);
      RoundsToNearest(m[k]);
      hide Round4, Sum, Rounded;
      RoundedSum(m - {k});
      GapsAdd(|m - {k}|, Sum(Rounded(m - {k})) - Sum(m - {k}), Round4(m[k]) - m[k]);
    } else {
      assert Rounded(m) == map[];
    }
  }

  /** The printed total differs from the sum of the printed provider figures by at most half
      a unit of the fourth decimal for each of them and one more for itself. */
  lemma RoundedTotalIsClose(m: map<string, real>)
    requires NonNegativeTable(m)
    ensures var gap := Round4(Sum(m)) - Sum(Rounded(m));
            -(|m| as real + 1.0) / 20000.0 <= gap <= (|m| as real + 1.0) / 20000.0
  {
    RoundedSum(m);
    RoundsToNearest(Sum(m));
    hide Round4, Sum, Rounded;
  }

  ghost predicate FairPrices(prices: map<string, Price>) {
    forall k <- prices :: prices[k].inputPerMillion >= 0.0 && prices[k].outputPerMillion >= 0.0
  }

  ghost predicate Countable(u: Usage) {
    u.prompt >= 0 && u.completion >= 0 && u.total >= 0
  }

  lemma CostNonNegative(prices: map<string, Price>, model: string, u: Usage)
    requires FairPrices(prices) && Countable(u)
    ensures Cost(prices, model, u).Some? ==> Cost(prices, model, u).value >= 0.0
  {
  }

  lemma Scaled(a: real, b: real)
    requires a >= 0.0 && b >= 0.0
    ensures a * b >= 0.0
  {
  }

  lemma {:induction false} TablesNonNegative(prices: map<string, Price>, cs: seq<Charge>)
    requires FairPrices(prices) && forall c <- cs :: Countable(c.usage)
    ensures RecordAll(prices, cs).prices == prices
    ensures NonNegativeTable(RecordAll(prices, cs).byModel) && NonNegativeTable(RecordAll(prices, cs).byProvider)
  {
    if cs != [] {
      hide Cost;
      assert cs == cs[..|cs| - 1] + [cs[|cs| - 1]];
      TablesNonNegative(prices, cs[..|cs| - 1]);
      CostNonNegative(prices, cs[|cs| - 1].model, cs[|cs| - 1].usage);
    }
  }

  /** Over any run, the printed total stays that close to what was really spent and to the
      printed figures of the providers. */
  lemma PrintedTotalIsClose(prices: map<string, Price>, cs: seq<Charge>)
    requires FairPrices(prices) && forall c <- cs :: Countable(c.usage)
    ensures var l := RecordAll(prices, cs);
            var total, n := Round4(Sum(l.byProvider)), |l.byProvider| as real;
            && -1.0 / 20000.0 <= total - Spent(prices, cs) <= 1.0 / 20000.0
            && -(n + 1.0) / 20000.0 <= total - Sum(Rounded(l.byProvider)) <= (n + 1.0) / 20000.0
  {
    var l := RecordAll(prices, cs);
    TablesNonNegative(prices, cs);
    SpendIsConserved(prices, cs);
    RoundedSum(l.byProvider);
    RoundsToNearest(Sum(l.byProvider));
    RoundedTotalIsClose(l.byProvider);
  }

  // ---- the tracker ----

  class CostTracker {
    const prices: map<string, Price>
    var byModel: map<string, real>
    var byProvider: map<string, real>
    var unpriced: map<string, int>
    var requests: int

    ghost function Value(): Ledger
      reads this
    {
      Ledger(prices, byModel, byProvider, unpriced, requests)
    }

    constructor (prices: map<string, Price>)
      ensures Value() == Empty(prices)
    {
      this.prices := prices;
      byModel, byProvider, unpriced, requests := map[], map[], map[], 0;
    }

    method RecordCharge(provider: string, model: string, u: Usage) returns (cost: Option<real>)
      modifies this
      ensures Value() == Record(old(Value()), Charge(provider, model, u))
      ensures cost == Cost(prices, model, u)
    {
      cost := Cost(prices, model, u);
      requests := requests + 1;
      if cost.None? {
        unpriced := unpriced[model := Get(unpriced, model, 0) + 1];
        return;
      }
      byModel := byModel[model := Get(byModel, model, 0.0) + cost.value];
      byProvider := byProvider[provider := Get(byProvider, provider, 0.0) + cost.value];
    }

    /** The figures a dashboard shows, rounded to four decimals. */
    method Summary() returns (total: real, providers: map<string, real>, models: map<string, real>)
      ensures providers == Rounded(byProvider) && models == Rounded(byModel)
      ensures total == Round4(Sum(byProvider))
    {
      hide Round4, Sum;
      providers, total := RoundAll(byProvider);
      var spent;
      models, spent := RoundAll(byModel);
      total := Round4(total);
    }
  }

  /** Each figure rounded, and their exact sum. */
  method RoundAll(m: map<string, real>) returns (rounded: map<string, real>, total: real)
    ensures rounded == Rounded(m) && total == Sum(m)
  {
    hide Round4, Sum, Rounded, RoundedBut;
    total, rounded := 0.0, map[];
    var left := m;
    SumOfNothing();
    NothingRounded(m);
    while left != map[]
      invariant left.Keys <= m.Keys && forall k <- left :: left[k] == m[k]
      invariant rounded == RoundedBut(m, left.Keys)
      invariant total + Sum(left) == Sum(m)
      decreases |left|
    {
      var k :| k in left;
      SumWithout(left, k);
      RoundedWithout(left, k);
      RoundOneMore(m, left.Keys, k);
      rounded := rounded[k := Round4(left[k])];
      total := total + left[k];
      left := left - {k};
    }
    AllRounded(m);
  }

  lemma NothingRounded(m: map<string, real>)
    ensures RoundedBut(m, m.Keys) == map[]
  {
  }

  lemma AllRounded(m: map<string, real>)
    ensures RoundedBut(m, {}) == Rounded(m)
  {
    hide Round4;
  }

  /** The figures rounded so far: all but those still left. */
  ghost function RoundedBut(m: map<string, real>, left: set<string>): map<string, real> {
    map k | k in m && k !in left :: Round4(m[k])
  }

  lemma RoundOneMore(m: map<string, real>, left: set<string>, k: string)
    requires k in m
    ensures RoundedBut(m, left - {k}) == RoundedBut(m, left)[k := Round4(m[k])]
  {
    hide Round4;
  }

  lemma SumOfNothing()
    ensures Sum(map[]) == 0.0
  {
  }
}
