/** The weighted draw: which random numbers select which provider. */
module Weighted {
  import opened Configs

  /** An unset weight counts as 1, so every provider takes part. */
  function ProviderWeight(p: Provider): (w: int)
    ensures w >= 1
  {
    if p.weight > 0 then p.weight else 1
  }

  function Total(pool: seq<Provider>): (t: int)
    ensures t >= |pool|
  {
    if pool == [] then 0 else Total(pool[..|pool| - 1]) + ProviderWeight(pool[|pool| - 1])
  }

  /** The index a draw lands on; the last one when the search falls off the end. */
  function Select(pool: seq<Provider>, x: int): nat
    requires pool != []
  {
    if |pool| == 1 || x < ProviderWeight(pool[0]) then 0
    else 1 + Select(pool[1..], x - ProviderWeight(pool[0]))
  }

  lemma {:induction false} TotalSplit(a: seq<Provider>, b: seq<Provider>)
    ensures Total(a + b) == Total(a) + Total(b)
  {
    if b == [] {
      assert a + b == a;
    } else {
      assert (a + b)[..|a + b| - 1] == a + b[..|b| - 1];
      TotalSplit(a, b[..|b| - 1]);
    }
  }

  lemma TotalFront(pool: seq<Provider>)
    requires pool != []
    ensures Total(pool) == ProviderWeight(pool[0]) + Total(pool[1..])
  {
    assert pool == [pool[0]] + pool[1..];
    TotalSplit([pool[0]], pool[1..]);
    assert [pool[0]][..0] == [];
  }

  lemma TotalPrefixGrows(pool: seq<Provider>, i: nat)
    requires i < |pool|
    ensures Total(pool[..i + 1]) == Total(pool[..i]) + ProviderWeight(pool[i])
    ensures Total(pool[..i + 1]) <= Total(pool)
  {
    hide ProviderWeight;
    assert pool[..i + 1][..i] == pool[..i];
    TotalOfPrefix(pool, i + 1);
  }

  lemma TotalOfPrefix(pool: seq<Provider>, i: nat)
    requires i <= |pool|
    ensures Total(pool[..i]) <= Total(pool)
  {
    hide Total;
    TotalSplit(pool[..i], pool[i..]);
    assert pool[..i] + pool[i..] == pool;
  }

  /** For every draw in range the search stops at the one provider whose stretch of the
      total covers it; the default index is never what decides. */
  lemma {:induction false} SelectCovers(pool: seq<Provider>, x: int, i: nat)
    requires i < |pool| && 0 <= x < Total(pool)
    ensures Select(pool, x) == i <==> Total(pool[..i]) <= x < Total(pool[..i]) + ProviderWeight(pool[i])
  {
    var w := ProviderWeight(pool[0]);
    TotalFront(pool);
    if x < w {
      if i > 0 {
        assert pool[..i] == [pool[0]] + pool[1..][..i - 1];
        TotalFront(pool[..i]);
      }
    } else if i == 0 {
      assert |pool| > 1;
    } else {
      SelectCovers(pool[1..], x - w, i - 1);
      assert pool[..i][1..] == pool[1..][..i - 1];
      TotalFront(pool[..i]);
    }
  }

  function Range(lo: int, hi: int): set<int>
    decreases hi - lo
  {
    if hi <= lo then {} else Range(lo, hi - 1) + {hi - 1}
  }

  lemma {:induction false} RangeSize(lo: int, hi: int)
    requires lo <= hi
    ensures |Range(lo, hi)| == hi - lo
    ensures forall x :: x in Range(lo, hi) <==> lo <= x < hi
    decreases hi - lo
  {
    if lo < hi {
      RangeSize(lo, hi - 1);
    }
  }

  /** The draws in `[0, total)` that put provider `i` of the pool next. */
  function Draws(pool: seq<Provider>, i: nat): set<int>
    requires pool != []
  {
    set x | 0 <= x < Total(pool) && Select(pool, x) == i
  }

  /** They number exactly its weight, or one when it has none. */
  lemma DrawsEqualWeight(pool: seq<Provider>, i: nat)
    requires i < |pool|
    ensures |Draws(pool, i)| == if pool[i].weight > 0 then pool[i].weight else 1
  {
    var lo := Total(pool[..i]);
    var hi := lo + ProviderWeight(pool[i]);
    TotalPrefixGrows(pool, i);
    RangeSize(lo, hi);
    forall x ensures x in Draws(pool, i) <==> x in Range(lo, hi) {
      if 0 <= x < Total(pool) {
        SelectCovers(pool, x, i);
      }
    }
    assert Draws(pool, i) == Range(lo, hi);
  }

  // ---- whole orders ----

  /** The order a series of draws produces: each takes one provider out of what is left. */
  function DrawnOrder(pool: seq<Provider>, draws: seq<int>): seq<Provider>
    requires InRange(pool, draws)
    decreases |pool|
  {
    if pool == [] then []
    else
      SelectInPool(pool, draws[0]);
      [pool[Select(pool, draws[0])]] + DrawnOrder(Remaining(pool, draws[0]), draws[1..])
  }

  function Remaining(pool: seq<Provider>, x: int): (rest: seq<Provider>)
    requires pool != []
    ensures |rest| == |pool| - 1
  {
    SelectInPool(pool, x);
    var i := Select(pool, x);
    pool[..i] + pool[i + 1..]
  }

  /** One draw for each place, each uniform over the weight still in the pool. */
  ghost predicate InRange(pool: seq<Provider>, draws: seq<int>)
    decreases |pool|
  {
    |draws| == |pool| && (pool != [] ==> 0 <= draws[0] < Total(pool) && InRange(Remaining(pool, draws[0]), draws[1..]))
  }

  lemma {:induction false} SelectInPool(pool: seq<Provider>, x: int)
    requires pool != []
    ensures Select(pool, x) < |pool|
    decreases |pool|
  {
    if |pool| > 1 && x >= ProviderWeight(pool[0]) {
      SelectInPool(pool[1..], x - ProviderWeight(pool[0]));
    }
  }

  lemma TakeOut(pool: seq<Provider>, i: nat, rest: seq<Provider>)
    requires i < |pool| && multiset(rest) == multiset(pool[..i] + pool[i + 1..])
    ensures multiset([pool[i]] + rest) == multiset(pool)
  {
    assert pool == pool[..i] + [pool[i]] + pool[i + 1..];
  }

  /** Whatever is drawn, every provider is placed exactly once. */
  lemma {:induction false} DrawnOrderPermutes(pool: seq<Provider>, draws: seq<int>)
    requires InRange(pool, draws)
    ensures multiset(DrawnOrder(pool, draws)) == multiset(pool)
    decreases |pool|
  {
    if pool != [] {
      hide Total, ProviderWeight;
      SelectInPool(pool, draws[0]);
      var i := Select(pool, draws[0]);
      hide Select;
      var rest := DrawnOrder(Remaining(pool, draws[0]), draws[1..]);
      DrawnOrderPermutes(Remaining(pool, draws[0]), draws[1..]);
      TakeOut(pool, i, rest);
    }
  }

  /** The first draw decides who leads, by whose stretch of the total covers it; the others
      order the rest in the same way. */
  lemma FirstDrawLeads(pool: seq<Provider>, draws: seq<int>, i: nat)
    requires InRange(pool, draws) && i < |pool|
    requires Total(pool[..i]) <= draws[0] < Total(pool[..i + 1])
    ensures var rest := pool[..i] + pool[i + 1..];
            InRange(rest, draws[1..]) && DrawnOrder(pool, draws) == [pool[i]] + DrawnOrder(rest, draws[1..])
  {
    TotalPrefixGrows(pool, i);
    SelectCovers(pool, draws[0], i);
    hide Total, Select, ProviderWeight;
  }

  /** With positive weights every provider can lead: some draw selects it. */
  lemma AnyoneCanLead(pool: seq<Provider>, i: nat) returns (x: int)
    requires i < |pool|
    ensures 0 <= x < Total(pool) && Select(pool, x) == i
  {
    x := Total(pool[..i]);
    TotalPrefixGrows(pool, i);
    SelectCovers(pool, x, i);
  }
}
