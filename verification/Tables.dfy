/** Sums over the tables that count money, tokens and requests. */
module Tables {
  import opened Configs

  ghost function Sum(m: map<string, real>): real {
    if m == map[] then 0.0
    else
      var k :| k in m;
      m[k] + Sum(m - {k})
  }

  lemma {:induction false} SumWithout(m: map<string, real>, key: string)
    requires key in m
    ensures Sum(m) == m[key] + Sum(m - {key})
    decreases |m|
  {
    var k :| k in m && Sum(m) == m[k] + Sum(m - {k});
    if k != key {
      SumWithout(m - {k}, key);
      SumWithout(m - {key}, k);
      assert m - {k} - {key} == m - {key} - {k};
    }
  }

  lemma SumAdd(m: map<string, real>, key: string, v: real)
    ensures Sum(m[key := Get(m, key, 0.0) + v]) == Sum(m) + v
  {
    var m' := m[key := Get(m, key, 0.0) + v];
    SumWithout(m', key);
    if key in m {
      SumWithout(m, key);
      assert m' - {key} == m - {key};
    } else {
      assert m' - {key} == m;
    }
  }

  ghost function Tally(m: map<string, int>): int {
    if m == map[] then 0
    else
      var k :| k in m;
      m[k] + Tally(m - {k})
  }

  lemma {:induction false} TallyWithout(m: map<string, int>, key: string)
    requires key in m
    ensures Tally(m) == m[key] + Tally(m - {key})
    decreases |m|
  {
    var k :| k in m && Tally(m) == m[k] + Tally(m - {k});
    if k != key {
      TallyWithout(m - {k}, key);
      TallyWithout(m - {key}, k);
      assert m - {k} - {key} == m - {key} - {k};
    }
  }

  lemma TallyAdd(m: map<string, int>, key: string, v: int)
    ensures Tally(m[key := Get(m, key, 0) + v]) == Tally(m) + v
  {
    var m' := m[key := Get(m, key, 0) + v];
    TallyWithout(m', key);
    if key in m {
      TallyWithout(m, key);
      assert m' - {key} == m - {key};
    } else {
      assert m' - {key} == m;
    }
  }
}
