/**
  Group-by-and-sum over lists, the accumulation pattern the portfolio engine,
  the PGBL calculator and both statement parsers share:

      groups = {}
      for item in items:
          if key(item) not in groups: groups[key(item)] = 0
          groups[key(item)] += value(item)

  Dictionaries are Dafny maps; since a map has no order, the sum of a map's
  values is defined order-free by removing an arbitrary key.
*/
module Grouping {

  function Identity(x: real): real { x }

  ghost function Pick<K>(s: set<K>): (k: K)
    requires s != {}
    ensures k in s
  {
    var k :| k in s; k
  }

  /** The sum of `f(v)` over the values `v` of `m`. */
  ghost function SumOf<K, V>(m: map<K, V>, f: V -> real): real
    decreases m.Keys
  {
    if m.Keys == {} then 0.0
    else
      var k := Pick(m.Keys);
      assert (m - {k}).Keys == m.Keys - {k};
      f(m[k]) + SumOf(m - {k}, f)
  }

  /** Python's `sum(d.values())`. */
  ghost function SumValues<K>(m: map<K, real>): real
  {
    SumOf(m, Identity)
  }

  /** Any key can be taken out first: the sum does not depend on the order of the keys. */
  lemma {:induction false} SumOfRemove<K, V>(m: map<K, V>, k: K, f: V -> real)
    requires k in m
    ensures SumOf(m, f) == f(m[k]) + SumOf(m - {k}, f)
    decreases m.Keys
  {
    var j := Pick(m.Keys);
    var mj := m - {j};
    assert mj.Keys == m.Keys - {j};
    assert SumOf(m, f) == f(m[j]) + SumOf(mj, f);
    if j != k {
      var mk := m - {k};
      assert mk.Keys == m.Keys - {k};
      assert k in mj && mj[k] == m[k];
      SumOfRemove(mj, k, f);
      assert j in mk && mk[j] == m[j];
      SumOfRemove(mk, j, f);
      assert mj - {k} == mk - {j};
    }
  }

  /** Setting one entry changes the sum by the difference of that entry. */
  lemma SumOfUpdate<K, V>(m: map<K, V>, k: K, v: V, f: V -> real)
    ensures SumOf(m[k := v], f) == SumOf(m, f) - (if k in m then f(m[k]) else 0.0) + f(v)
  {
    SumOfRemove(m[k := v], k, f);
    assert m[k := v] - {k} == m - {k};
    if k in m {
      SumOfRemove(m, k, f);
    } else {
      assert m - {k} == m;
    }
  }

  /** `sum(value(x) for x in xs)`. */
  function Total<T>(xs: seq<T>, value: T -> real): real
  {
    if xs == [] then 0.0 else Total(xs[..|xs| - 1], value) + value(xs[|xs| - 1])
  }

  /** The sum of `value(x)` over the items of `xs` whose key is `k`. */
  function TotalWhere<T, K(==)>(xs: seq<T>, key: T -> K, k: K, value: T -> real): real
  {
    if xs == [] then 0.0
    else TotalWhere(xs[..|xs| - 1], key, k, value) + (if key(xs[|xs| - 1]) == k then value(xs[|xs| - 1]) else 0.0)
  }

  /** How many items of `xs` have key `k`. */
  function CountWhere<T, K(==)>(xs: seq<T>, key: T -> K, k: K): nat
  {
    if xs == [] then 0
    else CountWhere(xs[..|xs| - 1], key, k) + (if key(xs[|xs| - 1]) == k then 1 else 0)
  }

  /** The distinct keys that occur in `xs`. */
  function KeysOf<T, K>(xs: seq<T>, key: T -> K): set<K>
  {
    if xs == [] then {} else KeysOf(xs[..|xs| - 1], key) + {key(xs[|xs| - 1])}
  }

  /** A key that does not occur has nothing summed or counted under it. */
  lemma {:induction false} AbsentKey<T, K>(xs: seq<T>, key: T -> K, k: K, value: T -> real)
    requires k !in KeysOf(xs, key)
    ensures TotalWhere(xs, key, k, value) == 0.0 && CountWhere(xs, key, k) == 0
  {
    if xs != [] {
      AbsentKey(xs[..|xs| - 1], key, k, value);
    }
  }

  /** What one more item adds to the running totals of a prefix. */
  lemma PrefixStep<T, K>(xs: seq<T>, i: nat, key: T -> K, value: T -> real)
    requires i < |xs|
    ensures KeysOf(xs[..i + 1], key) == KeysOf(xs[..i], key) + {key(xs[i])}
    ensures Total(xs[..i + 1], value) == Total(xs[..i], value) + value(xs[i])
    ensures forall k :: TotalWhere(xs[..i + 1], key, k, value)
                        == TotalWhere(xs[..i], key, k, value) + (if key(xs[i]) == k then value(xs[i]) else 0.0)
    ensures forall k :: CountWhere(xs[..i + 1], key, k)
                        == CountWhere(xs[..i], key, k) + (if key(xs[i]) == k then 1 else 0)
  {
    assert xs[..i + 1][..i] == xs[..i];
  }

  /** Python's `sum(d.values())`, accumulated over the keys in dictionary order. */
  method SumMapValues<K>(m: map<K, real>) returns (total: real)
    ensures total == SumValues(m)
  {
    total := 0.0;
    var rest := m;
    while rest.Keys != {}
      invariant total + SumValues(rest) == SumValues(m)
      decreases rest.Keys
    {
      var k :| k in rest.Keys;
      SumOfRemove(rest, k, Identity);
      assert (rest - {k}).Keys == rest.Keys - {k};
      total := total + rest[k];
      rest := rest - {k};
    }
  }

  /** `groups` holds, per key occurring in `xs`, the total of that key's items. */
  ghost predicate SumsOf<T, K>(groups: map<K, real>, xs: seq<T>, key: T -> K, value: T -> real)
  {
    && groups.Keys == KeysOf(xs, key)
    && (forall k :: k in groups ==> groups[k] == TotalWhere(xs, key, k, value))
    && SumValues(groups) == Total(xs, value)
  }

  /** The map after one accumulation step, seeding an absent key with 0. */
  function AddTo<K>(groups: map<K, real>, k: K, v: real): (r: map<K, real>)
    ensures r.Keys == groups.Keys + {k}
    ensures r[k] == (if k in groups then groups[k] else 0.0) + v
    ensures forall k' :: k' in groups && k' != k ==> r[k'] == groups[k']
  {
    var seeded := if k in groups then groups else groups[k := 0.0];
    seeded[k := seeded[k] + v]
  }

  lemma SumValuesAddTo<K>(groups: map<K, real>, k: K, v: real)
    ensures SumValues(AddTo(groups, k, v)) == SumValues(groups) + v
  {
    var seeded := if k in groups then groups else groups[k := 0.0];
    if k !in groups {
      SumOfUpdate(groups, k, 0.0, Identity);
    }
    assert SumValues(seeded) == SumValues(groups);
    SumOfUpdate(seeded, k, seeded[k] + v, Identity);
  }

  /** One iteration of the accumulation loop keeps `SumsOf`. */
  lemma SumsOfStep<T, K>(groups: map<K, real>, xs: seq<T>, i: nat, key: T -> K, value: T -> real)
    requires i < |xs| && SumsOf(groups, xs[..i], key, value)
    ensures SumsOf(AddTo(groups, key(xs[i]), value(xs[i])), xs[..i + 1], key, value)
  {
    PrefixStep(xs, i, key, value);
    var k := key(xs[i]);
    if k !in groups {
      AbsentKey(xs[..i], key, k, value);
    }
    SumValuesAddTo(groups, k, value(xs[i]));
    var r := AddTo(groups, k, value(xs[i]));
    forall k' | k' in r
      ensures r[k'] == TotalWhere(xs[..i + 1], key, k', value)
    {
      if k' != k {
        assert r[k'] == groups[k'];
      }
    }
  }

  /** Group `xs` by `key`, summing `value` per group. */
  method GroupSum<T, K(==)>(xs: seq<T>, key: T -> K, value: T -> real) returns (groups: map<K, real>)
    ensures groups.Keys == KeysOf(xs, key)
    ensures forall k :: k in groups ==> groups[k] == TotalWhere(xs, key, k, value)
    ensures SumValues(groups) == Total(xs, value)
  {
    groups := map[];
    var i := 0;
    while i < |xs|
      invariant i <= |xs|
      invariant SumsOf(groups, xs[..i], key, value)
    {
      SumsOfStep(groups, xs, i, key, value);
      groups := AddTo(groups, key(xs[i]), value(xs[i]));
      i := i + 1;
    }
    assert xs[..i] == xs;
  }

  /** Per-group tally `{'count': ..., 'value': ...}`. */
  datatype Stats = Stats(count: nat, value: real)

  function StatCount(s: Stats): real { s.count as real }

  function StatValue(s: Stats): real { s.value }

  /** `groups` holds, per key occurring in `xs`, the count and the total of that key's items. */
  ghost predicate StatsOf<T, K>(groups: map<K, Stats>, xs: seq<T>, key: T -> K, value: T -> real)
  {
    && groups.Keys == KeysOf(xs, key)
    && (forall k :: k in groups ==>
          groups[k] == Stats(CountWhere(xs, key, k), TotalWhere(xs, key, k, value)))
    && SumOf(groups, StatCount) == |xs| as real
    && SumOf(groups, StatValue) == Total(xs, value)
  }

  /** The map after one tally step, seeding an absent key with a zero tally. */
  function TallyInto<K>(groups: map<K, Stats>, k: K, v: real): (r: map<K, Stats>)
    ensures r.Keys == groups.Keys + {k}
    ensures k in groups ==> r[k] == Stats(groups[k].count + 1, groups[k].value + v)
    ensures k !in groups ==> r[k] == Stats(1, v)
    ensures forall k' :: k' in groups && k' != k ==> r[k'] == groups[k']
  {
    var seeded := if k in groups then groups else groups[k := Stats(0, 0.0)];
    seeded[k := Stats(seeded[k].count + 1, seeded[k].value + v)]
  }

  lemma SumOfTallyInto<K>(groups: map<K, Stats>, k: K, v: real)
    ensures SumOf(TallyInto(groups, k, v), StatCount) == SumOf(groups, StatCount) + 1.0
    ensures SumOf(TallyInto(groups, k, v), StatValue) == SumOf(groups, StatValue) + v
  {
    var seeded := if k in groups then groups else groups[k := Stats(0, 0.0)];
    if k !in groups {
      SumOfUpdate(groups, k, Stats(0, 0.0), StatCount);
      SumOfUpdate(groups, k, Stats(0, 0.0), StatValue);
    }
    var s := Stats(seeded[k].count + 1, seeded[k].value + v);
    SumOfUpdate(seeded, k, s, StatCount);
    SumOfUpdate(seeded, k, s, StatValue);
  }

  lemma TallyEntriesStep<T, K>(groups: map<K, Stats>, xs: seq<T>, i: nat, key: T -> K, value: T -> real)
    requires i < |xs| && StatsOf(groups, xs[..i], key, value)
    ensures var r := TallyInto(groups, key(xs[i]), value(xs[i]));
            && r.Keys == KeysOf(xs[..i + 1], key)
            && forall k :: k in r ==>
                 r[k] == Stats(CountWhere(xs[..i + 1], key, k), TotalWhere(xs[..i + 1], key, k, value))
  {
    PrefixStep(xs, i, key, value);
    var k := key(xs[i]);
    if k !in groups {
      AbsentKey(xs[..i], key, k, value);
    }
    var r := TallyInto(groups, k, value(xs[i]));
    forall k' | k' in r
      ensures r[k'] == Stats(CountWhere(xs[..i + 1], key, k'), TotalWhere(xs[..i + 1], key, k', value))
    {
      if k' != k {
        assert r[k'] == groups[k'];
      }
    }
  }

  /** One iteration of the tally loop keeps `StatsOf`. */
  lemma StatsOfStep<T, K>(groups: map<K, Stats>, xs: seq<T>, i: nat, key: T -> K, value: T -> real)
    requires i < |xs| && StatsOf(groups, xs[..i], key, value)
    ensures StatsOf(TallyInto(groups, key(xs[i]), value(xs[i])), xs[..i + 1], key, value)
  {
    TallyEntriesStep(groups, xs, i, key, value);
    SumOfTallyInto(groups, key(xs[i]), value(xs[i]));
    assert xs[..i + 1][..i] == xs[..i];
  }

  /** Group `xs` by `key`, counting the items and summing `value` per group. */
  method GroupStats<T, K(==)>(xs: seq<T>, key: T -> K, value: T -> real) returns (groups: map<K, Stats>)
    ensures groups.Keys == KeysOf(xs, key)
    ensures forall k :: k in groups ==>
              groups[k] == Stats(CountWhere(xs, key, k), TotalWhere(xs, key, k, value))
    ensures SumOf(groups, StatCount) == |xs| as real
    ensures SumOf(groups, StatValue) == Total(xs, value)
  {
    groups := map[];
    var i := 0;
    while i < |xs|
      invariant i <= |xs|
      invariant StatsOf(groups, xs[..i], key, value)
    {
      StatsOfStep(groups, xs, i, key, value);
      groups := TallyInto(groups, key(xs[i]), value(xs[i]));
      i := i + 1;
    }
    assert xs[..i] == xs;
  }
}
