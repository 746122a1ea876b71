/**
 Sums of natural numbers over finite maps. The store keeps its objects in maps, so the GPU
 accounting is a sum over a map; a sum does not depend on the order in which keys are picked.
 */
module Sums {
  ghost function Sum(m: map<string, nat>): nat
    decreases |m|
  {
    if m == map[] then 0 else
      var k :| k in m;
      m[k] + Sum(m - {k})
  }

  /** Any key can be split off. */
  lemma {:induction false} SumPick(m: map<string, nat>, k: string)
    requires k in m
    ensures Sum(m) == m[k] + Sum(m - {k})
    decreases |m|
  {
    var c :| c in m && Sum(m) == m[c] + Sum(m - {c});
    if c != k {
      SumPick(m - {c}, k);
      SumPick(m - {k}, c);
      assert m - {c} - {k} == m - {k} - {c};
    }
  }

  lemma SumPut(m: map<string, nat>, k: string, v: nat)
    ensures Sum(m[k := v]) == v + Sum(m - {k})
  {
    SumPick(m[k := v], k);
    assert m[k := v] - {k} == m - {k};
  }

  /** Pointwise smaller: smaller sum. Keys without an entry count as zero. */
  lemma {:induction false} SumMono(m: map<string, nat>, m': map<string, nat>)
    requires forall k :: k in m && m[k] != 0 ==> k in m' && m[k] <= m'[k]
    ensures Sum(m) <= Sum(m')
    decreases |m|
  {
    if m == map[] {
    } else {
      var k :| k in m;
      SumPick(m, k);
      if k in m' {
        SumPick(m', k);
      }
      assert k !in m' ==> m' - {k} == m';
      SumMono(m - {k}, m' - {k});
    }
  }

  /** One strictly smaller entry makes the whole sum strictly smaller. */
  lemma SumStrict(m: map<string, nat>, m': map<string, nat>, k: string)
    requires forall x :: x in m && m[x] != 0 ==> x in m' && m[x] <= m'[x]
    requires k in m' && (if k in m then m[k] else 0) < m'[k]
    ensures Sum(m) < Sum(m')
  {
    SumPick(m', k);
    if k in m {
      SumPick(m, k);
    }
    SumMono(m - {k}, m' - {k});
    assert k !in m ==> m - {k} == m;
  }

  lemma SumZero(m: map<string, nat>)
    requires forall k :: k in m ==> m[k] == 0
    ensures Sum(m) == 0
  {
    SumMono(m, map[]);
  }

  /** If a pointwise smaller map has the same sum, it agrees everywhere. */
  lemma SumSqueeze(m: map<string, nat>, m': map<string, nat>, k: string)
    requires forall x :: x in m && m[x] != 0 ==> x in m' && m[x] <= m'[x]
    requires Sum(m) == Sum(m') && k in m'
    ensures (if k in m then m[k] else 0) == m'[k]
  {
    if (if k in m then m[k] else 0) < m'[k] {
      SumStrict(m, m', k);
    }
  }
}
