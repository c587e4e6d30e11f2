/** Sums over the values of a finite map.

Ledgers (bytes in a cache) and conservation laws (every handle is in exactly one
place) are stated with the two functions of this module.
*/
module Bags {

  /** The sum of `f` over the values of `m`. */
  ghost function Total<K, V>(m: map<K, V>, f: V -> nat): nat
    decreases |m|
  {
    if m == map[] then 0
    else
      var k :| k in m;
      f(m[k]) + Total(m - {k}, f)
  }

  /** The multiset union of `f` over the values of `m`. */
  ghost function Bag<K, V, T>(m: map<K, V>, f: V -> multiset<T>): multiset<T>
    decreases |m|
  {
    if m == map[] then multiset{}
    else
      var k :| k in m;
      f(m[k]) + Bag(m - {k}, f)
  }

  lemma {:induction false} TotalRemove<K, V>(m: map<K, V>, f: V -> nat, k: K)
    requires k in m
    ensures Total(m, f) == f(m[k]) + Total(m - {k}, f)
    decreases |m|
  {
    var j :| j in m && Total(m, f) == f(m[j]) + Total(m - {j}, f);
    if j != k {
      TotalRemove(m - {j}, f, k);
      TotalRemove(m - {k}, f, j);
      assert m - {j} - {k} == m - {k} - {j};
    }
  }

  lemma {:induction false} BagRemove<K, V, T>(m: map<K, V>, f: V -> multiset<T>, k: K)
    requires k in m
    ensures Bag(m, f) == f(m[k]) + Bag(m - {k}, f)
    decreases |m|
  {
    var j :| j in m && Bag(m, f) == f(m[j]) + Bag(m - {j}, f);
    if j != k {
      BagRemove(m - {j}, f, k);
      BagRemove(m - {k}, f, j);
      assert m - {j} - {k} == m - {k} - {j};
    }
  }

  /** Writing a key replaces that key's contribution and no other. */
  lemma TotalUpdate<K, V>(m: map<K, V>, f: V -> nat, k: K, v: V)
    ensures Total(m[k := v], f) == f(v) + Total(m - {k}, f)
    ensures k !in m ==> m - {k} == m
  {
    TotalRemove(m[k := v], f, k);
    assert m[k := v] - {k} == m - {k};
  }

  lemma BagUpdate<K, V, T>(m: map<K, V>, f: V -> multiset<T>, k: K, v: V)
    ensures Bag(m[k := v], f) == f(v) + Bag(m - {k}, f)
    ensures k !in m ==> m - {k} == m
  {
    BagRemove(m[k := v], f, k);
    assert m[k := v] - {k} == m - {k};
  }

  lemma BagPeel<K, V, T>(kept: map<K, V>, f: V -> multiset<T>, gone: map<K, V>, k: K)
    requires forall j :: j in gone ==> j !in kept
    requires k in gone
    ensures Bag(kept + gone, f) == f(gone[k]) + Bag(kept + (gone - {k}), f)
  {
    BagRemove(kept + gone, f, k);
    assert kept + gone - {k} == kept + (gone - {k});
  }

  /** Splitting a map by keys splits its bag. */
  lemma {:induction false} BagSplit<K, V, T>(kept: map<K, V>, f: V -> multiset<T>, gone: map<K, V>)
    requires forall j :: j in gone ==> j !in kept
    ensures Bag(kept + gone, f) == Bag(kept, f) + Bag(gone, f)
    decreases |gone|
  {
    if gone == map[] {
      assert kept + gone == kept;
    } else {
      var k :| k in gone;
      BagSplit(kept, f, gone - {k});
      BagPeel(kept, f, gone, k);
      BagRemove(gone, f, k);
    }
  }

  /** An element counted by the bag comes from some key. */
  lemma {:induction false} BagWitness<K, V, T>(m: map<K, V>, f: V -> multiset<T>, x: T)
    returns (k: K)
    requires x in Bag(m, f)
    ensures k in m && x in f(m[k])
    decreases |m|
  {
    var j :| j in m && Bag(m, f) == f(m[j]) + Bag(m - {j}, f);
    if x in f(m[j]) {
      k := j;
    } else {
      k := BagWitness(m - {j}, f, x);
    }
  }

  lemma KeptAndGoneKeys<T>(all: set<T>, kept: set<T>)
    requires kept <= all
    ensures multiset(kept) + multiset(all - kept) == multiset(all)
  {
    assert all == kept + (all - kept);
  }
}
