/**
 * Maps filled by successive assignments `m[k] = v`, as both `InitContract`
 * (registry insertion) and `GetTRXBalance` (balance map) do.
 */
module MapUpdates {

  /** `m` after assigning the pairs of `kvs` in order; a later pair overwrites an earlier one. */
  function PutAll<K, V>(m: map<K, V>, kvs: seq<(K, V)>): (r: map<K, V>)
    ensures m.Keys <= r.Keys
  {
    if kvs == [] then m
    else
      var last := kvs[|kvs| - 1];
      assert kvs == kvs[..|kvs| - 1] + [last];
      PutAll(m, kvs[..|kvs| - 1])[last.0 := last.1]
  }

  /** The keys afterwards are the old keys and the keys the pairs name. */
  lemma {:induction false} PutAllKeys<K, V>(m: map<K, V>, kvs: seq<(K, V)>)
    ensures PutAll(m, kvs).Keys == m.Keys + (set p | p in kvs :: p.0)
    decreases |kvs|
  {
    if kvs != [] {
      var init, last := kvs[..|kvs| - 1], kvs[|kvs| - 1];
      PutAllKeys(m, init);
      assert (set p | p in kvs :: p.0) == (set p | p in init :: p.0) + {last.0} by {
        assert kvs == init + [last];
        forall p | p in kvs ensures p in init || p == last { }
      }
    }
  }

  /** Assigning `a` and then `b` is assigning `a + b`. */
  lemma {:induction false} PutAllAppend<K, V>(m: map<K, V>, a: seq<(K, V)>, b: seq<(K, V)>)
    ensures PutAll(m, a + b) == PutAll(PutAll(m, a), b)
    decreases |b|
  {
    if b == [] {
      assert a + b == a;
    } else {
      var last := b[|b| - 1];
      assert (a + b)[..|a + b| - 1] == a + b[..|b| - 1];
      PutAllAppend(m, a, b[..|b| - 1]);
    }
  }

  /** The value under a key is the one given by the last pair that names it. */
  lemma {:induction false} PutAllLastWins<K, V>(m: map<K, V>, kvs: seq<(K, V)>, j: nat)
    requires j < |kvs|
    requires forall i :: j < i < |kvs| ==> kvs[i].0 != kvs[j].0
    ensures kvs[j].0 in PutAll(m, kvs) && PutAll(m, kvs)[kvs[j].0] == kvs[j].1
    decreases |kvs|
  {
    if j < |kvs| - 1 {
      PutAllLastWins(m, kvs[..|kvs| - 1], j);
    }
  }

  /** A key that no pair names keeps its old entry, or stays absent. */
  lemma {:induction false} PutAllKeepsOthers<K, V>(m: map<K, V>, kvs: seq<(K, V)>, k: K)
    requires forall i :: 0 <= i < |kvs| ==> kvs[i].0 != k
    ensures k in PutAll(m, kvs) <==> k in m
    ensures k in m ==> PutAll(m, kvs)[k] == m[k]
    decreases |kvs|
  {
    if kvs != [] {
      PutAllKeepsOthers(m, kvs[..|kvs| - 1], k);
    }
  }
}
