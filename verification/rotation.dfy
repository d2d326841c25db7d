/**
 * The round-robin API-key cursor shared by every caller of `getApiKey`
 * (pkg/client/rpc/grpc.go and pkg/client/client.go implement it the same way).
 * One call reads the key at the clamped cursor and advances the cursor by one
 * modulo the number of keys.
 */
module Rotation {

  /** The index one call reads: the cursor, or 0 when it is out of range. */
  function Clamp(cursor: nat, n: nat): (i: nat)
    ensures n > 0 ==> i < n
    ensures cursor < n ==> i == cursor
    ensures cursor >= n ==> i == 0
  {
    if cursor >= n then 0 else cursor
  }

  /** The cursor after one call. */
  function Next(cursor: nat, n: nat): (c: nat)
    requires n > 0
    ensures c < n
    ensures c == if Clamp(cursor, n) + 1 < n then Clamp(cursor, n) + 1 else 0
  {
    (Clamp(cursor, n) + 1) % n
  }

  /** The indices that `k` consecutive calls read, starting from `cursor`. */
  function Visits(n: nat, cursor: nat, k: nat): (v: seq<nat>)
    requires n > 0
    ensures |v| == k
    decreases k
  {
    if k == 0 then [] else [Clamp(cursor, n)] + Visits(n, Next(cursor, n), k - 1)
  }

  /** `x` reduced once modulo `n`, for `x < 2n`. */
  function Wrap(x: nat, n: nat): nat {
    if x < n then x else x - n
  }

  /** Call `j` of a run of at most `n` calls reads index `start + j` wrapped around. */
  lemma {:induction false} VisitsAt(n: nat, cursor: nat, k: nat, j: nat)
    requires 0 < n && k <= n && j < k
    ensures Visits(n, cursor, k)[j] == Wrap(Clamp(cursor, n) + j, n)
    decreases k
  {
    if j > 0 {
      VisitsAt(n, Next(cursor, n), k - 1, j - 1);
    }
  }

  /** `n` consecutive calls read every index in `[0, n)` exactly once. */
  lemma FullCycleVisitsEachIndexOnce(n: nat, cursor: nat)
    requires n > 0
    ensures forall j :: 0 <= j < n ==> Visits(n, cursor, n)[j] < n
    ensures forall i :: 0 <= i < n ==> i in Visits(n, cursor, n)
    ensures forall j, j' :: 0 <= j < j' < n ==> Visits(n, cursor, n)[j] != Visits(n, cursor, n)[j']
  {
    var v, s := Visits(n, cursor, n), Clamp(cursor, n);
    forall j | 0 <= j < n
      ensures v[j] == Wrap(s + j, n)
    {
      VisitsAt(n, cursor, n, j);
    }
    forall i | 0 <= i < n
      ensures i in v
    {
      var j := if i >= s then i - s else i + n - s;
      assert v[j] == i;
    }
  }

  /** The keys that `k` consecutive calls return. */
  function Served(keys: seq<string>, cursor: nat, k: nat): (r: seq<string>)
    requires |keys| > 0
    ensures |r| == k
    decreases k
  {
    if k == 0 then [] else [keys[Clamp(cursor, |keys|)]] + Served(keys, Next(cursor, |keys|), k - 1)
  }

  /**
   * One full cycle of calls returns the key list rotated to start at the
   * clamped cursor, so the keys returned are the key list up to order.
   */
  lemma {:induction false} FullCycleServesRotation(keys: seq<string>, cursor: nat)
    requires |keys| > 0
    ensures var s := Clamp(cursor, |keys|);
            Served(keys, cursor, |keys|) == keys[s..] + keys[..s]
    ensures multiset(Served(keys, cursor, |keys|)) == multiset(keys)
  {
    var n, s := |keys|, Clamp(cursor, |keys|);
    var r := Served(keys, cursor, n);
    forall j | 0 <= j < n
      ensures r[j] == (keys[s..] + keys[..s])[j]
    {
      ServedFollowsVisits(keys, cursor, n, j);
      VisitsAt(n, cursor, n, j);
    }
    assert r == keys[s..] + keys[..s];
    assert keys == keys[..s] + keys[s..];
  }

  /** Call `j` returns the key at the index it visits. */
  lemma {:induction false} ServedFollowsVisits(keys: seq<string>, cursor: nat, k: nat, j: nat)
    requires |keys| > 0 && j < k
    ensures Visits(|keys|, cursor, k)[j] < |keys|
    ensures Served(keys, cursor, k)[j] == keys[Visits(|keys|, cursor, k)[j]]
    decreases k
  {
    if j > 0 {
      ServedFollowsVisits(keys, Next(cursor, |keys|), k - 1, j - 1);
    }
  }
}
