/**
 * Python dictionaries whose iteration order reaches the output. A `Dict` is
 * the dictionary's list of (key, value) pairs in insertion order: assigning
 * to a key already present keeps its position, a new key goes last.
 */
module Dicts {

  type Dict<K, V> = seq<(K, V)>

  function Keys<K, V>(d: Dict<K, V>): set<K> {
    if |d| == 0 then {} else {d[0].0} + Keys(d[1..])
  }

  /** No key occurs twice, as in every real dictionary. */
  predicate Distinct<K(==), V>(d: Dict<K, V>) {
    |d| == 0 || (d[0].0 !in Keys(d[1..]) && Distinct(d[1..]))
  }

  /** `d.get(k, default)` */
  function Get<K(==), V>(d: Dict<K, V>, k: K, default: V): V {
    if |d| == 0 then default
    else if d[0].0 == k then d[0].1
    else Get(d[1..], k, default)
  }

  /** `d[k] = v` */
  function Put<K(==), V>(d: Dict<K, V>, k: K, v: V): (r: Dict<K, V>)
    ensures Keys(r) == Keys(d) + {k}
    ensures Distinct(d) ==> Distinct(r)
    ensures k !in Keys(d) ==> r == d + [(k, v)]
    ensures k in Keys(d) ==> |r| == |d|
  {
    if |d| == 0 then [(k, v)]
    else if d[0].0 == k then [(k, v)] + d[1..]
    else [d[0]] + Put(d[1..], k, v)
  }

  /** Overwriting a present key keeps every position's key, and every other position's entry. */
  lemma {:induction false} PutInPlace<K, V>(d: Dict<K, V>, k: K, v: V)
    requires k in Keys(d)
    ensures |Put(d, k, v)| == |d|
    ensures forall i :: 0 <= i < |d| ==> Put(d, k, v)[i].0 == d[i].0 && (d[i].0 != k ==> Put(d, k, v)[i] == d[i])
  {
    if d[0].0 != k {
      PutInPlace(d[1..], k, v);
      var r := Put(d, k, v);
      forall i | 0 <= i < |d| ensures r[i].0 == d[i].0 && (d[i].0 != k ==> r[i] == d[i]) {
        if i > 0 {
          assert r[i] == Put(d[1..], k, v)[i - 1];
        }
      }
    }
  }

  /** After `d[k] = v`, reading `k` gives `v` and every other key reads as before. */
  lemma {:induction false} GetPut<K, V>(d: Dict<K, V>, k: K, v: V, j: K, other: V)
    ensures Get(Put(d, k, v), j, other) == if j == k then v else Get(d, j, other)
  {
    if |d| > 0 && d[0].0 != k {
      GetPut(d[1..], k, v, j, other);
    }
  }

  /** `d[k] += c` on a `defaultdict(int)` */
  function Add<K(==)>(d: Dict<K, nat>, k: K, c: nat): Dict<K, nat> {
    Put<K, nat>(d, k, Get<K, nat>(d, k, 0) + c)
  }

  /** Sum of `f` over the values of `d`. */
  function SumBy<K, V>(d: Dict<K, V>, f: V -> int): int {
    if |d| == 0 then 0 else f(d[0].1) + SumBy(d[1..], f)
  }

  function Id(n: nat): int {
    n
  }

  /** Overwriting one value changes the sum by the difference. */
  lemma {:induction false} SumByPut<K, V>(d: Dict<K, V>, k: K, v: V, f: V -> int)
    ensures SumBy(Put(d, k, v), f) ==
            SumBy(d, f) + f(v) - (if k in Keys(d) then f(Get(d, k, v)) else 0)
  {
    if |d| > 0 && d[0].0 != k {
      SumByPut(d[1..], k, v, f);
      assert Put(d, k, v)[1..] == Put(d[1..], k, v);
    }
  }

  /** `d[k] += c` adds `c` to the sum of the values. */
  lemma AddSum<K>(d: Dict<K, nat>, k: K, c: nat)
    ensures SumBy<K, nat>(Add(d, k, c), Id) == SumBy<K, nat>(d, Id) + c
  {
    SumByPut<K, nat>(d, k, Get<K, nat>(d, k, 0) + c, Id);
    if k in Keys(d) {
      GetPresent<K, nat>(d, k, 0, Get<K, nat>(d, k, 0) + c);
    } else {
      GetAbsent<K, nat>(d, k, 0);
    }
  }

  /** For a key that is present the default of `Get` does not matter. */
  lemma {:induction false} GetPresent<K, V>(d: Dict<K, V>, k: K, a: V, b: V)
    requires k in Keys(d)
    ensures Get(d, k, a) == Get(d, k, b)
  {
    if d[0].0 != k {
      GetPresent(d[1..], k, a, b);
    }
  }

  /** For a key that is absent `Get` returns the default. */
  lemma {:induction false} GetAbsent<K, V>(d: Dict<K, V>, k: K, a: V)
    requires k !in Keys(d)
    ensures Get(d, k, a) == a
  {
    if |d| > 0 {
      GetAbsent(d[1..], k, a);
    }
  }

  /** The keys are exactly the first components of the entries. */
  lemma {:induction false} KeysAt<K, V>(d: Dict<K, V>)
    ensures forall i :: 0 <= i < |d| ==> d[i].0 in Keys(d)
    ensures forall k :: k in Keys(d) ==> exists i :: 0 <= i < |d| && d[i].0 == k
  {
    if |d| > 0 {
      KeysAt(d[1..]);
      assert forall i :: 1 <= i < |d| ==> d[i] == d[1..][i - 1];
    }
  }

  /** In a dictionary without repeated keys, `Get` finds each entry's own value. */
  lemma {:induction false} GetAt<K, V>(d: Dict<K, V>, i: nat, other: V)
    requires Distinct(d) && i < |d|
    ensures Get(d, d[i].0, other) == d[i].1
  {
    if i > 0 {
      KeysAt(d[1..]);
      assert d[i] == d[1..][i - 1];
      GetAt(d[1..], i - 1, other);
    }
  }

  /** A `defaultdict(int)` after `d[k] += c` for each pair `(k, c)` in turn. */
  function Tally<K(==)>(pairs: seq<(K, nat)>): Dict<K, nat> {
    if |pairs| == 0 then [] else Add(Tally(pairs[..|pairs| - 1]), pairs[|pairs| - 1].0, pairs[|pairs| - 1].1)
  }

  /** The sum of the counts of the pairs with key `k`. */
  function CountFor<K(==)>(pairs: seq<(K, nat)>, k: K): nat {
    if |pairs| == 0 then 0
    else CountFor(pairs[..|pairs| - 1], k) + (if pairs[|pairs| - 1].0 == k then pairs[|pairs| - 1].1 else 0)
  }

  /** The sum of all counts. */
  function Total<K>(pairs: seq<(K, nat)>): nat {
    if |pairs| == 0 then 0 else Total(pairs[..|pairs| - 1]) + pairs[|pairs| - 1].1
  }

  lemma TallyAppend<K>(pairs: seq<(K, nat)>, k: K, c: nat)
    ensures Tally(pairs + [(k, c)]) == Add(Tally(pairs), k, c)
  {
    assert (pairs + [(k, c)])[..|pairs|] == pairs;
  }

  /** Each key's tally is the sum of its pairs' counts. */
  lemma {:induction false} TallyGet<K>(pairs: seq<(K, nat)>, k: K)
    ensures Get<K, nat>(Tally(pairs), k, 0) == CountFor(pairs, k)
  {
    if |pairs| > 0 {
      var init := pairs[..|pairs| - 1];
      var d := Tally(init);
      var key := pairs[|pairs| - 1].0;
      TallyGet(init, k);
      GetPut<K, nat>(d, key, Get<K, nat>(d, key, 0) + pairs[|pairs| - 1].1, k, 0);
    }
  }

  /** A key is tallied exactly when some pair carries it. */
  lemma {:induction false} TallyKeys<K>(pairs: seq<(K, nat)>, k: K)
    ensures k in Keys(Tally(pairs)) <==> exists i :: 0 <= i < |pairs| && pairs[i].0 == k
  {
    if |pairs| > 0 {
      var init := pairs[..|pairs| - 1];
      TallyKeys(init, k);
      assert forall i :: 0 <= i < |init| ==> init[i] == pairs[i];
    }
  }

  /** The tally lists no key twice and its values add up to the total of the counts. */
  lemma {:induction false} TallyTotal<K>(pairs: seq<(K, nat)>)
    ensures SumBy<K, nat>(Tally(pairs), Id) == Total(pairs)
    ensures Distinct(Tally(pairs))
  {
    if |pairs| > 0 {
      var init := pairs[..|pairs| - 1];
      TallyTotal(init);
      AddSum(Tally(init), pairs[|pairs| - 1].0, pairs[|pairs| - 1].1);
    }
  }
}
