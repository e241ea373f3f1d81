/**
 * `sorted(d.items(), key=lambda x: x[1], reverse=True)` and the slice that
 * keeps its first `n` entries. Python's sort is stable, also with
 * `reverse=True`: entries with equal counts keep their original order.
 */
module Ranking {

  predicate NonIncreasing<K>(s: seq<(K, nat)>) {
    forall i, j :: 0 <= i < j < |s| ==> s[i].1 >= s[j].1
  }

  /** The entries of `s` whose count is `c`, in their order in `s`. */
  function WithCount<K>(s: seq<(K, nat)>, c: nat): seq<(K, nat)> {
    if |s| == 0 then [] else (if s[0].1 == c then [s[0]] else []) + WithCount(s[1..], c)
  }

  /** Places `x` after every entry with a larger count and before the rest. */
  function Insert<K>(x: (K, nat), s: seq<(K, nat)>): (r: seq<(K, nat)>)
    ensures |r| == |s| + 1
  {
    if |s| == 0 then [x]
    else if s[0].1 > x.1 then [s[0]] + Insert(x, s[1..])
    else [x] + s
  }

  lemma {:induction false} InsertPermutes<K>(x: (K, nat), s: seq<(K, nat)>)
    ensures multiset(Insert(x, s)) == multiset(s) + multiset{x}
  {
    if |s| > 0 && s[0].1 > x.1 {
      InsertPermutes(x, s[1..]);
      assert s == [s[0]] + s[1..];
    }
  }

  lemma {:induction false} InsertSorted<K>(x: (K, nat), s: seq<(K, nat)>)
    requires NonIncreasing(s)
    ensures NonIncreasing(Insert(x, s))
  {
    if |s| > 0 && s[0].1 > x.1 {
      var t := Insert(x, s[1..]);
      InsertSorted(x, s[1..]);
      InsertPermutes(x, s[1..]);
      forall i | 0 <= i < |t| ensures s[0].1 >= t[i].1 {
        assert t[i] in multiset(s[1..]) + multiset{x};
        if t[i] != x {
          assert t[i] in s[1..];
        }
      }
    }
  }

  /** The stable descending sort by count. */
  function SortByCountDesc<K>(s: seq<(K, nat)>): (r: seq<(K, nat)>)
    ensures NonIncreasing(r)
    ensures multiset(r) == multiset(s) && |r| == |s|
  {
    if |s| == 0 then []
    else
      var t := SortByCountDesc(s[1..]);
      InsertSorted(s[0], t);
      InsertPermutes(s[0], t);
      assert s == [s[0]] + s[1..];
      Insert(s[0], t)
  }

  lemma {:induction false} InsertStable<K>(x: (K, nat), s: seq<(K, nat)>, c: nat)
    ensures WithCount(Insert(x, s), c) == WithCount([x] + s, c)
  {
    if |s| > 0 && s[0].1 > x.1 {
      InsertStable(x, s[1..], c);
      assert ([s[0]] + Insert(x, s[1..]))[1..] == Insert(x, s[1..]);
      assert ([x] + s)[1..] == s;
      assert ([x] + s[1..])[1..] == s[1..];
    }
  }

  /** Sorting keeps, for every count, the original order of the entries with that count. */
  lemma {:induction false} SortStable<K>(s: seq<(K, nat)>, c: nat)
    ensures WithCount(SortByCountDesc(s), c) == WithCount(s, c)
  {
    if |s| > 0 {
      SortStable(s[1..], c);
      InsertStable(s[0], SortByCountDesc(s[1..]), c);
      assert ([s[0]] + SortByCountDesc(s[1..]))[1..] == SortByCountDesc(s[1..]);
    }
  }

  /** `sorted(...)[:n]` */
  function Top<K>(s: seq<(K, nat)>, n: nat): (r: seq<(K, nat)>)
    ensures |r| == if |s| < n then |s| else n
    ensures r == SortByCountDesc(s)[..|r|]
    ensures NonIncreasing(r)
  {
    var sorted := SortByCountDesc(s);
    sorted[..if |s| < n then |s| else n]
  }

  /** The first `n` entries are ones with the largest counts: no entry left out beats them. */
  lemma TopIsLargest<K>(s: seq<(K, nat)>, n: nat, e: (K, nat), i: nat)
    requires e in multiset(s) - multiset(Top(s, n))
    requires i < |Top(s, n)|
    ensures e.1 <= Top(s, n)[i].1
  {
    var sorted := SortByCountDesc(s);
    var r := Top(s, n);
    var rest := sorted[|r|..];
    assert sorted == r + rest;
    assert multiset(sorted) == multiset(r) + multiset(rest);
    assert e in rest;
    var j :| 0 <= j < |rest| && rest[j] == e;
    assert sorted[|r| + j] == e;
    assert sorted[i] == r[i];
  }

  /** The first `n` entries are entries of the input. */
  lemma TopIsSubset<K>(s: seq<(K, nat)>, n: nat)
    ensures multiset(Top(s, n)) <= multiset(s)
  {
    var sorted := SortByCountDesc(s);
    assert sorted == Top(s, n) + sorted[|Top(s, n)|..];
  }

  lemma {:induction false} WithCountPrefix<K>(s: seq<(K, nat)>, m: nat, c: nat)
    requires m <= |s|
    ensures WithCount(s[..m], c) <= WithCount(s, c)
  {
    if m > 0 {
      WithCountPrefix(s[1..], m - 1, c);
      assert s[..m][1..] == s[1..][..m - 1];
    }
  }

  /**
   * Within the first `n` entries, entries with equal counts are a leading
   * run of the input's entries with that count, in input order.
   */
  lemma TopStable<K>(s: seq<(K, nat)>, n: nat, c: nat)
    ensures WithCount(Top(s, n), c) <= WithCount(s, c)
  {
    var sorted := SortByCountDesc(s);
    WithCountPrefix(sorted, |Top(s, n)|, c);
    SortStable(s, c);
  }
}
