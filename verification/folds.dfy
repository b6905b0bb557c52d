/**
 * The folds every report is built from: sums over rows (`rows.reduce((sum, r) => sum + f(r), 0)`),
 * filters (`rows.filter(p)`), and per-key tallies (`acc[key] = (acc[key] || 0) + amount`), together
 * with the algebra that relates them: sums are additive, filters split sums, and the entries of a
 * tally add up to the plain sum.
 */
module Folds {

  /** Sum of `f` over the rows. */
  function Sum<T>(s: seq<T>, f: T -> int): int
  {
    if |s| == 0 then 0 else f(s[0]) + Sum(s[1..], f)
  }

  /** The rows satisfying `p`, in their original order. */
  function Filter<T>(s: seq<T>, p: T -> bool): (r: seq<T>)
    ensures |r| <= |s|
    ensures forall i :: 0 <= i < |r| ==> p(r[i])
  {
    if |s| == 0 then []
    else if p(s[0]) then [s[0]] + Filter(s[1..], p)
    else Filter(s[1..], p)
  }

  /** No key is listed twice. */
  predicate NoDup<K(==)>(ks: seq<K>)
  {
    forall i, j :: 0 <= i < j < |ks| ==> ks[i] != ks[j]
  }

  /** A missing key reads as zero, like `acc[k] || 0`. */
  function Get0<K>(m: map<K, int>, k: K): int
  {
    if k in m then m[k] else 0
  }

  /** One step of a tally: `acc[k] = (acc[k] || 0) + v`. */
  function Bump<K>(m: map<K, int>, k: K, v: int): map<K, int>
  {
    m[k := Get0(m, k) + v]
  }

  /** The left fold of `Bump` over the rows, starting from `acc`. */
  function TallyInto<T, K>(acc: map<K, int>, s: seq<T>, key: T -> K, f: T -> int): map<K, int>
    decreases |s|
  {
    if |s| == 0 then acc else TallyInto(Bump(acc, key(s[0]), f(s[0])), s[1..], key, f)
  }

  /** `rows.reduce((acc, r) => { acc[key(r)] = (acc[key(r)] || 0) + f(r); return acc }, {})`. */
  function Tally<T, K>(s: seq<T>, key: T -> K, f: T -> int): map<K, int>
  {
    TallyInto(map[], s, key, f)
  }

  /** Reference definition of one tally entry: the sum of `f` over the rows whose key is `k`. */
  function SumAt<T, K(==)>(s: seq<T>, key: T -> K, k: K, f: T -> int): int
  {
    if |s| == 0 then 0 else (if key(s[0]) == k then f(s[0]) else 0) + SumAt(s[1..], key, k, f)
  }

  /** The entries of a map read at the listed keys (absent ones as zero), added up. */
  function Spread<K>(m: map<K, int>, ks: seq<K>): int
  {
    if |ks| == 0 then 0 else Get0(m, ks[0]) + Spread(m, ks[1..])
  }

  /** One column of a breakdown whose entries hold several figures, as a map from key to amount. */
  function Column<K, V>(m: map<K, V>, col: V -> int): (r: map<K, int>)
    ensures r.Keys == m.Keys
    ensures forall k :: k in m ==> r[k] == col(m[k])
  {
    map k | k in m :: col(m[k])
  }

  /** The keys a tally over `s` produces. */
  function KeysOf<T, K>(s: seq<T>, key: T -> K): set<K>
  {
    set i | 0 <= i < |s| :: key(s[i])
  }

  // ---------------------------------------------------------------------------------------------
  // Sums

  lemma {:induction false} SumAppend<T>(a: seq<T>, b: seq<T>, f: T -> int)
    ensures Sum(a + b, f) == Sum(a, f) + Sum(b, f)
  {
    if |a| == 0 {
      assert a + b == b;
    } else {
      assert (a + b)[1..] == a[1..] + b;
      SumAppend(a[1..], b, f);
    }
  }

  /** Sums are additive in the summand. */
  lemma {:induction false} SumAdd<T>(s: seq<T>, f: T -> int, g: T -> int, h: T -> int)
    requires forall x :: h(x) == f(x) + g(x)
    ensures Sum(s, h) == Sum(s, f) + Sum(s, g)
  {
    if |s| > 0 {
      SumAdd(s[1..], f, g, h);
    }
  }

  /** Sums are subtractive in the summand. */
  lemma {:induction false} SumSub<T>(s: seq<T>, f: T -> int, g: T -> int, h: T -> int)
    requires forall x :: h(x) == f(x) - g(x)
    ensures Sum(s, h) == Sum(s, f) - Sum(s, g)
  {
    if |s| > 0 {
      SumSub(s[1..], f, g, h);
    }
  }

  /** Summing a constant one counts the rows. */
  lemma {:induction false} SumOnes<T>(s: seq<T>, f: T -> int)
    requires forall x :: f(x) == 1
    ensures Sum(s, f) == |s|
  {
    if |s| > 0 {
      SumOnes(s[1..], f);
    }
  }

  /** A summand that agrees with another on every row gives the same sum. */
  lemma {:induction false} SumCongruent<T>(s: seq<T>, f: T -> int, g: T -> int)
    requires forall i :: 0 <= i < |s| ==> f(s[i]) == g(s[i])
    ensures Sum(s, f) == Sum(s, g)
  {
    if |s| > 0 {
      SumCongruent(s[1..], f, g);
    }
  }

  /** Sum of non-negative summands is non-negative. */
  lemma {:induction false} SumNonNegative<T>(s: seq<T>, f: T -> int)
    requires forall i :: 0 <= i < |s| ==> f(s[i]) >= 0
    ensures Sum(s, f) >= 0
  {
    if |s| > 0 {
      SumNonNegative(s[1..], f);
    }
  }

  // ---------------------------------------------------------------------------------------------
  // Filters

  /** Unfolding a filtered sum at the first row. */
  lemma SumFilterCons<T>(s: seq<T>, p: T -> bool, f: T -> int)
    requires |s| > 0
    ensures Sum(Filter(s, p), f) == (if p(s[0]) then f(s[0]) else 0) + Sum(Filter(s[1..], p), f)
  {
    if p(s[0]) {
      var r := [s[0]] + Filter(s[1..], p);
      assert r[1..] == Filter(s[1..], p);
    }
  }

  /** Two complementary filters split a sum. */
  lemma {:induction false} SumFilterSplit<T>(s: seq<T>, p: T -> bool, q: T -> bool, f: T -> int)
    requires forall x :: q(x) == !p(x)
    ensures Sum(Filter(s, p), f) + Sum(Filter(s, q), f) == Sum(s, f)
  {
    if |s| > 0 {
      SumFilterCons(s, p, f);
      SumFilterCons(s, q, f);
      SumFilterSplit(s[1..], p, q, f);
    }
  }

  /** Summing over the rows that pass `p` is summing `f` masked to 0 on the rows that fail it. */
  lemma {:induction false} SumFilterMask<T>(s: seq<T>, p: T -> bool, f: T -> int, g: T -> int)
    requires forall x :: g(x) == (if p(x) then f(x) else 0)
    ensures Sum(Filter(s, p), f) == Sum(s, g)
  {
    if |s| > 0 {
      SumFilterCons(s, p, f);
      SumFilterMask(s[1..], p, f, g);
    }
  }

  /** A test and its negation split the rows between them. */
  lemma {:induction false} FilterSplitCount<T>(s: seq<T>, p: T -> bool, q: T -> bool)
    requires forall x :: q(x) == !p(x)
    ensures |Filter(s, p)| + |Filter(s, q)| == |s|
  {
    if |s| > 0 {
      FilterSplitCount(s[1..], p, q);
    }
  }

  /** A filter every row passes changes nothing. */
  lemma {:induction false} FilterAll<T>(s: seq<T>, p: T -> bool)
    requires forall i :: 0 <= i < |s| ==> p(s[i])
    ensures Filter(s, p) == s
  {
    if |s| > 0 {
      FilterAll(s[1..], p);
      assert [s[0]] + s[1..] == s;
    }
  }

  /** `s.map(g)`. */
  function Map<T, U>(s: seq<T>, g: T -> U): (r: seq<U>)
    ensures |r| == |s|
    ensures forall i :: 0 <= i < |s| ==> r[i] == g(s[i])
  {
    if |s| == 0 then [] else [g(s[0])] + Map(s[1..], g)
  }

  /** Summing a mapped sequence is summing the composed measure over the original. */
  lemma {:induction false} SumMap<T, U>(s: seq<T>, g: T -> U, f: U -> int, fg: T -> int)
    requires forall x :: fg(x) == f(g(x))
    ensures Sum(Map(s, g), f) == Sum(s, fg)
  {
    if |s| > 0 {
      SumMap(s[1..], g, f, fg);
      assert Map(s, g)[1..] == Map(s[1..], g);
    }
  }

  /** Two tests that agree on every row select the same rows. */
  lemma {:induction false} FilterCongruent<T>(s: seq<T>, p: T -> bool, q: T -> bool)
    requires forall i :: 0 <= i < |s| ==> p(s[i]) == q(s[i])
    ensures Filter(s, p) == Filter(s, q)
  {
    if |s| > 0 {
      FilterCongruent(s[1..], p, q);
    }
  }

  /** Filters commute with concatenation. */
  lemma {:induction false} FilterAppend<T>(a: seq<T>, b: seq<T>, p: T -> bool)
    ensures Filter(a + b, p) == Filter(a, p) + Filter(b, p)
  {
    if |a| == 0 {
      assert a + b == b;
    } else {
      assert (a + b)[1..] == a[1..] + b;
      FilterAppend(a[1..], b, p);
    }
  }

  /** Filtering twice is filtering once by the conjunction. */
  lemma {:induction false} FilterFilter<T>(s: seq<T>, p: T -> bool, q: T -> bool, pq: T -> bool)
    requires forall x :: pq(x) == (p(x) && q(x))
    ensures Filter(Filter(s, p), q) == Filter(s, pq)
  {
    if |s| > 0 {
      FilterFilter(s[1..], p, q, pq);
      if p(s[0]) {
        var r := [s[0]] + Filter(s[1..], p);
        assert r[0] == s[0] && r[1..] == Filter(s[1..], p);
      }
    }
  }

  /** A row is kept exactly when it is present and passes the test. */
  lemma {:induction false} FilterMembers<T>(s: seq<T>, p: T -> bool, x: T)
    ensures x in Filter(s, p) <==> x in s && p(x)
  {
    if |s| > 0 {
      FilterMembers(s[1..], p, x);
      assert x in s <==> x == s[0] || x in s[1..];
    }
  }

  /** Filters keep multiplicities: the kept rows are a sub-multiset of the input. */
  lemma {:induction false} FilterMultiset<T>(s: seq<T>, p: T -> bool)
    ensures multiset(Filter(s, p)) <= multiset(s)
  {
    if |s| > 0 {
      FilterMultiset(s[1..], p);
      assert s == [s[0]] + s[1..];
    }
  }

  /** Two filters that no row passes together keep at most all the rows between them. */
  lemma {:induction false} FilterDisjointCount<T>(s: seq<T>, p: T -> bool, q: T -> bool)
    requires forall x :: !(p(x) && q(x))
    ensures |Filter(s, p)| + |Filter(s, q)| <= |s|
  {
    if |s| > 0 {
      FilterDisjointCount(s[1..], p, q);
    }
  }

  // ---------------------------------------------------------------------------------------------
  // Tallies

  /** Every tally entry is the reference sum for its key, on top of what `acc` held. */
  lemma {:induction false} TallyIntoGet<T, K>(acc: map<K, int>, s: seq<T>, key: T -> K, f: T -> int, k: K)
    ensures Get0(TallyInto(acc, s, key, f), k) == Get0(acc, k) + SumAt(s, key, k, f)
    decreases |s|
  {
    if |s| > 0 {
      TallyIntoGet(Bump(acc, key(s[0]), f(s[0])), s[1..], key, f, k);
    }
  }

  /** A tally gains exactly one entry per distinct key met. */
  lemma {:induction false} TallyIntoKeys<T, K>(acc: map<K, int>, s: seq<T>, key: T -> K, f: T -> int)
    ensures TallyInto(acc, s, key, f).Keys == acc.Keys + KeysOf(s, key)
    decreases |s|
  {
    if |s| > 0 {
      TallyIntoKeys(Bump(acc, key(s[0]), f(s[0])), s[1..], key, f);
      assert KeysOf(s, key) == {key(s[0])} + KeysOf(s[1..], key) by {
        forall k | k in KeysOf(s, key) ensures k in {key(s[0])} + KeysOf(s[1..], key) {
          var i :| 0 <= i < |s| && key(s[i]) == k;
          if i > 0 {
            assert key(s[1..][i - 1]) == k;
          }
        }
        forall k | k in KeysOf(s[1..], key) ensures k in KeysOf(s, key) {
          var i :| 0 <= i < |s[1..]| && key(s[1..][i]) == k;
          assert key(s[i + 1]) == k;
        }
      }
    }
  }

  /** The entries of a tally are the reference sums, and its keys are exactly the keys met. */
  lemma TallyMeaning<T, K>(s: seq<T>, key: T -> K, f: T -> int)
    ensures Tally(s, key, f).Keys == KeysOf(s, key)
    ensures forall k :: Get0(Tally(s, key, f), k) == SumAt(s, key, k, f)
  {
    TallyIntoKeys(map[], s, key, f);
    forall k ensures Get0(Tally(s, key, f), k) == SumAt(s, key, k, f) {
      TallyIntoGet(map[], s, key, f, k);
    }
  }

  /** The reference sums over a duplicate-free key list, unfolded at the first row. */
  lemma {:induction false} SpreadSumAtCons<T, K>(s: seq<T>, key: T -> K, f: T -> int, ks: seq<K>)
    requires |s| > 0
    requires NoDup(ks)
    ensures SpreadSumAt(s, key, f, ks)
         == (if key(s[0]) in ks then f(s[0]) else 0) + SpreadSumAt(s[1..], key, f, ks)
  {
    if |ks| > 0 {
      assert NoDup(ks[1..]);
      SpreadSumAtCons(s, key, f, ks[1..]);
      assert key(s[0]) in ks <==> key(s[0]) == ks[0] || key(s[0]) in ks[1..];
      if key(s[0]) == ks[0] {
        assert key(s[0]) !in ks[1..];
      }
    }
  }

  /** A reference sum is the sum over the rows a key filter keeps. */
  lemma {:induction false} SumAtFilter<T, K>(s: seq<T>, key: T -> K, k: K, f: T -> int, p: T -> bool)
    requires forall x :: p(x) == (key(x) == k)
    ensures SumAt(s, key, k, f) == Sum(Filter(s, p), f)
    decreases |s|
  {
    if |s| > 0 {
      SumFilterCons(s, p, f);
      SumAtFilter(s[1..], key, k, f, p);
    }
  }

  /** The reference sums read at every listed key. */
  function SpreadSumAt<T, K(==)>(s: seq<T>, key: T -> K, f: T -> int, ks: seq<K>): int
  {
    if |ks| == 0 then 0 else SumAt(s, key, ks[0], f) + SpreadSumAt(s, key, f, ks[1..])
  }

  /** When every row's key is listed once, the per-key sums add up to the whole sum. */
  lemma {:induction false} SpreadSumAtTotal<T, K>(s: seq<T>, key: T -> K, f: T -> int, ks: seq<K>)
    requires NoDup(ks)
    requires forall i :: 0 <= i < |s| ==> key(s[i]) in ks
    ensures SpreadSumAt(s, key, f, ks) == Sum(s, f)
  {
    if |s| == 0 {
      SpreadSumAtEmpty(s, key, f, ks);
    } else {
      SpreadSumAtCons(s, key, f, ks);
      SpreadSumAtTotal(s[1..], key, f, ks);
    }
  }

  lemma {:induction false} SpreadSumAtEmpty<T, K>(s: seq<T>, key: T -> K, f: T -> int, ks: seq<K>)
    requires |s| == 0
    ensures SpreadSumAt(s, key, f, ks) == 0
  {
    if |ks| > 0 {
      SpreadSumAtEmpty(s, key, f, ks[1..]);
    }
  }

  lemma {:induction false} SpreadOfTally<T, K>(s: seq<T>, key: T -> K, f: T -> int, ks: seq<K>)
    ensures Spread(Tally(s, key, f), ks) == SpreadSumAt(s, key, f, ks)
  {
    if |ks| > 0 {
      TallyIntoGet(map[], s, key, f, ks[0]);
      SpreadOfTally(s, key, f, ks[1..]);
    }
  }

  /** A tally into a non-empty accumulator adds the reference sums to the accumulator's entries. */
  lemma {:induction false} SpreadOfTallyInto<T, K>(acc: map<K, int>, s: seq<T>, key: T -> K, f: T -> int, ks: seq<K>)
    ensures Spread(TallyInto(acc, s, key, f), ks) == Spread(acc, ks) + SpreadSumAt(s, key, f, ks)
  {
    if |ks| > 0 {
      TallyIntoGet(acc, s, key, f, ks[0]);
      SpreadOfTallyInto(acc, s, key, f, ks[1..]);
    }
  }

  /**
   * The entries of a tally add up to the plain sum, read over any duplicate-free list of keys that
   * covers every row's key.
   */
  lemma TallyTotal<T, K>(s: seq<T>, key: T -> K, f: T -> int, ks: seq<K>)
    requires NoDup(ks)
    requires forall i :: 0 <= i < |s| ==> key(s[i]) in ks
    ensures Spread(Tally(s, key, f), ks) == Sum(s, f)
  {
    SpreadOfTally(s, key, f, ks);
    SpreadSumAtTotal(s, key, f, ks);
  }
}
