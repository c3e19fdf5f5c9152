/** The simple least-recently-used list that the media pipeline cache is measured against. */
module RecencyList {

  /** `s` without its occurrences of `k`. */
  function Drop<K(==)>(s: seq<K>, k: K): seq<K> {
    if s == [] then [] else (if s[0] == k then [] else [s[0]]) + Drop(s[1..], k)
  }

  /** The last `n` elements, or all of them. */
  function Newest<T>(s: seq<T>, n: nat): seq<T> {
    if |s| <= n then s else s[|s| - n..]
  }

  /** Every key used so far, once, the most recently used one last. */
  function Recent<K(==)>(uses: seq<K>): seq<K> {
    if uses == [] then []
    else Drop(Recent(uses[..|uses| - 1]), uses[|uses| - 1]) + [uses[|uses| - 1]]
  }

  /** What a bounded cache that never fails holds after these uses. */
  function Held<K(==)>(uses: seq<K>, max: nat): seq<K> {
    if uses == [] then []
    else Newest(Drop(Held(uses[..|uses| - 1], max), uses[|uses| - 1]) + [uses[|uses| - 1]], max)
  }

  ghost predicate NoDuplicates<K(!new)>(s: seq<K>) {
    forall i, j :: 0 <= i < j < |s| ==> s[i] != s[j]
  }

  lemma {:induction false} DropIs<K>(s: seq<K>, k: K)
    ensures forall x: K :: x in Drop(s, k) <==> x in s && x != k
    ensures k !in s ==> Drop(s, k) == s
    ensures |Drop(s, k)| <= |s|
  {
    if s != [] {
      DropIs(s[1..], k);
      assert s == [s[0]] + s[1..];
    }
  }

  lemma {:induction false} DropSplits<K>(a: seq<K>, b: seq<K>, k: K)
    ensures Drop(a + b, k) == Drop(a, k) + Drop(b, k)
  {
    if a == [] {
      assert a + b == b;
    } else {
      assert (a + b)[1..] == a[1..] + b;
      DropSplits(a[1..], b, k);
    }
  }

  lemma {:induction false} DropKeepsDistinct<K(!new)>(s: seq<K>, k: K)
    requires NoDuplicates(s)
    ensures NoDuplicates(Drop(s, k))
    ensures k in s ==> |Drop(s, k)| == |s| - 1
  {
    if s != [] {
      DropKeepsDistinct(s[1..], k);
      DropIs(s[1..], k);
      if s[0] == k {
        assert k !in s[1..];
      } else {
        assert s == [s[0]] + s[1..];
        assert s[0] !in s[1..];
      }
    }
  }

  lemma {:induction false} RecentIsDistinct<K(!new)>(uses: seq<K>)
    ensures NoDuplicates(Recent(uses))
    ensures forall x: K :: x in Recent(uses) <==> x in uses
  {
    if uses != [] {
      var rest, last := uses[..|uses| - 1], uses[|uses| - 1];
      RecentIsDistinct(rest);
      DropKeepsDistinct(Recent(rest), last);
      DropIs(Recent(rest), last);
      assert uses == rest + [last];
    }
  }

  lemma NewestOfLonger<T>(x: seq<T>, y: seq<T>, n: nat)
    requires |y| >= n
    ensures Newest(x + y, n) == Newest(y, n)
  {
  }

  lemma DropAtMostOne<K(!new)>(s: seq<K>, k: K)
    requires NoDuplicates(s)
    ensures |Drop(s, k)| + 1 >= |s|
  {
    DropIs(s, k);
    if k in s {
      DropKeepsDistinct(s, k);
    }
  }

  lemma TouchingTheNewest<K(!new)>(s: seq<K>, k: K, max: nat)
    requires NoDuplicates(s) && max > 0
    ensures Newest(Drop(s, k) + [k], max) == Newest(Drop(Newest(s, max), k) + [k], max)
  {
    if |s| > max {
      var a, b := s[..|s| - max], s[|s| - max..];
      assert s == a + b;
      DropSplits(a, b, k);
      DropAtMostOne(b, k);
      assert Drop(s, k) + [k] == Drop(a, k) + (Drop(b, k) + [k]);
      NewestOfLonger(Drop(a, k), Drop(b, k) + [k], max);
    }
  }

  /** Bounding the cache step by step loses nothing: it holds the `max` most recently used keys, in that order. */
  lemma {:induction false} HeldAreTheMostRecent<K(!new)>(uses: seq<K>, max: nat)
    requires max > 0
    ensures Held(uses, max) == Newest(Recent(uses), max)
  {
    if uses != [] {
      var rest := uses[..|uses| - 1];
      HeldAreTheMostRecent(rest, max);
      RecentIsDistinct(rest);
      TouchingTheNewest(Recent(rest), uses[|uses| - 1], max);
    }
  }

  /** `s` without what is not in `keep`. */
  function Restrict<K>(s: seq<K>, keep: set<K>): seq<K> {
    if s == [] then [] else (if s[0] in keep then [s[0]] else []) + Restrict(s[1..], keep)
  }

  lemma {:induction false} RestrictDropped<K>(s: seq<K>, keep: set<K>, k: K)
    ensures Restrict(s, keep - {k}) == Drop(Restrict(s, keep), k)
    ensures Restrict(Drop(s, k), keep) == Drop(Restrict(s, keep), k)
  {
    if s != [] {
      RestrictDropped(s[1..], keep, k);
      var head := if s[0] in keep then [s[0]] else [];
      DropSplits(head, Restrict(s[1..], keep), k);
      assert Drop(head, k) == if s[0] in keep && s[0] != k then [s[0]] else [];
      if s[0] == k {
        assert Drop(s, k) == Drop(s[1..], k);
      } else {
        assert Drop(s, k) == [s[0]] + Drop(s[1..], k);
        assert Drop(s, k)[1..] == Drop(s[1..], k);
      }
    }
  }

  lemma {:induction false} RestrictSplits<K>(a: seq<K>, b: seq<K>, keep: set<K>)
    ensures Restrict(a + b, keep) == Restrict(a, keep) + Restrict(b, keep)
  {
    if a == [] {
      assert a + b == b;
    } else {
      var head := if a[0] in keep then [a[0]] else [];
      assert (a + b)[0] == a[0] && (a + b)[1..] == a[1..] + b;
      RestrictSplits(a[1..], b, keep);
      assert Restrict(a + b, keep) == head + Restrict(a[1..] + b, keep);
    }
  }

  /** Using a key moves it to the young end of the residents, whether it was resident or not. */
  lemma RestrictTouched<K(!new)>(uses: seq<K>, keep: set<K>, k: K)
    ensures Restrict(Recent(uses + [k]), keep + {k}) == Drop(Restrict(Recent(uses), keep), k) + [k]
  {
    assert (uses + [k])[..|uses|] == uses;
    var rest := Drop(Recent(uses), k);
    RestrictSplits(rest, [k], keep + {k});
    RestrictDropped(Recent(uses), keep + {k}, k);
    RestrictDropped(Recent(uses), keep, k);
    assert keep + {k} - {k} == keep - {k};
    assert Restrict([k], keep + {k}) == [k];
  }

  /* ---------- Recency means last use ---------- */

  /** `x` stands before `y` somewhere in `s`. */
  ghost predicate Precedes<K(!new)>(s: seq<K>, x: K, y: K) {
    exists p, q :: 0 <= p < q < |s| && s[p] == x && s[q] == y
  }

  lemma {:induction false} DropKeepsOrder<K(!new)>(s: seq<K>, k: K, i: nat, j: nat)
    requires i < j < |Drop(s, k)|
    ensures Precedes(s, Drop(s, k)[i], Drop(s, k)[j])
    decreases |s|
  {
    var rest := Drop(s[1..], k);
    if s[0] == k {
      DropKeepsOrder(s[1..], k, i, j);
      Later(s, rest[i], rest[j]);
    } else if i > 0 {
      DropKeepsOrder(s[1..], k, i - 1, j - 1);
      Later(s, rest[i - 1], rest[j - 1]);
    } else {
      DropIs(s[1..], k);
      assert rest[j - 1] in rest;
      var q :| 0 <= q < |s[1..]| && s[1..][q] == rest[j - 1];
      assert s[0] == Drop(s, k)[0] && s[q + 1] == Drop(s, k)[j];
    }
  }

  lemma Later<K(!new)>(s: seq<K>, x: K, y: K)
    requires s != [] && Precedes(s[1..], x, y)
    ensures Precedes(s, x, y)
  {
    var p, q :| 0 <= p < q < |s[1..]| && s[1..][p] == x && s[1..][q] == y;
    assert s[p + 1] == x && s[q + 1] == y;
  }

  ghost predicate LastUsedAt<K(!new)>(uses: seq<K>, k: K, t: nat)
    requires t < |uses|
  {
    uses[t] == k && forall u :: t < u < |uses| ==> uses[u] != k
  }

  /** A key stands before another exactly as it was last used before it. */
  lemma {:induction false} RecentIsByLastUse<K(!new)>(uses: seq<K>, i: nat, j: nat, t: nat, u: nat)
    requires i < j < |Recent(uses)| && t < |uses| && u < |uses|
    requires LastUsedAt(uses, Recent(uses)[i], t) && LastUsedAt(uses, Recent(uses)[j], u)
    ensures t < u
    decreases |uses|
  {
    var n := |uses| - 1;
    var rest, last := uses[..n], uses[n];
    var before := Recent(rest);
    RecentIsDistinct(uses);
    assert Recent(uses)[|Recent(uses)| - 1] == last;
    assert t < n;
    if j < |Recent(uses)| - 1 {
      assert Recent(uses)[j] != last;
      DropKeepsOrder(before, last, i, j);
      var x, y := Drop(before, last)[i], Drop(before, last)[j];
      var p, q :| 0 <= p < q < |before| && before[p] == x && before[q] == y;
      assert LastUsedAt(rest, x, t) && LastUsedAt(rest, y, u);
      RecentIsByLastUse(rest, p, q, t, u);
    } else {
      assert u == n;
    }
  }
}
