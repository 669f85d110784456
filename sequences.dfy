/** Facts about broker-id sequences: duplicate freedom and left rotation (a deque's popleft/append). */
module Sequences {

  /** No broker id occurs twice. */
  predicate Distinct(s: seq<int>)
  {
    forall i, j :: 0 <= i < j < |s| ==> s[i] != s[j]
  }

  /** Every id occurs at most once in the multiset. */
  ghost predicate SetLike(m: multiset<int>)
  {
    forall x :: m[x] <= 1
  }

  /** s rotated left by k steps: what k rounds of `d.append(d.popleft())` leave in a deque built from s. */
  function Rotate(s: seq<int>, k: nat): (r: seq<int>)
    requires |s| > 0
    ensures |r| == |s| && multiset(r) == multiset(s)
    ensures r[0] == s[k % |s|]
  {
    var m := k % |s|;
    assert s == s[..m] + s[m..];
    s[m..] + s[..m]
  }

  lemma RotateZero(s: seq<int>)
    requires |s| > 0
    ensures Rotate(s, 0) == s
  {
    assert s[0..] == s;
  }

  lemma {:induction false} MulAtLeast(d: nat, n: nat)
    requires d >= 1
    ensures d * n >= n
  {
    if d > 1 {
      MulAtLeast(d - 1, n);
      assert d * n == (d - 1) * n + n;
    }
  }

  lemma ModUnique(x: int, n: int, q: int, r: int)
    requires n > 0 && 0 <= r < n && x == q * n + r
    ensures x % n == r
  {
    var q', r' := x / n, x % n;
    assert x == q' * n + r';
    assert q * n - q' * n == r' - r;
    assert (q - q') * n == q * n - q' * n;
    if q > q' {
      MulAtLeast(q - q', n);
    } else if q < q' {
      assert (q' - q) * n == q' * n - q * n;
      MulAtLeast(q' - q, n);
    }
  }

  lemma ModNext(k: nat, n: nat)
    requires n > 0
    ensures (k + 1) % n == if k % n + 1 < n then k % n + 1 else 0
  {
    var q, m := k / n, k % n;
    assert k == q * n + m;
    if m + 1 < n {
      ModUnique(k + 1, n, q, m + 1);
    } else {
      assert (q + 1) * n == q * n + n;
      ModUnique(k + 1, n, q + 1, 0);
    }
  }

  /** One more popleft/append step turns a rotation by k into a rotation by k + 1. */
  lemma RotateStep(s: seq<int>, k: nat)
    requires |s| > 0
    ensures Rotate(s, k)[1..] + [Rotate(s, k)[0]] == Rotate(s, k + 1)
  {
    var m := k % |s|;
    ModNext(k, |s|);
    if m + 1 < |s| {
      assert Rotate(s, k)[1..] == s[m + 1..] + s[..m];
      assert s[..m] + [s[m]] == s[..m + 1];
    } else {
      assert Rotate(s, k)[1..] == s[..m];
      assert s[..m] + [s[m]] == s;
      assert s[0..] + s[..0] == s;
    }
  }

  lemma {:induction false} DistinctSetLike(s: seq<int>)
    requires Distinct(s)
    ensures SetLike(multiset(s))
    decreases |s|
  {
    if s != [] {
      assert s == [s[0]] + s[1..];
      DistinctSetLike(s[1..]);
      assert s[0] !in s[1..];
    }
  }

  lemma {:induction false} SetLikeDistinct(s: seq<int>, m: multiset<int>)
    requires multiset(s) <= m && SetLike(m)
    ensures Distinct(s)
    decreases |s|
  {
    if s != [] {
      assert s == [s[0]] + s[1..];
      assert multiset(s) == multiset{s[0]} + multiset(s[1..]);
      SetLikeDistinct(s[1..], m);
      assert multiset(s[1..])[s[0]] == 0;
      assert s[0] !in s[1..];
      forall i, j | 0 <= i < j < |s| ensures s[i] != s[j] {
        if i > 0 {
          assert s[i] == s[1..][i - 1] && s[j] == s[1..][j - 1];
        } else {
          assert s[j] in s[1..];
        }
      }
    }
  }
}
