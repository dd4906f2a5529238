/** Counting the elements of a sequence that satisfy a predicate. */
module Counting {

  /** The number of elements of `s` satisfying `p`, accumulated left to right. */
  function Count<T>(s: seq<T>, p: T -> bool): (n: nat)
    ensures n <= |s|
  {
    if s == [] then 0 else Count(s[..|s| - 1], p) + (if p(s[|s| - 1]) then 1 else 0)
  }

  lemma {:induction false} CountConcat<T>(a: seq<T>, b: seq<T>, p: T -> bool)
    ensures Count(a + b, p) == Count(a, p) + Count(b, p)
    decreases |b|
  {
    if b == [] {
      assert a + b == a;
    } else {
      var b' := b[..|b| - 1];
      assert (a + b)[..|a + b| - 1] == a + b';
      CountConcat(a, b', p);
    }
  }

  /** Removing the element at `k` lowers the count by one exactly when it satisfies `p`. */
  lemma {:induction false} CountRemove<T>(s: seq<T>, k: nat, p: T -> bool)
    requires k < |s|
    ensures Count(s, p) == Count(s[..k] + s[k + 1..], p) + (if p(s[k]) then 1 else 0)
  {
    var before, x, after := s[..k], s[k], s[k + 1..];
    assert s == (before + [x]) + after;
    CountConcat(before + [x], after, p);
    CountConcat(before, [x], p);
    CountConcat(before, after, p);
    assert Count([x], p) == (if p(x) then 1 else 0) by {
      assert [x][..0] == [];
    }
  }

  /** A count depends only on the multiset of elements, not on their order. */
  lemma {:induction false} CountPermutation<T>(s: seq<T>, t: seq<T>, p: T -> bool)
    requires multiset(s) == multiset(t)
    ensures Count(s, p) == Count(t, p)
    decreases |s|
  {
    if s == [] {
      assert |t| == |multiset(t)| == 0;
    } else {
      var n := |s| - 1;
      var x := s[n];
      assert s == s[..n] + [x];
      assert x in multiset(t);
      var k :| 0 <= k < |t| && t[k] == x;
      var rest := t[..k] + t[k + 1..];
      assert t == t[..k] + [x] + t[k + 1..];
      assert multiset(rest) == multiset(t) - multiset{x};
      assert multiset(s[..n]) == multiset(s) - multiset{x};
      CountPermutation(s[..n], rest, p);
      CountRemove(t, k, p);
    }
  }

  /**
   * If `p` implies `q` on every element, `q` counts at least as many; an element
   * satisfying `q` but not `p` makes it strictly more.
   */
  lemma {:induction false} CountMonotone<T>(s: seq<T>, p: T -> bool, q: T -> bool)
    requires forall i :: 0 <= i < |s| ==> p(s[i]) ==> q(s[i])
    ensures Count(s, p) <= Count(s, q)
    ensures (exists i :: 0 <= i < |s| && q(s[i]) && !p(s[i])) ==> Count(s, p) < Count(s, q)
    decreases |s|
  {
    if s != [] {
      var n := |s| - 1;
      CountMonotone(s[..n], p, q);
      if exists i :: 0 <= i < |s| && q(s[i]) && !p(s[i]) {
        var i :| 0 <= i < |s| && q(s[i]) && !p(s[i]);
        if i < n {
          assert s[..n][i] == s[i];
        }
      }
    }
  }

  /** One element failing `p` keeps the count below the length. */
  lemma {:induction false} CountMissing<T>(s: seq<T>, k: nat, p: T -> bool)
    requires k < |s| && !p(s[k])
    ensures Count(s, p) < |s|
    decreases |s|
  {
    var n := |s| - 1;
    if k < n {
      assert s[..n][k] == s[k];
      CountMissing(s[..n], k, p);
    }
  }
}
