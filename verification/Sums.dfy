/** Sums over sequences, and their independence of the order of the sequence. */
module Sums {

  function SumOf<T>(s: seq<T>, f: T -> int): int {
    if s == [] then 0 else f(s[0]) + SumOf(s[1..], f)
  }

  lemma {:induction false} SumOfConcat<T>(a: seq<T>, b: seq<T>, f: T -> int)
    ensures SumOf(a + b, f) == SumOf(a, f) + SumOf(b, f)
  {
    if a == [] {
      assert a + b == b;
    } else {
      SumOfConcat(a[1..], b, f);
      assert (a + b)[1..] == a[1..] + b;
    }
  }

  /** Taking one element out of the middle. */
  lemma SumOfWithout<T>(s: seq<T>, k: nat, f: T -> int)
    requires k < |s|
    ensures SumOf(s, f) == f(s[k]) + SumOf(s[..k] + s[k + 1..], f)
    ensures multiset(s) == multiset([s[k]]) + multiset(s[..k] + s[k + 1..])
  {
    assert s == s[..k] + ([s[k]] + s[k + 1..]);
    SumOfConcat(s[..k], [s[k]] + s[k + 1..], f);
    SumOfConcat([s[k]], s[k + 1..], f);
    SumOfConcat(s[..k], s[k + 1..], f);
  }

  lemma {:induction false} SumOfPermutation<T>(a: seq<T>, b: seq<T>, f: T -> int)
    requires multiset(a) == multiset(b)
    ensures SumOf(a, f) == SumOf(b, f)
  {
    if a == [] {
      assert |multiset(b)| == 0;
    } else {
      assert a[0] in multiset(b);
      var k :| 0 <= k < |b| && b[k] == a[0];
      SumOfWithout(b, k, f);
      assert a == [a[0]] + a[1..];
      assert multiset(a[1..]) == multiset(a) - multiset([a[0]]);
      SumOfPermutation(a[1..], b[..k] + b[k + 1..], f);
    }
  }

  lemma {:induction false} SumOfMonotone<T>(s: seq<T>, f: T -> int, g: T -> int)
    requires forall i :: 0 <= i < |s| ==> f(s[i]) <= g(s[i])
    ensures SumOf(s, f) <= SumOf(s, g)
  {
    if s != [] {
      assert forall i :: 0 <= i < |s[1..]| ==> s[1..][i] == s[i + 1];
      SumOfMonotone(s[1..], f, g);
    }
  }
}
