/** Order-preserving selection from a sequence: the one loop shape shared by
    deletion, status filtering and keyword search in task/task.go. */
module Selection {

  /** `a` is obtained from `b` by dropping some elements, keeping the order of the rest. */
  ghost predicate SubseqOf<T>(a: seq<T>, b: seq<T>)
    decreases |b|
  {
    |a| == 0 ||
    (|b| > 0 && ((a[0] == b[0] && SubseqOf(a[1..], b[1..])) || SubseqOf(a, b[1..])))
  }

  /** The elements of `s` that satisfy `p`, in their original order
      (a `for ... range` loop that appends the matching elements). */
  function Keep<T(!new)>(s: seq<T>, p: T -> bool): (r: seq<T>)
    ensures |r| <= |s|
    ensures SubseqOf(r, s)
    ensures forall x {:trigger multiset(r)[x]} :: multiset(r)[x] == if p(x) then multiset(s)[x] else 0
    ensures forall x {:trigger x in r} :: x in r <==> x in s && p(x)
  {
    if |s| == 0 then []
    else
      assert s == [s[0]] + s[1..];
      if p(s[0]) then [s[0]] + Keep(s[1..], p)
      else Keep(s[1..], p)
  }

  /** Every element of a subsequence occurs in the sequence it was taken from. */
  lemma {:induction false} SubseqOfContained<T>(a: seq<T>, b: seq<T>)
    requires SubseqOf(a, b)
    ensures |a| <= |b|
    ensures forall x :: x in a ==> x in b
    decreases |b|
  {
    if |a| == 0 {
    } else if a[0] == b[0] && SubseqOf(a[1..], b[1..]) {
      SubseqOfContained(a[1..], b[1..]);
      assert a == [a[0]] + a[1..];
      assert b == [b[0]] + b[1..];
    } else {
      SubseqOfContained(a, b[1..]);
      assert b == [b[0]] + b[1..];
    }
  }

  /** Selecting twice with the same predicate selects nothing new. */
  lemma {:induction false} KeepIdempotent<T(!new)>(s: seq<T>, p: T -> bool)
    ensures Keep(Keep(s, p), p) == Keep(s, p)
  {
    if |s| > 0 {
      KeepIdempotent(s[1..], p);
      if p(s[0]) {
        var k := Keep(s, p);
        assert k == [s[0]] + Keep(s[1..], p);
        assert k[1..] == Keep(s[1..], p);
      }
    }
  }

  /** When every element satisfies `p`, nothing is dropped. */
  lemma {:induction false} KeepAll<T(!new)>(s: seq<T>, p: T -> bool)
    requires forall i :: 0 <= i < |s| ==> p(s[i])
    ensures Keep(s, p) == s
  {
    if |s| > 0 {
      KeepAll(s[1..], p);
      assert s == [s[0]] + s[1..];
    }
  }

  /** Dropping an element that fails `p` makes the selection strictly shorter. */
  lemma {:induction false} KeepDropsSome<T(!new)>(s: seq<T>, p: T -> bool, i: int)
    requires 0 <= i < |s| && !p(s[i])
    ensures |Keep(s, p)| < |s|
  {
    var rest := Keep(s[1..], p);
    if i == 0 {
      assert Keep(s, p) == rest;
    } else {
      assert s[1..][i - 1] == s[i];
      KeepDropsSome(s[1..], p, i - 1);
      assert |Keep(s, p)| <= 1 + |rest|;
    }
  }
}
