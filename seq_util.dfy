/** The array search and filter the stores use to find and drop entries, over any element type. */
module SeqUtil {

  /** `xs.find(p)` as an index: the first element satisfying `p`, or -1 when none does. */
  function FirstWhere<T>(xs: seq<T>, p: T -> bool): (k: int)
    ensures -1 <= k < |xs|
    ensures k == -1 <==> forall i :: 0 <= i < |xs| ==> !p(xs[i])
    ensures k >= 0 ==> p(xs[k]) && forall i :: 0 <= i < k ==> !p(xs[i])
  {
    if xs == [] then -1
    else if p(xs[0]) then 0
    else
      var k := FirstWhere(xs[1..], p);
      if k < 0 then -1 else k + 1
  }

  /** `xs.filter(p)`: exactly the elements satisfying `p`, in order; shorter when one fails `p`. */
  function Keep<T(!new)>(xs: seq<T>, p: T -> bool): (r: seq<T>)
    ensures |r| <= |xs|
    ensures forall x :: x in r <==> x in xs && p(x)
    ensures (exists i :: 0 <= i < |xs| && !p(xs[i])) ==> |r| < |xs|
  {
    if xs == [] then []
    else (if p(xs[0]) then [xs[0]] else []) + Keep(xs[1..], p)
  }

  /** Filtering by a test every element passes changes nothing. */
  lemma {:induction false} KeepAll<T(!new)>(xs: seq<T>, p: T -> bool)
    requires forall i :: 0 <= i < |xs| ==> p(xs[i])
    ensures Keep(xs, p) == xs
  {
    if xs != [] {
      KeepAll(xs[1..], p);
      assert xs == [xs[0]] + xs[1..];
    }
  }

  /** The filter keeps order: filtering a concatenation concatenates the filtered parts. */
  lemma {:induction false} KeepConcat<T(!new)>(a: seq<T>, b: seq<T>, p: T -> bool)
    ensures Keep(a + b, p) == Keep(a, p) + Keep(b, p)
  {
    if a == [] {
      assert a + b == b;
    } else {
      assert (a + b)[1..] == a[1..] + b;
      KeepConcat(a[1..], b, p);
    }
  }

  /** Replacing an element the filter drops by another one it drops leaves the filtered list as it was. */
  lemma {:induction false} KeepIgnoresDropped<T(!new)>(xs: seq<T>, k: int, v: T, p: T -> bool)
    requires 0 <= k < |xs| && !p(xs[k]) && !p(v)
    ensures Keep(xs[k := v], p) == Keep(xs, p)
  {
    if k > 0 {
      assert xs[k := v][1..] == xs[1..][k - 1 := v];
      KeepIgnoresDropped(xs[1..], k - 1, v, p);
    } else {
      assert xs[k := v][1..] == xs[1..];
    }
  }
}
