/** The LINQ operators the service chains over an enumerated array: Take, Where
    and Select, on finite sequences. */
module Linq {

  /** Take(n): the first n elements, or all of them when there are fewer. */
  function Take<T>(xs: seq<T>, n: nat): (r: seq<T>)
    ensures |r| == if n < |xs| then n else |xs|
    ensures r == xs[..|r|]
  {
    if n == 0 || xs == [] then [] else [xs[0]] + Take(xs[1..], n - 1)
  }

  /** Where(p): the elements that satisfy p, in their original order. */
  function Where<T>(xs: seq<T>, p: T -> bool): (r: seq<T>)
    ensures |r| <= |xs|
    ensures forall i :: 0 <= i < |r| ==> r[i] in xs && p(r[i])
    ensures forall i :: 0 <= i < |xs| && p(xs[i]) ==> xs[i] in r
  {
    if xs == [] then [] else (if p(xs[0]) then [xs[0]] else []) + Where(xs[1..], p)
  }

  /** Select(f): f applied to each element, in order. */
  function Select<T, U>(xs: seq<T>, f: T -> U): (r: seq<U>)
    ensures |r| == |xs|
    ensures forall i :: 0 <= i < |xs| ==> r[i] == f(xs[i])
  {
    if xs == [] then [] else [f(xs[0])] + Select(xs[1..], f)
  }

  /** The negation of a predicate. */
  function Not<T>(p: T -> bool): T -> bool {
    x => !p(x)
  }

  /** s is obtained from t by deleting elements, without reordering the rest. */
  ghost predicate IsSubsequence<T>(s: seq<T>, t: seq<T>)
    decreases |t|
  {
    if s == [] then true
    else if t == [] then false
    else (s[0] == t[0] && IsSubsequence(s[1..], t[1..])) || IsSubsequence(s, t[1..])
  }

  /** Where keeps the relative order of the elements it keeps. */
  lemma {:induction false} WhereIsSubsequence<T>(xs: seq<T>, p: T -> bool)
    ensures IsSubsequence(Where(xs, p), xs)
  {
    if xs != [] {
      WhereIsSubsequence(xs[1..], p);
      var rest := Where(xs[1..], p);
      if p(xs[0]) {
        assert Where(xs, p) == [xs[0]] + rest;
        assert ([xs[0]] + rest)[1..] == rest;
      } else {
        assert Where(xs, p) == rest;
      }
    }
  }

  /** Every element is either kept by Where(p) or by Where(Not(p)): the output
      is shorter than the input by exactly the number of rejected elements. */
  lemma {:induction false} WherePartition<T>(xs: seq<T>, p: T -> bool)
    ensures |Where(xs, p)| + |Where(xs, Not(p))| == |xs|
  {
    if xs != [] {
      WherePartition(xs[1..], p);
    }
  }

  /** When every element but the one at k satisfies p, Where(p) drops exactly one. */
  lemma {:induction false} WhereAllButOne<T>(xs: seq<T>, p: T -> bool, k: nat)
    requires k < |xs|
    requires !p(xs[k])
    requires forall i :: 0 <= i < |xs| && i != k ==> p(xs[i])
    ensures |Where(xs, p)| == |xs| - 1
  {
    if k == 0 {
      WhereAll(xs[1..], p);
    } else {
      WhereAllButOne(xs[1..], p, k - 1);
    }
  }

  /** When every element satisfies p, Where(p) is the identity. */
  lemma {:induction false} WhereAll<T>(xs: seq<T>, p: T -> bool)
    requires forall i :: 0 <= i < |xs| ==> p(xs[i])
    ensures Where(xs, p) == xs
  {
    if xs != [] {
      WhereAll(xs[1..], p);
    }
  }
}
