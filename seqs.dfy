/** The three array operations every handler is built from, as JavaScript defines
    them: `find` returns the first element that matches, `map` rewrites each element
    (here: each element that matches, the others are kept), `filter` keeps the
    matching elements in order. */
module Seqs {
  import opened Types

  /** The position of the first element satisfying `p`, or `|s|` when none does. */
  function FirstIndex<T>(s: seq<T>, p: T -> bool): (k: nat)
    ensures k <= |s|
    ensures forall j :: 0 <= j < k ==> !p(s[j])
    ensures k < |s| ==> p(s[k])
  {
    if s == [] then 0
    else if p(s[0]) then 0
    else 1 + FirstIndex(s[1..], p)
  }

  /** `s.find(p)`: the first element satisfying `p`, if any. */
  function Find<T>(s: seq<T>, p: T -> bool): (r: Option<T>)
    ensures r.None? <==> forall j :: 0 <= j < |s| ==> !p(s[j])
    ensures r.Some? ==> p(r.value) && r.value in s
    ensures r.Some? ==> FirstIndex(s, p) < |s| && r.value == s[FirstIndex(s, p)]
  {
    var k := FirstIndex(s, p);
    if k < |s| then Some(s[k]) else None
  }

  /** `s.map(x => p(x) ? f(x) : x)`: every matching element is rewritten, in place. */
  function MapWhere<T>(s: seq<T>, p: T -> bool, f: T -> T): (r: seq<T>)
    ensures |r| == |s|
    ensures forall j :: 0 <= j < |s| ==> r[j] == if p(s[j]) then f(s[j]) else s[j]
  {
    if s == [] then []
    else [if p(s[0]) then f(s[0]) else s[0]] + MapWhere(s[1..], p, f)
  }

  /** `s.filter(p)`: the matching elements, each as often as in `s`. */
  function Filter<T(!new)>(s: seq<T>, p: T -> bool): (r: seq<T>)
    ensures |r| <= |s|
    ensures forall x :: x in r <==> x in s && p(x)
    ensures forall x :: multiset(r)[x] == if p(x) then multiset(s)[x] else 0
  {
    if s == [] then []
    else
      assert s == [s[0]] + s[1..];
      (if p(s[0]) then [s[0]] else []) + Filter(s[1..], p)
  }

  /** Rewriting nothing leaves the sequence as it was. */
  lemma MapWhereNoMatch<T>(s: seq<T>, p: T -> bool, f: T -> T)
    requires forall j :: 0 <= j < |s| ==> !p(s[j])
    ensures MapWhere(s, p, f) == s
  {
  }
}
