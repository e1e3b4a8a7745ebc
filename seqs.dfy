/** Sequence combinators with the meaning of JavaScript's `Array.prototype.map`,
    `find` and `filter`, used by the barter reducers and the barter selector. */
module Seqs {

  /** A value that may be missing: JavaScript's `undefined` (or `null`) versus a value. */
  datatype Option<+T> = None | Some(value: T)

  /** `s.map(f)`: one result per element, in order. */
  function Map<A, B>(s: seq<A>, f: A -> B): (r: seq<B>)
    ensures |r| == |s|
    ensures forall i :: 0 <= i < |s| ==> r[i] == f(s[i])
  {
    if s == [] then [] else [f(s[0])] + Map(s[1..], f)
  }

  /** `s.find(p)`: the first element satisfying `p`, or `None` when there is none. */
  function Find<T>(s: seq<T>, p: T -> bool): (r: Option<T>)
    ensures r.None? <==> forall i :: 0 <= i < |s| ==> !p(s[i])
    ensures r.Some? ==>
      exists i :: 0 <= i < |s| && s[i] == r.value && p(s[i]) && forall j :: 0 <= j < i ==> !p(s[j])
  {
    if s == [] then None
    else if p(s[0]) then Some(s[0])
    else
      var rest := Find(s[1..], p);
      if rest.Some? then
        ghost var i :| 0 <= i < |s| - 1 && s[1..][i] == rest.value && p(s[1..][i])
                      && forall j :: 0 <= j < i ==> !p(s[1..][j]);
        assert s[i + 1] == rest.value && forall j :: 0 <= j < i + 1 ==> !p(s[j]) by {
          forall j | 0 < j < i + 1 ensures !p(s[j]) { assert s[j] == s[1..][j - 1]; }
        }
        rest
      else
        assert forall i :: 0 < i < |s| ==> s[i] == s[1..][i - 1];
        rest
  }

  /** The present values of `s`, in order: what `.map(...).filter(Boolean)` keeps when
      the map yields `false` for "absent" and a (truthy) object otherwise. */
  function Somes<T(!new)>(s: seq<Option<T>>): (r: seq<T>)
    ensures |r| <= |s|
    ensures forall x :: x in r <==> Some(x) in s
  {
    if s == [] then []
    else
      assert s == [s[0]] + s[1..];
      (if s[0].Some? then [s[0].value] else []) + Somes(s[1..])
  }

  /** `s.filter(p)`: the elements satisfying `p`, in order. */
  function Filter<T(!new)>(s: seq<T>, p: T -> bool): (r: seq<T>)
    ensures |r| <= |s|
    ensures forall x :: x in r <==> x in s && p(x)
  {
    if s == [] then []
    else
      assert s == [s[0]] + s[1..];
      (if p(s[0]) then [s[0]] else []) + Filter(s[1..], p)
  }

  /** Mapping distributes over concatenation. */
  lemma MapConcat<A, B>(s: seq<A>, t: seq<A>, f: A -> B)
    ensures Map(s + t, f) == Map(s, f) + Map(t, f)
  {
  }

  /** Dropping the absent values distributes over concatenation: the kept values stay in order. */
  lemma {:induction false} SomesConcat<T(!new)>(s: seq<Option<T>>, t: seq<Option<T>>)
    ensures Somes(s + t) == Somes(s) + Somes(t)
  {
    if s == [] {
      assert s + t == t;
    } else {
      assert (s + t)[1..] == s[1..] + t;
      SomesConcat(s[1..], t);
    }
  }

  /** Filtering distributes over concatenation: the kept elements stay in order. */
  lemma {:induction false} FilterConcat<T(!new)>(s: seq<T>, t: seq<T>, p: T -> bool)
    ensures Filter(s + t, p) == Filter(s, p) + Filter(t, p)
  {
    if s == [] {
      assert s + t == t;
    } else {
      assert (s + t)[1..] == s[1..] + t;
      FilterConcat(s[1..], t, p);
    }
  }
}
