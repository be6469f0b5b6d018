/** Sequence operations shared by the server and client models. */
module Collections {

  /** A comprehension with a condition (Python) or `Array.filter` (JavaScript). */
  function Filter<T>(s: seq<T>, keep: T -> bool): (r: seq<T>)
    ensures |r| <= |s|
    ensures forall i :: 0 <= i < |r| ==> r[i] in s && keep(r[i])
    ensures forall i :: 0 <= i < |s| && keep(s[i]) ==> s[i] in r
    decreases |s|
  {
    if s == [] then [] else (if keep(s[0]) then [s[0]] else []) + Filter(s[1..], keep)
  }

  lemma {:induction false} FilterAppend<T>(a: seq<T>, b: seq<T>, keep: T -> bool)
    ensures Filter(a + b, keep) == Filter(a, keep) + Filter(b, keep)
    decreases |a|
  {
    if a != [] {
      assert (a + b)[0] == a[0] && (a + b)[1..] == a[1..] + b;
      FilterAppend(a[1..], b, keep);
      var h := if keep(a[0]) then [a[0]] else [];
      assert Filter(a + b, keep) == h + Filter(a[1..] + b, keep);
    } else {
      assert a + b == b;
    }
  }

  /** Nothing is kept when no element passes. */
  lemma {:induction false} FilterNone<T>(s: seq<T>, keep: T -> bool)
    requires forall i :: 0 <= i < |s| ==> !keep(s[i])
    ensures Filter(s, keep) == []
    decreases |s|
  {
    if s != [] {
      FilterNone(s[1..], keep);
    }
  }

  /** Python's `list.remove(x)` on a list holding `x`: drops its first occurrence. */
  function RemoveFirst<T(==)>(s: seq<T>, x: T): (r: seq<T>)
    requires x in s
    ensures |r| == |s| - 1
    ensures multiset(r) == multiset(s) - multiset{x}
    decreases |s|
  {
    assert s == [s[0]] + s[1..];
    if s[0] == x then s[1..] else [s[0]] + RemoveFirst(s[1..], x)
  }

  /** `list.remove(d)` for every `d` of `dead`, in order. */
  function RemoveEach<T(==)>(s: seq<T>, dead: seq<T>): (r: seq<T>)
    requires multiset(dead) <= multiset(s)
    ensures multiset(r) == multiset(s) - multiset(dead)
    decreases |dead|
  {
    if dead == [] then s
    else
      assert dead == [dead[0]] + dead[1..];
      assert dead[0] in multiset(s);
      RemoveEach(RemoveFirst(s, dead[0]), dead[1..])
  }

  /** The first removal of a `RemoveEach`. */
  lemma RemoveEachStep<T>(s: seq<T>, dead: seq<T>)
    requires dead != [] && multiset(dead) <= multiset(s)
    ensures dead[0] in s
    ensures multiset(dead[1..]) <= multiset(RemoveFirst(s, dead[0]))
    ensures RemoveEach(s, dead) == RemoveEach(RemoveFirst(s, dead[0]), dead[1..])
  {
    assert dead == [dead[0]] + dead[1..];
    assert dead[0] in multiset(s);
  }

  /** Removing values other than the head never touches the head. */
  lemma {:induction false} RemoveEachKeepsHead<T>(x: T, s: seq<T>, dead: seq<T>)
    requires multiset(dead) <= multiset(s)
    requires x !in dead
    ensures multiset(dead) <= multiset([x] + s)
    ensures RemoveEach([x] + s, dead) == [x] + RemoveEach(s, dead)
    decreases |dead|
  {
    assert multiset([x] + s) == multiset{x} + multiset(s);
    if dead != [] {
      var d := dead[0];
      assert dead == [d] + dead[1..];
      assert d in multiset(s);
      assert ([x] + s)[0] == x && ([x] + s)[1..] == s;
      assert RemoveFirst([x] + s, d) == [x] + RemoveFirst(s, d);
      RemoveEachKeepsHead(x, RemoveFirst(s, d), dead[1..]);
    }
  }
}
