/**
 * The array combinators the evaluate stage is written with (`filter`, `map`,
 * `every`, `some`, `find`, and `[...new Set(xs)]`), each with its meaning as a contract.
 */
module Seqs {
  import opened Wrappers

  /** `s.filter(p)`: the elements satisfying p, in their original order. */
  function Filter<T(!new)>(s: seq<T>, p: T -> bool): (r: seq<T>)
    ensures |r| <= |s|
  {
    if |s| == 0 then [] else (if p(s[0]) then [s[0]] else []) + Filter(s[1..], p)
  }

  /** The filter keeps exactly the elements that pass. */
  lemma {:induction false} FilterMembers<T(!new)>(s: seq<T>, p: T -> bool)
    ensures forall x :: x in Filter(s, p) <==> x in s && p(x)
  {
    if |s| > 0 {
      FilterMembers(s[1..], p);
      assert s == [s[0]] + s[1..];
    }
  }

  /** The first element of a filter is the first element of the input that passes. */
  lemma {:induction false} FilterFirst<T(!new)>(s: seq<T>, p: T -> bool, k: nat)
    requires k < |s| && p(s[k])
    requires forall j :: 0 <= j < k ==> !p(s[j])
    ensures |Filter(s, p)| > 0 && Filter(s, p)[0] == s[k]
  {
    if k > 0 {
      FilterFirst(s[1..], p, k - 1);
    }
  }

  /** `s.map(f)`. */
  function Map<T, U>(s: seq<T>, f: T -> U): (r: seq<U>)
    ensures |r| == |s|
    ensures forall i :: 0 <= i < |s| ==> r[i] == f(s[i])
  {
    if |s| == 0 then [] else [f(s[0])] + Map(s[1..], f)
  }

  /** The image of every element is in the map, and everything in it is an image. */
  lemma MapMembers<T, U>(s: seq<T>, f: T -> U)
    ensures forall x :: x in s ==> f(x) in Map(s, f)
    ensures forall y :: y in Map(s, f) ==> exists x :: x in s && y == f(x)
  {
    var r := Map(s, f);
    forall x | x in s ensures f(x) in r {
      var i :| 0 <= i < |s| && s[i] == x;
      assert r[i] == f(x);
    }
    forall y | y in r ensures exists x :: x in s && y == f(x) {
      var i :| 0 <= i < |r| && r[i] == y;
      assert s[i] in s;
    }
  }

  /** `s.every(p)`. */
  function All<T>(s: seq<T>, p: T -> bool): (r: bool)
    ensures r <==> forall x :: x in s ==> p(x)
  {
    |s| == 0 || (p(s[0]) && All(s[1..], p))
  }

  /** `s.some(p)`, and the truthiness of `s.find(p)` over object elements. */
  function Any<T>(s: seq<T>, p: T -> bool): (r: bool)
    ensures r <==> exists x :: x in s && p(x)
  {
    |s| > 0 && (p(s[0]) || Any(s[1..], p))
  }

  /** `s.find(p)`: the first element satisfying p, or undefined. */
  function Find<T>(s: seq<T>, p: T -> bool): (r: Option<T>)
    ensures r.None? <==> forall x :: x in s ==> !p(x)
    ensures r.Some? ==> exists i :: 0 <= i < |s| && s[i] == r.value && p(s[i]) && forall j :: 0 <= j < i ==> !p(s[j])
  {
    if |s| == 0 then None
    else if p(s[0]) then Some(s[0])
    else Find(s[1..], p)
  }

  /** `s.find(p)` returns the element at the first passing index. */
  lemma {:induction false} FindFirst<T>(s: seq<T>, p: T -> bool, k: nat)
    requires k < |s| && p(s[k])
    requires forall j :: 0 <= j < k ==> !p(s[j])
    ensures Find(s, p) == Some(s[k])
  {
    if k > 0 {
      FindFirst(s[1..], p, k - 1);
    }
  }

  /** The present values of a sequence of options, in order (`.filter(_ => _)` over objects). */
  function Somes<T(!new)>(s: seq<Option<T>>): (r: seq<T>)
    ensures |r| <= |s|
  {
    if |s| == 0 then [] else (if s[0].Some? then [s[0].value] else []) + Somes(s[1..])
  }

  /** The present values are exactly those of the Somes. */
  lemma {:induction false} SomesMembers<T(!new)>(s: seq<Option<T>>)
    ensures forall x :: x in Somes(s) <==> Some(x) in s
  {
    if |s| > 0 {
      SomesMembers(s[1..]);
      assert s == [s[0]] + s[1..];
    }
  }

  /** The first present value is the value at the first Some. */
  lemma {:induction false} SomesFirst<T(!new)>(s: seq<Option<T>>, k: nat)
    requires k < |s| && s[k].Some?
    requires forall j :: 0 <= j < k ==> s[j].None?
    ensures |Somes(s)| > 0 && Somes(s)[0] == s[k].value
  {
    if k > 0 {
      SomesFirst(s[1..], k - 1);
    }
  }

  /** Without a Some there are no present values. */
  lemma {:induction false} SomesOfNones<T(!new)>(s: seq<Option<T>>)
    requires forall i :: 0 <= i < |s| ==> s[i].None?
    ensures Somes(s) == []
  {
    if |s| > 0 {
      SomesOfNones(s[1..]);
    }
  }

  /** No element occurs twice. */
  predicate NoDuplicates<T(==)>(s: seq<T>)
  {
    forall i, j :: 0 <= i < j < |s| ==> s[i] != s[j]
  }

  /** The index of the first occurrence of x in s (`s.indexOf(x)` for an element of s). */
  function FirstIndex<T(==)>(s: seq<T>, x: T): (i: nat)
    requires x in s
    ensures i < |s| && s[i] == x
    ensures forall j :: 0 <= j < i ==> s[j] != x
  {
    if s[0] == x then 0 else 1 + FirstIndex(s[1..], x)
  }

  /** An element of a prefix occurs first where it occurs first in the prefix. */
  lemma FirstIndexInPrefix<T>(s: seq<T>, n: nat)
    requires n <= |s|
    ensures forall x :: x in s[..n] ==> FirstIndex(s, x) == FirstIndex(s[..n], x)
  {
    forall x | x in s[..n] ensures FirstIndex(s, x) == FirstIndex(s[..n], x) {
      var i := FirstIndex(s[..n], x);
      var k := FirstIndex(s, x);
      assert s[i] == x;
      assert k <= i;
      assert s[..n][k] == x;
    }
  }

  /** Past a prefix without x, x occurs first where it occurs first in the rest. */
  lemma FirstIndexAppend<T>(a: seq<T>, b: seq<T>, x: T)
    requires x !in a && x in b
    ensures FirstIndex(a + b, x) == |a| + FirstIndex(b, x)
  {
    var i := FirstIndex(b, x);
    var k := FirstIndex(a + b, x);
    assert (a + b)[|a| + i] == x;
    assert k >= |a|;
    assert b[k - |a|] == x;
  }

  /** The filter keeps the order of first occurrences. */
  lemma {:induction false} FilterKeepsOrder<T(!new)>(s: seq<T>, p: T -> bool, x: T, y: T)
    requires x in s && y in s && x in Filter(s, p) && y in Filter(s, p)
    requires FirstIndex(Filter(s, p), x) < FirstIndex(Filter(s, p), y)
    ensures FirstIndex(s, x) < FirstIndex(s, y)
  {
    var head := if p(s[0]) then [s[0]] else [];
    var rest := Filter(s[1..], p);
    assert Filter(s, p) == head + rest;
    FilterMembers(s, p);
    FilterMembers(s[1..], p);
    if x == s[0] {
      assert FirstIndex(s, x) == 0;
      assert s[0] != y;
    } else {
      assert Filter(s, p)[0] != y;
      assert y != s[0];
      assert x !in head && y !in head;
      FirstIndexAppend(head, rest, x);
      FirstIndexAppend(head, rest, y);
      FilterKeepsOrder(s[1..], p, x, y);
    }
  }

  /**
   * `[...new Set(s)]`: each element once, at the place of its first occurrence, so the
   * result lists the elements of s in the order in which they first occur in s.
   */
  function Dedup<T(==,!new)>(s: seq<T>): (r: seq<T>)
    ensures forall x :: x in r <==> x in s
    ensures NoDuplicates(r)
    ensures |r| <= |s|
    ensures |s| > 0 ==> |r| > 0 && r[0] == s[0]
    ensures forall i, j :: 0 <= i < j < |r| ==> FirstIndex(s, r[i]) < FirstIndex(s, r[j])
  {
    if |s| == 0 then []
    else
      var init := Dedup(s[..|s| - 1]);
      assert s == s[..|s| - 1] + [s[|s| - 1]];
      FirstIndexInPrefix(s, |s| - 1);
      if s[|s| - 1] in init then init else init + [s[|s| - 1]]
  }

  /** Unfolding helper: concatenation is associative. */
  lemma AppendAssoc<T>(a: seq<T>, b: seq<T>, c: seq<T>)
    ensures a + b + c == a + (b + c)
  {
  }
}
