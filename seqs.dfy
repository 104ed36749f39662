/**
 * Sequence helpers shared by the client stores: the JavaScript idioms
 * `filter`, `filter(id => id !== x)`, `includes ? filter : [...xs, x]`,
 * `[x, ...xs.filter(...)].slice(0, n)` and `map(v => v.id === x ? f(v) : v)`.
 */
module Seqs {

  datatype Option<T> = None | Some(value: T) {
    /** The value, or `d` when absent: a spread of an optional field over `d`. */
    function GetOr(d: T): T {
      if Some? then value else d
    }
  }

  /** No element occurs twice. */
  predicate NoDup<T(==,!new)>(s: seq<T>) {
    forall i, j :: 0 <= i < j < |s| ==> s[i] != s[j]
  }

  /** Number of occurrences of `x` in `s`. */
  function Count<T(==,!new)>(s: seq<T>, x: T): (n: nat)
    ensures n <= |s|
    ensures n == 0 <==> x !in s
  {
    if s == [] then 0 else (if s[0] == x then 1 else 0) + Count(s[1..], x)
  }

  /** `Array.prototype.filter`: the elements satisfying `p`, in their order. */
  function Filter<T(!new)>(s: seq<T>, p: T -> bool): (r: seq<T>)
    ensures |r| <= |s|
    ensures forall i :: 0 <= i < |r| ==> p(r[i])
    ensures multiset(r) <= multiset(s)
    ensures forall x :: x in r <==> x in s && p(x)
  {
    if s == [] then []
    else
      assert s == [s[0]] + s[1..];
      if p(s[0]) then [s[0]] + Filter(s[1..], p) else Filter(s[1..], p)
  }

  /** Filtering distributes over concatenation, so it keeps the relative order. */
  lemma {:induction false} FilterAppend<T(!new)>(a: seq<T>, b: seq<T>, p: T -> bool)
    ensures Filter(a + b, p) == Filter(a, p) + Filter(b, p)
  {
    if a == [] {
      assert a + b == b;
    } else {
      assert (a + b)[1..] == a[1..] + b;
      FilterAppend(a[1..], b, p);
    }
  }

  /** In a list without repeats a present element occurs once. */
  lemma {:induction false} NoDupCount<T(!new)>(s: seq<T>, x: T)
    requires NoDup(s) && x in s
    ensures Count(s, x) == 1
  {
    if s[0] == x {
      assert x !in s[1..];
      CountAbsent(s[1..], x);
    } else {
      NoDupCount(s[1..], x);
    }
  }

  /** Appending an element adds one occurrence of it. */
  lemma {:induction false} CountAppend<T(!new)>(s: seq<T>, x: T)
    ensures Count(s + [x], x) == Count(s, x) + 1
  {
    if s != [] {
      assert (s + [x])[1..] == s[1..] + [x];
      CountAppend(s[1..], x);
    }
  }

  /** `[...new Set(xs)]`: the elements without repeats, each kept at its first position. */
  function Dedup<T(==,!new)>(s: seq<T>): (r: seq<T>)
    ensures NoDup(r)
    ensures forall x :: x in r <==> x in s
  {
    if s == [] then []
    else
      var d := Dedup(s[..|s| - 1]);
      assert s == s[..|s| - 1] + [s[|s| - 1]];
      AddOnce(d, s[|s| - 1])
  }

  /** A filter whose predicate holds of no element returns nothing. */
  lemma {:induction false} FilterNone<T(!new)>(s: seq<T>, p: T -> bool)
    requires forall i :: 0 <= i < |s| ==> !p(s[i])
    ensures Filter(s, p) == []
  {
    if s != [] {
      FilterNone(s[1..], p);
    }
  }

  /** A filter whose predicate holds of every element returns its input. */
  lemma {:induction false} FilterAll<T(!new)>(s: seq<T>, p: T -> bool)
    requires forall i :: 0 <= i < |s| ==> p(s[i])
    ensures Filter(s, p) == s
  {
    if s != [] {
      FilterAll(s[1..], p);
    }
  }

  /** Filtering a list without duplicates yields a list without duplicates. */
  lemma {:induction false} FilterNoDup<T(!new)>(s: seq<T>, p: T -> bool)
    requires NoDup(s)
    ensures NoDup(Filter(s, p))
  {
    if s != [] {
      FilterNoDup(s[1..], p);
      if p(s[0]) {
        assert s[0] !in s[1..];
      }
    }
  }

  /** Number of elements of `s` that satisfy `p`. */
  function CountIf<T(!new)>(s: seq<T>, p: T -> bool): (n: nat)
    ensures n == |Filter(s, p)|
  {
    if s == [] then 0 else (if p(s[0]) then 1 else 0) + CountIf(s[1..], p)
  }

  /** `xs.filter(y => y !== x)`: every occurrence of `x` removed. */
  function RemoveAll<T(==,!new)>(s: seq<T>, x: T): (r: seq<T>)
    ensures x !in r
    ensures forall y :: y in r <==> y in s && y != x
    ensures forall y :: y != x ==> Count(r, y) == Count(s, y)
    ensures x !in s ==> r == s
    ensures |r| == |s| - Count(s, x)
  {
    if s == [] then []
    else if s[0] == x then RemoveAll(s[1..], x)
    else [s[0]] + RemoveAll(s[1..], x)
  }

  /** Removing one value distributes over concatenation: the survivors keep their order. */
  lemma {:induction false} RemoveAllAppend<T(!new)>(a: seq<T>, b: seq<T>, x: T)
    ensures RemoveAll(a + b, x) == RemoveAll(a, x) + RemoveAll(b, x)
  {
    if a == [] {
      assert a + b == b;
    } else {
      assert (a + b)[1..] == a[1..] + b;
      RemoveAllAppend(a[1..], b, x);
    }
  }

  lemma {:induction false} RemoveAllNoDup<T(!new)>(s: seq<T>, x: T)
    requires NoDup(s)
    ensures NoDup(RemoveAll(s, x))
  {
    if s != [] {
      RemoveAllNoDup(s[1..], x);
      assert s[0] !in s[1..];
    }
  }

  /**
   * `xs.includes(x) ? xs.filter(y => y !== x) : [...xs, x]`, the shape of
   * every bookmark, favourite and check-box toggle in the client.
   */
  function Toggle<T(==,!new)>(s: seq<T>, x: T): (r: seq<T>)
    ensures x in r <==> x !in s
    ensures forall y :: y != x ==> (y in r <==> y in s)
    ensures NoDup(s) ==> NoDup(r)
  {
    if x in s then
      RemoveAllNoDupIf(s, x);
      RemoveAll(s, x)
    else
      s + [x]
  }

  lemma RemoveAllNoDupIf<T(!new)>(s: seq<T>, x: T)
    ensures NoDup(s) ==> NoDup(RemoveAll(s, x))
  {
    if NoDup(s) {
      RemoveAllNoDup(s, x);
    }
  }

  /**
   * Toggling twice restores membership of every value, and restores the list
   * itself when the value was absent at first.
   */
  lemma ToggleTwice<T(!new)>(s: seq<T>, x: T)
    ensures forall y :: y in Toggle(Toggle(s, x), x) <==> y in s
    ensures x !in s ==> Toggle(Toggle(s, x), x) == s
  {
    if x !in s {
      var t := s + [x];
      RemoveAllAppend(s, [x], x);
      assert RemoveAll([x], x) == [];
      assert RemoveAll(s, x) == s;
      assert RemoveAll(t, x) == s;
    }
  }

  /** `xs.includes(x) ? xs : [...xs, x]`: append unless already present. */
  function AddOnce<T(==,!new)>(s: seq<T>, x: T): (r: seq<T>)
    ensures x in r
    ensures forall y :: y in r <==> y in s || y == x
    ensures x in s ==> r == s
    ensures x !in s ==> r == s + [x]
    ensures NoDup(s) ==> NoDup(r)
  {
    if x in s then s else s + [x]
  }

  /** JavaScript `xs.slice(0, n)`, including a negative `n`, which counts from the end. */
  function SliceTo<T(!new)>(s: seq<T>, n: int): (r: seq<T>)
    ensures r <= s
    ensures n >= 0 ==> |r| == if n <= |s| then n else |s|
    ensures n < 0 ==> |r| == if |s| + n >= 0 then |s| + n else 0
  {
    if n >= 0 then (if n <= |s| then s[..n] else s)
    else if |s| + n >= 0 then s[..|s| + n]
    else []
  }

  /** `[x, ...xs.filter(y => y !== x)].slice(0, cap)`: a most-recently-used list. */
  function MoveToFront<T(==,!new)>(s: seq<T>, x: T, cap: nat): (r: seq<T>)
    requires cap > 0
    ensures |r| > 0 && r[0] == x
    ensures |r| <= cap
    ensures Count(r, x) == 1
    ensures r[1..] <= RemoveAll(s, x)
    ensures |r| == if |RemoveAll(s, x)| + 1 <= cap then |RemoveAll(s, x)| + 1 else cap
    ensures NoDup(s) ==> NoDup(r)
  {
    MoveToFrontFacts(s, x, cap);
    SliceTo([x] + RemoveAll(s, x), cap)
  }

  lemma MoveToFrontFacts<T(!new)>(s: seq<T>, x: T, cap: nat)
    requires cap > 0
    ensures var rest := RemoveAll(s, x);
      var r := SliceTo([x] + rest, cap);
      |r| > 0 && r[0] == x && r[1..] <= rest && Count(r, x) == 1 &&
      (NoDup(s) ==> NoDup(r))
  {
    var rest := RemoveAll(s, x);
    var r := SliceTo([x] + rest, cap);
    assert r[1..] <= rest;
    assert r == [x] + r[1..];
    assert x !in r[1..];
    CountAbsent(r[1..], x);
    assert Count(r, x) == 1 + Count(r[1..], x);
    if NoDup(s) {
      RemoveAllNoDup(s, x);
      PrefixNoDup(r[1..], rest);
      assert NoDup(r);
    }
  }

  lemma CountAbsent<T(!new)>(s: seq<T>, x: T)
    requires x !in s
    ensures Count(s, x) == 0
  {
  }

  lemma PrefixNoDup<T(!new)>(p: seq<T>, s: seq<T>)
    requires p <= s && NoDup(s)
    ensures NoDup(p)
  {
    assert forall i :: 0 <= i < |p| ==> p[i] == s[i];
  }

  /** `xs.map(v => hit(v) ? f(v) : v)`. */
  function UpdateWhere<T(!new)>(s: seq<T>, hit: T -> bool, f: T -> T): (r: seq<T>)
    ensures |r| == |s|
    ensures forall i :: 0 <= i < |s| && hit(s[i]) ==> r[i] == f(s[i])
    ensures forall i :: 0 <= i < |s| && !hit(s[i]) ==> r[i] == s[i]
  {
    seq(|s|, i requires 0 <= i < |s| => if hit(s[i]) then f(s[i]) else s[i])
  }

  /**
   * Bumping a weight by one on the hit elements raises the total weight by
   * the number of hits.
   */
  lemma {:induction false} SumOfBump<T(!new)>(s: seq<T>, hit: T -> bool, f: T -> T, w: T -> int)
    requires forall x :: hit(x) ==> w(f(x)) == w(x) + 1
    ensures SumOf(UpdateWhere(s, hit, f), w) == SumOf(s, w) + CountIf(s, hit)
  {
    if s != [] {
      assert UpdateWhere(s, hit, f)[1..] == UpdateWhere(s[1..], hit, f);
      SumOfBump(s[1..], hit, f, w);
    }
  }

  /** `xs.find(p)` as an index: the first position whose element satisfies `p`. */
  function FindFirst<T(!new)>(s: seq<T>, p: T -> bool): (r: Option<nat>)
    ensures r.Some? ==> r.value < |s| && p(s[r.value]) && forall k :: 0 <= k < r.value ==> !p(s[k])
    ensures r.None? <==> forall k :: 0 <= k < |s| ==> !p(s[k])
  {
    if s == [] then None
    else if p(s[0]) then Some(0)
    else match FindFirst(s[1..], p)
      case None => None
      case Some(i) => Some(i + 1)
  }

  /** `xs.map(f)`. */
  function Map<T, U>(s: seq<T>, f: T -> U): (r: seq<U>)
    ensures |r| == |s|
    ensures forall i :: 0 <= i < |s| ==> r[i] == f(s[i])
  {
    seq(|s|, i requires 0 <= i < |s| => f(s[i]))
  }

  /** Sum of `f` over the elements. */
  function SumOf<T(!new)>(s: seq<T>, f: T -> int): int {
    if s == [] then 0 else f(s[0]) + SumOf(s[1..], f)
  }

  lemma {:induction false} SumOfAppend<T(!new)>(a: seq<T>, b: seq<T>, f: T -> int)
    ensures SumOf(a + b, f) == SumOf(a, f) + SumOf(b, f)
  {
    if a == [] {
      assert a + b == b;
    } else {
      assert (a + b)[1..] == a[1..] + b;
      SumOfAppend(a[1..], b, f);
    }
  }

  /** Splitting a list by a predicate splits its total. */
  lemma {:induction false} SumOfFilterSplit<T(!new)>(s: seq<T>, p: T -> bool, q: T -> bool, f: T -> int)
    requires forall x :: q(x) == !p(x)
    ensures SumOf(s, f) == SumOf(Filter(s, p), f) + SumOf(Filter(s, q), f)
  {
    if s != [] {
      SumOfFilterSplit(s[1..], p, q, f);
    }
  }

  /** Raising the weight of the updated elements never lowers the total. */
  lemma {:induction false} SumOfUpdateMono<T(!new)>(s: seq<T>, hit: T -> bool, g: T -> T, f: T -> int)
    requires forall x :: hit(x) ==> f(g(x)) >= f(x)
    ensures SumOf(UpdateWhere(s, hit, g), f) >= SumOf(s, f)
  {
    if s != [] {
      assert UpdateWhere(s, hit, g)[1..] == UpdateWhere(s[1..], hit, g);
      SumOfUpdateMono(s[1..], hit, g, f);
    }
  }
}
