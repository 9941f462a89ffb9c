/** The array operations the pages and the store use (`filter`, `find`,
    `slice`, `length` of a filter, `reduce` to a sum, `sort` by a key) as
    functions on sequences, with the facts about them the rest of the model
    relies on. */
module Seqs {
  import opened Wrappers

  /** `xs.filter(p)`: the elements that satisfy `p`, in their original order. */
  function Filter<T(!new)>(xs: seq<T>, p: T -> bool): (r: seq<T>)
    ensures |r| <= |xs|
    ensures forall x :: x in r <==> x in xs && p(x)
    ensures forall i :: 0 <= i < |r| ==> p(r[i])
  {
    if xs == [] then []
    else if p(xs[0]) then [xs[0]] + Filter(xs[1..], p)
    else Filter(xs[1..], p)
  }

  /** `xs.find(p)`: the first element that satisfies `p`. */
  function Find<T(!new)>(xs: seq<T>, p: T -> bool): (r: Option<T>)
    ensures r.Some? ==> r.value in xs && p(r.value)
    ensures r.None? <==> forall x :: x in xs ==> !p(x)
    ensures r.Some? ==> exists i :: 0 <= i < |xs| && xs[i] == r.value && forall j :: 0 <= j < i ==> !p(xs[j])
  {
    if xs == [] then None
    else if p(xs[0]) then Some(xs[0])
    else
      var r := Find(xs[1..], p);
      if r.Some? then
        ghost var i :| 0 <= i < |xs[1..]| && xs[1..][i] == r.value && forall j :: 0 <= j < i ==> !p(xs[1..][j]);
        assert xs[i + 1] == r.value && forall j :: 0 <= j < i + 1 ==> !p(xs[j]) by {
          forall j | 0 <= j < i + 1 ensures !p(xs[j]) {
            if j > 0 { assert xs[j] == xs[1..][j - 1]; }
          }
        }
        r
      else r
  }

  /** The elements whose `key` is `v`: `xs.filter(x => key(x) === v)`. */
  function Where<T(!new)>(xs: seq<T>, key: T -> string, v: string): (r: seq<T>)
    ensures forall x :: x in r <==> x in xs && key(x) == v
  {
    Filter(xs, (x: T) => key(x) == v)
  }

  /** Number of elements whose `key` is `v`: `xs.filter(x => key(x) === v).length`. */
  function CountKey<T(!new)>(xs: seq<T>, key: T -> string, v: string): (n: nat)
    ensures n == |Where(xs, key, v)|
    ensures n <= |xs|
    ensures (exists x :: x in xs && key(x) == v) <==> n > 0
  {
    if xs == [] then 0
    else (if key(xs[0]) == v then 1 else 0) + CountKey(xs[1..], key, v)
  }

  /** Counting over a concatenation adds the counts of the parts. */
  lemma {:induction false} CountKeyAppend<T(!new)>(xs: seq<T>, ys: seq<T>, key: T -> string, v: string)
    ensures CountKey(xs + ys, key, v) == CountKey(xs, key, v) + CountKey(ys, key, v)
    decreases |xs|
  {
    if xs == [] {
      assert xs + ys == ys;
    } else {
      assert (xs + ys)[0] == xs[0];
      assert (xs + ys)[1..] == xs[1..] + ys;
      CountKeyAppend(xs[1..], ys, key, v);
    }
  }

  /** One element counts 1 exactly when it has the key. */
  lemma CountKeySingle<T(!new)>(x: T, key: T -> string, v: string)
    ensures CountKey([x], key, v) == if key(x) == v then 1 else 0
  {
    assert [x][1..] == [];
  }

  /** The elements whose `key` is not `v`: `xs.filter(x => key(x) !== v)`. */
  function WhereNot<T(!new)>(xs: seq<T>, key: T -> string, v: string): (r: seq<T>)
    ensures |r| + CountKey(xs, key, v) == |xs|
    ensures forall x :: x in r <==> x in xs && key(x) != v
  {
    if xs == [] then []
    else if key(xs[0]) != v then [xs[0]] + WhereNot(xs[1..], key, v)
    else WhereNot(xs[1..], key, v)
  }

  /** Three counts of pairwise distinct values never exceed the length. */
  lemma {:induction false} CountKeys3<T(!new)>(xs: seq<T>, key: T -> string, a: string, b: string, c: string)
    requires a != b && a != c && b != c
    ensures CountKey(xs, key, a) + CountKey(xs, key, b) + CountKey(xs, key, c) <= |xs|
  {
    if xs != [] { CountKeys3(xs[1..], key, a, b, c); }
  }

  /** When every key is one of three distinct values, their counts add up to the length. */
  lemma {:induction false} CountKeys3Exact<T(!new)>(xs: seq<T>, key: T -> string, a: string, b: string, c: string)
    requires a != b && a != c && b != c
    requires forall i :: 0 <= i < |xs| ==> key(xs[i]) == a || key(xs[i]) == b || key(xs[i]) == c
    ensures CountKey(xs, key, a) + CountKey(xs, key, b) + CountKey(xs, key, c) == |xs|
  {
    if xs != [] {
      assert forall i :: 0 <= i < |xs[1..]| ==> xs[1..][i] == xs[i + 1];
      CountKeys3Exact(xs[1..], key, a, b, c);
    }
  }

  /** Four counts of pairwise distinct values never exceed the length. */
  lemma {:induction false} CountKeys4<T(!new)>(xs: seq<T>, key: T -> string, a: string, b: string, c: string, d: string)
    requires a != b && a != c && a != d && b != c && b != d && c != d
    ensures CountKey(xs, key, a) + CountKey(xs, key, b) + CountKey(xs, key, c) + CountKey(xs, key, d) <= |xs|
  {
    if xs != [] { CountKeys4(xs[1..], key, a, b, c, d); }
  }

  /** `xs` occurs in `ys` in the same order, possibly with gaps. */
  predicate IsSubseq<T(==)>(xs: seq<T>, ys: seq<T>)
    decreases |ys|
  {
    xs == [] || (ys != [] && ((xs[0] == ys[0] && IsSubseq(xs[1..], ys[1..])) || IsSubseq(xs, ys[1..])))
  }

  lemma {:induction false} FilterIsSubseq<T(!new)>(xs: seq<T>, p: T -> bool)
    ensures IsSubseq(Filter(xs, p), xs)
    decreases |xs|
  {
    if xs != [] {
      FilterIsSubseq(xs[1..], p);
      if p(xs[0]) {
        assert Filter(xs, p)[1..] == Filter(xs[1..], p);
      }
    }
  }

  lemma {:induction false} PrefixIsSubseq<T>(xs: seq<T>, ys: seq<T>, n: nat)
    requires IsSubseq(xs, ys) && n <= |xs|
    ensures IsSubseq(xs[..n], ys)
    decreases |ys|
  {
    if n > 0 {
      if xs[0] == ys[0] && IsSubseq(xs[1..], ys[1..]) {
        PrefixIsSubseq(xs[1..], ys[1..], n - 1);
        assert xs[..n][1..] == xs[1..][..n - 1];
      } else {
        PrefixIsSubseq(xs, ys[1..], n);
      }
    }
  }

  lemma {:induction false} SubseqTrans<T>(xs: seq<T>, ys: seq<T>, zs: seq<T>)
    requires IsSubseq(xs, ys) && IsSubseq(ys, zs)
    ensures IsSubseq(xs, zs)
    decreases |zs|
  {
    if xs != [] {
      if ys[0] == zs[0] && IsSubseq(ys[1..], zs[1..]) {
        if xs[0] == ys[0] && IsSubseq(xs[1..], ys[1..]) {
          SubseqTrans(xs[1..], ys[1..], zs[1..]);
        } else {
          SubseqTrans(xs, ys[1..], zs[1..]);
        }
      } else {
        SubseqTrans(xs, ys, zs[1..]);
      }
    }
  }

  /** `xs.slice(0, n)`. */
  function Take<T>(xs: seq<T>, n: nat): (r: seq<T>)
    ensures |r| <= n && |r| <= |xs|
    ensures r == xs[..|r|]
    ensures |xs| >= n ==> |r| == n
  {
    if |xs| <= n then xs else xs[..n]
  }

  /** `xs.reduce((sum, x) => sum + f(x), 0)`. */
  function SumBy<T>(xs: seq<T>, f: T -> int): int
  {
    if xs == [] then 0 else f(xs[0]) + SumBy(xs[1..], f)
  }

  lemma {:induction false} SumByNonNegative<T>(xs: seq<T>, f: T -> int)
    requires forall x :: x in xs ==> f(x) >= 0
    ensures SumBy(xs, f) >= 0
  {
    if xs != [] { SumByNonNegative(xs[1..], f); }
  }

  // ---- sorting by a numeric key, largest first ----

  predicate SortedDesc<T>(xs: seq<T>, key: T -> int)
  {
    forall i, j :: 0 <= i < j < |xs| ==> key(xs[i]) >= key(xs[j])
  }

  function InsertDesc<T>(x: T, xs: seq<T>, key: T -> int): (r: seq<T>)
    requires SortedDesc(xs, key)
    ensures SortedDesc(r, key)
    ensures multiset(r) == multiset(xs) + multiset{x}
    ensures |r| == |xs| + 1
    ensures forall k :: 0 <= k < |r| ==> r[k] == x || r[k] in xs
  {
    if xs == [] then [x]
    else if key(xs[0]) <= key(x) then [x] + xs
    else
      var rest := InsertDesc(x, xs[1..], key);
      ConsSortedDesc(xs[0], rest, key);
      MultisetCons(xs);
      [xs[0]] + rest
  }

  lemma ConsSortedDesc<T>(y: T, rest: seq<T>, key: T -> int)
    requires SortedDesc(rest, key)
    requires forall k :: 0 <= k < |rest| ==> key(rest[k]) <= key(y)
    ensures SortedDesc([y] + rest, key)
  {
    var s := [y] + rest;
    forall i, j | 0 <= i < j < |s| ensures key(s[i]) >= key(s[j]) {
      assert s[j] == rest[j - 1];
      if i > 0 { assert s[i] == rest[i - 1]; }
    }
  }

  lemma MultisetCons<T>(xs: seq<T>)
    requires xs != []
    ensures multiset(xs) == multiset{xs[0]} + multiset(xs[1..])
  {
    assert xs == [xs[0]] + xs[1..];
  }

  /** `xs.sort((a, b) => key(b) - key(a))`: largest key first, same elements. */
  function SortDesc<T>(xs: seq<T>, key: T -> int): (r: seq<T>)
    ensures SortedDesc(r, key)
    ensures multiset(r) == multiset(xs)
    ensures |r| == |xs|
  {
    if xs == [] then []
    else
      MultisetCons(xs);
      InsertDesc(xs[0], SortDesc(xs[1..], key), key)
  }

  /** Some member of a non-empty set. */
  method Pick<T>(s: set<T>) returns (x: T)
    requires s != {}
    ensures x in s
  {
    x :| x in s;
  }
}
