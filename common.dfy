/**
 * Shared vocabulary of the model: the optional and failing results that stand
 * for .NET nulls and exceptions, sums over reals, the LINQ Take/Skip/Where
 * operators and index permutations (the shape of a shuffled list).
 */
module Common {

  /** A value that may be missing: a .NET reference or nullable that may be null. */
  datatype Option<T> = None | Some(value: T)

  /** The .NET exception kinds the modelled code raises. */
  datatype Greska =
    | ArgumentNull      // ArgumentNullException
    | Argument          // ArgumentException
    | InvalidOperation  // InvalidOperationException, also Max()/First() of an empty sequence
    | NullReference     // member access through a null reference
    | KeyNotFound       // Dictionary indexer with a missing key
    | IndexOutOfRange   // array index out of range (IndexOutOfRangeException)
    | ArgumentOutOfRange // List<T> index out of range (ArgumentOutOfRangeException)
    | NotImplemented    // NotImplementedException

  /** Either the value an operation returns or the exception it throws. */
  datatype Result<T> = Ok(value: T) | Err(greska: Greska)

  /** LINQ Sum over a sequence of doubles. */
  function Sum(s: seq<real>): real
  {
    if s == [] then 0.0 else s[0] + Sum(s[1..])
  }

  /**
   * Sum of x[i] * w[i] for i below |x|, accumulated in index order, as the
   * loops of Neuron.cs do; w may be longer than x.
   */
  function Dot(x: seq<real>, w: seq<real>): real
    requires |x| <= |w|
  {
    if |x| == 0 then 0.0 else Dot(x[..|x| - 1], w) + x[|x| - 1] * w[|x| - 1]
  }

  /** Every element is positive. */
  predicate AllPositive(s: seq<real>)
  {
    forall i :: 0 <= i < |s| ==> s[i] > 0.0
  }

  lemma {:induction false} SumPositive(s: seq<real>)
    requires AllPositive(s) && |s| > 0
    ensures Sum(s) > 0.0
  {
    if |s| > 1 {
      SumPositive(s[1..]);
    }
  }

  lemma {:induction false} ElementAtMostSum(s: seq<real>, i: nat)
    requires AllPositive(s) && i < |s|
    ensures s[i] <= Sum(s)
  {
    if i == 0 {
      if |s| > 1 {
        SumPositive(s[1..]);
      }
    } else {
      ElementAtMostSum(s[1..], i - 1);
    }
  }

  /** Divides every element by c, as `exps.Select(e => e / sum)` does. */
  function DivideAll(s: seq<real>, c: real): (r: seq<real>)
    requires c != 0.0
    ensures |r| == |s|
  {
    seq(|s|, i requires 0 <= i < |s| => s[i] / c)
  }

  lemma {:induction false} SumDivideAll(s: seq<real>, c: real)
    requires c != 0.0
    ensures Sum(DivideAll(s, c)) == Sum(s) / c
  {
    if s != [] {
      assert DivideAll(s, c)[1..] == DivideAll(s[1..], c);
      SumDivideAll(s[1..], c);
    }
  }

  /** How many elements LINQ Take(k) / Skip(k) split off: k clamped to [0, n]. */
  function Clamp(k: int, n: nat): (c: nat)
    ensures c <= n
    ensures 0 <= k <= n ==> c == k
  {
    if k <= 0 then 0 else if k >= n then n else k
  }

  /** LINQ Take(k): the first k elements; nothing for k <= 0, everything for k >= |s|. */
  function Take<T>(s: seq<T>, k: int): seq<T>
  {
    s[..Clamp(k, |s|)]
  }

  /** LINQ Skip(k): what Take(k) leaves. */
  function Skip<T>(s: seq<T>, k: int): seq<T>
  {
    s[Clamp(k, |s|)..]
  }

  /** LINQ Where: the elements satisfying p, in order. */
  function Filter<T>(p: T -> bool, s: seq<T>): (r: seq<T>)
    ensures |r| <= |s|
    ensures forall i :: 0 <= i < |r| ==> r[i] in s && p(r[i])
    ensures forall i :: 0 <= i < |s| && p(s[i]) ==> s[i] in r
  {
    if s == [] then []
    else if p(s[0]) then [s[0]] + Filter(p, s[1..])
    else Filter(p, s[1..])
  }

  /** No element occurs twice. */
  predicate Distinct<T(==)>(s: seq<T>)
  {
    forall i, j :: 0 <= i < j < |s| ==> s[i] != s[j]
  }

  /** p lists every index below n exactly once: an order in which to visit n elements. */
  predicate IsPermutation(p: seq<nat>, n: nat)
  {
    |p| == n && (forall i :: 0 <= i < n ==> p[i] < n) && Distinct(p)
  }

  /** The elements of s in the order p gives. */
  function Permute<T>(s: seq<T>, p: seq<nat>): (r: seq<T>)
    requires IsPermutation(p, |s|)
    ensures |r| == |s|
  {
    seq(|s|, i requires 0 <= i < |s| => s[p[i]])
  }

  lemma {:induction false} DistinctSetSize<T>(p: seq<T>)
    requires Distinct(p)
    ensures |set x | x in p| == |p|
  {
    if p != [] {
      var q := p[..|p| - 1];
      DistinctSetSize(q);
      assert p == q + [p[|p| - 1]];
      assert p[|p| - 1] !in (set x | x in q);
      assert (set x | x in p) == (set x | x in q) + {p[|p| - 1]};
    }
  }

  /** The indices below n in increasing order. */
  function Range(n: nat): (r: seq<nat>)
    ensures |r| == n && forall i :: 0 <= i < n ==> r[i] == i
  {
    seq(n, i requires 0 <= i < n => i)
  }

  /** A permutation of the indices below n takes every such index (pigeonhole). */
  lemma PermutationCovers(p: seq<nat>, n: nat, v: nat)
    requires IsPermutation(p, n) && v < n
    ensures v in p
  {
    var a := set x: nat | x in p;
    var b := set x: nat | x in Range(n);
    DistinctSetSize(p);
    DistinctSetSize(Range(n));
    forall x | x in a
      ensures x in b
    {
      assert x < n && Range(n)[x] == x;
    }
    assert b == a + (b - a);
    assert |b| == |a| + |b - a|;
    assert |a| == n && |b| == n;
    assert |b - a| == 0;
    assert b - a == {};
    assert Range(n)[v] == v && v in b;
    assert v in a;
  }

  /** Taking the largest index n - 1 out of a permutation of n leaves a permutation of n - 1. */
  lemma DropLargest(p: seq<nat>, n: nat, k: nat)
    requires IsPermutation(p, n) && k < n && p[k] == n - 1
    ensures IsPermutation(p[..k] + p[k + 1..], n - 1)
  {
    var q := p[..k] + p[k + 1..];
    assert forall i :: 0 <= i < n - 1 ==> q[i] == (if i < k then p[i] else p[i + 1]);
    forall i, j | 0 <= i < j < n - 1
      ensures q[i] != q[j]
    {
      var i' := if i < k then i else i + 1;
      var j' := if j < k then j else j + 1;
      assert q[i] == p[i'] && q[j] == p[j'] && i' < j';
    }
    forall i | 0 <= i < n - 1
      ensures q[i] < n - 1
    {
      var i' := if i < k then i else i + 1;
      assert q[i] == p[i'] && i' != k;
    }
  }

  lemma PermuteDropLargest<T>(s: seq<T>, p: seq<nat>, k: nat)
    requires |s| > 0 && IsPermutation(p, |s|) && k < |s| && p[k] == |s| - 1
    requires IsPermutation(p[..k] + p[k + 1..], |s| - 1)
    ensures var r := Permute(s[..|s| - 1], p[..k] + p[k + 1..]);
            Permute(s, p) == r[..k] + [s[|s| - 1]] + r[k..]
  {
  }

  lemma {:induction false} PermuteMultiset<T>(s: seq<T>, p: seq<nat>)
    requires IsPermutation(p, |s|)
    ensures multiset(Permute(s, p)) == multiset(s)
  {
    var n := |s|;
    if n > 0 {
      PermutationCovers(p, n, n - 1);
      var k :| 0 <= k < n && p[k] == n - 1;
      var q := p[..k] + p[k + 1..];
      DropLargest(p, n, k);
      var s' := s[..n - 1];
      var x := s[n - 1];
      PermuteMultiset(s', q);
      var r := Permute(s', q);
      PermuteDropLargest(s, p, k);
      UmetniUMultiset(r, k, x);
      assert multiset(s) == multiset(s') + multiset{x} by {
        assert s == s' + [x];
      }
    }
  }

  /** A prefix followed by the next element is the longer prefix. */
  lemma PrefiksProduzen<T>(s: seq<T>, i: nat)
    requires i < |s|
    ensures s[..i] + [s[i]] == s[..i + 1]
  {
  }

  /** Inserting x anywhere adds one x to the multiset. */
  lemma UmetniUMultiset<T>(r: seq<T>, k: nat, x: T)
    requires k <= |r|
    ensures multiset(r[..k] + [x] + r[k..]) == multiset(r) + multiset{x}
  {
    assert r == r[..k] + r[k..];
  }

  /** The first index holding v, or -1 (Array.IndexOf). */
  function IndexOf<T(==)>(s: seq<T>, v: T): (r: int)
    ensures -1 <= r < |s|
    ensures r >= 0 ==> s[r] == v && forall j :: 0 <= j < r ==> s[j] != v
    ensures r == -1 <==> v !in s
  {
    if s == [] then -1
    else if s[0] == v then 0
    else var k := IndexOf(s[1..], v); if k < 0 then -1 else k + 1
  }

  /** LINQ Max over a non-empty sequence of doubles. */
  function Max(s: seq<real>): (m: real)
    requires |s| > 0
    ensures m in s
    ensures forall i :: 0 <= i < |s| ==> s[i] <= m
  {
    if |s| == 1 then s[0]
    else var t := Max(s[1..]); if s[0] >= t then s[0] else t
  }

  /** `Array.IndexOf(s, s.Max())`: the first position of the largest element. */
  function FirstIndexOfMax(s: seq<real>): (k: nat)
    requires |s| > 0
    ensures k < |s|
    ensures forall j :: 0 <= j < |s| ==> s[j] <= s[k]
    ensures forall j :: 0 <= j < k ==> s[j] < s[k]
  {
    IndexOf(s, Max(s))
  }
}
