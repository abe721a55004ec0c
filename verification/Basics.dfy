/** Shared value types of the cluster and small facts about sequences. */
module Basics {

  /** A libp2p peer ID. The empty string is never the ID of a peer. */
  type PeerID = string

  datatype Option<+T> = None | Some(value: T)

  /** The source's `(value, error)` returns; the error text is not modelled. */
  datatype Result<+T> = Ok(value: T) | Err

  const TWO63: int := 0x8000_0000_0000_0000
  const TWO64: int := 0x1_0000_0000_0000_0000

  type Int64 = x: int | -TWO63 <= x < TWO63

  /** Addition of two `int64` values. */
  function Add64(a: Int64, b: Int64): Int64 {
    if a + b >= TWO63 then a + b - TWO64 else if a + b < -TWO63 then a + b + TWO64 else a + b
  }

  /** The `int64` value that is congruent to `x`. */
  function Wrap64(x: int): Int64 {
    (x + TWO63) % TWO64 - TWO63
  }

  /** Adding with wrap-around gives the exact sum with wrap-around. */
  lemma WrapSum(a: int, b: int)
    ensures Add64(Wrap64(a), Wrap64(b)) == Wrap64(a + b)
  {
  }

  lemma WrapExact(x: int)
    ensures Wrap64(x) == x <==> -TWO63 <= x < TWO63
  {
  }

  /** The part of an `api.Metric` that allocation looks at. */
  datatype Metric = Metric(name: string, peer: PeerID, value: string, weight: Int64, partitionable: bool)

  /** `api.MetricsSet`: metrics indexed by metric name. */
  type MetricsSet = map<string, seq<Metric>>

  /** Reading a Go map of slices yields the empty slice for a missing key. */
  function Lookup(ms: MetricsSet, name: string): seq<Metric> {
    if name in ms then ms[name] else []
  }

  function Min(a: int, b: int): int {
    if a < b then a else b
  }

  function Front<T>(s: seq<T>): seq<T>
    requires s != []
  {
    s[..|s| - 1]
  }

  function Last<T>(s: seq<T>): T
    requires s != []
  {
    s[|s| - 1]
  }

  ghost function Concat<T>(parts: seq<seq<T>>): seq<T> {
    if parts == [] then [] else Concat(Front(parts)) + Last(parts)
  }

  predicate NoDup<T(==)>(s: seq<T>) {
    forall i, j :: 0 <= i < j < |s| ==> s[i] != s[j]
  }

  ghost function Elements<T>(s: seq<T>): set<T> {
    set x | x in s
  }

  lemma {:induction false} NoDupMultiset<T>(s: seq<T>)
    requires NoDup(s)
    ensures multiset(s) == multiset(Elements(s))
    ensures |Elements(s)| == |s|
  {
    if s != [] {
      var n := |s| - 1;
      var r := s[..n];
      NoDupMultiset(r);
      assert s == r + [s[n]];
      assert Elements(s) == Elements(r) + {s[n]};
      assert s[n] !in Elements(r);
    }
  }

  lemma NoDupFromMultiset<T>(s: seq<T>)
    requires forall x :: multiset(s)[x] <= 1
    ensures NoDup(s)
  {
    forall i, j | 0 <= i < j < |s|
      ensures s[i] != s[j]
    {
      var a, b := s[..j], s[j..];
      assert s == a + b;
      assert multiset(s)[s[i]] == multiset(a)[s[i]] + multiset(b)[s[i]];
      assert a[i] in multiset(a) && b[0] in multiset(b);
    }
  }

  lemma NoDupConcat<T>(a: seq<T>, b: seq<T>)
    requires NoDup(a) && NoDup(b) && forall x :: x in b ==> x !in a
    ensures NoDup(a + b)
  {
    forall i, j | 0 <= i < j < |a + b|
      ensures (a + b)[i] != (a + b)[j]
    {
      if i < |a| <= j {
        assert a[i] in a && b[j - |a|] in b;
      }
    }
  }

  lemma NoDupPermutation<T>(a: seq<T>, b: seq<T>)
    requires NoDup(a) && multiset(a) == multiset(b)
    ensures NoDup(b)
  {
    NoDupMultiset(a);
    NoDupFromMultiset(b);
  }

  ghost function Image<X, Y>(s: seq<X>, f: map<X, Y>): (r: seq<Y>)
    requires forall i :: 0 <= i < |s| ==> s[i] in f
    ensures |r| == |s| && forall i :: 0 <= i < |s| ==> r[i] == f[s[i]]
  {
    seq(|s|, i requires 0 <= i < |s| => f[s[i]])
  }

  ghost function Without<T>(s: seq<T>, i: int): seq<T>
    requires 0 <= i < |s|
  {
    s[..i] + s[i + 1..]
  }

  lemma WithoutOne<T>(s: seq<T>, i: int)
    requires 0 <= i < |s|
    ensures multiset(s) == multiset(Without(s, i)) + multiset{s[i]}
  {
    assert s == s[..i] + [s[i]] + s[i + 1..];
  }

  lemma {:induction false} ImagePermutation<X, Y>(a: seq<X>, b: seq<X>, f: map<X, Y>)
    requires multiset(a) == multiset(b) && forall i :: 0 <= i < |a| ==> a[i] in f
    ensures forall i :: 0 <= i < |b| ==> b[i] in f
    ensures multiset(Image(a, f)) == multiset(Image(b, f))
  {
    forall i | 0 <= i < |b|
      ensures b[i] in f
    {
      assert b[i] in multiset(a);
    }
    if a == [] {
      assert |multiset(b)| == 0;
    } else {
      var n := |a| - 1;
      assert a[n] in multiset(b);
      var i :| 0 <= i < |b| && b[i] == a[n];
      WithoutOne(a, n);
      WithoutOne(b, i);
      var a', b' := Without(a, n), Without(b, i);
      SumCancel(multiset(a'), multiset{a[n]}, multiset(b'));
      ImagePermutation(a', b', f);
      ImageWithout(a, f, n);
      ImageWithout(b, f, i);
    }
  }

  lemma ImageWithout<X, Y>(s: seq<X>, f: map<X, Y>, i: int)
    requires 0 <= i < |s| && forall j :: 0 <= j < |s| ==> s[j] in f
    ensures multiset(Image(s, f)) == multiset(Image(Without(s, i), f)) + multiset{f[s[i]]}
  {
    WithoutOne(Image(s, f), i);
    assert Image(Without(s, i), f) == Without(Image(s, f), i);
  }

  lemma SumCancel<T>(a: multiset<T>, p: multiset<T>, b: multiset<T>)
    requires a + p == b + p
    ensures a == b
  {
    forall x
      ensures a[x] == b[x]
    {
      assert (a + p)[x] == (b + p)[x];
    }
  }

  /** Ranging over a Go map visits its keys in any order. */
  method AnyOrder<T(==)>(s: set<T>) returns (order: seq<T>)
    ensures NoDup(order) && Elements(order) == s
  {
    order := [];
    var rest := s;
    while rest != {}
      invariant NoDup(order) && rest !! Elements(order) && Elements(order) + rest == s
      decreases rest
    {
      var x :| x in rest;
      rest := rest - {x};
      ghost var before := Elements(order);
      assert x !in before;
      order := order + [x];
      assert Elements(order) == before + {x};
    }
  }

  lemma SnocParts<T>(s: seq<T>, x: T)
    ensures Front(s + [x]) == s && Last(s + [x]) == x
  {
  }

  lemma InsertMultiset<T>(s: seq<T>, i: int, x: T)
    requires 0 <= i <= |s|
    ensures multiset(s[..i] + [x] + s[i..]) == multiset(s) + multiset{x}
  {
    assert s == s[..i] + s[i..];
  }

  lemma SplitThree<T>(s: seq<T>, i: int)
    requires 0 <= i < |s|
    ensures s == s[..i] + ([s[i]] + s[i + 1..])
  {
  }

  lemma Rotate3<T>(a: multiset<T>, b: multiset<T>, c: multiset<T>)
    ensures a + (b + c) == (a + c) + b
  {
  }

  lemma FrontLast<T>(s: seq<T>)
    requires s != []
    ensures s == Front(s) + [Last(s)]
  {
  }

  lemma PrefixSnoc<T>(s: seq<T>, i: int)
    requires 0 <= i < |s|
    ensures s[..i + 1] == s[..i] + [s[i]]
  {
  }

  lemma Regroup<T>(a: multiset<T>, x: multiset<T>, b: multiset<T>, y: multiset<T>)
    ensures (a + x) + (b + y) == (a + b) + (x + y)
  {
  }

  /** The byte-wise string order of Go's `<`. */
  predicate StrLess(a: string, b: string) {
    if b == "" then false
    else if a == "" then true
    else if a[0] != b[0] then a[0] < b[0]
    else StrLess(a[1..], b[1..])
  }

  lemma {:induction false} StrLessTotal(a: string, b: string)
    ensures StrLess(a, b) || StrLess(b, a) || a == b
    ensures !(StrLess(a, b) && StrLess(b, a))
    ensures StrLess(a, b) ==> a != b
  {
    if a != "" && b != "" && a[0] == b[0] {
      StrLessTotal(a[1..], b[1..]);
      assert a == [a[0]] + a[1..] && b == [b[0]] + b[1..];
    }
  }

  /** The first `k` characters are the same, and then `a` ends or goes on with the smaller one. */
  predicate LessAt(a: string, b: string, k: nat) {
    k <= |a| && k < |b| && a[..k] == b[..k] && (k == |a| || a[k] < b[k])
  }

  /** A string is less than those it is a prefix of and, else, by the first character that differs. */
  lemma {:induction false} LessIffFirstDiffers(a: string, b: string)
    ensures StrLess(a, b) <==> exists k: nat :: LessAt(a, b, k)
  {
    if StrLess(a, b) {
      var k := LessPlace(a, b);
    }
    if k: nat :| LessAt(a, b, k) {
      LessByDifference(a, b, k);
    }
  }

  lemma {:induction false} LessPlace(a: string, b: string) returns (k: nat)
    requires StrLess(a, b)
    ensures LessAt(a, b, k)
  {
    if a == "" || a[0] != b[0] {
      k := 0;
    } else {
      var i := LessPlace(a[1..], b[1..]);
      k := i + 1;
      assert a[..k] == [a[0]] + a[1..][..i] && b[..k] == [b[0]] + b[1..][..i];
    }
  }

  lemma {:induction false} LessByDifference(a: string, b: string, k: nat)
    requires LessAt(a, b, k)
    ensures StrLess(a, b)
  {
    if k > 0 {
      assert a[0] == a[..k][0] && b[0] == b[..k][0];
      assert a[1..][..k - 1] == a[..k][1..] && b[1..][..k - 1] == b[..k][1..];
      LessByDifference(a[1..], b[1..], k - 1);
    }
  }

  lemma {:induction false} StrLessTransitive(a: string, b: string, c: string)
    requires StrLess(a, b) && StrLess(b, c)
    ensures StrLess(a, c)
  {
    if a != "" && a[0] == b[0] && b[0] == c[0] {
      StrLessTransitive(a[1..], b[1..], c[1..]);
    }
  }
}
