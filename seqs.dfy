/** Sequence combinators used to state what a printing loop outputs, with the facts the proofs need. */
module Seqs {

  /** The concatenation, in order, of f(x) for the elements x of s. */
  function FlatMap<A, B>(f: A -> seq<B>, s: seq<A>): seq<B>
    decreases |s|
  {
    if s == [] then [] else FlatMap(f, s[..|s| - 1]) + f(s[|s| - 1])
  }

  /** f applied to every element of s. */
  function Map<A, B>(f: A -> B, s: seq<A>): (r: seq<B>)
    ensures |r| == |s|
    ensures forall i :: 0 <= i < |s| ==> r[i] == f(s[i])
  {
    seq(|s|, i requires 0 <= i < |s| => f(s[i]))
  }

  /** The elements of s that satisfy p, in their order in s. */
  function Filter<A>(p: A -> bool, s: seq<A>): seq<A>
    decreases |s|
  {
    if s == [] then [] else Filter(p, s[..|s| - 1]) + (if p(s[|s| - 1]) then [s[|s| - 1]] else [])
  }

  lemma SplitAppend<T>(a: seq<T>, b: seq<T>, n: nat)
    requires n <= |a|
    ensures (a + b)[..n] == a[..n] && (a + b)[n..] == a[n..] + b
  {
  }

  lemma FlatMapSingleton<A, B>(f: A -> seq<B>, x: A)
    ensures FlatMap(f, [x]) == f(x)
  {
    assert [x][..0] == [];
  }

  /** FlatMap distributes over concatenation. */
  lemma {:induction false} FlatMapAppend<A, B>(f: A -> seq<B>, a: seq<A>, b: seq<A>)
    ensures FlatMap(f, a + b) == FlatMap(f, a) + FlatMap(f, b)
    decreases |b|
  {
    if b == [] {
      assert a + b == a;
    } else {
      var b' := b[..|b| - 1];
      assert (a + b)[..|a + b| - 1] == a + b';
      assert (a + b)[|a + b| - 1] == b[|b| - 1];
      FlatMapAppend(f, a, b');
    }
  }

  /** Filter distributes over concatenation. */
  lemma {:induction false} FilterAppend<A>(p: A -> bool, a: seq<A>, b: seq<A>)
    ensures Filter(p, a + b) == Filter(p, a) + Filter(p, b)
    decreases |b|
  {
    if b == [] {
      assert a + b == a;
    } else {
      var b' := b[..|b| - 1];
      assert (a + b)[..|a + b| - 1] == a + b';
      assert (a + b)[|a + b| - 1] == b[|b| - 1];
      FilterAppend(p, a, b');
    }
  }

  lemma FilterSingleton<A>(p: A -> bool, x: A)
    ensures Filter(p, [x]) == if p(x) then [x] else []
  {
    assert [x][..0] == [];
  }

  /** Filter keeps exactly the elements that satisfy p. */
  lemma {:induction false} FilterMember<A>(p: A -> bool, s: seq<A>, x: A)
    ensures x in Filter(p, s) <==> x in s && p(x)
    decreases |s|
  {
    if s != [] {
      var q := s[..|s| - 1];
      assert s == q + [s[|s| - 1]];
      FilterMember(p, q, x);
    }
  }

  /** When p keeps nothing of any piece, it keeps nothing of the flat map. */
  lemma {:induction false} FilterFlatMapNone<A, B>(p: B -> bool, f: A -> seq<B>, s: seq<A>)
    requires forall j :: 0 <= j < |s| ==> Filter(p, f(s[j])) == []
    ensures Filter(p, FlatMap(f, s)) == []
    decreases |s|
  {
    if s != [] {
      var q := s[..|s| - 1];
      assert forall j :: 0 <= j < |q| ==> q[j] == s[j];
      FilterFlatMapNone(p, f, q);
      FilterAppend(p, FlatMap(f, q), f(s[|s| - 1]));
    }
  }

  /** When p keeps all of piece i and nothing of the others, it keeps exactly piece i of the flat map. */
  lemma {:induction false} FilterFlatMapOne<A, B>(p: B -> bool, f: A -> seq<B>, s: seq<A>, i: nat)
    requires i < |s|
    requires Filter(p, f(s[i])) == f(s[i])
    requires forall j :: 0 <= j < |s| && j != i ==> Filter(p, f(s[j])) == []
    ensures Filter(p, FlatMap(f, s)) == f(s[i])
    decreases |s|
  {
    var q := s[..|s| - 1];
    assert forall j :: 0 <= j < |q| ==> q[j] == s[j];
    FilterAppend(p, FlatMap(f, q), f(s[|s| - 1]));
    if i == |s| - 1 {
      FilterFlatMapNone(p, f, q);
    } else {
      FilterFlatMapOne(p, f, q, i);
    }
  }

  /** An element of FlatMap(f, s) comes from f of some element of s, and every such element is there. */
  lemma {:induction false} FlatMapMember<A, B>(f: A -> seq<B>, s: seq<A>, y: B)
    ensures y in FlatMap(f, s) <==> exists i :: 0 <= i < |s| && y in f(s[i])
    decreases |s|
  {
    if s != [] {
      var p := s[..|s| - 1];
      FlatMapMember(f, p, y);
      if y in FlatMap(f, p) {
        var i :| 0 <= i < |p| && y in f(p[i]);
        assert s[i] == p[i];
      }
      if exists i :: 0 <= i < |s| && y in f(s[i]) {
        var i :| 0 <= i < |s| && y in f(s[i]);
        if i < |p| {
          assert p[i] == s[i];
        }
      }
    }
  }

  lemma MultisetCancel<A>(m: multiset<A>, n: multiset<A>, x: A)
    requires m + multiset{x} == n + multiset{x}
    ensures m == n
  {
    forall y
      ensures m[y] == n[y]
    {
      assert (m + multiset{x})[y] == (n + multiset{x})[y];
    }
  }

  /** Splits t around one occurrence of x, leaving a permutation of p. */
  lemma PermutationSplit<A>(p: seq<A>, x: A, t: seq<A>) returns (a: seq<A>, b: seq<A>)
    requires multiset(p + [x]) == multiset(t)
    ensures t == a + [x] + b
    ensures multiset(p) == multiset(a + b)
  {
    assert x in multiset(p + [x]);
    var j :| 0 <= j < |t| && t[j] == x;
    a, b := t[..j], t[j + 1..];
    assert t == a + [x] + b;
    calc {
      multiset(p) + multiset{x};
      multiset(p + [x]);
      multiset(a + [x] + b);
      multiset(a + b) + multiset{x};
    }
    MultisetCancel(multiset(p), multiset(a + b), x);
  }

  /** The multiset of FlatMap(f, s) does not depend on the order of s. */
  lemma {:induction false} FlatMapPermutation<A, B>(f: A -> seq<B>, s: seq<A>, t: seq<A>)
    requires multiset(s) == multiset(t)
    ensures multiset(FlatMap(f, s)) == multiset(FlatMap(f, t))
    decreases |s|
  {
    if s == [] {
      assert |t| == |multiset(t)| == 0;
    } else {
      var p, x := s[..|s| - 1], s[|s| - 1];
      assert s == p + [x];
      var a, b := PermutationSplit(p, x, t);
      FlatMapPermutation(f, p, a + b);
      FlatMapAppend(f, a, b);
      FlatMapAppend(f, a + [x], b);
      FlatMapAppend(f, a, [x]);
      FlatMapSingleton(f, x);
    }
  }

  /** The multiset of Map(f, s) does not depend on the order of s. */
  lemma {:induction false} MapPermutation<A, B>(f: A -> B, s: seq<A>, t: seq<A>)
    requires multiset(s) == multiset(t)
    ensures multiset(Map(f, s)) == multiset(Map(f, t))
    decreases |s|
  {
    if s == [] {
      assert |t| == |multiset(t)| == 0;
    } else {
      var p, x := s[..|s| - 1], s[|s| - 1];
      assert s == p + [x];
      var a, b := PermutationSplit(p, x, t);
      MapPermutation(f, p, a + b);
      assert Map(f, s) == Map(f, p) + [f(x)];
      assert Map(f, t) == Map(f, a) + [f(x)] + Map(f, b);
      assert Map(f, a + b) == Map(f, a) + Map(f, b);
    }
  }

  /** Map distributes over concatenation. */
  lemma MapAppend<A, B>(f: A -> B, a: seq<A>, b: seq<A>)
    ensures Map(f, a + b) == Map(f, a) + Map(f, b)
  {
  }

  /** Two flat maps whose pieces have equal lengths have equal lengths. */
  lemma {:induction false} FlatMapSameLength<A, B, C>(f: A -> seq<B>, g: A -> seq<C>, s: seq<A>)
    requires forall i :: 0 <= i < |s| ==> |f(s[i])| == |g(s[i])|
    ensures |FlatMap(f, s)| == |FlatMap(g, s)|
    decreases |s|
  {
    if s != [] {
      FlatMapSameLength(f, g, s[..|s| - 1]);
    }
  }

  /** Position i of two flat maps with equal-length pieces comes from the same piece, at the same offset. */
  lemma {:induction false} FlatMapZip<A, B, C>(f: A -> seq<B>, g: A -> seq<C>, s: seq<A>, i: nat)
    requires forall j :: 0 <= j < |s| ==> |f(s[j])| == |g(s[j])|
    requires i < |FlatMap(f, s)|
    ensures |FlatMap(g, s)| == |FlatMap(f, s)|
    ensures exists j, k :: (0 <= j < |s| && 0 <= k < |f(s[j])| &&
      FlatMap(f, s)[i] == f(s[j])[k] && FlatMap(g, s)[i] == g(s[j])[k])
    decreases |s|
  {
    FlatMapSameLength(f, g, s);
    var p, x := s[..|s| - 1], s[|s| - 1];
    FlatMapSameLength(f, g, p);
    if i < |FlatMap(f, p)| {
      FlatMapZip(f, g, p, i);
      var j, k :| 0 <= j < |p| && 0 <= k < |f(p[j])| &&
        FlatMap(f, p)[i] == f(p[j])[k] && FlatMap(g, p)[i] == g(p[j])[k];
      assert p[j] == s[j];
    } else {
      var k := i - |FlatMap(f, p)|;
      assert FlatMap(f, s)[i] == f(x)[k];
      assert FlatMap(g, s)[i] == g(x)[k];
    }
  }
}
