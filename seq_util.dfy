/** The list operations the source performs through JavaScript's
    `Array.prototype.filter` and `splice`, with the facts about them that
    the rest of the model relies on: order-preserving subsequences,
    idempotence, strengthening, permutations and duplicate freedom. */
module SeqUtil {

  function Min(a: int, b: int): int { if a <= b then a else b }

  /** `s.filter(p)`: the elements of `s` that satisfy `p`, in their order. */
  function Filter<T(==)>(p: T -> bool, s: seq<T>): (r: seq<T>)
    ensures |r| <= |s|
    ensures forall i :: 0 <= i < |r| ==> r[i] in s && p(r[i])
    ensures forall i :: 0 <= i < |s| && p(s[i]) ==> s[i] in r
  {
    if s == [] then []
    else
      assert s == [s[0]] + s[1..];
      (if p(s[0]) then [s[0]] else []) + Filter(p, s[1..])
  }

  /** `s.map(f)`. */
  function MapSeq<A, B>(f: A -> B, s: seq<A>): (r: seq<B>)
    ensures |r| == |s|
    ensures forall i :: 0 <= i < |s| ==> r[i] == f(s[i])
  {
    if s == [] then [] else [f(s[0])] + MapSeq(f, s[1..])
  }

  /** An element is in a filter result exactly when it is in the input and
      passes. */
  lemma FilterMembers<T>(p: T -> bool, s: seq<T>)
    ensures forall x :: x in Filter(p, s) <==> x in s && p(x)
  {
    forall x ensures x in Filter(p, s) <==> x in s && p(x) {
      if x in Filter(p, s) {
        var i :| 0 <= i < |Filter(p, s)| && Filter(p, s)[i] == x;
      }
      if x in s && p(x) {
        var i :| 0 <= i < |s| && s[i] == x;
      }
    }
  }

  /** `a` can be obtained from `b` by deleting elements, the rest staying
      in their relative order. */
  predicate IsSubsequence<T(==)>(a: seq<T>, b: seq<T>)
    decreases |b|
  {
    if a == [] then true
    else if b == [] then false
    else if a[0] == b[0] then IsSubsequence(a[1..], b[1..])
    else IsSubsequence(a, b[1..])
  }

  /** No element occurs twice. */
  predicate NoDup<T(==)>(s: seq<T>) {
    forall i, j :: 0 <= i < j < |s| ==> s[i] != s[j]
  }

  // ----- subsequences -----

  lemma {:induction false} SubsequenceRefl<T>(s: seq<T>)
    ensures IsSubsequence(s, s)
  {
    if s != [] {
      SubsequenceRefl(s[1..]);
    }
  }

  /** Putting one more element in front of the longer list keeps a subsequence one. */
  lemma {:induction false} SubsequenceCons<T>(a: seq<T>, b: seq<T>, x: T)
    requires IsSubsequence(a, b)
    ensures IsSubsequence(a, [x] + b)
    decreases |b|, 1
  {
    assert ([x] + b)[1..] == b;
    if a != [] && a[0] == x {
      SubsequenceDropHead(a, b);
    }
  }

  /** Forgetting the first element of a subsequence keeps it a subsequence. */
  lemma {:induction false} SubsequenceDropHead<T>(a: seq<T>, b: seq<T>)
    requires a != [] && IsSubsequence(a, b)
    ensures IsSubsequence(a[1..], b)
    decreases |b|, 0
  {
    assert b != [];
    if a[0] == b[0] {
      SubsequenceCons(a[1..], b[1..], b[0]);
    } else {
      SubsequenceDropHead(a, b[1..]);
      SubsequenceCons(a[1..], b[1..], b[0]);
    }
    assert [b[0]] + b[1..] == b;
  }

  /** The members of a subsequence are members of the list it came from. */
  lemma {:induction false} SubsequenceMembers<T>(a: seq<T>, b: seq<T>, x: T)
    requires IsSubsequence(a, b) && x in a
    ensures x in b
    decreases |b|
  {
    if a[0] == b[0] {
      if x != a[0] {
        assert x in a[1..];
        SubsequenceMembers(a[1..], b[1..], x);
      }
    } else {
      SubsequenceMembers(a, b[1..], x);
    }
  }

  lemma {:induction false} SubsequenceLength<T>(a: seq<T>, b: seq<T>)
    requires IsSubsequence(a, b)
    ensures |a| <= |b|
    decreases |b|
  {
    if a != [] {
      if a[0] == b[0] {
        SubsequenceLength(a[1..], b[1..]);
      } else {
        SubsequenceLength(a, b[1..]);
      }
    }
  }

  // ----- filter -----

  /** A filter result is an order-preserving subsequence of its input. */
  lemma {:induction false} FilterIsSubsequence<T>(p: T -> bool, s: seq<T>)
    ensures IsSubsequence(Filter(p, s), s)
  {
    if s != [] {
      FilterIsSubsequence(p, s[1..]);
      if p(s[0]) {
        assert ([s[0]] + Filter(p, s[1..]))[1..] == Filter(p, s[1..]);
      } else {
        SubsequenceCons(Filter(p, s[1..]), s[1..], s[0]);
        assert [s[0]] + s[1..] == s;
        assert Filter(p, s) == Filter(p, s[1..]);
      }
    }
  }

  /** Filtering by a stronger predicate keeps a subsequence of what the weaker one keeps. */
  lemma {:induction false} FilterStrengthen<T>(p: T -> bool, q: T -> bool, s: seq<T>)
    requires forall x :: x in s && q(x) ==> p(x)
    ensures IsSubsequence(Filter(q, s), Filter(p, s))
  {
    if s != [] {
      assert forall x :: x in s[1..] ==> x in s;
      FilterStrengthen(p, q, s[1..]);
      var fq, fp := Filter(q, s[1..]), Filter(p, s[1..]);
      if q(s[0]) {
        assert s[0] in s;
        assert Filter(q, s) == [s[0]] + fq && Filter(p, s) == [s[0]] + fp;
        assert ([s[0]] + fq)[1..] == fq && ([s[0]] + fp)[1..] == fp;
      } else if p(s[0]) {
        assert Filter(q, s) == fq && Filter(p, s) == [s[0]] + fp;
        SubsequenceCons(fq, fp, s[0]);
      } else {
        assert Filter(q, s) == fq && Filter(p, s) == fp;
      }
    }
  }

  lemma {:induction false} FilterIdempotent<T>(p: T -> bool, s: seq<T>)
    ensures Filter(p, Filter(p, s)) == Filter(p, s)
  {
    if s != [] {
      FilterIdempotent(p, s[1..]);
      var rest := Filter(p, s[1..]);
      if p(s[0]) {
        var r := [s[0]] + rest;
        assert Filter(p, s) == r;
        assert r[0] == s[0] && r[1..] == rest;
        assert Filter(p, r) == [s[0]] + Filter(p, rest);
      } else {
        assert Filter(p, s) == rest;
      }
    }
  }

  lemma {:induction false} FilterConcat<T>(p: T -> bool, a: seq<T>, b: seq<T>)
    ensures Filter(p, a + b) == Filter(p, a) + Filter(p, b)
  {
    if a != [] {
      assert (a + b)[1..] == a[1..] + b;
      FilterConcat(p, a[1..], b);
    } else {
      assert a + b == b;
    }
  }

  /** Two predicates that agree on every element of `s` filter it alike. */
  lemma {:induction false} FilterAgree<T>(p: T -> bool, q: T -> bool, s: seq<T>)
    requires forall x :: x in s ==> p(x) == q(x)
    ensures Filter(p, s) == Filter(q, s)
  {
    if s != [] {
      assert forall x :: x in s[1..] ==> x in s;
      FilterAgree(p, q, s[1..]);
    }
  }

  /** A predicate that holds of every element keeps the list unchanged. */
  lemma {:induction false} FilterKeepsAll<T>(p: T -> bool, s: seq<T>)
    requires forall x :: x in s ==> p(x)
    ensures Filter(p, s) == s
  {
    if s != [] {
      assert forall x :: x in s[1..] ==> x in s;
      FilterKeepsAll(p, s[1..]);
      assert [s[0]] + s[1..] == s;
    }
  }

  /** A predicate that holds of no element keeps nothing. */
  lemma {:induction false} FilterKeepsNone<T>(p: T -> bool, s: seq<T>)
    requires forall x :: x in s ==> !p(x)
    ensures Filter(p, s) == []
  {
    if s != [] {
      assert forall x :: x in s[1..] ==> x in s;
      FilterKeepsNone(p, s[1..]);
    }
  }

  /** How often a filter result holds `x`: as often as the input when `x`
      passes, never otherwise. */
  lemma {:induction false} FilterMultiplicity<T>(p: T -> bool, s: seq<T>, x: T)
    ensures multiset(Filter(p, s))[x] == if p(x) then multiset(s)[x] else 0
  {
    if s != [] {
      FilterMultiplicity(p, s[1..], x);
      assert [s[0]] + s[1..] == s;
    }
  }

  /** Filtering the images by `q` is mapping what `pq`, which is `q` after
      `f`, keeps. */
  lemma {:induction false} FilterMapCommute<A, B>(f: A -> B, q: B -> bool, pq: A -> bool, s: seq<A>)
    requires forall x :: pq(x) == q(f(x))
    ensures Filter(q, MapSeq(f, s)) == MapSeq(f, Filter(pq, s))
  {
    if s != [] {
      FilterMapCommute(f, q, pq, s[1..]);
      var m := MapSeq(f, s);
      assert m[0] == f(s[0]) && m[1..] == MapSeq(f, s[1..]);
    }
  }

  /** Mapping by `f` and then by a left inverse of `f` gives the list back. */
  lemma MapLeftInverse<A, B>(f: A -> B, g: B -> A, s: seq<A>)
    requires forall x :: g(f(x)) == x
    ensures MapSeq(g, MapSeq(f, s)) == s
  {
  }

  lemma MapRemoveAt<A, B>(f: A -> B, s: seq<A>, i: nat)
    requires i < |s|
    ensures MapSeq(f, RemoveAt(s, i)) == RemoveAt(MapSeq(f, s), i)
  {
  }

  lemma MapInsertAt<A, B>(f: A -> B, s: seq<A>, i: nat, x: A)
    ensures MapSeq(f, InsertAt(s, i, x)) == InsertAt(MapSeq(f, s), i, f(x))
  {
  }

  /** Moving an element commutes with mapping every element. */
  lemma MapMove<A, B>(f: A -> B, s: seq<A>, src: nat, dst: nat)
    requires src < |s|
    ensures MapSeq(f, Move(s, src, dst)) == Move(MapSeq(f, s), src, dst)
  {
    MapRemoveAt(f, s, src);
    MapInsertAt(f, RemoveAt(s, src), dst, s[src]);
  }

  /** Lists with the same multiset have the same members. */
  lemma SameMembers<T>(a: seq<T>, b: seq<T>)
    requires multiset(a) == multiset(b)
    ensures forall x :: x in a <==> x in b
  {
    forall x ensures x in a <==> x in b {
      assert x in a <==> x in multiset(a);
      assert x in b <==> x in multiset(b);
    }
  }

  // ----- duplicates and multiplicities -----

  lemma {:induction false} NoDupMultiplicity<T>(s: seq<T>, x: T)
    requires NoDup(s)
    ensures multiset(s)[x] == if x in s then 1 else 0
  {
    if s != [] {
      assert NoDup(s[1..]) by {
        forall i, j | 0 <= i < j < |s[1..]| ensures s[1..][i] != s[1..][j] {
          assert s[1..][i] == s[i + 1] && s[1..][j] == s[j + 1];
        }
      }
      NoDupMultiplicity(s[1..], x);
      assert s == [s[0]] + s[1..];
      assert s[0] !in s[1..] by {
        forall k | 0 <= k < |s[1..]| ensures s[1..][k] != s[0] {
          assert s[1..][k] == s[k + 1];
        }
      }
    }
  }

  /** An element at two positions occurs at least twice. */
  lemma RepeatMultiplicity<T>(s: seq<T>, i: nat, j: nat)
    requires i < j < |s| && s[i] == s[j]
    ensures multiset(s)[s[i]] >= 2
  {
    assert s == s[..j] + [s[j]] + s[j + 1..];
    assert s[..j][i] == s[i];
    assert s[i] in multiset(s[..j]);
  }

  /** Duplicate freedom is preserved by any permutation. */
  lemma PermutationNoDup<T>(a: seq<T>, b: seq<T>)
    requires multiset(a) == multiset(b) && NoDup(a)
    ensures NoDup(b)
  {
    forall i, j | 0 <= i < j < |b| ensures b[i] != b[j] {
      if b[i] == b[j] {
        RepeatMultiplicity(b, i, j);
        NoDupMultiplicity(a, b[i]);
        assert false;
      }
    }
  }

  lemma FilterNoDup<T>(p: T -> bool, s: seq<T>)
    requires NoDup(s)
    ensures NoDup(Filter(p, s))
  {
    var r := Filter(p, s);
    forall i, j | 0 <= i < j < |r| ensures r[i] != r[j] {
      if r[i] == r[j] {
        RepeatMultiplicity(r, i, j);
        FilterMultiplicity(p, s, r[i]);
        NoDupMultiplicity(s, r[i]);
        assert false;
      }
    }
  }

  /** A function that maps every element to its own position shows the
      list free of duplicates. */
  lemma LeftInverseNoDup<T>(s: seq<T>, position: T -> int)
    requires forall i :: 0 <= i < |s| ==> position(s[i]) == i
    ensures NoDup(s)
  {
  }

  lemma NoDupConcat<T>(a: seq<T>, b: seq<T>)
    requires NoDup(a) && NoDup(b)
    requires forall x :: x in a ==> x !in b
    ensures NoDup(a + b)
  {
    var c := a + b;
    forall i, j | 0 <= i < j < |c| ensures c[i] != c[j] {
      if i < |a| && j >= |a| {
        assert c[i] in a && c[j] == b[j - |a|];
      } else if i >= |a| {
        assert c[i] == b[i - |a|] && c[j] == b[j - |a|];
      }
    }
  }

  /** Whether an element is outside `s`. */
  function NotIn<T(==)>(s: seq<T>): T -> bool { (x: T) => x !in s }

  /** `pinned` first, then the elements of `s` that are not pinned, in
      their order. */
  function PinnedFirst<T(==)>(pinned: seq<T>, s: seq<T>): seq<T> {
    pinned + Filter(NotIn(pinned), s)
  }

  /** The pinned elements come first, followed by an order-preserving
      subsequence of `s` that holds exactly its unpinned elements. */
  lemma PinnedFirstSpec<T>(pinned: seq<T>, s: seq<T>)
    ensures var r := PinnedFirst(pinned, s);
            && |r| >= |pinned| && r[..|pinned|] == pinned
            && IsSubsequence(r[|pinned|..], s)
            && forall x :: x in r[|pinned|..] <==> x in s && x !in pinned
  {
    var r := PinnedFirst(pinned, s);
    assert r[|pinned|..] == Filter(NotIn(pinned), s);
    FilterIsSubsequence(NotIn(pinned), s);
    FilterMembers(NotIn(pinned), s);
  }

  /** Pinning a duplicate-free prefix in front of a duplicate-free list
      repeats nothing. */
  lemma PinnedFirstNoDup<T>(pinned: seq<T>, s: seq<T>)
    requires NoDup(pinned) && NoDup(s)
    ensures NoDup(PinnedFirst(pinned, s))
  {
    FilterNoDup(NotIn(pinned), s);
    FilterMembers(NotIn(pinned), s);
    NoDupConcat(pinned, Filter(NotIn(pinned), s));
  }

  /** When the list has no duplicates and holds every pinned element,
      putting the pinned ones first is a permutation of it. */
  lemma PinnedFirstPermutation<T>(pinned: seq<T>, s: seq<T>)
    requires NoDup(pinned) && NoDup(s)
    requires forall i :: 0 <= i < |pinned| ==> pinned[i] in s
    ensures multiset(PinnedFirst(pinned, s)) == multiset(s)
  {
    var kept := Filter(NotIn(pinned), s);
    forall x ensures multiset(pinned)[x] + multiset(kept)[x] == multiset(s)[x] {
      FilterMultiplicity(NotIn(pinned), s, x);
      NoDupMultiplicity(s, x);
      NoDupMultiplicity(pinned, x);
      if x in pinned {
        var i :| 0 <= i < |pinned| && pinned[i] == x;
      }
    }
    assert multiset(pinned) + multiset(kept) == multiset(s);
  }

  // ----- splice -----

  /** `items.splice(i, 1)` on a copy: the list without its element at `i`. */
  function RemoveAt<T>(s: seq<T>, i: nat): (r: seq<T>)
    requires i < |s|
    ensures |r| == |s| - 1
    ensures forall k :: 0 <= k < i ==> r[k] == s[k]
    ensures forall k :: i <= k < |r| ==> r[k] == s[k + 1]
    ensures multiset(r) + multiset{s[i]} == multiset(s)
  {
    assert s == s[..i] + [s[i]] + s[i + 1..];
    s[..i] + s[i + 1..]
  }

  /** `items.splice(i, 0, x)`: `x` is inserted before position `i`; an
      index past the end appends, since `splice` clamps it to the length. */
  function InsertAt<T>(s: seq<T>, i: nat, x: T): (r: seq<T>)
    ensures |r| == |s| + 1
    ensures r[Min(i, |s|)] == x
    ensures forall k :: 0 <= k < Min(i, |s|) ==> r[k] == s[k]
    ensures forall k :: Min(i, |s|) < k < |r| ==> r[k] == s[k - 1]
    ensures multiset(r) == multiset(s) + multiset{x}
  {
    var j := Min(i, |s|);
    assert s == s[..j] + s[j..];
    s[..j] + [x] + s[j..]
  }

  /** The two splices of a drag: take the element at `src` out and put it
      back in at `dst`. */
  function Move<T>(s: seq<T>, src: nat, dst: nat): (r: seq<T>)
    requires src < |s|
    ensures |r| == |s|
    ensures r[Min(dst, |s| - 1)] == s[src]
    ensures multiset(r) == multiset(s)
  {
    InsertAt(RemoveAt(s, src), dst, s[src])
  }
}
