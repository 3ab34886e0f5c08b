/** Sequence helpers shared by the modules: keep-first de-duplication and duplicate-freedom. */
module Seqs {

  /** How many elements of `xs` satisfy `p`: a counter bumped once per element that does. */
  function CountWhere<T>(p: T -> bool, xs: seq<T>): (n: nat)
    ensures n <= |xs|
    decreases |xs|
  {
    if xs == [] then 0
    else CountWhere(p, xs[..|xs| - 1]) + if p(xs[|xs| - 1]) then 1 else 0
  }

  /** The count reaches the length exactly when every element satisfies `p`. */
  lemma {:induction false} CountWhereAll<T>(p: T -> bool, xs: seq<T>)
    ensures CountWhere(p, xs) == |xs| <==> forall i :: 0 <= i < |xs| ==> p(xs[i])
    decreases |xs|
  {
    if xs != [] {
      var k := |xs| - 1;
      CountWhereAll(p, xs[..k]);
      assert forall i :: 0 <= i < k ==> xs[..k][i] == xs[i];
    }
  }

  /** The positions of the elements of `xs` that satisfy `p`. */
  function IndicesWhere<T>(p: T -> bool, xs: seq<T>): set<nat>
  {
    set i: nat | i < |xs| && p(xs[i])
  }

  /** The counter ends at the number of positions whose element satisfies `p`. */
  lemma {:induction false} CountWhereIndices<T>(p: T -> bool, xs: seq<T>)
    ensures CountWhere(p, xs) == |IndicesWhere(p, xs)|
    decreases |xs|
  {
    if xs != [] {
      var k := |xs| - 1;
      CountWhereIndices(p, xs[..k]);
      var before := IndicesWhere(p, xs[..k]);
      assert IndicesWhere(p, xs) == before + (if p(xs[k]) then {k} else {});
      assert k !in before;
    }
  }

  predicate NoDuplicates<T(==)>(s: seq<T>)
  {
    forall i, j :: 0 <= i < j < |s| ==> s[i] != s[j]
  }

  /**
   * The elements of `s` that are not in `seen`, each kept at its first
   * occurrence, in order: what a loop with a `seen` set appending the
   * unseen elements to a list produces.
   */
  function Dedup<T(==,!new)>(s: seq<T>, seen: set<T>): (r: seq<T>)
    ensures forall x :: x in r <==> x in s && x !in seen
    ensures NoDuplicates(r)
    ensures |r| <= |s|
  {
    if s == [] then []
    else if s[0] in seen then Dedup(s[1..], seen)
    else
      var rest := Dedup(s[1..], seen + {s[0]});
      assert forall x :: x in s <==> x == s[0] || x in s[1..];
      [s[0]] + rest
  }

  /** Dedup only removes: on a list without duplicates and an empty `seen`, it returns the list itself. */
  lemma {:induction false} DedupOfDistinct<T(!new)>(s: seq<T>, seen: set<T>)
    requires NoDuplicates(s)
    requires forall x :: x in s ==> x !in seen
    ensures Dedup(s, seen) == s
  {
    if s != [] {
      var t := s[1..];
      forall x | x in t ensures x != s[0] && x !in seen {
        var i :| 0 <= i < |t| && t[i] == x;
        assert s[i + 1] == x;
      }
      assert NoDuplicates(t) by {
        forall i, j | 0 <= i < j < |t| ensures t[i] != t[j] {
          assert t[i] == s[i + 1] && t[j] == s[j + 1];
        }
      }
      DedupOfDistinct(s[1..], seen + {s[0]});
      assert s == [s[0]] + s[1..];
    }
  }

  /** Dedup is idempotent. */
  lemma DedupIdempotent<T(!new)>(s: seq<T>)
    ensures Dedup(Dedup(s, {}), {}) == Dedup(s, {})
  {
    DedupOfDistinct(Dedup(s, {}), {});
  }

  /** Dedup extended by one element: appending `x` adds it at the end exactly when it was not already present. */
  lemma {:induction false} DedupSnoc<T(!new)>(s: seq<T>, seen: set<T>, x: T)
    ensures Dedup(s + [x], seen) ==
      if x in s || x in seen then Dedup(s, seen) else Dedup(s, seen) + [x]
  {
    if s == [] {
      assert Dedup([x], seen) == if x in seen then [] else [x] + Dedup([], seen + {x});
    } else {
      assert (s + [x])[1..] == s[1..] + [x];
      assert (s + [x])[0] == s[0];
      if s[0] in seen {
        DedupSnoc(s[1..], seen, x);
        assert x in s <==> x == s[0] || x in s[1..];
      } else {
        DedupSnoc(s[1..], seen + {s[0]}, x);
        assert x in s <==> x == s[0] || x in s[1..];
      }
    }
  }
}
