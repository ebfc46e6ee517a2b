/**
 * Order-preserving deduplication, the idiom `seen = set(); if v not in seen: ...`
 * that the extractor uses for tag values, balance fields and employer names.
 */
module Seqs {

  /** No element occurs twice. */
  predicate NoDups<T(==,!new)>(xs: seq<T>) {
    forall i, j :: 0 <= i < j < |xs| ==> xs[i] != xs[j]
  }

  /**
   * The elements of `xs` that are not in `seen`, each kept at its first
   * occurrence, in the order in which they first occur.
   */
  function DedupeFrom<T(==,!new)>(xs: seq<T>, seen: set<T>): (r: seq<T>)
    ensures NoDups(r)
    ensures forall x :: x in r <==> x in xs && x !in seen
    decreases |xs|
  {
    if xs == [] then []
    else if xs[0] in seen then DedupeFrom(xs[1..], seen)
    else [xs[0]] + DedupeFrom(xs[1..], seen + {xs[0]})
  }

  function Dedupe<T(==,!new)>(xs: seq<T>): seq<T> {
    DedupeFrom(xs, {})
  }

  /**
   * Streaming view of deduplication: a value appended to the input shows up at
   * the end of the output exactly when it was not seen before.
   */
  lemma {:induction false} DedupeSnoc<T(!new)>(xs: seq<T>, x: T, seen: set<T>)
    ensures DedupeFrom(xs + [x], seen)
         == DedupeFrom(xs, seen) + (if x in xs || x in seen then [] else [x])
    decreases |xs|
  {
    if xs == [] {
      assert [x][1..] == [];
    } else {
      var ys := xs + [x];
      assert ys[0] == xs[0];
      assert ys[1..] == xs[1..] + [x];
      assert x in xs <==> x == xs[0] || x in xs[1..];
      if xs[0] in seen {
        DedupeSnoc(xs[1..], x, seen);
        assert DedupeFrom(ys, seen) == DedupeFrom(xs[1..] + [x], seen);
      } else {
        DedupeSnoc(xs[1..], x, seen + {xs[0]});
        assert DedupeFrom(ys, seen) == [xs[0]] + DedupeFrom(xs[1..] + [x], seen + {xs[0]});
      }
    }
  }

  /** Input that is already duplicate-free (and disjoint from `seen`) passes through unchanged. */
  lemma {:induction false} DedupeOfDistinct<T(!new)>(xs: seq<T>, seen: set<T>)
    requires NoDups(xs)
    requires forall x :: x in xs ==> x !in seen
    ensures DedupeFrom(xs, seen) == xs
    decreases |xs|
  {
    if xs != [] {
      assert forall x :: x in xs[1..] ==> x != xs[0] by {
        forall x | x in xs[1..] ensures x != xs[0] {
          var k :| 0 <= k < |xs[1..]| && xs[1..][k] == x;
          assert xs[k + 1] == x;
        }
      }
      assert NoDups(xs[1..]) by {
        forall i, j | 0 <= i < j < |xs[1..]| ensures xs[1..][i] != xs[1..][j] {
          assert xs[1..][i] == xs[i + 1] && xs[1..][j] == xs[j + 1];
        }
      }
      DedupeOfDistinct(xs[1..], seen + {xs[0]});
    }
  }

  /** Deduplication is idempotent. */
  lemma DedupeIdempotent<T(!new)>(xs: seq<T>)
    ensures Dedupe(Dedupe(xs)) == Dedupe(xs)
  {
    DedupeOfDistinct(Dedupe(xs), {});
  }

  /** Deduplicating a concatenation: the second part only adds what the first did not already hold. */
  lemma {:induction false} DedupeAppend<T(!new)>(xs: seq<T>, ys: seq<T>, seen: set<T>)
    ensures DedupeFrom(xs + ys, seen) == DedupeFrom(xs, seen) + DedupeFrom(ys, seen + set x | x in xs)
    decreases |ys|
  {
    var seenAll := seen + set x | x in xs;
    if ys == [] {
      assert xs + ys == xs;
      assert DedupeFrom(ys, seenAll) == [];
    } else {
      var init := ys[..|ys| - 1];
      var y := ys[|ys| - 1];
      assert ys == init + [y];
      assert xs + ys == (xs + init) + [y];
      DedupeAppend(xs, init, seen);
      DedupeSnoc(xs + init, y, seen);
      DedupeSnoc(init, y, seenAll);
      assert y in xs + init || y in seen <==> y in init || y in seenAll;
    }
  }

  /** The source's deduplication loop: a `seen` set and an output list grown in input order. */
  method DedupeInOrder<T(==,!new)>(values: seq<T>) returns (unique: seq<T>)
    ensures unique == Dedupe(values)
  {
    var seen: set<T> := {};
    unique := [];
    for k := 0 to |values|
      invariant Dedupe(values) == unique + DedupeFrom(values[k..], seen)
    {
      assert values[k..][1..] == values[k + 1..];
      if values[k] !in seen {
        seen := seen + {values[k]};
        unique := unique + [values[k]];
      }
    }
  }

  /** A non-empty sequence is its prefix followed by its last element. */
  lemma InitLast<T>(xs: seq<T>)
    requires xs != []
    ensures xs == xs[..|xs| - 1] + [xs[|xs| - 1]]
  {
  }
}
