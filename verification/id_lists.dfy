/** The association-list operations of a user record: `add` appends an id
    that is not yet present, `deleteItem` filters out every copy of one. */
module IdLists {

  predicate NoDuplicates<T(==)>(xs: seq<T>) {
    forall i, j :: 0 <= i < j < |xs| ==> xs[i] != xs[j]
  }

  /** `if (!list.includes(x)) list.push(x)`: a present id leaves the list as
      it was; a new one goes at the end, after everything already there. */
  function Add<T(==)>(xs: seq<T>, x: T): (r: seq<T>)
    ensures x in r
    ensures x in xs ==> r == xs
    ensures x !in xs ==> |r| == |xs| + 1 && r[..|xs|] == xs && r[|xs|] == x
  {
    if x in xs then xs else xs + [x]
  }

  /** `list.filter(v => v !== x)`: no copy of `x` is left, and every other
      id keeps its number of occurrences. */
  function Remove<T(==)>(xs: seq<T>, x: T): (r: seq<T>)
    ensures x !in r
    ensures multiset(r) == multiset(xs)[x := 0]
    decreases |xs|
  {
    if xs == [] then []
    else
      assert xs == [xs[0]] + xs[1..];
      (if xs[0] == x then [] else [xs[0]]) + Remove(xs[1..], x)
  }

  /** Adding twice is adding once. */
  lemma AddIdempotent<T>(xs: seq<T>, x: T)
    ensures Add(Add(xs, x), x) == Add(xs, x)
  {
  }

  /** Add keeps a duplicate-free list duplicate-free. */
  lemma AddKeepsNoDuplicates<T>(xs: seq<T>, x: T)
    requires NoDuplicates(xs)
    ensures NoDuplicates(Add(xs, x))
  {
  }

  /** Filtering distributes over concatenation, so the ids that stay keep
      their relative order. */
  lemma {:induction false} RemoveAppend<T>(xs: seq<T>, ys: seq<T>, x: T)
    ensures Remove(xs + ys, x) == Remove(xs, x) + Remove(ys, x)
    decreases |xs|
  {
    if xs != [] {
      assert (xs + ys)[1..] == xs[1..] + ys;
      RemoveAppend(xs[1..], ys, x);
    } else {
      assert xs + ys == ys;
    }
  }

  /** Removing an id that is not there changes nothing. */
  lemma {:induction false} RemoveAbsent<T>(xs: seq<T>, x: T)
    requires x !in xs
    ensures Remove(xs, x) == xs
    decreases |xs|
  {
    if xs != [] {
      assert x !in xs[1..];
      RemoveAbsent(xs[1..], x);
      assert xs == [xs[0]] + xs[1..];
    }
  }

  /** A second removal of the same id is a no-op. */
  lemma RemoveIdempotent<T>(xs: seq<T>, x: T)
    ensures Remove(Remove(xs, x), x) == Remove(xs, x)
  {
    RemoveAbsent(Remove(xs, x), x);
  }

  /** Removing never creates a duplicate. */
  lemma {:induction false} RemoveKeepsNoDuplicates<T>(xs: seq<T>, x: T)
    requires NoDuplicates(xs)
    ensures NoDuplicates(Remove(xs, x))
    decreases |xs|
  {
    if xs != [] {
      RemoveKeepsNoDuplicates(xs[1..], x);
      assert xs[0] !in xs[1..];
      assert multiset(Remove(xs[1..], x))[xs[0]] == 0;
    }
  }

  /** Remove undoes add: adding then removing an id is removing it. */
  lemma RemoveAfterAdd<T>(xs: seq<T>, x: T)
    ensures Remove(Add(xs, x), x) == Remove(xs, x)
  {
    if x !in xs {
      RemoveAppend(xs, [x], x);
      assert Remove([x], x) == [] by {
        assert [x][1..] == [];
      }
    }
  }
}
