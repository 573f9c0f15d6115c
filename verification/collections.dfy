/**
 * Slices used as sets: the membership test, de-duplicating insertion,
 * removal of every copy of an element, and insertion of a whole list.
 * These are the building blocks behind every "add unless present"
 * mutator of the installation model.
 */
module Collections {

  /** No element occurs twice. */
  ghost predicate NoDup<T>(s: seq<T>) {
    forall i, j :: 0 <= i < j < |s| ==> s[i] != s[j]
  }

  /** Linear membership test over a slice (the installer's string-slice search). */
  function Contains<T(==,!new)>(s: seq<T>, x: T): (r: bool)
    ensures r <==> x in s
  {
    if s == [] then false else s[0] == x || Contains(s[1..], x)
  }

  /** Append `x` unless it is already present: the model's de-duplicating add. */
  function AddUnique<T(==,!new)>(s: seq<T>, x: T): (r: seq<T>)
    ensures x in r
    ensures forall y :: y in r <==> y in s || y == x
    ensures NoDup(s) ==> NoDup(r)
    ensures |r| == if x in s then |s| else |s| + 1
    ensures |s| <= |r| && r[..|s|] == s
  {
    if Contains(s, x) then s else s + [x]
  }

  /** `s` with every copy of `x` dropped, the others kept in order. */
  function Without<T(==,!new)>(s: seq<T>, x: T): (r: seq<T>)
    ensures x !in r
    ensures forall y :: y != x ==> (y in r <==> y in s)
    ensures NoDup(s) ==> NoDup(r)
    ensures x !in s ==> r == s
    ensures |r| <= |s|
  {
    if s == [] then []
    else
      var prefix := Without(s[..|s| - 1], x);
      assert s == s[..|s| - 1] + [s[|s| - 1]];
      assert NoDup(s) ==> s[|s| - 1] !in s[..|s| - 1];
      if s[|s| - 1] == x then prefix else prefix + [s[|s| - 1]]
  }

  /** Removal distributes over concatenation, so the kept elements keep their order. */
  lemma {:induction false} WithoutConcat<T(!new)>(a: seq<T>, b: seq<T>, x: T)
    ensures Without(a + b, x) == Without(a, x) + Without(b, x)
    decreases |b|
  {
    if b == [] {
      assert a + b == a;
    } else {
      var init := b[..|b| - 1];
      WithoutConcat(a, init, x);
      assert (a + b)[..|a + b| - 1] == a + init;
    }
  }

  /** A single element is kept exactly when it differs from the removed one. */
  lemma WithoutSingle<T(!new)>(y: T, x: T)
    ensures Without([y], x) == if y == x then [] else [y]
  {
    assert [y][..0] == [];
  }

  /** Each element of `xs`, in order, added to `s` unless already there. */
  function AddAll<T(==,!new)>(s: seq<T>, xs: seq<T>): (r: seq<T>)
    ensures forall y :: y in r <==> y in s || y in xs
    ensures NoDup(s) ==> NoDup(r)
    ensures |s| <= |r| <= |s| + |xs| && r[..|s|] == s
    decreases |xs|
  {
    if xs == [] then s
    else
      var prefix := AddAll(s, xs[..|xs| - 1]);
      assert xs == xs[..|xs| - 1] + [xs[|xs| - 1]];
      AddUnique(prefix, xs[|xs| - 1])
  }

  /** Adding elements that are all present already changes nothing. */
  lemma {:induction false} AddAllPresent<T(!new)>(s: seq<T>, xs: seq<T>)
    requires forall y :: y in xs ==> y in s
    ensures AddAll(s, xs) == s
    decreases |xs|
  {
    if xs != [] {
      AddAllPresent(s, xs[..|xs| - 1]);
    }
  }

  /** Repeating the same `AddAll` does not grow the list. */
  lemma AddAllIdempotent<T(!new)>(s: seq<T>, xs: seq<T>)
    ensures AddAll(AddAll(s, xs), xs) == AddAll(s, xs)
  {
    AddAllPresent(AddAll(s, xs), xs);
  }

  /** Distinct elements added to an empty list give back exactly that list. */
  lemma {:induction false} AddAllDistinct<T(!new)>(xs: seq<T>)
    requires NoDup(xs)
    ensures AddAll([], xs) == xs
    decreases |xs|
  {
    if xs != [] {
      var init := xs[..|xs| - 1];
      AddAllDistinct(init);
      assert xs[|xs| - 1] !in init;
      assert xs == init + [xs[|xs| - 1]];
    }
  }
}
