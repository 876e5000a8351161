/**
 * The list operations the entities rely on: PHP's `array_unique` and the
 * `contains` / `add` / `removeElement` methods of Doctrine's ArrayCollection.
 * A PHP array or an ArrayCollection is modelled by the sequence of its values
 * in key order; gaps left in the keys are not modelled.
 */
module Collections {

  /** No value occurs twice. */
  predicate NoDuplicates<T(==)>(s: seq<T>) {
    forall i, j :: 0 <= i < j < |s| ==> s[i] != s[j]
  }

  /**
   * `if (!$c->contains($x)) { $c->add($x); }`: appends `x` unless it is
   * already present (ArrayCollection compares with `===`).
   */
  function AddIfAbsent<T(==)>(s: seq<T>, x: T): (r: seq<T>)
    ensures x in r
    ensures forall y :: y in r ==> y in s || y == x
    ensures forall y :: y in s ==> y in r
    ensures x in s ==> r == s
    ensures x !in s ==> |r| == |s| + 1 && r[..|s|] == s && r[|s|] == x
    ensures NoDuplicates(s) ==> NoDuplicates(r)
  {
    if x in s then s else s + [x]
  }

  /**
   * The values of `s` from position `i` on that do not occur before their own
   * position, in order: position `j` is kept exactly when `s[j] !in s[..j]`.
   */
  function FirstsFrom<T(==)>(s: seq<T>, i: nat): (r: seq<T>)
    requires i <= |s|
    ensures forall x :: x in r ==> x in s[i..] && x !in s[..i]
    ensures forall j :: i <= j < |s| && s[j] !in s[..i] ==> s[j] in r
    ensures NoDuplicates(r)
    ensures |r| <= |s| - i
    decreases |s| - i
  {
    if i == |s| then []
    else
      var rest := FirstsFrom(s, i + 1);
      assert s[..i + 1] == s[..i] + [s[i]];
      assert forall j :: i + 1 <= j < |s| ==> s[j] in s[i..];
      if s[i] in s[..i] then rest
      else
        assert s[..i + 1][i] == s[i];
        [s[i]] + rest
  }

  /**
   * `array_unique`: keeps the first occurrence of every value and drops the
   * later ones, in order. Its result holds exactly the values of `s`, each once.
   */
  function Unique<T(==)>(s: seq<T>): (r: seq<T>)
    ensures forall x :: x in r ==> x in s
    ensures forall x :: x in s ==> x in r
    ensures NoDuplicates(r)
    ensures |r| <= |s|
  {
    assert s[..0] == [] && s[0..] == s;
    FirstsFrom(s, 0)
  }

  /** Appending `x` to the input appends `x` to FirstsFrom unless `x` occurs in it already. */
  lemma {:induction false} FirstsFromSnoc<T>(s: seq<T>, x: T, i: nat)
    requires i <= |s|
    ensures FirstsFrom(s + [x], i) == FirstsFrom(s, i) + (if x in s then [] else [x])
    decreases |s| - i
  {
    var t := s + [x];
    if i == |s| {
      assert t[..i] == s;
    } else {
      assert t[i] == s[i] && t[..i] == s[..i];
      FirstsFromSnoc(s, x, i + 1);
    }
  }

  /** Unique over one more element is AddIfAbsent on the result so far. */
  lemma UniqueSnoc<T>(s: seq<T>, x: T)
    ensures Unique(s + [x]) == AddIfAbsent(Unique(s), x)
  {
    FirstsFromSnoc(s, x, 0);
  }

  /** A list without repeated values is left as it is. */
  lemma UniqueOfDistinct<T>(s: seq<T>)
    requires NoDuplicates(s)
    ensures Unique(s) == s
  {
    FirstsFromOfDistinct(s, 0);
  }

  /** Without repeats, every position from `i` on is kept. */
  lemma {:induction false} FirstsFromOfDistinct<T>(s: seq<T>, i: nat)
    requires NoDuplicates(s) && i <= |s|
    ensures FirstsFrom(s, i) == s[i..]
    decreases |s| - i
  {
    if i < |s| {
      FirstsFromOfDistinct(s, i + 1);
      assert s[i] !in s[..i];
      assert s[i..] == [s[i]] + s[i + 1..];
    }
  }

  /** Building a collection by repeated AddIfAbsent never repeats a value. */
  lemma {:induction false} AddsNeverDuplicate<T>(s: seq<T>, xs: seq<T>)
    requires NoDuplicates(s)
    ensures NoDuplicates(AddAll(s, xs))
    ensures forall y :: y in AddAll(s, xs) <==> y in s || y in xs
    decreases |xs|
  {
    if |xs| > 0 {
      AddsNeverDuplicate(s, xs[..|xs| - 1]);
    }
  }

  /** The collection obtained from `s` by adding each of `xs` in turn. */
  function AddAll<T(==)>(s: seq<T>, xs: seq<T>): seq<T>
  {
    if |xs| == 0 then s
    else AddIfAbsent(AddAll(s, xs[..|xs| - 1]), xs[|xs| - 1])
  }

  /**
   * Starting from an empty collection, adding each of `xs` in turn builds
   * what `array_unique` keeps of `xs`.
   */
  lemma {:induction false} AddAllIsUnique<T>(xs: seq<T>)
    ensures AddAll([], xs) == Unique(xs)
  {
    if |xs| > 0 {
      var init := xs[..|xs| - 1];
      AddAllIsUnique(init);
      UniqueSnoc(init, xs[|xs| - 1]);
      assert init + [xs[|xs| - 1]] == xs;
    }
  }

  /** The position of the first occurrence of `x`, as `array_search` finds it. */
  function IndexOf<T(==)>(s: seq<T>, x: T): (k: nat)
    requires x in s
    ensures k < |s| && s[k] == x
    ensures x !in s[..k]
  {
    if s[0] == x then 0
    else
      var k := 1 + IndexOf(s[1..], x);
      assert s[..k] == [s[0]] + s[1..][..k - 1];
      k
  }

  /**
   * `ArrayCollection::removeElement`: removes the first occurrence of `x` and
   * reports whether there was one.
   */
  function RemoveElement<T(==)>(s: seq<T>, x: T): (r: (seq<T>, bool))
    ensures r.1 <==> x in s
    ensures !r.1 ==> r.0 == s
    ensures r.1 ==> |r.0| == |s| - 1 && multiset(r.0) == multiset(s) - multiset{x}
    ensures r.1 ==> r.0 == s[..IndexOf(s, x)] + s[IndexOf(s, x) + 1..]
    ensures forall y :: y in r.0 ==> y in s
    ensures forall y :: y in s && y != x ==> y in r.0
  {
    if x in s then
      var k := IndexOf(s, x);
      assert s == s[..k] + [s[k]] + s[k + 1..];
      (s[..k] + s[k + 1..], true)
    else (s, false)
  }

  /** Removing from a list without repeats leaves no occurrence and no repeats. */
  lemma RemoveFromDistinct<T>(s: seq<T>, x: T)
    requires NoDuplicates(s)
    ensures x !in RemoveElement(s, x).0
    ensures NoDuplicates(RemoveElement(s, x).0)
  {
  }
}
