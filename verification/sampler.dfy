/** `cheaper_locations.sort(() => 0.5 - Math.random()).slice(0, 10)`.

    A comparator that answers at random is not a consistent order, so nothing about
    the resulting order can be promised except that it is some rearrangement of the
    list. The model makes the random source an explicit parameter, a sequence of
    draws: each draw picks, among the locations not yet placed, the one placed next.
    Every sequence of draws yields a permutation and every permutation is yielded by
    some sequence of draws, so the draws range over exactly the possible outcomes. */
module Sampler {

  /** `randomCheaperLocations` keeps at most this many locations. */
  const MaxSuggestions: nat := 10

  /** The list rearranged as the draws dictate; a missing or out-of-range draw counts as 0. */
  function Shuffle<T(==)>(xs: seq<T>, draws: seq<nat>): (r: seq<T>)
    ensures multiset(r) == multiset(xs)
    ensures |r| == |xs|
    decreases |xs|
  {
    if |xs| == 0 then []
    else
      var k := if |draws| > 0 && draws[0] < |xs| then draws[0] else 0;
      assert xs == xs[..k] + [xs[k]] + xs[k + 1..];
      [xs[k]] + Shuffle(xs[..k] + xs[k + 1..], if |draws| > 0 then draws[1..] else [])
  }

  /** A first draw below the list's length places that entry first. */
  lemma ShuffleStep<T>(xs: seq<T>, k: int, d: seq<nat>)
    requires 0 <= k < |xs|
    ensures Shuffle(xs, [k] + d) == [xs[k]] + Shuffle(xs[..k] + xs[k + 1..], d)
  {
    var draws := [k] + d;
    assert draws[0] == k && draws[1..] == d;
  }

  /** Removing one entry removes one copy of it. */
  lemma RemoveAt<T>(xs: seq<T>, k: int)
    requires 0 <= k < |xs|
    ensures multiset(xs[..k] + xs[k + 1..]) == multiset(xs) - multiset{xs[k]}
  {
    assert xs == xs[..k] + [xs[k]] + xs[k + 1..];
  }

  /** The first position of `y` in `xs`. */
  function PositionOf<T(==)>(xs: seq<T>, y: T): (k: nat)
    requires y in xs
    ensures k < |xs| && xs[k] == y
  {
    if xs[0] == y then 0 else 1 + PositionOf(xs[1..], y)
  }

  /** Permutations have the same length. */
  lemma SameLength<T>(xs: seq<T>, ys: seq<T>)
    requires multiset(ys) == multiset(xs)
    ensures |ys| == |xs|
  {
    assert |ys| == |multiset(ys)| && |xs| == |multiset(xs)|;
  }

  /** Dropping the first entry removes one copy of it. */
  lemma DropFirst<T>(ys: seq<T>)
    requires |ys| > 0
    ensures multiset(ys[1..]) == multiset(ys) - multiset{ys[0]}
  {
    assert ys == [ys[0]] + ys[1..];
  }

  /** Draws that rearrange `xs` into `ys`: each picks where `ys`'s next entry sits
      among the entries of `xs` not yet placed. */
  ghost function DrawsFor<T>(xs: seq<T>, ys: seq<T>): seq<nat>
    requires multiset(ys) == multiset(xs)
    decreases |xs|
  {
    if |xs| == 0 then []
    else
      HeadPresent(xs, ys);
      var k := PositionOf(xs, ys[0]);
      RestPermutation(xs, ys, k);
      [k] + DrawsFor(xs[..k] + xs[k + 1..], ys[1..])
  }

  /** A permutation of a non-empty list is non-empty, and its first entry is in the list. */
  lemma HeadPresent<T>(xs: seq<T>, ys: seq<T>)
    requires multiset(ys) == multiset(xs) && |xs| > 0
    ensures |ys| > 0 && ys[0] in xs
  {
    SameLength(xs, ys);
    assert ys[0] in multiset(ys);
  }

  /** Placing `ys`'s first entry, found at `k`, leaves the remaining entries a
      permutation of each other. */
  lemma RestPermutation<T>(xs: seq<T>, ys: seq<T>, k: nat)
    requires multiset(ys) == multiset(xs) && k < |xs| && |ys| > 0 && xs[k] == ys[0]
    ensures multiset(ys[1..]) == multiset(xs[..k] + xs[k + 1..])
  {
    RemoveAt(xs, k);
    DropFirst(ys);
  }

  /** One step of `DrawsFor`: the position of `ys`'s first entry, then the draws for the rest. */
  lemma DrawsForStep<T>(xs: seq<T>, ys: seq<T>, k: nat)
    requires multiset(ys) == multiset(xs) && |xs| > 0 && |ys| > 0 && ys[0] in xs
    requires k == PositionOf(xs, ys[0])
    requires multiset(ys[1..]) == multiset(xs[..k] + xs[k + 1..])
    ensures DrawsFor(xs, ys) == [k] + DrawsFor(xs[..k] + xs[k + 1..], ys[1..])
  {
  }

  lemma {:induction false} DrawsForRearrange<T>(xs: seq<T>, ys: seq<T>)
    requires multiset(ys) == multiset(xs)
    ensures Shuffle(xs, DrawsFor(xs, ys)) == ys
    decreases |xs|
  {
    if |xs| == 0 {
      SameLength(xs, ys);
    } else {
      HeadPresent(xs, ys);
      var k := PositionOf(xs, ys[0]);
      RestPermutation(xs, ys, k);
      var rest := xs[..k] + xs[k + 1..];
      DrawsForRearrange(rest, ys[1..]);
      DrawsForStep(xs, ys, k);
      PlaceFirst(xs, ys, k, DrawsFor(rest, ys[1..]));
    }
  }

  /** Drawing the position of `ys`'s first entry, then draws that arrange the
      remaining entries as `ys`'s tail, arranges the whole list as `ys`. */
  lemma PlaceFirst<T>(xs: seq<T>, ys: seq<T>, k: nat, d: seq<nat>)
    requires k < |xs| && |ys| > 0 && xs[k] == ys[0]
    requires Shuffle(xs[..k] + xs[k + 1..], d) == ys[1..]
    ensures Shuffle(xs, [k] + d) == ys
  {
    ShuffleStep(xs, k, d);
    assert ys == [ys[0]] + ys[1..];
  }

  /** Every rearrangement of the list is the outcome of some draws. */
  lemma EveryPermutationIsReachable<T>(xs: seq<T>, ys: seq<T>)
    requires multiset(ys) == multiset(xs)
    ensures exists draws :: Shuffle(xs, draws) == ys
  {
    DrawsForRearrange(xs, ys);
  }

  /** `randomCheaperLocations`: the first ten locations of the shuffled list, or all
      of them when there are fewer. */
  function Sample<T(==)>(locations: seq<T>, draws: seq<nat>): (r: seq<T>)
    ensures |r| == if |locations| < MaxSuggestions then |locations| else MaxSuggestions
    ensures r == Shuffle(locations, draws)[..|r|]
    ensures multiset(r) <= multiset(locations)
  {
    var shuffled := Shuffle(locations, draws);
    var n := if |shuffled| < MaxSuggestions then |shuffled| else MaxSuggestions;
    assert shuffled == shuffled[..n] + shuffled[n..];
    shuffled[..n]
  }

  predicate NoDuplicates<T(==)>(s: seq<T>) {
    forall i, j :: 0 <= i < j < |s| ==> s[i] != s[j]
  }

  /** A list without duplicates holds each location at most once. */
  lemma {:induction false} DistinctHasMultiplicityOne<T>(s: seq<T>)
    requires NoDuplicates(s)
    ensures forall x :: multiset(s)[x] <= 1
  {
    if |s| > 0 {
      assert NoDuplicates(s[1..]) by {
        forall i, j | 0 <= i < j < |s[1..]|
          ensures s[1..][i] != s[1..][j]
        {
          assert s[1..][i] == s[i + 1] && s[1..][j] == s[j + 1];
        }
      }
      DistinctHasMultiplicityOne(s[1..]);
      assert s == [s[0]] + s[1..];
      assert s[0] !in s[1..];
      assert multiset(s[1..])[s[0]] == 0;
    }
  }

  /** Two equal entries make a location's multiplicity at least two. */
  lemma RepeatCountsTwice<T>(s: seq<T>, i: int, j: int)
    requires 0 <= i < j < |s|
    ensures s[i] == s[j] ==> multiset(s)[s[i]] >= 2
  {
    assert s == s[..j] + s[j..];
    assert s[i] in s[..j];
    assert s[j] in s[j..];
  }

  /** The sample has no duplicates when the service's list has none. */
  lemma SampleHasNoDuplicates<T>(locations: seq<T>, draws: seq<nat>)
    requires NoDuplicates(locations)
    ensures NoDuplicates(Sample(locations, draws))
  {
    var r := Sample(locations, draws);
    DistinctHasMultiplicityOne(locations);
    forall i, j | 0 <= i < j < |r|
      ensures r[i] != r[j]
    {
      RepeatCountsTwice(r, i, j);
      assert multiset(r)[r[i]] <= multiset(locations)[r[i]] <= 1;
    }
  }
}
