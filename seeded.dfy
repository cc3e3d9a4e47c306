/**
 * The seeded randomness the calendar and horoscope generators share.
 *
 * The source's generator is `x = Math.sin(seed) * 10000; x - Math.floor(x)`, a
 * floating-point function of an integer seed. It is modelled as an arbitrary function
 * `rng` from seeds to reals in [0, 1): every property below holds whatever that
 * function is. An index is drawn as `Math.floor(rng(seed) * k)`.
 *
 * The in-place Fisher-Yates pass of lib/calendar-data-enhanced.ts is here too: a
 * specification function on sequences, the array method that the source runs, and
 * the permutation facts about it.
 */
module Seeded {

  /** A value in [0, 1), as returned by the generator or by `Math.random()`. */
  type Unit = r: real | 0.0 <= r < 1.0 witness 0.0

  /** A seeded generator: any function from seeds to [0, 1). */
  type Rng = int -> Unit

  /** `Math.floor(u * k)`: an index in [0, k). */
  function Pick(u: Unit, k: nat): (j: nat)
    requires k > 0
    ensures j < k
    ensures j as real <= u * k as real < (j + 1) as real
  {
    var x := u * k as real;
    assert 0.0 <= x < k as real;
    x.Floor
  }

  /** `[0, 1, ..., n - 1]`, what `Array.from({ length: n }, (_, i) => i)` builds. */
  function Range(n: nat): (r: seq<int>)
    ensures |r| == n && forall k :: 0 <= k < n ==> r[k] == k
  {
    seq(n, k => k)
  }

  predicate Distinct(s: seq<int>) {
    forall i, j :: 0 <= i < j < |s| ==> s[i] != s[j]
  }

  function Swap(s: seq<int>, i: nat, j: nat): (r: seq<int>)
    requires i < |s| && j < |s|
    ensures |r| == |s| && r[i] == s[j] && r[j] == s[i]
    ensures forall k :: 0 <= k < |s| && k != i && k != j ==> r[k] == s[k]
  {
    s[i := s[j]][j := s[i]]
  }

  /** The index the pass of step `i` swaps with: `Math.floor(rng(seed * (base + i)) * (i + 1))`. */
  function SwapIndex(rng: Rng, seed: int, base: int, i: nat): (j: nat)
    ensures j <= i
  {
    Pick(rng(seed * (base + i)), i + 1)
  }

  /** The steps `i, i - 1, ..., 1` of the pass, applied to `s`. */
  function ShuffleFrom(s: seq<int>, i: nat, rng: Rng, seed: int, base: int): (r: seq<int>)
    requires i < |s|
    decreases i
  {
    if i == 0 then s
    else ShuffleFrom(Swap(s, i, SwapIndex(rng, seed, base, i)), i - 1, rng, seed, base)
  }

  /** The whole pass, from the last index down to 1. */
  function FisherYates(s: seq<int>, rng: Rng, seed: int, base: int): seq<int>
  {
    if s == [] then s else ShuffleFrom(s, |s| - 1, rng, seed, base)
  }

  lemma {:induction false} SwapPermutes(s: seq<int>, i: nat, j: nat)
    requires i < |s| && j < |s|
    ensures multiset(Swap(s, i, j)) == multiset(s)
  {
    var t := s[i := s[j]];
    assert multiset(t) == multiset(s) - multiset{s[i]} + multiset{s[j]};
    assert t[j] == (if i == j then s[j] else s[j]);
    assert multiset(t[j := s[i]]) == multiset(t) - multiset{t[j]} + multiset{s[i]};
  }

  lemma {:induction false} ShuffleFromPermutes(s: seq<int>, i: nat, rng: Rng, seed: int, base: int)
    requires i < |s|
    ensures |ShuffleFrom(s, i, rng, seed, base)| == |s|
    ensures multiset(ShuffleFrom(s, i, rng, seed, base)) == multiset(s)
    decreases i
  {
    if i > 0 {
      var j := SwapIndex(rng, seed, base, i);
      SwapPermutes(s, i, j);
      ShuffleFromPermutes(Swap(s, i, j), i - 1, rng, seed, base);
    }
  }

  /** Each Fisher-Yates pass yields a permutation of its input. */
  lemma FisherYatesPermutes(s: seq<int>, rng: Rng, seed: int, base: int)
    ensures |FisherYates(s, rng, seed, base)| == |s|
    ensures multiset(FisherYates(s, rng, seed, base)) == multiset(s)
  {
    if s != [] {
      ShuffleFromPermutes(s, |s| - 1, rng, seed, base);
    }
  }

  lemma {:induction false} SwapKeepsDistinct(s: seq<int>, i: nat, j: nat)
    requires i < |s| && j < |s| && Distinct(s)
    ensures Distinct(Swap(s, i, j))
  {
    var r := Swap(s, i, j);
    forall a, b | 0 <= a < b < |r| ensures r[a] != r[b] {
      var a' := if a == i then j else if a == j then i else a;
      var b' := if b == i then j else if b == j then i else b;
      assert r[a] == s[a'] && r[b] == s[b'] && a' != b';
    }
  }

  lemma {:induction false} ShuffleFromKeepsDistinct(s: seq<int>, i: nat, rng: Rng, seed: int, base: int)
    requires i < |s| && Distinct(s)
    ensures Distinct(ShuffleFrom(s, i, rng, seed, base))
    decreases i
  {
    if i > 0 {
      var j := SwapIndex(rng, seed, base, i);
      SwapKeepsDistinct(s, i, j);
      ShuffleFromKeepsDistinct(Swap(s, i, j), i - 1, rng, seed, base);
    }
  }

  /**
   * Shuffling `[0, ..., n - 1]` yields each index exactly once: the result has length
   * `n`, holds no repeats, and holds exactly the indices below `n`.
   */
  lemma ShuffledRangeIsPermutation(n: nat, rng: Rng, seed: int, base: int)
    ensures var p := FisherYates(Range(n), rng, seed, base);
      && |p| == n && Distinct(p)
      && (forall k :: 0 <= k < n ==> 0 <= p[k] < n)
      && (forall v :: 0 <= v < n ==> v in p)
  {
    var p := FisherYates(Range(n), rng, seed, base);
    FisherYatesPermutes(Range(n), rng, seed, base);
    if n > 0 {
      ShuffleFromKeepsDistinct(Range(n), n - 1, rng, seed, base);
    }
    forall k | 0 <= k < n ensures 0 <= p[k] < n {
      assert p[k] in multiset(p);
      assert p[k] in multiset(Range(n));
      assert p[k] in Range(n);
    }
    forall v | 0 <= v < n ensures v in p {
      assert Range(n)[v] == v;
      assert v in multiset(Range(n));
      assert v in multiset(p);
    }
  }

  /** The in-place pass the source runs on `availableIndices`. */
  method ShuffleInPlace(a: array<int>, rng: Rng, seed: int, base: int)
    modifies a
    ensures a[..] == FisherYates(old(a[..]), rng, seed, base)
  {
    if a.Length == 0 {
      return;
    }
    var i := a.Length - 1;
    while i > 0
      invariant 0 <= i < a.Length
      invariant ShuffleFrom(a[..], i, rng, seed, base) == FisherYates(old(a[..]), rng, seed, base)
    {
      var j := Pick(rng(seed * (base + i)), i + 1);
      a[i], a[j] := a[j], a[i];
      i := i - 1;
    }
  }
}
