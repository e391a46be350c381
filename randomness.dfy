/** The generator's sources of chance and rounding: the global random generator, modelled as an
    injected stream of draws, the float tunables, modelled as exact fractions, Mathf.RoundToInt,
    and the Fisher–Yates shuffle both generation stages run on their land lists. */
module Randomness {
  import opened Seqs

  /** A non-negative rational num/den, standing for one of the float tunables. */
  datatype Ratio = Ratio(num: nat, den: nat)
  type Fraction = f: Ratio | f.den > 0 witness Ratio(0, 1)

  /** Mathf.RoundToInt(n * f): the integer nearest to n·f, a tie going to the even neighbour
      (RoundToIntIsNearest). A fraction of at most one never gives more than n. */
  function RoundToInt(n: nat, f: Fraction): (c: nat)
    ensures f.num <= f.den ==> c <= n
  {
    RoundingAtMost(n, f);
    RoundHalfEven(n * f.num, f.den)
  }

  /** A fraction of at most one rounds n·f to at most n. */
  lemma RoundingAtMost(n: nat, f: Fraction)
    ensures f.num <= f.den ==> RoundHalfEven(n * f.num, f.den) <= n
  {
    RoundingIsNearest(n, f);
  }

  /** RoundToInt(n, f) lies within half a unit of n·f, and on a tie it is the even neighbour. */
  lemma RoundToIntIsNearest(n: nat, f: Fraction)
    ensures var c := RoundToInt(n, f);
      && -(f.den as int) <= 2 * (c * f.den - n * f.num) <= f.den
      && (2 * (c * f.den - n * f.num) == f.den ==> c % 2 == 0)
      && (2 * (c * f.den - n * f.num) == -(f.den as int) ==> c % 2 == 0)
  {
    RoundingIsNearest(n, f);
  }

  /** p / d rounded to the nearest integer, ties to even (Math.Round's default). */
  function RoundHalfEven(p: nat, d: nat): nat
    requires d > 0
  {
    var floor, rem := p / d, p % d;
    if 2 * rem < d then floor
    else if 2 * rem > d then floor + 1
    else if floor % 2 == 0 then floor else floor + 1
  }

  /** The arithmetic behind RoundToInt's contract: rounding the quotient up or down by the
      remainder lands within half a unit of n·f, and never above n when f <= 1. */
  lemma RoundingIsNearest(n: nat, f: Fraction)
    ensures var c := RoundHalfEven(n * f.num, f.den);
      && -(f.den as int) <= 2 * (c * f.den - n * f.num) <= f.den
      && (2 * (c * f.den - n * f.num) == f.den ==> c % 2 == 0)
      && (2 * (c * f.den - n * f.num) == -(f.den as int) ==> c % 2 == 0)
      && (f.num <= f.den ==> c <= n)
  {
    var p, d := n * f.num, f.den;
    var floor, rem := p / d, p % d;
    var c := RoundHalfEven(p, d);
    assert p == floor * d + rem;
    var e := c * d - p;
    if c == floor + 1 {
      assert c * d == floor * d + d;
      assert e == d - rem;
    } else {
      assert e + rem == 0;
    }
    if f.num <= d {
      MulMonotone(f.num, d, n);
      assert p <= n * d;
      if c == floor + 1 {
        assert rem > 0;
        MulStrictCancel(floor, n, d);
      } else {
        MulCancel(floor, n, d);
      }
    }
  }

  lemma MulMonotone(x: nat, y: nat, z: nat)
    requires x <= y
    ensures x * z <= y * z
  {
  }

  lemma MulCancel(x: nat, y: nat, z: nat)
    requires z > 0 && x * z <= y * z
    ensures x <= y
  {
    if x > y {
      MulStrict(y, x, z);
    }
  }

  lemma MulStrictCancel(x: nat, y: nat, z: nat)
    requires x * z < y * z
    ensures x < y
  {
    if x >= y {
      MulMonotone(y, x, z);
    }
  }

  lemma MulStrict(x: nat, y: nat, z: nat)
    requires x < y && z > 0
    ensures x * z < y * z
  {
  }

  /** The resolution of Random.value: a draw v stands for the float v / ValueSteps in [0, 1]. */
  const ValueSteps: nat := 0x100_0000

  /** Random.Range(lo, hi) for ints, as the k-th draw of the stream. */
  function RangeDraw(stream: nat -> nat, k: nat, lo: int, hi: int): (x: int)
    requires lo < hi
    ensures lo <= x < hi
  {
    lo + stream(k) % (hi - lo)
  }

  /** Random.value as the k-th draw of the stream: 0 .. ValueSteps, both ends included. */
  function ValueDraw(stream: nat -> nat, k: nat): (v: nat)
    ensures v <= ValueSteps
  {
    stream(k) % (ValueSteps + 1)
  }

  /** `Random.value < f` for a drawn value v. */
  predicate ValueBelow(v: nat, f: Fraction)
  {
    v * f.den < f.num * ValueSteps
  }

  /** A zero probability is never met, a probability of one is met unless the draw is exactly 1.0. */
  lemma ValueBelowBounds(v: nat, f: Fraction)
    requires v <= ValueSteps
    ensures f.num == 0 ==> !ValueBelow(v, f)
    ensures f.num == f.den ==> (ValueBelow(v, f) <==> v < ValueSteps)
  {
    if f.num == f.den {
      if v < ValueSteps {
        assert v * f.den < ValueSteps * f.den;
      } else {
        assert v * f.den == f.num * ValueSteps;
      }
    }
  }

  /** UnityEngine.Random: a single global generator, here an injected stream of draws and the
      number of draws taken so far. Each call takes the next draw. */
  class Random {
    const stream: nat -> nat
    var drawn: nat

    constructor (stream: nat -> nat)
      ensures this.stream == stream && drawn == 0
    {
      this.stream := stream;
      drawn := 0;
    }

    /** Random.Range(lo, hi) for ints: a value in [lo, hi). */
    method Range(lo: int, hi: int) returns (x: int)
      requires lo < hi
      modifies this
      ensures lo <= x < hi
      ensures x == RangeDraw(stream, old(drawn), lo, hi) && drawn == old(drawn) + 1
    {
      x := RangeDraw(stream, drawn, lo, hi);
      drawn := drawn + 1;
    }

    /** A float Random.Range draw whose value the model does not follow (the noise offset). */
    method Discard()
      modifies this
      ensures drawn == old(drawn) + 1
    {
      drawn := drawn + 1;
    }

    /** Random.value: a value in [0, ValueSteps], read as a float in [0, 1]. */
    method Value() returns (v: nat)
      modifies this
      ensures v <= ValueSteps
      ensures v == ValueDraw(stream, old(drawn)) && drawn == old(drawn) + 1
    {
      v := ValueDraw(stream, drawn);
      drawn := drawn + 1;
    }
  }

  /** The list with the entries at i and j exchanged. */
  function Swap<T>(s: seq<T>, i: nat, j: nat): (t: seq<T>)
    requires i < |s| && j < |s|
    ensures |t| == |s|
    ensures t[i] == s[j] && t[j] == s[i]
    ensures forall k :: 0 <= k < |s| && k != i && k != j ==> t[k] == s[k]
  {
    s[i := s[j]][j := s[i]]
  }

  /** The list after Fisher–Yates steps i, i+1, ..., |s|-1, where step i swaps entry i with
      entry Random.Range(i, |s|), drawing from stream position k onwards. */
  function ShuffleFrom<T>(s: seq<T>, i: nat, stream: nat -> nat, k: nat): (t: seq<T>)
    requires i <= |s|
    ensures |t| == |s|
    decreases |s| - i
  {
    if i == |s| then s
    else
      var j := RangeDraw(stream, k, i, |s|);
      ShuffleFrom(Swap(s, i, j), i + 1, stream, k + 1)
  }

  /** Fisher–Yates permutes the list and never touches the entries already settled. */
  lemma {:induction false} ShufflePermutes<T>(s: seq<T>, i: nat, stream: nat -> nat, k: nat)
    requires i <= |s|
    ensures multiset(ShuffleFrom(s, i, stream, k)) == multiset(s)
    ensures ShuffleFrom(s, i, stream, k)[..i] == s[..i]
    decreases |s| - i
  {
    if i < |s| {
      var j := RangeDraw(stream, k, i, |s|);
      ShufflePermutes(Swap(s, i, j), i + 1, stream, k + 1);
      SwapPermutes(s, i, j);
    }
  }

  /** A swap permutes the list and keeps the entries before both positions. */
  lemma SwapPermutes<T>(s: seq<T>, i: nat, j: nat)
    requires i <= j < |s|
    ensures multiset(Swap(s, i, j)) == multiset(s)
    ensures Swap(s, i, j)[..i] == s[..i]
  {
    assert Swap(s, i, j) == s[i := s[j]][j := s[i]];
  }

  /** A shuffled list keeps its elements, and a list of distinct keys stays one. */
  lemma ShuffleKeepsKeys<T>(s: seq<T>, stream: nat -> nat, k: nat)
    ensures Elems(ShuffleFrom(s, 0, stream, k)) == Elems(s)
    ensures NoDups(s) ==> NoDups(ShuffleFrom(s, 0, stream, k))
  {
    ShufflePermutes(s, 0, stream, k);
    PermutationKeepsElems(s, ShuffleFrom(s, 0, stream, k));
  }

  /** The in-place Fisher–Yates loop over a list, as both generation stages write it. */
  method Shuffle<T>(a: array<T>, rng: Random)
    modifies a, rng
    ensures a[..] == ShuffleFrom(old(a[..]), 0, rng.stream, old(rng.drawn))
    ensures rng.drawn == old(rng.drawn) + a.Length
  {
    ghost var stream, start := rng.stream, rng.drawn;
    ghost var cur := a[..];
    ghost var target := ShuffleFrom(cur, 0, stream, start);
    ghost var k := start;
    for i := 0 to a.Length
      invariant k == start + i && rng.drawn == k
      invariant a[..] == cur && |cur| == a.Length
      invariant ShuffleFrom(cur, i, stream, k) == target
    {
      ghost var j := RangeDraw(stream, k, i, a.Length);
      ShuffleStep(cur, i, stream, k, j, target);
      SwapWithDraw(a, i, rng);
      cur, k := Swap(cur, i, j), k + 1;
    }
  }

  /** One Fisher–Yates step: draw a position in [i, a.Length) and swap entry i with it. */
  method SwapWithDraw<T>(a: array<T>, i: nat, rng: Random)
    requires i < a.Length
    modifies a, rng
    ensures a[..] == Swap(old(a[..]), i, RangeDraw(rng.stream, old(rng.drawn), i, a.Length))
    ensures rng.drawn == old(rng.drawn) + 1
  {
    var j := rng.Range(i, a.Length);
    SwapEntries(a, i, j);
  }

  /** The swap of one Fisher–Yates step, through a temporary. */
  method SwapEntries<T>(a: array<T>, i: nat, j: nat)
    requires i < a.Length && j < a.Length
    modifies a
    ensures a[..] == Swap(old(a[..]), i, j)
  {
    var tmp := a[i];
    a[i] := a[j];
    a[j] := tmp;
  }

  /** One Fisher–Yates step: swap entry i with the drawn position, then shuffle the rest. */
  lemma ShuffleStep<T>(s: seq<T>, i: nat, stream: nat -> nat, k: nat, j: nat, target: seq<T>)
    requires i < |s| && j == RangeDraw(stream, k, i, |s|)
    requires ShuffleFrom(s, i, stream, k) == target
    ensures ShuffleFrom(Swap(s, i, j), i + 1, stream, k + 1) == target
  {
  }
}
