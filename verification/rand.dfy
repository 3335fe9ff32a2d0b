/**
 * The engines' `random.Random` instance, seen as a stream of draws.
 * Draw number `i` of a generator is `rand(i)`; every call of `choice`, `randint`
 * or `random()` consumes exactly one draw, so a generator seeded with the same seed
 * is the same stream and replays the same choices.
 */
module Rand {
  /** An infinite stream of raw draws, fixed by the seed. */
  type Stream = nat -> nat

  /** `choice(xs)`: one element of a non-empty list. */
  function Choice<T>(xs: seq<T>, d: nat): (r: T)
    requires |xs| > 0
    ensures r in xs
  {
    xs[d % |xs|]
  }

  /** `randint(lo, hi)`: an integer in the closed range [lo, hi]. */
  function RandInt(lo: int, hi: int, d: nat): (r: int)
    requires lo <= hi
    ensures lo <= r <= hi
  {
    lo + d % (hi - lo + 1)
  }

  /**
   * `random() < perMille / 1000`: the float in [0, 1) is read at a resolution of
   * one thousandth, which decides every threshold the engines use exactly.
   */
  predicate Below(d: nat, perMille: int)
  {
    d % 1000 < perMille
  }

  /** Every element of the list is the outcome of some draw, and every range value too. */
  lemma ChoiceReachesAll<T>(xs: seq<T>, i: nat)
    requires i < |xs|
    ensures Choice(xs, i) == xs[i]
  {
  }

  lemma RandIntReachesAll(lo: int, hi: int, v: int)
    requires lo <= v <= hi
    ensures RandInt(lo, hi, (v - lo) as nat) == v
  {
  }

  /** A threshold of zero never fires and one of 1000 always fires. */
  lemma BelowBounds(d: nat, perMille: int)
    ensures perMille <= 0 ==> !Below(d, perMille)
    ensures perMille >= 1000 ==> Below(d, perMille)
  {
  }
}
