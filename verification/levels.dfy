/** The 1..10 intensity knob shared by the design and content engines. */
module Levels {
  const MinLevel: int := 1
  const MaxLevel: int := 10

  /** `max(1, min(10, level))`: out-of-range levels are clamped, never rejected. */
  function ClampLevel(level: int): (r: int)
    ensures MinLevel <= r <= MaxLevel
    ensures MinLevel <= level <= MaxLevel ==> r == level
    ensures level < MinLevel ==> r == MinLevel
    ensures level > MaxLevel ==> r == MaxLevel
  {
    if level < MinLevel then MinLevel else if level > MaxLevel then MaxLevel else level
  }

  /** Clamping twice is clamping once. */
  lemma ClampIdempotent(level: int)
    ensures ClampLevel(ClampLevel(level)) == ClampLevel(level)
  {
  }
}
