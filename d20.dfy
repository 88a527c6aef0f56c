/**
 * The d20 arithmetic that the skill-check page, the hit-rate page and the
 * animate-objects page all compute inline: a roll of a twenty-sided die
 * succeeds when its face reaches a threshold, and the chance is clamped so
 * that a natural 1 always fails and a natural 20 always succeeds.
 */
module D20 {

  function Min(a: real, b: real): real { if a <= b then a else b }

  function Max(a: real, b: real): real { if a >= b then a else b }

  /** `Math.min(Math.max(x, lo), hi)`. */
  function Clamp(x: real, lo: real, hi: real): (r: real)
    requires lo <= hi
    ensures lo <= r <= hi
    ensures lo <= x <= hi ==> r == x
    ensures x < lo ==> r == lo
    ensures x > hi ==> r == hi
  {
    Min(Max(x, lo), hi)
  }

  /** The chance that one d20 roll reaches `threshold` (the target value minus
      the modifier): `clamp((21 - threshold) / 20, 0.05, 0.95)`. */
  function Chance(threshold: int): (r: real)
    ensures 0.05 <= r <= 0.95
    ensures 2 <= threshold <= 20 ==> r == (21 - threshold) as real / 20.0
  {
    Clamp((21 - threshold) as real / 20.0, 0.05, 0.95)
  }

  lemma ChanceAntitone(t1: int, t2: int)
    requires t1 <= t2
    ensures Chance(t1) >= Chance(t2)
  {
  }

  /** The attack-roll rule for one face: a natural 20 always succeeds, a
      natural 1 always fails, any other face succeeds when it reaches the
      threshold. */
  predicate FaceSucceeds(face: int, threshold: int)
  {
    face == 20 || (face != 1 && face >= threshold)
  }

  /** The number of faces `from`..20 that succeed under `FaceSucceeds`. */
  function SucceedingFaces(from: int, threshold: int): (n: nat)
    requires 1 <= from <= 21
    ensures n <= 21 - from
    decreases 21 - from
  {
    if from == 21 then 0
    else (if FaceSucceeds(from, threshold) then 1 else 0) + SucceedingFaces(from + 1, threshold)
  }

  lemma {:induction false} SucceedingFacesAbove(from: int, threshold: int)
    requires 2 <= from <= 21
    ensures SucceedingFaces(from, threshold) ==
      if from == 21 then 0
      else if threshold <= from then 21 - from
      else if threshold <= 20 then 21 - threshold
      else 1
    decreases 21 - from
  {
    if from < 21 {
      SucceedingFacesAbove(from + 1, threshold);
    }
  }

  /** The clamped formula is exactly the fraction of the twenty equally likely
      faces that succeed under the natural-1 / natural-20 rule. */
  lemma ChanceCountsFaces(threshold: int)
    ensures Chance(threshold) == SucceedingFaces(1, threshold) as real / 20.0
  {
    SucceedingFacesAbove(2, threshold);
    assert SucceedingFaces(1, threshold) == SucceedingFaces(2, threshold);
  }
}
