/** The "ending soon" rule shared, in identical copies, by both API routes:
    an entity qualifies when it ends no earlier than now and at most seven
    days from now. Timestamps are integer milliseconds; the evaluation instant
    `now` is a parameter instead of the server clock. */
module Deadline {

  const MillisPerDay: int := 1000 * 60 * 60 * 24

  /** `(end.getTime() - now.getTime()) / (1000 * 60 * 60 * 24)`, as exact real division. */
  function DaysUntilEnd(end: int, now: int): real
  {
    (end - now) as real / MillisPerDay as real
  }

  /** `isEndingSoon`: `daysUntilEnd >= 0 && daysUntilEnd <= 7`. */
  predicate IsEndingSoon(end: int, now: int)
  {
    0.0 <= DaysUntilEnd(end, now) <= 7.0
  }

  /** The rule in milliseconds: already-ended entities fail, and so do those
      more than seven whole days away. */
  lemma EndingSoonWindow(end: int, now: int)
    ensures IsEndingSoon(end, now) <==> 0 <= end - now <= 7 * MillisPerDay
  {
  }

  /** The boundary cases: exactly seven days qualifies, 7.01 days and
      -0.01 days (already ended) do not, and ending right now qualifies. */
  lemma EndingSoonBoundaries(now: int)
    ensures IsEndingSoon(now + 7 * MillisPerDay, now)
    ensures !IsEndingSoon(now + 7 * MillisPerDay + MillisPerDay / 100, now)
    ensures !IsEndingSoon(now - MillisPerDay / 100, now)
    ensures IsEndingSoon(now, now)
  {
    EndingSoonWindow(now + 7 * MillisPerDay, now);
    EndingSoonWindow(now + 7 * MillisPerDay + MillisPerDay / 100, now);
    EndingSoonWindow(now - MillisPerDay / 100, now);
  }
}
