/** Instants are integer microseconds since the UTC epoch, KST calendar days are integer
    day numbers. KST is a fixed nine hours ahead of UTC. */
module KstTime {

  const DAY := 86_400_000_000
  const KST_OFFSET := 32_400_000_000
  const MINUTE := 60_000_000

  /** The KST calendar day of an instant. */
  function DateKst(t: int): int {
    (t + KST_OFFSET) / DAY
  }

  /** The instant at which a KST day begins. */
  function DayStart(d: int): int {
    d * DAY - KST_OFFSET
  }

  /** A half-open window of instants. */
  datatype Window = Window(start: int, end: int) {
    predicate Contains(t: int) { start <= t < end }
  }

  /** Each instant belongs to the day between two midnights and to no other. */
  lemma {:induction false} DayHoldsItsInstants(t: int, d: int)
    ensures DateKst(t) == d <==> DayStart(d) <= t < DayStart(d + 1)
  {
  }

  lemma {:induction false} DateKstMonotone(t: int, u: int)
    requires t <= u
    ensures DateKst(t) <= DateKst(u)
  {
  }

  /** KST midnight of a day is 15:00 UTC of the day before, and a day is 24 hours of 60 minutes. */
  lemma {:induction false} KstIsNineHoursAhead(d: int)
    ensures DayStart(d) == (d - 1) * 24 * 3_600_000_000 + 15 * 3_600_000_000
    ensures DayStart(d + 1) == DayStart(d) + 24 * 60 * MINUTE && MINUTE == 60 * 1_000_000
  {
  }
}
