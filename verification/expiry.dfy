/** Fixed-offset expiry stamps: `now + value * unit`, all in unix seconds.
    The helper that the user and queued-user schemas call is not part of
    this model; its behaviour here is the one their tests pin down, with
    `now` in seconds passed in by the caller. */
module Expiry {

  datatype Unit = Seconds | Minutes | Hours | Days | Weeks

  function UnitSeconds(u: Unit): (r: int)
    ensures r > 0
  {
    match u
    case Seconds => 1
    case Minutes => 60
    case Hours => 60 * 60
    case Days => 24 * 60 * 60
    case Weeks => 7 * 24 * 60 * 60
  }

  /** An offset as the schemas declare it: `{ value, unit }`. */
  datatype Offset = Offset(value: int, unit: Unit)

  function Seconds(o: Offset): int {
    o.value * UnitSeconds(o.unit)
  }

  /** The stamp `now + offset`: later than `now` by exactly the offset, so a
      later clock gives a later stamp. */
  function OffsetExpiry(now: int, o: Offset): (r: int)
    ensures r - now == Seconds(o)
    ensures o.value >= 0 ==> r >= now
  {
    now + o.value * UnitSeconds(o.unit)
  }

  /** The three offsets the schemas use, at `now = 0`. */
  lemma OffsetExamples()
    ensures OffsetExpiry(0, Offset(2, Hours)) == 7200
    ensures OffsetExpiry(0, Offset(5, Minutes)) == 300
    ensures OffsetExpiry(0, Offset(2, Weeks)) == 1209600
  {
  }
}
