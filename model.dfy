/** The timer's value record and the pieces both timer screens share: the
    remaining-time label, the slider ranges and the hours/minutes/seconds sum. */
module Model {

  /** What a seconds label shows: an integer, "DONE!", or the empty text.
      `Int(text)` succeeds exactly on `Num`. */
  datatype Label = Num(n: int) | Done | Empty

  /** The sliders run over 0..24 hours, 0..60 minutes and 0..60 seconds. */
  const MaxHours: nat := 24
  const MaxMinutes: nat := 60
  const MaxSeconds: nat := 60

  predicate SlidersInRange(h: nat, m: nat, s: nat) {
    h <= MaxHours && m <= MaxMinutes && s <= MaxSeconds
  }

  /** The countdown length in seconds that a start computes from the sliders. */
  function TotalSeconds(h: nat, m: nat, s: nat): (t: nat)
    requires SlidersInRange(h, m, s)
    ensures t <= MaxHours * 3600 + MaxMinutes * 60 + MaxSeconds
    ensures t == 0 <==> h == 0 && m == 0 && s == 0
    ensures h * 3600 <= t && m * 60 <= t && s <= t
  {
    h * 3600 + m * 60 + s
  }

  /** The fraction of the countdown that has elapsed, as an exact ratio. */
  function Progress(passed: int, total: int): (p: real)
    requires 0 <= passed <= total && 0 < total
    ensures 0.0 <= p <= 1.0
    ensures p == 0.0 <==> passed == 0
    ensures p == 1.0 <==> passed == total
  {
    var p := passed as real / total as real;
    assert p * total as real == passed as real;
    p
  }

  /** The presenter's state record; every field defaults to zero. */
  datatype TimerData = TimerData(
    totalTime: int := 0,
    secondsPassed: int := 0,
    progressState: real := 0.0,
    secondsLeft: int := 0)

  /** The bound every tick preserves: elapsed time never exceeds the total. */
  predicate Bounded(d: TimerData) {
    0 <= d.secondsPassed <= d.totalTime
  }

  /** A fresh record is all zeros, satisfies the bound, and its zero
      `secondsLeft` makes the first start show the total. */
  lemma FreshRecord()
    ensures TimerData().totalTime == 0 && TimerData().secondsPassed == 0
    ensures TimerData().progressState == 0.0 && TimerData().secondsLeft == 0
    ensures Bounded(TimerData())
  {
  }
}
