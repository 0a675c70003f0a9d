/** The older storyboard timer screen: a view controller that keeps the total,
    the elapsed seconds and a pause snapshot in its own fields, and reads the
    three sliders when Start is pressed. Its sliders are never locked. */
module Storyboard {
  import opened Model

  /** The pause snapshot: elapsed seconds, progress and label text. */
  datatype Snapshot = Snapshot(passed: int, progress: real, text: Label)

  /** The cleared snapshot `(0, 0.0, "")`. */
  const NoSnapshot := Snapshot(0, 0.0, Empty)

  /** One slider and the label beside it that echoes its value. */
  datatype SliderRow = SliderRow(value: nat, shown: Label)

  datatype VcState = VcState(
    totalTime: int,
    secondsPassed: int,
    savedData: Snapshot,
    /** A scheduled timer that has not been invalidated. */
    ticking: bool,
    /** The remaining-time label and the progress bar. */
    totalLabel: Label,
    progress: real,
    hours: SliderRow,
    minutes: SliderRow,
    seconds: SliderRow)

  /** What every reachable state satisfies; note that it does NOT include
      `secondsPassed <= totalTime` (see `ResetPauseStart`). */
  predicate Sane(s: VcState) {
    && 0 <= s.totalTime
    && 0 <= s.secondsPassed
    && 0 <= s.savedData.passed
    && SlidersInRange(s.hours.value, s.minutes.value, s.seconds.value)
  }

  function SliderTotal(s: VcState): nat
    requires Sane(s)
  {
    TotalSeconds(s.hours.value, s.minutes.value, s.seconds.value)
  }

  /** A timer firing either completes, or traps on the force-unwrap of
      `Int(label)` when the label does not hold an integer. */
  datatype TickOutcome = Ticked(next: VcState) | Trapped

  /** One firing of the timer. While time remains it counts one second, updates
      the bar and lowers the label by one; otherwise it stops the timer, shows
      "DONE!" and clears the snapshot. */
  function Tick(s: VcState): (r: TickOutcome)
    requires Sane(s)
    ensures r.Trapped? <==> s.secondsPassed < s.totalTime && !s.totalLabel.Num?
    ensures r.Ticked? ==>
      && Sane(r.next)
      && r.next.totalTime == s.totalTime
      && s.secondsPassed <= r.next.secondsPassed
      && (s.secondsPassed <= s.totalTime ==> r.next.secondsPassed <= r.next.totalTime)
      && r.next.(secondsPassed := s.secondsPassed, savedData := s.savedData, ticking := s.ticking,
                 totalLabel := s.totalLabel, progress := s.progress) == s
    ensures s.secondsPassed < s.totalTime && s.totalLabel.Num? ==>
      && r.Ticked?
      && r.next.secondsPassed == s.secondsPassed + 1
      && r.next.totalLabel == Num(s.totalLabel.n - 1)
      && r.next.progress == Progress(r.next.secondsPassed, s.totalTime)
      && 0.0 < r.next.progress <= 1.0
      && r.next.savedData == s.savedData && r.next.ticking == s.ticking
    ensures s.totalTime <= s.secondsPassed ==>
      r == Ticked(s.(ticking := false, totalLabel := Done, savedData := NoSnapshot))
  {
    if s.secondsPassed < s.totalTime then
      match s.totalLabel
      case Num(left) =>
        var passed := s.secondsPassed + 1;
        Ticked(s.(secondsPassed := passed, progress := Progress(passed, s.totalTime),
                  totalLabel := Num(left - 1)))
      case _ => Trapped
    else
      Ticked(s.(ticking := false, totalLabel := Done, savedData := NoSnapshot))
  }

  /** A slider moved: its label echoes the new value and the snapshot is
      cleared; nothing else changes. */
  function SetHours(s: VcState, v: nat): (r: VcState)
    requires v <= MaxHours
    ensures r.hours.value == v && r.savedData == NoSnapshot
    ensures r.(hours := s.hours, savedData := s.savedData) == s
  {
    s.(hours := SliderRow(v, Num(v)), savedData := NoSnapshot)
  }

  function SetMinutes(s: VcState, v: nat): (r: VcState)
    requires v <= MaxMinutes
    ensures r.minutes.value == v && r.savedData == NoSnapshot
    ensures r.(minutes := s.minutes, savedData := s.savedData) == s
  {
    s.(minutes := SliderRow(v, Num(v)), savedData := NoSnapshot)
  }

  function SetSeconds(s: VcState, v: nat): (r: VcState)
    requires v <= MaxSeconds
    ensures r.seconds.value == v && r.savedData == NoSnapshot
    ensures r.(seconds := s.seconds, savedData := s.savedData) == s
  {
    s.(seconds := SliderRow(v, Num(v)), savedData := NoSnapshot)
  }

  /** Start: replace any scheduled timer by a new one, take the total from the
      sliders, and restore elapsed seconds, bar and label from the snapshot
      (the total is shown when the snapshot's label is empty). */
  function Start(s: VcState): (r: VcState)
    requires Sane(s)
    ensures Sane(r) && r.ticking
    ensures r.totalTime == SliderTotal(s)
    ensures r.secondsPassed == s.savedData.passed && r.progress == s.savedData.progress
    ensures r.totalLabel == if s.savedData.text == Empty then Num(r.totalTime) else s.savedData.text
    ensures r.savedData == s.savedData
    ensures r.hours == s.hours && r.minutes == s.minutes && r.seconds == s.seconds
    ensures r.secondsPassed <= r.totalTime <==> s.savedData.passed <= SliderTotal(s)
  {
    var total := SliderTotal(s);
    var saved := s.savedData;
    s.(ticking := true, totalTime := total, secondsPassed := saved.passed,
       progress := saved.progress,
       totalLabel := if saved.text == Empty then Num(total) else saved.text)
  }

  /** Pause: stops the timer and snapshots elapsed seconds, bar and label. */
  function Pause(s: VcState): (r: VcState)
    ensures !r.ticking
    ensures r.savedData == Snapshot(s.secondsPassed, s.progress, s.totalLabel)
    ensures r.(ticking := s.ticking, savedData := s.savedData) == s
  {
    s.(ticking := false, savedData := Snapshot(s.secondsPassed, s.progress, s.totalLabel))
  }

  /** Reset: stops the timer, clears the snapshot, puts every slider and its
      label at 0 and blanks the label and bar; total and elapsed seconds stay. */
  function Reset(s: VcState): (r: VcState)
    ensures !r.ticking && r.savedData == NoSnapshot
    ensures r.hours == r.minutes == r.seconds == SliderRow(0, Num(0))
    ensures r.totalLabel == Empty && r.progress == 0.0
    ensures r.totalTime == s.totalTime && r.secondsPassed == s.secondsPassed
    ensures Sane(s) ==> Sane(r)
  {
    VcState(s.totalTime, s.secondsPassed, NoSnapshot, false, Empty, 0.0,
            SliderRow(0, Num(0)), SliderRow(0, Num(0)), SliderRow(0, Num(0)))
  }

  /** `n` successive firings, stopping at a trap. */
  function Run(s: VcState, n: nat): (r: TickOutcome)
    requires Sane(s)
    ensures r.Ticked? ==> Sane(r.next) && r.next.totalTime == s.totalTime
    ensures r.Ticked? ==> s.secondsPassed <= r.next.secondsPassed
    decreases n
  {
    if n == 0 then Ticked(s)
    else match Tick(s)
      case Trapped => Trapped
      case Ticked(t) => Run(t, n - 1)
  }

  /** While time remains, each firing adds one second and takes one off the
      label, and the snapshot and timer are left alone. */
  lemma {:induction false} CountingRun(s: VcState, k: nat)
    requires Sane(s) && s.totalLabel.Num?
    requires s.secondsPassed + k <= s.totalTime
    ensures Run(s, k).Ticked?
    ensures Run(s, k).next.secondsPassed == s.secondsPassed + k
    ensures Run(s, k).next.totalLabel == Num(s.totalLabel.n - k)
    ensures Run(s, k).next.savedData == s.savedData
    ensures Run(s, k).next.ticking == s.ticking
    decreases k
  {
    if k > 0 {
      CountingRun(Tick(s).next, k - 1);
    }
  }

  /** Firing `m` times then once more is firing `m + 1` times. */
  lemma {:induction false} RunOneMore(s: VcState, m: nat)
    requires Sane(s) && Run(s, m).Ticked?
    ensures Run(s, m + 1) == Tick(Run(s, m).next)
    decreases m
  {
    if m > 0 {
      RunOneMore(Tick(s).next, m - 1);
    }
  }

  /** With the snapshot cleared (after a reset or any slider change), a start
      counts down all T seconds of the sliders: firing T leaves T elapsed
      seconds and a label of 0, and firing T+1 shows "DONE!", stops the timer
      and clears the snapshot. */
  lemma CountdownFromCleared(s: VcState)
    requires Sane(s) && s.savedData == NoSnapshot
    ensures var t, total := Start(s), SliderTotal(s);
      && Run(t, total).Ticked?
      && Run(t, total).next.secondsPassed == total
      && Run(t, total).next.totalLabel == Num(0)
      && Run(t, total).next.ticking
      && Run(t, total + 1).Ticked?
      && Run(t, total + 1).next.totalLabel == Done
      && !Run(t, total + 1).next.ticking
      && Run(t, total + 1).next.savedData == NoSnapshot
  {
    var t, total := Start(s), SliderTotal(s);
    CountingRun(t, total);
    RunOneMore(t, total);
  }

  /** Pausing and starting again with the sliders where the running countdown
      got its total resumes exactly where it stopped, snapshot aside. */
  lemma PauseResume(s: VcState)
    requires Sane(s) && s.ticking && SliderTotal(s) == s.totalTime
    requires s.totalLabel != Empty
    ensures Start(Pause(s)) == s.(savedData := Snapshot(s.secondsPassed, s.progress, s.totalLabel))
  {
  }

  /** Reset keeps the elapsed seconds, so pausing after a reset snapshots them;
      the next start then has a total of 0 below the elapsed seconds, shows
      "0", and the next firing shows "DONE!". */
  lemma ResetPauseStart(s: VcState)
    requires Sane(s) && 0 < s.secondsPassed
    ensures var r := Start(Pause(Reset(s)));
      && r.totalTime == 0 < r.secondsPassed == s.secondsPassed
      && r.totalLabel == Num(0)
      && Tick(r) == Ticked(r.(ticking := false, totalLabel := Done, savedData := NoSnapshot))
  {
  }

  /** A countdown that finished can be pause-snapshotted with "DONE!" as its
      label; if the sliders then give a longer total, the start restores
      "DONE!" with time remaining, and the next firing traps. */
  lemma ResumeOnDoneTraps(s: VcState)
    requires Sane(s) && s.totalLabel == Done && s.secondsPassed < SliderTotal(s)
    ensures Tick(Start(Pause(s))) == Trapped
  {
  }

  /** A concrete run that reaches that trap: a 1-second countdown, the seconds
      slider moved to 2 while it runs, the countdown finishes, then Pause,
      Start and one firing. */
  lemma SliderMovedMidRunTraps(s0: VcState)
    requires Sane(s0) && s0.savedData == NoSnapshot
    requires s0.hours.value == 0 && s0.minutes.value == 0 && s0.seconds.value == 1
    ensures var a := Start(s0);
      && Tick(a).Ticked?
      && var b := SetSeconds(Tick(a).next, 2);
      && Tick(b).Ticked? && Tick(b).next.totalLabel == Done
      && Tick(Start(Pause(Tick(b).next))) == Trapped
  {
  }

  /** The view controller object. The storyboard's initial label text, bar and
      slider positions are given to the constructor. */
  class ViewController {
    var totalTime: int
    var secondsPassed: int
    var savedData: Snapshot
    var ticking: bool
    var totalLabel: Label
    var progress: real
    var hoursSlider: SliderRow
    var minutesSlider: SliderRow
    var secondsSlider: SliderRow

    function State(): VcState
      reads this
    {
      VcState(totalTime, secondsPassed, savedData, ticking, totalLabel, progress,
              hoursSlider, minutesSlider, secondsSlider)
    }

    ghost predicate Valid()
      reads this
    {
      Sane(State())
    }

    constructor (shown: Label, bar: real, hours: SliderRow, minutes: SliderRow, seconds: SliderRow)
      requires SlidersInRange(hours.value, minutes.value, seconds.value)
      ensures Valid()
      ensures State() == VcState(0, 0, NoSnapshot, false, shown, bar, hours, minutes, seconds)
    {
      totalTime := 0;
      secondsPassed := 0;
      savedData := NoSnapshot;
      ticking := false;
      totalLabel := shown;
      progress := bar;
      hoursSlider, minutesSlider, secondsSlider := hours, minutes, seconds;
    }

    /** The timer's callback; only a scheduled timer fires. On a trap the
        process ends, so the fields are left unspecified. */
    method UpdateTimer() returns (trapped: bool)
      requires Valid() && ticking
      modifies this
      ensures trapped <==> Tick(old(State())).Trapped?
      ensures !trapped ==> Valid() && State() == Tick(old(State())).next
    {
      trapped := false;
      if secondsPassed < totalTime {
        secondsPassed := secondsPassed + 1;
        progress := Progress(secondsPassed, totalTime);
        if !totalLabel.Num? {
          trapped := true;
          return;
        }
        totalLabel := Num(totalLabel.n - 1);
      } else {
        ticking := false;
        totalLabel := Done;
        savedData := NoSnapshot;
      }
    }

    method HoursChanged(v: nat)
      requires Valid() && v <= MaxHours
      modifies this
      ensures Valid() && State() == SetHours(old(State()), v)
    {
      hoursSlider := SliderRow(v, Num(v));
      savedData := NoSnapshot;
    }

    method MinutesChanged(v: nat)
      requires Valid() && v <= MaxMinutes
      modifies this
      ensures Valid() && State() == SetMinutes(old(State()), v)
    {
      minutesSlider := SliderRow(v, Num(v));
      savedData := NoSnapshot;
    }

    method SecondsChanged(v: nat)
      requires Valid() && v <= MaxSeconds
      modifies this
      ensures Valid() && State() == SetSeconds(old(State()), v)
    {
      secondsSlider := SliderRow(v, Num(v));
      savedData := NoSnapshot;
    }

    method StartButtonPressed()
      requires Valid()
      modifies this
      ensures Valid() && State() == Start(old(State()))
    {
      ticking := false;
      totalTime := TotalSeconds(hoursSlider.value, minutesSlider.value, secondsSlider.value);
      totalLabel := Num(totalTime);
      secondsPassed := savedData.passed;
      progress := savedData.progress;
      totalLabel := if savedData.text == Empty then Num(totalTime) else savedData.text;
      ticking := true;
    }

    method PauseButtonPressed()
      requires Valid()
      modifies this
      ensures Valid() && State() == Pause(old(State()))
    {
      ticking := false;
      savedData := savedData.(passed := secondsPassed);
      savedData := savedData.(progress := progress);
      savedData := savedData.(text := totalLabel);
    }

    method ResetButtonPressed()
      requires Valid()
      modifies this
      ensures Valid() && State() == Reset(old(State()))
    {
      ticking := false;
      savedData := NoSnapshot;
      hoursSlider := SliderRow(0, Num(0));
      minutesSlider := SliderRow(0, Num(0));
      secondsSlider := SliderRow(0, Num(0));
      totalLabel := Empty;
      progress := 0.0;
    }
  }
}
