/** The newer timer screen: a presenter that keeps a `TimerData` record and
    drives the time-left label and progress bar of its view. The scheduled
    one-second timer is the `ticking` flag; each firing is one `Tick`. */
module Presenter {
  import opened Model

  /** Everything the presenter reads or writes: its record, whether its timer
      is scheduled, and the view's time-left label and progress bar. */
  datatype PresenterState = PresenterState(
    data: TimerData,
    ticking: bool,
    timeLeft: Label,
    progress: real)

  /** One firing of the timer. While time remains it counts one second,
      updates the progress bar and, when the label holds an integer, lowers it
      by one; otherwise it stops the timer and shows "DONE!". */
  function Tick(s: PresenterState): (r: PresenterState)
    requires Bounded(s.data)
    ensures Bounded(r.data)
    ensures s.data.secondsPassed <= r.data.secondsPassed
    ensures r.data == s.data.(secondsPassed := r.data.secondsPassed)
    ensures s.data.secondsPassed < s.data.totalTime ==>
      && 1 <= s.data.totalTime
      && r.data.secondsPassed == s.data.secondsPassed + 1
      && r.ticking == s.ticking
      && 0.0 < r.progress <= 1.0
      && r.progress == Progress(r.data.secondsPassed, r.data.totalTime)
      && (s.timeLeft.Num? ==> r.timeLeft == Num(s.timeLeft.n - 1))
      && (!s.timeLeft.Num? ==> r.timeLeft == s.timeLeft)
    ensures s.data.secondsPassed == s.data.totalTime ==>
      r == s.(ticking := false, timeLeft := Done)
  {
    if s.data.secondsPassed < s.data.totalTime then
      var passed := s.data.secondsPassed + 1;
      var shown := if s.timeLeft.Num? then Num(s.timeLeft.n - 1) else s.timeLeft;
      PresenterState(s.data.(secondsPassed := passed), s.ticking, shown,
                     Progress(passed, s.data.totalTime))
    else
      s.(ticking := false, timeLeft := Done)
  }

  /** Start or resume: replace any scheduled timer by a new one, take the total
      from the sliders, keep the elapsed seconds, restore the saved progress,
      and show the saved seconds left, or the total when none were saved. */
  function Start(s: PresenterState, hours: nat, minutes: nat, seconds: nat): (r: PresenterState)
    requires SlidersInRange(hours, minutes, seconds)
    ensures r.ticking
    ensures r.data == s.data.(totalTime := TotalSeconds(hours, minutes, seconds))
    ensures r.progress == s.data.progressState
    ensures s.data.secondsLeft == 0 ==> r.timeLeft == Num(r.data.totalTime)
    ensures s.data.secondsLeft != 0 ==> r.timeLeft == Num(s.data.secondsLeft)
    ensures Bounded(r.data) <==> 0 <= s.data.secondsPassed <= TotalSeconds(hours, minutes, seconds)
  {
    var total := TotalSeconds(hours, minutes, seconds);
    var shown := if s.data.secondsLeft == 0 then total else s.data.secondsLeft;
    PresenterState(s.data.(totalTime := total), true, Num(shown), s.data.progressState)
  }

  /** Pause: always stops the timer; saves the progress and the label's seconds
      into the record only when the label holds an integer. */
  function Pause(s: PresenterState): (r: PresenterState)
    ensures !r.ticking
    ensures r.timeLeft == s.timeLeft && r.progress == s.progress
    ensures s.timeLeft.Num? ==>
      r.data == s.data.(progressState := s.progress, secondsLeft := s.timeLeft.n)
    ensures !s.timeLeft.Num? ==> r.data == s.data
  {
    match s.timeLeft
    case Num(left) =>
      s.(ticking := false, data := s.data.(progressState := s.progress, secondsLeft := left))
    case _ =>
      s.(ticking := false)
  }

  /** Reset: stops the timer and returns every field of the record except the
      total to its default; the view's label and bar are not the presenter's
      to clear. */
  function Reset(s: PresenterState): (r: PresenterState)
    ensures !r.ticking
    ensures r.data == TimerData(totalTime := s.data.totalTime)
    ensures Bounded(r.data) <==> 0 <= s.data.totalTime
    ensures r.timeLeft == s.timeLeft && r.progress == s.progress
  {
    PresenterState(s.data.(secondsPassed := 0, progressState := 0.0, secondsLeft := 0),
                   false, s.timeLeft, s.progress)
  }

  /** `n` successive firings of the timer. */
  function Ticks(s: PresenterState, n: nat): (r: PresenterState)
    requires Bounded(s.data)
    ensures Bounded(r.data)
    ensures r.data.totalTime == s.data.totalTime
    ensures s.data.secondsPassed <= r.data.secondsPassed
    decreases n
  {
    if n == 0 then s else Ticks(Tick(s), n - 1)
  }

  /** While time remains, each firing keeps the timer running, adds one second
      and takes one off an integer label. */
  lemma {:induction false} CountingTicks(s: PresenterState, k: nat)
    requires Bounded(s.data) && s.ticking && s.timeLeft.Num?
    requires s.data.secondsPassed + k <= s.data.totalTime
    ensures Ticks(s, k).data == s.data.(secondsPassed := s.data.secondsPassed + k)
    ensures Ticks(s, k).ticking
    ensures Ticks(s, k).timeLeft == Num(s.timeLeft.n - k)
    ensures 0 < k ==> Ticks(s, k).progress == Progress(s.data.secondsPassed + k, s.data.totalTime)
    decreases k
  {
    if k > 0 {
      CountingTicks(Tick(s), k - 1);
    }
  }

  /** A running countdown whose label shows the seconds left shows T-k after k
      more firings for every k up to the T seconds left, and only the firing
      after those shows "DONE!" and stops the timer. */
  lemma Countdown(t: PresenterState)
    requires Bounded(t.data) && t.ticking
    requires t.timeLeft == Num(t.data.totalTime - t.data.secondsPassed)
    ensures var left := t.data.totalTime - t.data.secondsPassed;
      && (forall k: nat :: k <= left ==>
            Ticks(t, k).ticking && Ticks(t, k).timeLeft == Num(left - k))
      && Ticks(t, left).data.secondsPassed == t.data.totalTime
      && (0 < left ==> Ticks(t, left).progress == 1.0)
      && Ticks(t, left + 1).timeLeft == Done
      && !Ticks(t, left + 1).ticking
  {
    var left := t.data.totalTime - t.data.secondsPassed;
    forall k: nat | k <= left
      ensures Ticks(t, k).ticking && Ticks(t, k).timeLeft == Num(left - k)
    {
      CountingTicks(t, k);
    }
    CountingTicks(t, left);
    FinishingTick(t, left);
  }

  /** From a cleared record (fresh, or after a reset), a start shows the whole
      total, so a countdown of T seconds reaches 0 on firing T and "DONE!" on
      firing T+1. */
  lemma CountdownFromCleared(s: PresenterState, hours: nat, minutes: nat, seconds: nat)
    requires SlidersInRange(hours, minutes, seconds)
    requires s.data.secondsPassed == 0 && s.data.secondsLeft == 0
    ensures var t, total := Start(s, hours, minutes, seconds), TotalSeconds(hours, minutes, seconds);
      && Ticks(t, total).timeLeft == Num(0)
      && Ticks(t, total).data.secondsPassed == total
      && Ticks(t, total).ticking
      && Ticks(t, total + 1).timeLeft == Done
      && !Ticks(t, total + 1).ticking
  {
    Countdown(Start(s, hours, minutes, seconds));
  }

  /** Once the elapsed seconds reach the total, the next firing finishes. */
  lemma FinishingTick(s: PresenterState, k: nat)
    requires Bounded(s.data)
    requires Ticks(s, k).data.secondsPassed == s.data.totalTime
    ensures Ticks(s, k + 1) == Ticks(s, k).(ticking := false, timeLeft := Done)
  {
    TicksSplit(s, k, 1);
  }

  /** Firing `m` and then `n` times is firing `m + n` times. */
  lemma {:induction false} TicksSplit(s: PresenterState, m: nat, n: nat)
    requires Bounded(s.data)
    ensures Ticks(Ticks(s, m), n) == Ticks(s, m + n)
    decreases m
  {
    if m > 0 {
      TicksSplit(Tick(s), m - 1, n);
    }
  }

  /** A start after the countdown finished, without a reset, keeps the elapsed
      seconds, so the very next firing shows "DONE!" again. */
  lemma RestartWithoutReset(s: PresenterState, hours: nat, minutes: nat, seconds: nat)
    requires SlidersInRange(hours, minutes, seconds)
    requires Bounded(s.data) && s.data.secondsPassed == s.data.totalTime
    requires TotalSeconds(hours, minutes, seconds) == s.data.totalTime
    ensures Tick(Start(s, hours, minutes, seconds)).timeLeft == Done
    ensures !Tick(Start(s, hours, minutes, seconds)).ticking
  {
  }

  /** Pausing on an integer label and starting again with the same sliders
      resumes the same elapsed seconds, bar and label; a label of 0 is the one
      exception, since a saved 0 reads as "nothing saved" and the total is shown. */
  lemma PauseResume(s: PresenterState, hours: nat, minutes: nat, seconds: nat)
    requires SlidersInRange(hours, minutes, seconds)
    requires s.timeLeft.Num? && TotalSeconds(hours, minutes, seconds) == s.data.totalTime
    ensures var r := Start(Pause(s), hours, minutes, seconds);
      && r.ticking
      && r.data == s.data.(progressState := s.progress, secondsLeft := s.timeLeft.n)
      && r.progress == s.progress
      && r.timeLeft == (if s.timeLeft.n == 0 then Num(s.data.totalTime) else s.timeLeft)
  {
  }

  /** The presenter object: its record, its timer and the view outputs it sets. */
  class TimerPresenter {
    var timerData: TimerData
    /** A scheduled timer that has not been invalidated. */
    var ticking: bool
    /** The view's time-left label and progress bar. */
    var timeLeftLabel: Label
    var progress: real
    /** The view locks its sliders when Start is pressed and unlocks them on
        Reset, so every start between two resets passes the same values. */
    ghost var slidersLocked: bool

    function State(): PresenterState
      reads this
    {
      PresenterState(timerData, ticking, timeLeftLabel, progress)
    }

    ghost predicate Valid()
      reads this
    {
      && Bounded(timerData)
      && (ticking ==> slidersLocked)
      && (!slidersLocked ==> timerData.secondsPassed == 0)
    }

    /** A new presenter: a default record, no timer, an empty label and bar. */
    constructor ()
      ensures Valid() && !slidersLocked
      ensures State() == PresenterState(TimerData(), false, Empty, 0.0)
    {
      timerData := TimerData();
      ticking := false;
      timeLeftLabel := Empty;
      progress := 0.0;
      slidersLocked := false;
    }

    /** The timer's callback; only a scheduled timer fires. */
    method UpdateTimer()
      requires Valid() && ticking
      modifies this
      ensures Valid() && slidersLocked == old(slidersLocked)
      ensures State() == Tick(old(State()))
    {
      if timerData.secondsPassed < timerData.totalTime {
        timerData := timerData.(secondsPassed := timerData.secondsPassed + 1);
        progress := Progress(timerData.secondsPassed, timerData.totalTime);
        if !timeLeftLabel.Num? {
          return;
        }
        timeLeftLabel := Num(timeLeftLabel.n - 1);
      } else {
        ticking := false;
        timeLeftLabel := Done;
      }
    }

    method StartTimer(hours: nat, minutes: nat, seconds: nat)
      requires Valid() && SlidersInRange(hours, minutes, seconds)
      requires slidersLocked ==> TotalSeconds(hours, minutes, seconds) == timerData.totalTime
      modifies this
      ensures Valid() && slidersLocked
      ensures State() == Start(old(State()), hours, minutes, seconds)
    {
      ticking := false;
      timerData := timerData.(totalTime := TotalSeconds(hours, minutes, seconds));
      progress := timerData.progressState;
      if timerData.secondsLeft == 0 {
        timeLeftLabel := Num(timerData.totalTime);
      } else {
        timeLeftLabel := Num(timerData.secondsLeft);
      }
      ticking := true;
      slidersLocked := true;
    }

    method PauseTimer()
      requires Valid()
      modifies this
      ensures Valid() && slidersLocked == old(slidersLocked)
      ensures State() == Pause(old(State()))
    {
      ticking := false;
      if !timeLeftLabel.Num? {
        return;
      }
      timerData := timerData.(progressState := progress, secondsLeft := timeLeftLabel.n);
    }

    method ResetTimer()
      requires Valid()
      modifies this
      ensures Valid() && !slidersLocked
      ensures State() == Reset(old(State()))
    {
      ticking := false;
      timerData := timerData.(secondsPassed := 0);
      timerData := timerData.(progressState := 0.0);
      timerData := timerData.(secondsLeft := 0);
      slidersLocked := false;
    }
  }
}
