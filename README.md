# AnyStuffTimer countdown model

AnyStuffTimer is a single-screen countdown timer. The user sets hours, minutes
and seconds on three sliders and presses Start, Pause or Reset. A one-second
timer then counts down a remaining-time label, fills a progress bar, and shows
"DONE!" at the end. The repository contains two versions of this state machine,
and this project models both:

- `Presenter` models `TimerPresenter` (the newer, code-built screen). It holds a
  `TimerData` record and drives its view's time-left label and progress bar.
- `Storyboard` models `ViewController` (the older storyboard screen). It holds
  `totalTime`, `secondsPassed` and a `savedData` pause snapshot in its own
  fields, and reads the slider outlets directly.
- `Model` holds what the two share: the `TimerData` record with its zero
  defaults, the label datatype `Num(n) | Done | Empty` (integer text, "DONE!"
  and ""), the slider ranges 0..24 / 0..60 / 0..60 with the
  `h*3600 + m*60 + s` total, and progress as an exact ratio.

Each version is a class whose fields are the source's fields, plus the view
outputs it writes. A scheduled, not yet invalidated timer is a `ticking` flag,
and each firing is an explicit `UpdateTimer` call. Every class method is proved
equal to a transition function on a state value (`Tick`, `Start`, `Pause`,
`Reset`, and the slider events). The multi-step properties are lemmas about
those functions.

What is proved, in short:

- A counting tick adds exactly one second, lowers an integer label by one, and
  keeps the progress in (0, 1].
- A finishing tick stops the timer and shows "DONE!". In `ViewController` it
  also clears the snapshot.
- In the presenter, `secondsPassed <= totalTime` is an object invariant. It
  holds because the view locks the sliders from Start until Reset
  (`TimerView.swift:92-94, 112-114`). That lock is kept as a ghost field.
- From a cleared state, a countdown of T seconds shows `0` on tick T and
  "DONE!" only on tick T+1.
- Pause followed by Start, with the same sliders, resumes where it stopped.
  In the presenter this needs an integer label at the pause, and a saved label
  of 0 comes back as the total (`Presenter.PauseResume`). In `ViewController`
  it needs a running timer and a non-empty label at the pause
  (`Storyboard.PauseResume`).
- Reset returns every field of the record to its default except `totalTime`.

The model also makes three differences between the versions visible:

- The presenter's start never resets `secondsPassed`. So a start after a
  finished countdown, without a reset, shows "DONE!" on the next tick
  (`RestartWithoutReset`).
- `ViewController` has no slider lock, and its reset keeps `secondsPassed`. So
  `secondsPassed <= totalTime` is not an invariant there: reset, then pause,
  then start gives a total of 0 below the elapsed seconds (`ResetPauseStart`).
- In `ViewController`, a trap follows when a slider is moved during a countdown
  so that the sliders give more than the countdown's total, and the user
  presses Pause and then Start after the finish. The pause snapshots "DONE!",
  and the start restores that label with time remaining. The next tick then
  force-unwraps `Int("DONE!")` and traps (`ResumeOnDoneTraps`,
  `SliderMovedMidRunTraps`). A move that lowers the total does not trap. The
  trap is modelled as the `Trapped` outcome of a tick.

Three behaviours of the code are easy to miss:

- Reset keeps `totalTime`; it is not set to 0.
- A start with a total of 0 is not a no-op. It schedules the timer, and the
  next tick shows "DONE!".
- A tick that brings the elapsed seconds up to the total does not finish
  anything. Only the following tick stops the timer.

## Model

| member | source | states |
|---|---|---|
| `Model.TotalSeconds` | AnyStuffTimer/Presenter/TimerPresenter.swift:54 | the total from in-range sliders is at most 24·3600+60·60+60, is 0 exactly when all three sliders are 0, and is at least each slider's own contribution |
| `Model.Progress` | AnyStuffTimer/Presenter/TimerPresenter.swift:24 | the elapsed/total ratio lies in [0, 1]; it is 0 exactly at no elapsed time and 1 exactly when elapsed equals total |
| `Model.FreshRecord` | AnyStuffTimer/Model/TimerData.swift:3-8 | a default record has all four fields zero, so it satisfies `secondsPassed <= totalTime`, and its zero `secondsLeft` makes the first start show the total |
| `Presenter.Tick` | AnyStuffTimer/Presenter/TimerPresenter.swift:21-33 | preserves `0 <= secondsPassed <= totalTime` and never lowers `secondsPassed`; it changes no other record field; a counting tick has total ≥ 1, adds one second, keeps the timer, gives progress in (0, 1] equal to the new ratio, lowers an integer label by one and leaves a non-integer label; a finishing tick changes only the timer (stopped) and the label (Done) |
| `Presenter.Start` | AnyStuffTimer/Presenter/TimerPresenter.swift:51-66 | the timer is running (one flag: the old one was invalidated first), the total is `h*3600+m*60+s`, no other record field changes (`secondsPassed` included), the bar shows `progressState`, and the label shows `secondsLeft` if non-zero and the total otherwise; the bound holds afterwards exactly when the kept `secondsPassed` fits the new total |
| `Presenter.Pause` | AnyStuffTimer/Presenter/TimerPresenter.swift:68-76 | the timer stops and the view is untouched; an integer label is saved into `secondsLeft` and the bar into `progressState`; on Done or Empty no record field changes |
| `Presenter.Reset` | AnyStuffTimer/Presenter/TimerPresenter.swift:78-84 | the timer stops and the record equals the default record except for the kept `totalTime` |
| `Presenter.Ticks` | AnyStuffTimer/Presenter/TimerPresenter.swift:22-23 | any number of ticks preserves the bound, keeps the total and never lowers `secondsPassed` |
| `Presenter.CountingTicks` | AnyStuffTimer/Presenter/TimerPresenter.swift:22-27 | k ticks that stay within the total add exactly k seconds, keep the timer running, lower an integer label by k and leave the bar at the new ratio |
| `Presenter.FinishingTick` | AnyStuffTimer/Presenter/TimerPresenter.swift:28-30 | once the elapsed seconds reach the total, the next tick only stops the timer and shows Done |
| `Presenter.Countdown` | AnyStuffTimer/Presenter/TimerPresenter.swift:21-33 | from a running state whose label shows the seconds left L, tick k shows L−k for every k ≤ L without stopping, tick L fills the bar, and tick L+1 shows Done and stops |
| `Presenter.CountdownFromCleared` | AnyStuffTimer/Presenter/TimerPresenter.swift:53-60 | from a fresh or reset record, start with total T followed by T ticks gives T elapsed seconds and label 0 with the timer running, and tick T+1 shows Done and stops |
| `Presenter.RestartWithoutReset` | AnyStuffTimer/Presenter/TimerPresenter.swift:53-54 | after a finished countdown, a start with the locked sliders keeps `secondsPassed`, so the next tick shows Done and stops |
| `Presenter.PauseResume` | AnyStuffTimer/Presenter/TimerPresenter.swift:70-75 | pause on an integer label then start with the same total resumes with the same elapsed seconds, bar and label, except that a saved 0 shows the total |
| `Presenter.TimerPresenter.constructor` | AnyStuffTimer/Presenter/TimerPresenter.swift:10-11 | a new presenter has the default record, no running timer, an empty label and bar, and satisfies the invariant |
| `Presenter.TimerPresenter.UpdateTimer` | AnyStuffTimer/Presenter/TimerPresenter.swift:21-33 | the timer callback changes the fields as `Tick` says and keeps the invariant |
| `Presenter.TimerPresenter.StartTimer` | AnyStuffTimer/Presenter/TimerPresenter.swift:51-66 | with the slider lock respected, start changes the fields as `Start` says, keeps the invariant and locks the sliders |
| `Presenter.TimerPresenter.PauseTimer` | AnyStuffTimer/Presenter/TimerPresenter.swift:68-76 | pause changes the fields as `Pause` says and keeps the invariant |
| `Presenter.TimerPresenter.ResetTimer` | AnyStuffTimer/Presenter/TimerPresenter.swift:78-84 | reset changes the fields as `Reset` says, keeps the invariant and unlocks the sliders |
| `Storyboard.Tick` | AnyStuffTimer/Controller/ViewController.swift:38-50 | traps exactly when time remains and the label is not an integer; otherwise keeps the total and sliders, never lowers `secondsPassed` and preserves `secondsPassed <= totalTime`; a counting tick adds one second, lowers the label by one, gives progress in (0, 1] and keeps snapshot and timer; a finishing tick stops the timer, shows Done and clears the snapshot |
| `Storyboard.SetHours` | AnyStuffTimer/Controller/ViewController.swift:60-65 | the hours slider takes the new value, the snapshot is cleared to (0, 0, Empty), and nothing else changes |
| `Storyboard.SetMinutes` | AnyStuffTimer/Controller/ViewController.swift:67-71 | the same for the minutes slider |
| `Storyboard.SetSeconds` | AnyStuffTimer/Controller/ViewController.swift:73-77 | the same for the seconds slider |
| `Storyboard.Start` | AnyStuffTimer/Controller/ViewController.swift:79-93 | the timer runs, the total is the sliders' sum, `secondsPassed` and the bar come from the snapshot, the label is the snapshot's label or the total when that is empty, the snapshot and sliders are kept, and the bound holds exactly when the snapshot's seconds fit the new total |
| `Storyboard.Pause` | AnyStuffTimer/Controller/ViewController.swift:95-104 | the timer stops, the snapshot becomes (secondsPassed, progress, label), and nothing else changes |
| `Storyboard.Reset` | AnyStuffTimer/Controller/ViewController.swift:106-120 | the timer stops, the snapshot is cleared, all sliders and their labels are 0, the label is empty and the bar is 0; the total and elapsed seconds are kept |
| `Storyboard.Run` | AnyStuffTimer/Controller/ViewController.swift:38-50 | any number of ticks that do not trap keeps the state sane and the total fixed, and never lowers `secondsPassed` |
| `Storyboard.CountingRun` | AnyStuffTimer/Controller/ViewController.swift:39-42 | k ticks within the total do not trap, add k seconds, lower an integer label by k and keep the snapshot and the timer |
| `Storyboard.CountdownFromCleared` | AnyStuffTimer/Controller/ViewController.swift:85-90 | with the snapshot cleared (after reset or a slider change), start with total T followed by T ticks gives T elapsed seconds and label 0 while running, and tick T+1 shows Done, stops and clears the snapshot |
| `Storyboard.PauseResume` | AnyStuffTimer/Controller/ViewController.swift:99-103 | pause then start, with the sliders still giving the running total and a non-empty label, restores the state exactly, apart from the new snapshot |
| `Storyboard.ResetPauseStart` | AnyStuffTimer/Controller/ViewController.swift:110-119 | reset keeps `secondsPassed`, so reset, pause and start give a total of 0 below the old elapsed seconds and label 0, and the next tick shows Done |
| `Storyboard.ResumeOnDoneTraps` | AnyStuffTimer/Controller/ViewController.swift:42 | a pause on "DONE!" followed by a start whose slider total exceeds the elapsed seconds makes the next tick trap |
| `Storyboard.SliderMovedMidRunTraps` | AnyStuffTimer/Controller/ViewController.swift:39-46 | a 1-second countdown, the seconds slider moved to 2, the finishing tick, then pause, start and one tick ends in the trap |
| `Storyboard.ViewController.constructor` | AnyStuffTimer/Controller/ViewController.swift:24-26 | a new controller has total 0, no elapsed seconds, the cleared snapshot and no running timer |
| `Storyboard.ViewController.UpdateTimer` | AnyStuffTimer/Controller/ViewController.swift:38-50 | reports a trap exactly when `Tick` traps, and otherwise changes the fields as `Tick` says |
| `Storyboard.ViewController.HoursChanged` | AnyStuffTimer/Controller/ViewController.swift:60-65 | changes the fields as `SetHours` says |
| `Storyboard.ViewController.MinutesChanged` | AnyStuffTimer/Controller/ViewController.swift:67-71 | changes the fields as `SetMinutes` says |
| `Storyboard.ViewController.SecondsChanged` | AnyStuffTimer/Controller/ViewController.swift:73-77 | changes the fields as `SetSeconds` says |
| `Storyboard.ViewController.StartButtonPressed` | AnyStuffTimer/Controller/ViewController.swift:79-93 | changes the fields as `Start` says |
| `Storyboard.ViewController.PauseButtonPressed` | AnyStuffTimer/Controller/ViewController.swift:95-104 | changes the fields as `Pause` says |
| `Storyboard.ViewController.ResetButtonPressed` | AnyStuffTimer/Controller/ViewController.swift:106-120 | changes the fields as `Reset` says |

## Left out

- Audio is left out: `playSound`, `AVAudioPlayer` and the deferred player stop are foreign calls whose only effect is sound.
- Scheduling is not modelled as time. `Timer.scheduledTimer` and `invalidate` become the `ticking` flag, and each firing is an explicit call. Invalidating before scheduling is why a single flag is enough.
- The deferred button dimming (`DispatchQueue.main.asyncAfter` in `buttonsPressingImitation`) is a UI effect and is left out.
- Float arithmetic is not modelled. Progress is an exact `real` ratio, not a `Float` quotient.
- Slider values are taken as whole numbers in range. The `Float` to `Int` truncation of slider values is not modelled.
- The `String(Int)` / `Int(String)` conversions are not modelled. The `Label` datatype replaces label text.
- Swift's 64-bit `Int` is modelled as unbounded. Within the slider ranges no value comes near the limit.
- View construction and layout are left out (`TimerView.swift`, `TimerController.swift`). The slider lock enters only as the presenter's ghost `slidersLocked`.
- TimerView's own reset handler is not modelled. It clears the time-left label and bar before calling `resetTimer` (`TimerView.swift:102-116`). `Presenter.Reset` therefore leaves them as they were.
- The presenter's weak `viewController` reference is assumed to be present. With a missing view, the label and bar updates would do nothing.
- The storyboard file is not part of this model. Its initial label text, bar and slider positions are parameters of the `ViewController` constructor. Its slider ranges are taken to be those of `TimerView`.
- Storyboard.ViewController.UpdateTimer: after a trap the process has ended, so the method says nothing about the fields it leaves behind.
- The `totalLabel.text!` unwraps in `ViewController` are not modelled as failure points. In the model a label always has text; only `Int(...)!` can trap.
