# Time-track context menu

A Dafny model of the context menu Audacity shows for a time track
(`TimeTrackMenuTable` in `src/tracks/timetrack/ui/TimeTrackControls.cpp`).
The menu is one table shared by all time tracks. When a popup opens, the
table is bound to that popup's data: the track the popup was opened on and a
refresh code. It then sets the check marks of its items. Four commands change
the bound track:

- **Linear scale** and **Logarithmic scale** set the display mode.
- **Logarithmic Interpolation** switches the interpolation mode.
- **Range...** asks for a lower and an upper speed limit in percent and stores
  them as fractions when `lower >= 10`, `upper <= 1000` and `lower < upper`.

Every command that takes effect records one undoable step in the project
history and leaves a refresh code for the track panel. When the popup closes,
the table is unbound.

The project has two layers.

- `TimeTrackCommands` says what the commands do, as functions on values. A
  `Session` holds the track's four parameters, the history (a sequence of
  description / short-description pairs) and the result code. `Execute`
  applies one command and `Run` applies a sequence of them. The lemmas state
  the menu's properties: which items are checked, the range test and what it
  refuses, the toggle being an involution, and the history growing by exactly
  one step per command that takes effect.
- `TimeTrackControls` is the table itself, as classes with mutable fields.
  `TimeTrackMenuTable` holds the `mpData` binding. `InitMenuData` holds the
  bound track and the result code. `Menu` holds the check marks.
  `NumberDialog` is the modal numeric-entry dialog. Each handler is proved to
  leave the track, the history and the result code exactly as `Execute` says.
  The range handler is also proved to show the two prompts the source shows,
  with their initial values and bounds.

Supporting modules: `Tracks` (the time track's four parameters), `History`
(the project history), `RefreshCode` (refresh codes as sets of flags) and
`NumberFormat` (the `%ld` rendering of the numbers in the range step's
description, with the lemma that reading it back gives the number).

Three behaviours of the code the model keeps as they are:

- Cancelling the first range dialog does not end the command: the second
  dialog is still shown, with its minimum at the cancel value plus one. A
  cancel is refused only because the returned `-1` fails the range test.
- A refused range leaves the binding's result code as it was. It is not reset
  to "refresh nothing".
- Only the range handler tests whether a track is bound; with none bound it
  does nothing. The other handlers and `InitMenu` use the track without a
  test, so the model requires a bound track for them.

## Model

| member | source | states |
|---|---|---|
| `TimeTrackControls.TimeTrackMenuTable.constructor` | src/tracks/timetrack/ui/TimeTrackControls.cpp:43 | a new table is not bound to any popup |
| `TimeTrackControls.TimeTrackMenuTable.InitMenu` | src/tracks/timetrack/ui/TimeTrackControls.cpp:50-60 | binds the table to the popup's data; the interpolation item's mark becomes the interpolation mode, the linear item's the negation of the display mode and the logarithmic item's the display mode; other marks are kept |
| `TimeTrackControls.TimeTrackMenuTable.DestroyMenu` | src/tracks/timetrack/ui/TimeTrackControls.cpp:62-65 | the binding is cleared |
| `TimeTrackControls.TimeTrackMenuTable.OnSetTimeTrackRange` | src/tracks/timetrack/ui/TimeTrackControls.cpp:81-115 | with no track bound nothing changes; otherwise both prompts are shown (lower: seeded from the stored lower limit, bounds 10..1000; upper: seeded from the stored upper limit, bounds lower answer + 1..1000), two replies are used, and track, history and result code become `Execute` of the range command on the two answers |
| `TimeTrackControls.TimeTrackMenuTable.OnTimeTrackLin` | src/tracks/timetrack/ui/TimeTrackControls.cpp:117-127 | track, history and result code become `Execute` of the linear-scale command; the binding keeps its track |
| `TimeTrackControls.TimeTrackMenuTable.OnTimeTrackLog` | src/tracks/timetrack/ui/TimeTrackControls.cpp:129-139 | track, history and result code become `Execute` of the logarithmic-scale command; the binding keeps its track |
| `TimeTrackControls.TimeTrackMenuTable.OnTimeTrackLogInt` | src/tracks/timetrack/ui/TimeTrackControls.cpp:141-156 | track, history and result code become `Execute` of the interpolation toggle; the binding keeps its track |
| `TimeTrackControls.Menu.Check` | src/tracks/timetrack/ui/TimeTrackControls.cpp:55-59 | sets one item's check mark and keeps the others |
| `TimeTrackControls.NumberDialog.GetNumberFromUser` | src/tracks/timetrack/ui/TimeTrackControls.cpp:90-102 | records the prompt shown (caption, initial value, bounds) and returns the user's next reply, or the cancel value `-1` when there is none |
| `History.ProjectHistory.PushState` | src/tracks/timetrack/ui/TimeTrackControls.cpp:108-111 | appends exactly one (description, short description) pair and keeps the earlier ones |
| `TimeTrackCommands.Execute` | src/tracks/timetrack/ui/TimeTrackControls.cpp:81-156 | every command keeps the earlier history and appends at most one step |
| `TimeTrackCommands.MenuShowsTrackState` | src/tracks/timetrack/ui/TimeTrackControls.cpp:55-59 | exactly one of the two scale items is checked, the logarithmic one iff the display is logarithmic; the interpolation item is checked iff interpolation is logarithmic |
| `TimeTrackCommands.SetScaleEffect` | src/tracks/timetrack/ui/TimeTrackControls.cpp:117-139 | a scale command sets the display mode to that scale, appends one "Set Display" step naming it, sets the result to RefreshAll and UpdateVRuler, keeps interpolation and range, and afterwards the menu checks exactly the chosen scale item |
| `TimeTrackCommands.SetScaleRecordsEvenIfUnchanged` | src/tracks/timetrack/ui/TimeTrackControls.cpp:117-139 | choosing the same scale twice leaves the track as one choice does but appends two steps |
| `TimeTrackCommands.ToggleEffect` | src/tracks/timetrack/ui/TimeTrackControls.cpp:141-156 | the toggle negates interpolate-log, changes nothing else on the track, appends one "Set Interpolation" step naming the new mode, and sets the result to RefreshAll |
| `TimeTrackCommands.ToggleTwiceRestores` | src/tracks/timetrack/ui/TimeTrackControls.cpp:141-156 | two toggles restore the track and append two steps with different descriptions |
| `TimeTrackCommands.SetRangeEffect` | src/tracks/timetrack/ui/TimeTrackControls.cpp:104-113 | the range command changes the session iff `lower >= 10 && upper <= 1000 && lower < upper`; when it does, the range becomes lower/100 and upper/100, the modes are kept, one "Set range to 'lower' - 'upper'" / "Set Range" step is appended and the result is RefreshAll |
| `TimeTrackCommands.SetRangeRejectedChangesNothing` | src/tracks/timetrack/ui/TimeTrackControls.cpp:104 | a pair failing the test leaves track, history and result code unchanged |
| `TimeTrackCommands.CancelChangesNothing` | src/tracks/timetrack/ui/TimeTrackControls.cpp:90-104 | a cancel (`-1`) from either dialog leaves track, history and result code unchanged |
| `TimeTrackCommands.DialogAnswersAcceptedUnlessCancelled` | src/tracks/timetrack/ui/TimeTrackControls.cpp:90-104 | when each dialog returns a number within the bounds it offers, or `-1`, the pair is accepted iff neither dialog was cancelled |
| `TimeTrackCommands.AcceptedRangeIsValid` | src/tracks/timetrack/ui/TimeTrackControls.cpp:88-89 | an accepted pair gives `0.1 <= lower < upper <= 10.0`, the envelope's bounds |
| `TimeTrackCommands.AcceptedRangeSeedsNextDialogs` | src/tracks/timetrack/ui/TimeTrackControls.cpp:85-86 | after an accepted pair, the next range dialogs open with the two numbers entered |
| `TimeTrackCommands.SeedOfFraction` | src/tracks/timetrack/ui/TimeTrackControls.cpp:85-86 | the rounding that seeds a dialog turns the fraction p/100 back into p for every p >= 0 |
| `TimeTrackCommands.RangeDescriptionInjective` | src/tracks/timetrack/ui/TimeTrackControls.cpp:109 | the "Set range" description determines both numbers entered |
| `TimeTrackCommands.ExecutePreservesRangeInvariant` | src/tracks/timetrack/ui/TimeTrackControls.cpp:81-156 | no command takes the range outside 10 %..1000 % with lower below upper |
| `TimeTrackCommands.RunPreservesRangeInvariant` | src/tracks/timetrack/ui/TimeTrackControls.cpp:81-156 | no sequence of commands takes the range outside those bounds |
| `TimeTrackCommands.RunRecordsOneStepPerEffectiveCommand` | src/tracks/timetrack/ui/TimeTrackControls.cpp:104-155 | a sequence of commands keeps the earlier history and appends exactly one step per command that takes effect (every scale and toggle command, every accepted range) |
| `TimeTrackCommands.ScenarioFiftyToOneFifty` | src/tracks/timetrack/ui/TimeTrackControls.cpp:104-111 | a track at 0.9..1.1 given 50 and 150 goes to 0.5..1.5 with the step "Set range to '50' - '150'" |
| `TimeTrackCommands.ScenarioLowerBelowMinimum` | src/tracks/timetrack/ui/TimeTrackControls.cpp:104 | a lower limit of 5 is refused whatever the upper: range and history stay as they were |
| `NumberFormat.NatDigits` | src/tracks/timetrack/ui/TimeTrackControls.cpp:109 | the rendering of a natural number is a non-empty string of decimal digits without a leading zero |
| `NumberFormat.FormatLong` | src/tracks/timetrack/ui/TimeTrackControls.cpp:109 | `%ld` gives a non-empty string without quotes that starts with a minus sign iff the number is negative |
| `NumberFormat.DigitsRoundTrip` | src/tracks/timetrack/ui/TimeTrackControls.cpp:109 | reading back the digits of n gives n |
| `NumberFormat.FormatLongInjective` | src/tracks/timetrack/ui/TimeTrackControls.cpp:109 | distinct numbers are rendered as distinct strings |

## Left out

- `src/widgets/wxPanelWrapper.h`: toolkit mixins and constructor forwarding for dialogs and panels, with no logic of their own.
- The dialogs themselves: what the user types is the input sequence `NumberDialog.replies`, which may hold any integers. The message text of each prompt is not recorded, only its caption, initial value and bounds.
- Message translation (`XO`, `_`): the model uses the English texts.
- Floating point: the range is stored as an exact `real`. The seed `(long)(x * 100.0 + 0.5)` is computed in exact arithmetic, with the cast's truncation toward zero.
- `GetActiveProject`: the active project's history is a parameter of each handler.
- The setters and getters of the time track: `TimeTrack.h` is not part of this model, so the handlers read and write the track's fields directly.
- The numeric values of the refresh codes: `RefreshCode.h` is not part of this model. A code is the set of its flags; RefreshNone is the empty set.
- `InitMenuData` is declared in the common track controls, which are not part of this model. Only its track and result fields are modelled, and its constructor sets the result to RefreshNone.
- `HitTest`, the destructor, the popup-menu macros, `GetMenuExtension`, the controls and default-height registrations and the static `Instance`: framework plumbing around the table. One table object stands for the singleton.
