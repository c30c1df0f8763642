/** What the commands of a time track's context menu do, as functions on
    values: the state of the bound track, the project's undo history and the
    refresh code the menu hands back to the track panel. The menu's classes in
    module TimeTrackControls are proved against `Execute`. */
module TimeTrackCommands {
  import opened RefreshCode
  import opened History
  import opened Tracks
  import opened NumberFormat

  /** Identifiers of the four menu items. */
  const OnTimeTrackLinID: int := 30000
  const OnTimeTrackLogID: int := 30001
  const OnTimeTrackLogIntID: int := 30002
  const OnSetTimeTrackRangeID: int := 30003

  /** What the numeric-entry dialog returns when the user cancels it. */
  const Cancelled: int := -1

  /** Bounds, in percent, of the speed range the range command accepts. */
  const MinPercent: int := 10
  const MaxPercent: int := 1000

  datatype Command =
    | SetLinear
    | SetLog
    | ToggleLogInterpolation
    | SetRange(lower: int, upper: int)  // the two numbers the dialogs returned

  /** Everything a command reads or writes: the bound track, the undo history
      and the result code of the menu binding. */
  datatype Session = Session(track: TrackState, history: seq<Entry>, result: Code)

  /** The range command's test of the two entered percentages. */
  predicate RangeAccepted(lower: int, upper: int) {
    lower >= MinPercent && upper <= MaxPercent && lower < upper
  }

  /** A percentage as the fraction the track stores. */
  function Fraction(percent: int): real {
    percent as real / 100.0
  }

  /** The range a time track's envelope allows: 10 % to 1000 %, lower below upper. */
  predicate RangeInvariant(t: TrackState) {
    0.1 <= t.rangeLower < t.rangeUpper <= 10.0
  }

  /** The value a range dialog is opened with: the stored fraction in percent,
      rounded half up and truncated toward zero as a cast to `long` does. */
  function SeedPercent(fraction: real): int {
    var v := fraction * 100.0 + 0.5;
    if v >= 0.0 then v.Floor else -((-v).Floor)
  }

  const DisplayLinearEntry: Entry := Entry("Set time track display to linear", "Set Display")
  const DisplayLogEntry: Entry := Entry("Set time track display to logarithmic", "Set Display")

  /** The entry of the interpolation toggle, naming the mode it switched to. */
  function InterpolationEntry(toLog: bool): Entry {
    if toLog then Entry("Set time track interpolation to logarithmic", "Set Interpolation")
    else Entry("Set time track interpolation to linear", "Set Interpolation")
  }

  function RangeDescription(lower: int, upper: int): string {
    "Set range to '" + FormatLong(lower) + "' - '" + FormatLong(upper) + "'"
  }

  function RangeEntry(lower: int, upper: int): Entry {
    Entry(RangeDescription(lower, upper), "Set Range")
  }

  /** One command applied to a session. */
  function Execute(s: Session, c: Command): (r: Session)
    ensures |s.history| <= |r.history| <= |s.history| + 1 && r.history[..|s.history|] == s.history
  {
    match c
    case SetLinear =>
      Session(s.track.(displayLog := false), s.history + [DisplayLinearEntry], RefreshAllAndVRuler)
    case SetLog =>
      Session(s.track.(displayLog := true), s.history + [DisplayLogEntry], RefreshAllAndVRuler)
    case ToggleLogInterpolation =>
      var toLog := !s.track.interpolateLog;
      Session(s.track.(interpolateLog := toLog), s.history + [InterpolationEntry(toLog)], RefreshAllOnly)
    case SetRange(lower, upper) =>
      if RangeAccepted(lower, upper) then
        Session(s.track.(rangeLower := Fraction(lower), rangeUpper := Fraction(upper)),
                s.history + [RangeEntry(lower, upper)], RefreshAllOnly)
      else s
  }

  /** Whether a command, once chosen, takes effect (and so records a step). */
  predicate Records(c: Command) {
    !c.SetRange? || RangeAccepted(c.lower, c.upper)
  }

  /** Commands chosen one after another, each on the session the previous left. */
  function Run(s: Session, cmds: seq<Command>): Session
    decreases |cmds|
  {
    if cmds == [] then s else Run(Execute(s, cmds[0]), cmds[1..])
  }

  /** The number of commands in `cmds` that take effect. */
  function RecordCount(cmds: seq<Command>): nat
    decreases |cmds|
  {
    if cmds == [] then 0 else (if Records(cmds[0]) then 1 else 0) + RecordCount(cmds[1..])
  }

  /** The check marks the menu shows for a track, by item identifier. */
  function CheckedItems(t: TrackState): map<int, bool> {
    map[OnTimeTrackLogIntID := t.interpolateLog,
        OnTimeTrackLinID := !t.displayLog,
        OnTimeTrackLogID := t.displayLog]
  }

  // ---------------------------------------------------------------- menu state

  /** Exactly one of the two scale items is checked, the one matching the
      track's display mode; the interpolation item shows the interpolation mode. */
  lemma MenuShowsTrackState(t: TrackState)
    ensures var m := CheckedItems(t);
      OnTimeTrackLinID in m && OnTimeTrackLogID in m && OnTimeTrackLogIntID in m &&
      m[OnTimeTrackLinID] != m[OnTimeTrackLogID] &&
      (m[OnTimeTrackLogID] <==> t.displayLog) &&
      (m[OnTimeTrackLogIntID] <==> t.interpolateLog)
  {
  }

  // ------------------------------------------------------------ scale commands

  /** Choosing a scale item sets the display mode to that scale, records one
      "Set Display" step, asks for a full and a ruler refresh, and changes
      nothing else; afterwards the menu checks exactly that item. */
  lemma SetScaleEffect(s: Session, toLog: bool)
    ensures var r := Execute(s, if toLog then SetLog else SetLinear);
      r.track.displayLog == toLog &&
      r.track.interpolateLog == s.track.interpolateLog &&
      r.track.rangeLower == s.track.rangeLower && r.track.rangeUpper == s.track.rangeUpper &&
      r.history == s.history + [Entry(if toLog then "Set time track display to logarithmic"
                                      else "Set time track display to linear", "Set Display")] &&
      r.result == {RefreshAll, UpdateVRuler} &&
      CheckedItems(r.track)[if toLog then OnTimeTrackLogID else OnTimeTrackLinID] &&
      !CheckedItems(r.track)[if toLog then OnTimeTrackLinID else OnTimeTrackLogID]
  {
  }

  /** The scale commands do not compare with the current mode: choosing the
      same scale twice leaves the track as one choice does but records two steps. */
  lemma SetScaleRecordsEvenIfUnchanged(s: Session, c: Command)
    requires c == SetLinear || c == SetLog
    ensures Execute(Execute(s, c), c).track == Execute(s, c).track
    ensures |Execute(Execute(s, c), c).history| == |s.history| + 2
  {
  }

  // ---------------------------------------------------- interpolation command

  /** The toggle negates the interpolation mode, records one "Set Interpolation"
      step whose description names the new mode, asks for a full refresh, and
      changes nothing else. */
  lemma ToggleEffect(s: Session)
    ensures var r := Execute(s, ToggleLogInterpolation);
      r.track == s.track.(interpolateLog := !s.track.interpolateLog) &&
      r.history == s.history + [Entry(if s.track.interpolateLog then "Set time track interpolation to linear"
                                      else "Set time track interpolation to logarithmic",
                                      "Set Interpolation")] &&
      r.result == {RefreshAll}
  {
  }

  /** Toggling twice restores the track and records two steps whose
      descriptions differ. */
  lemma ToggleTwiceRestores(s: Session)
    ensures var r := Execute(Execute(s, ToggleLogInterpolation), ToggleLogInterpolation);
      r.track == s.track &&
      |r.history| == |s.history| + 2 && r.history[..|s.history|] == s.history &&
      r.history[|s.history|].description != r.history[|s.history| + 1].description
  {
  }

  // ------------------------------------------------------------- range command

  /** The range command takes effect exactly when the entered pair passes the
      test; then the track's range becomes the two percentages as fractions,
      one "Set Range" step naming both numbers is recorded and a full refresh
      is asked for, the modes staying as they were. */
  lemma SetRangeEffect(s: Session, lower: int, upper: int)
    ensures var r := Execute(s, SetRange(lower, upper));
      (r != s <==> RangeAccepted(lower, upper)) &&
      (RangeAccepted(lower, upper) ==>
         r.track == TrackState(s.track.displayLog, s.track.interpolateLog,
                               lower as real / 100.0, upper as real / 100.0) &&
         r.history == s.history + [Entry(RangeDescription(lower, upper), "Set Range")] &&
         r.result == {RefreshAll})
  {
  }

  /** A rejected pair leaves the track, the history and the result code as
      they were. */
  lemma SetRangeRejectedChangesNothing(s: Session, lower: int, upper: int)
    requires lower < MinPercent || upper > MaxPercent || lower >= upper
    ensures Execute(s, SetRange(lower, upper)) == s
  {
  }

  /** A cancelled dialog, first or second, makes the whole command a no-op. */
  lemma CancelChangesNothing(s: Session, lower: int, upper: int)
    requires lower == Cancelled || upper == Cancelled
    ensures Execute(s, SetRange(lower, upper)) == s
  {
  }

  /** What a numeric-entry dialog can return: a number in its bounds, or the
      cancel value. */
  predicate DialogAnswer(v: int, min: int, max: int) {
    v == Cancelled || min <= v <= max
  }

  /** When the dialogs keep to their bounds (10..1000 for the lower limit,
      one above the lower answer up to 1000 for the upper), the pair is
      accepted exactly when neither dialog was cancelled. */
  lemma DialogAnswersAcceptedUnlessCancelled(lower: int, upper: int)
    requires DialogAnswer(lower, MinPercent, MaxPercent)
    requires DialogAnswer(upper, lower + 1, MaxPercent)
    ensures RangeAccepted(lower, upper) <==> lower != Cancelled && upper != Cancelled
  {
  }

  /** An accepted pair gives a range inside the envelope's bounds. */
  lemma AcceptedRangeIsValid(s: Session, lower: int, upper: int)
    requires RangeAccepted(lower, upper)
    ensures RangeInvariant(Execute(s, SetRange(lower, upper)).track)
  {
  }

  /** After an accepted pair, the next range dialogs open with the two numbers
      just entered. */
  lemma AcceptedRangeSeedsNextDialogs(s: Session, lower: int, upper: int)
    requires RangeAccepted(lower, upper)
    ensures var t := Execute(s, SetRange(lower, upper)).track;
      SeedPercent(t.rangeLower) == lower && SeedPercent(t.rangeUpper) == upper
  {
  }

  lemma SeedOfFraction(p: int)
    requires p >= 0
    ensures SeedPercent(Fraction(p)) == p
  {
  }

  /** The "Set Range" description determines the two numbers entered. */
  lemma {:induction false} RangeDescriptionInjective(l1: int, u1: int, l2: int, u2: int)
    requires RangeDescription(l1, u1) == RangeDescription(l2, u2)
    ensures l1 == l2 && u1 == u2
  {
    var a1, a2 := FormatLong(l1), FormatLong(l2);
    var t1, t2 := RangeTail(u1), RangeTail(u2);
    RangeDescriptionSplits(l1, u1);
    RangeDescriptionSplits(l2, u2);
    DropPrefix("Set range to '", a1 + ['\''] + t1, a2 + ['\''] + t2);
    SplitAtQuote(a1, t1, a2, t2);
    FormatLongInjective(l1, l2);
    DropPrefix(" - '", FormatLong(u1) + "'", FormatLong(u2) + "'");
    DropSuffix(FormatLong(u1), FormatLong(u2), "'");
    FormatLongInjective(u1, u2);
  }

  /** The part of a "Set Range" description after the quote that closes the
      lower number. */
  function RangeTail(upper: int): string {
    " - '" + (FormatLong(upper) + "'")
  }

  lemma RangeDescriptionSplits(lower: int, upper: int)
    ensures RangeDescription(lower, upper)
         == "Set range to '" + (FormatLong(lower) + ['\''] + RangeTail(upper))
  {
  }

  lemma DropPrefix(p: string, x: string, y: string)
    requires p + x == p + y
    ensures x == y
  {
    assert x == (p + x)[|p|..];
  }

  lemma DropSuffix(x: string, y: string, q: string)
    requires x + q == y + q
    ensures x == y
  {
    assert x == (x + q)[..|x|];
  }

  /** The text of `s` up to its first quote. */
  function TextBeforeQuote(s: string): string {
    if s == [] || s[0] == '\'' then [] else [s[0]] + TextBeforeQuote(s[1..])
  }

  lemma {:induction false} TextBeforeQuoteOf(a: string, r: string)
    requires '\'' !in a
    ensures TextBeforeQuote(a + ['\''] + r) == a
  {
    if a != [] {
      assert (a + ['\''] + r)[1..] == a[1..] + ['\''] + r;
      TextBeforeQuoteOf(a[1..], r);
    }
  }

  /** Two strings that each begin with a quote-free part followed by a quote
      have the same quote-free part and the same rest. */
  lemma SplitAtQuote(a1: string, r1: string, a2: string, r2: string)
    requires '\'' !in a1 && '\'' !in a2
    requires a1 + ['\''] + r1 == a2 + ['\''] + r2
    ensures a1 == a2 && r1 == r2
  {
    TextBeforeQuoteOf(a1, r1);
    TextBeforeQuoteOf(a2, r2);
    DropPrefix(a1 + ['\''], r1, r2);
  }

  // --------------------------------------------------------- command sequences

  /** Each command preserves the envelope's range bounds. */
  lemma ExecutePreservesRangeInvariant(s: Session, c: Command)
    requires RangeInvariant(s.track)
    ensures RangeInvariant(Execute(s, c).track)
  {
  }

  /** Any sequence of commands keeps the range within the envelope's bounds. */
  lemma {:induction false} RunPreservesRangeInvariant(s: Session, cmds: seq<Command>)
    requires RangeInvariant(s.track)
    ensures RangeInvariant(Run(s, cmds).track)
    decreases |cmds|
  {
    if cmds != [] {
      ExecutePreservesRangeInvariant(s, cmds[0]);
      RunPreservesRangeInvariant(Execute(s, cmds[0]), cmds[1..]);
    }
  }

  /** A sequence of commands only appends to the history, one step per
      command that takes effect. */
  lemma {:induction false} RunRecordsOneStepPerEffectiveCommand(s: Session, cmds: seq<Command>)
    ensures var h := Run(s, cmds).history;
      |h| == |s.history| + RecordCount(cmds) && h[..|s.history|] == s.history
    decreases |cmds|
  {
    if cmds != [] {
      var s1 := Execute(s, cmds[0]);
      assert |s1.history| == |s.history| + (if Records(cmds[0]) then 1 else 0);
      RunRecordsOneStepPerEffectiveCommand(s1, cmds[1..]);
      var h := Run(s, cmds).history;
      assert h[..|s1.history|] == s1.history;
      assert h[..|s.history|] == h[..|s1.history|][..|s.history|];
    }
  }

  // ----------------------------------------------------------------- scenarios

  /** A track at 90 %..110 % given 50 and 150 runs from 0.5 to 1.5, with a
      step naming both numbers. */
  lemma ScenarioFiftyToOneFifty(s: Session)
    requires s.track.rangeLower == 0.9 && s.track.rangeUpper == 1.1
    ensures var r := Execute(s, SetRange(50, 150));
      r.track.rangeLower == 0.5 && r.track.rangeUpper == 1.5 &&
      r.history == s.history + [Entry("Set range to '50' - '150'", "Set Range")]
  {
    assert FormatLong(50) == "50";
    assert NatDigits(15) == "15";
    assert FormatLong(150) == "150";
    assert RangeDescription(50, 150) == "Set range to '50' - '150'";
  }

  /** A lower limit of 5 % is refused: the track stays at 90 %..110 %. */
  lemma ScenarioLowerBelowMinimum(s: Session, upper: int)
    requires s.track.rangeLower == 0.9 && s.track.rangeUpper == 1.1
    ensures var r := Execute(s, SetRange(5, upper));
      r.track.rangeLower == 0.9 && r.track.rangeUpper == 1.1 && r.history == s.history
  {
  }
}
