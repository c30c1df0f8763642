/** The context menu of a time track: a table that is bound to one track for
    the life of a popup, sets the items' check marks when the popup opens, and
    runs the chosen command on the bound track. Each command handler is proved
    to change the track, the history and the result code exactly as
    `TimeTrackCommands.Execute` says. */
module TimeTrackControls {
  import opened RefreshCode
  import opened History
  import opened Tracks
  import opened TimeTrackCommands

  /** The check marks of a popup menu, by item identifier. */
  class Menu {
    var checked: map<int, bool>

    constructor ()
      ensures checked == map[]
    {
      checked := map[];
    }

    method Check(id: int, check: bool)
      modifies this
      ensures checked == old(checked)[id := check]
    {
      checked := checked[id := check];
    }
  }

  /** What the track panel hands to the menu when it opens: the track the menu
      was opened on, and the refresh code the chosen command leaves for the
      panel. */
  class InitMenuData {
    var track: TimeTrack?
    var result: Code

    constructor (track: TimeTrack?)
      ensures this.track == track && result == RefreshNone
    {
      this.track := track;
      result := RefreshNone;
    }
  }

  /** One prompt of the numeric-entry dialog: its caption, the number it
      opens with and the bounds it offers. */
  datatype Prompt = Prompt(caption: string, initial: int, min: int, max: int)

  /** The answer the next dialog gets: the user's next reply, or the cancel
      value once the replies are used up. */
  function NextReply(replies: seq<int>): int {
    if replies == [] then Cancelled else replies[0]
  }

  function LaterReplies(replies: seq<int>): seq<int> {
    if replies == [] then [] else replies[1..]
  }

  /** The modal numeric-entry dialog. What the user types is not known in
      advance: it is the sequence `replies`, which may hold any integers. The
      dialog records each prompt it shows. */
  class NumberDialog {
    var replies: seq<int>
    var shown: seq<Prompt>

    constructor (replies: seq<int>)
      ensures this.replies == replies && shown == []
    {
      this.replies := replies;
      shown := [];
    }

    method GetNumberFromUser(caption: string, initial: int, min: int, max: int) returns (v: int)
      modifies this
      ensures shown == old(shown) + [Prompt(caption, initial, min, max)]
      ensures v == NextReply(old(replies)) && replies == LaterReplies(old(replies))
    {
      shown := shown + [Prompt(caption, initial, min, max)];
      v := NextReply(replies);
      replies := LaterReplies(replies);
    }
  }

  /** The session a handler works on: the bound track, the active project's
      history and the binding's result code. */
  function SessionOf(data: InitMenuData, history: ProjectHistory): Session
    requires data.track != null
    reads data, data.track, history
  {
    Session(data.track.State(), history.entries, data.result)
  }

  class TimeTrackMenuTable {
    /** The binding of the open popup; null while no popup is open. */
    var mpData: InitMenuData?

    constructor ()
      ensures mpData == null
    {
      mpData := null;
    }

    /** Binds the table to the popup's data and checks the items that match
        the track: the interpolation item by the interpolation mode, and of
        the two scale items the one matching the display mode. */
    method InitMenu(menu: Menu, userData: InitMenuData)
      requires userData.track != null
      modifies this, menu
      ensures mpData == userData
      ensures menu.checked == old(menu.checked) + CheckedItems(userData.track.State())
    {
      mpData := userData;
      var track := mpData.track;
      menu.Check(OnTimeTrackLogIntID, track.interpolateLog);
      var isLog := track.displayLog;
      menu.Check(OnTimeTrackLinID, !isLog);
      menu.Check(OnTimeTrackLogID, isLog);
    }

    /** Unbinds the table when the popup closes. */
    method DestroyMenu()
      modifies this
      ensures mpData == null
    {
      mpData := null;
    }

    /** "Range...": asks for the lower and then the upper limit in percent
        and, when the pair passes the range test, stores it. The second dialog
        is shown even when the first was cancelled; a cancel is refused only by
        the range test. Does nothing when no track is bound. */
    method OnSetTimeTrackRange(dialog: NumberDialog, history: ProjectHistory)
      requires mpData != null
      modifies mpData, mpData.track, dialog, history
      ensures mpData.track == old(mpData.track)
      ensures old(mpData.track) == null ==> unchanged(mpData, dialog, history)
      ensures old(mpData.track) != null ==>
        var lower := NextReply(old(dialog.replies));
        var upper := NextReply(LaterReplies(old(dialog.replies)));
        dialog.shown == old(dialog.shown)
          + [Prompt("Lower speed limit", SeedPercent(old(mpData.track.rangeLower)), MinPercent, MaxPercent),
             Prompt("Upper speed limit", SeedPercent(old(mpData.track.rangeUpper)), lower + 1, MaxPercent)] &&
        dialog.replies == LaterReplies(LaterReplies(old(dialog.replies))) &&
        SessionOf(mpData, history) == Execute(old(SessionOf(mpData, history)), SetRange(lower, upper))
    {
      var track := mpData.track;
      if track != null {
        var lower := SeedPercent(track.rangeLower);
        var upper := SeedPercent(track.rangeUpper);
        lower := dialog.GetNumberFromUser("Lower speed limit", lower, MinPercent, MaxPercent);
        upper := dialog.GetNumberFromUser("Upper speed limit", upper, lower + 1, MaxPercent);
        if lower >= 10 && upper <= 1000 && lower < upper {
          track.rangeLower := lower as real / 100.0;
          track.rangeUpper := upper as real / 100.0;
          history.PushState(RangeDescription(lower, upper), "Set Range");
          mpData.result := {RefreshAll};
        }
      }
    }

    /** "Linear scale": sets the display to linear, recording the step even
        when it already was. */
    method OnTimeTrackLin(history: ProjectHistory)
      requires mpData != null && mpData.track != null
      modifies mpData, mpData.track, history
      ensures mpData.track == old(mpData.track)
      ensures SessionOf(mpData, history) == Execute(old(SessionOf(mpData, history)), SetLinear)
    {
      var track := mpData.track;
      track.displayLog := false;
      history.PushState("Set time track display to linear", "Set Display");
      mpData.result := {RefreshAll, UpdateVRuler};
    }

    /** "Logarithmic scale": sets the display to logarithmic, recording the
        step even when it already was. */
    method OnTimeTrackLog(history: ProjectHistory)
      requires mpData != null && mpData.track != null
      modifies mpData, mpData.track, history
      ensures mpData.track == old(mpData.track)
      ensures SessionOf(mpData, history) == Execute(old(SessionOf(mpData, history)), SetLog)
    {
      var track := mpData.track;
      track.displayLog := true;
      history.PushState("Set time track display to logarithmic", "Set Display");
      mpData.result := {RefreshAll, UpdateVRuler};
    }

    /** "Logarithmic Interpolation": switches the interpolation mode and
        records a step naming the new mode. */
    method OnTimeTrackLogInt(history: ProjectHistory)
      requires mpData != null && mpData.track != null
      modifies mpData, mpData.track, history
      ensures mpData.track == old(mpData.track)
      ensures SessionOf(mpData, history) == Execute(old(SessionOf(mpData, history)), ToggleLogInterpolation)
    {
      var track := mpData.track;
      if track.interpolateLog {
        track.interpolateLog := false;
        history.PushState("Set time track interpolation to linear", "Set Interpolation");
      } else {
        track.interpolateLog := true;
        history.PushState("Set time track interpolation to logarithmic", "Set Interpolation");
      }
      mpData.result := {RefreshAll};
    }
  }

  /** A popup opened on a track at 90 %..110 %: the user enters 50 and 150,
      then switches to logarithmic display, and the popup closes. */
  method RangeThenLogScenario()
  {
    var track := new TimeTrack(false, false, 0.9, 1.1);
    var data := new InitMenuData(track);
    var menu := new Menu();
    var history := new ProjectHistory();
    var table := new TimeTrackMenuTable();
    table.InitMenu(menu, data);
    assert menu.checked[OnTimeTrackLinID] && !menu.checked[OnTimeTrackLogID];

    var dialog := new NumberDialog([50, 150]);
    table.OnSetTimeTrackRange(dialog, history);
    assert track.rangeLower == 0.5 && track.rangeUpper == 1.5;
    assert |history.entries| == 1 && data.result == {RefreshAll};

    table.OnTimeTrackLog(history);
    assert track.displayLog && track.rangeLower == 0.5;
    assert |history.entries| == 2 && data.result == {RefreshAll, UpdateVRuler};

    table.DestroyMenu();
    assert table.mpData == null;
  }
}
