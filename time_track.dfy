/** The display parameters of a time track that its context menu reads and
    changes: scale mode, interpolation mode and the speed range, the range held
    as exact fractions (1.0 is 100 %). */
module Tracks {

  /** The four parameters as a value. */
  datatype TrackState = TrackState(
    displayLog: bool,
    interpolateLog: bool,
    rangeLower: real,
    rangeUpper: real)

  class TimeTrack {
    var displayLog: bool
    var interpolateLog: bool
    var rangeLower: real
    var rangeUpper: real

    constructor (displayLog: bool, interpolateLog: bool, rangeLower: real, rangeUpper: real)
      ensures State() == TrackState(displayLog, interpolateLog, rangeLower, rangeUpper)
    {
      this.displayLog := displayLog;
      this.interpolateLog := interpolateLog;
      this.rangeLower := rangeLower;
      this.rangeUpper := rangeUpper;
    }

    /** The track's parameters as a value. */
    function State(): TrackState
      reads this
    {
      TrackState(displayLog, interpolateLog, rangeLower, rangeUpper)
    }
  }
}
