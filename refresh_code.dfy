/** The refresh codes a track-panel command hands back to the panel: each flag
    names one part of the view to repaint after the command. A code is a set of
    flags; the empty set is "refresh nothing". */
module RefreshCode {

  datatype Flag = RefreshAll | UpdateVRuler

  type Code = set<Flag>

  const RefreshNone: Code := {}

  /** What the scale commands return: repaint everything, and the vertical
      ruler too, since its axis changes between linear and logarithmic. */
  const RefreshAllAndVRuler: Code := {RefreshAll, UpdateVRuler}

  /** What the interpolation and range commands return. */
  const RefreshAllOnly: Code := {RefreshAll}
}
