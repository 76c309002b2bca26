/**
 * The hover rule that both revisions' `Button.update` share
 * (pyboids/app/gui.py and app/utils.py). A motion event is `Some(inside)`, where
 * `inside` is the outcome of the cursor-inside-rect test; no motion event is `None`.
 */
module Hovering {
  import opened Options

  /** The hover flag after the motion step of one update. */
  function NextHover(hover: bool, motion: Option<bool>): (r: bool)
    ensures motion.Some? ==> r == motion.value
    ensures motion.None? ==> r == hover
  {
    match motion
    case None => hover
    case Some(inside) =>
      if hover && !inside then false
      else if !hover && inside then true
      else hover
  }
}
