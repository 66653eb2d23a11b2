/** Where a ripple starts and ends, and where a state layer sits.
    `RippleInfo::new`, `RippleInfo::get_size` and `RipplePosition::new` (f32
    `floor`, `hypot` and a division by the initial size) are not part of this
    model: a ripple's geometry enters the components as a value computed
    elsewhere. */
module Geometry {
  import Theme
  import opened Wrappers

  datatype Point2D = Point2D(x: real, y: real)

  /** The ripple's start and end corner, its initial diameter and the
      factor it grows by. */
  datatype RippleInfo = RippleInfo(start: Point2D, end: Point2D, radius: real, scale: real) {

    /** The radius the ripple grows to. */
    function FinalRadius(): real {
      radius * scale
    }
  }

  /** How a component places its state layer: the `color`, `position_left`
      and, where given, `position_top` props. */
  datatype Placement = Placement(color: Theme.Color, left: int, top: Option<int>)
}
