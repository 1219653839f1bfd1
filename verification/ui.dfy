/** The UI layout values the anchoring system reads and writes. */
module Ui {
  import opened Math

  /** A length in the UI layout; `Px` is a logical pixel count. */
  datatype Val =
    | Auto
    | Px(px: real)
    | Percent(percent: real)
    | Vw(vw: real)
    | Vh(vh: real)
    | VMin(vmin: real)
    | VMax(vmax: real)

  datatype PositionType = Relative | Absolute

  /** The style of a UI node, restricted to the fields the anchoring system
      reads (`width`, `height`) or writes (`positionType`, `left`, `bottom`),
      plus `right` and `top`, which it must leave alone. */
  datatype Node = Node(
    positionType: PositionType,
    left: Val,
    right: Val,
    top: Val,
    bottom: Val,
    width: Val,
    height: Val)

  /** The size the layout pass computed for a node, in physical pixels, and
      the factor that converts physical to logical pixels. */
  datatype ComputedNode = ComputedNode(size: Vec2, inverseScaleFactor: real)
}
