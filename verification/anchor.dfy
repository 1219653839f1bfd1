/** The anchoring configuration attached to a UI node: what it follows, which
    point of the node is pinned to that target, and an optional world-space
    offset, together with its constructors and builders. */
module Anchor {
  import opened Options
  import opened Math
  import Ecs

  /** What the node follows: another entity's global position, or a fixed
      point in the world. */
  datatype AnchorTarget = Entity(entity: Ecs.Entity) | Translation(translation: Vec3)

  /** Which point across the node's width is pinned to the target. */
  datatype HorizontalAnchor = Left | Mid | Right

  /** Which point along the node's height is pinned to the target. */
  datatype VerticalAnchor = Top | Mid | Bottom

  datatype AnchorUiNode = AnchorUiNode(
    target: AnchorTarget,
    anchorwidth: HorizontalAnchor,
    anchorheight: VerticalAnchor,
    offset: Option<Vec3>)

  /** Where the pinned point sits across the node, as a fraction of its width
      measured from the left edge. */
  function HorizontalFraction(h: HorizontalAnchor): real
  {
    match h
    case Left => 0.0
    case Mid => 0.5
    case Right => 1.0
  }

  /** Where the pinned point sits along the node, as a fraction of its height
      measured up from the bottom edge. */
  function VerticalFraction(v: VerticalAnchor): real
  {
    match v
    case Top => 1.0
    case Mid => 0.5
    case Bottom => 0.0
  }

  /** Position of a vertical anchor in the derived ordering (declaration
      order: Top < Mid < Bottom). */
  function VerticalRank(v: VerticalAnchor): (r: nat)
    ensures r <= 2
    ensures r == 0 <==> v == Top
    ensures r == 2 <==> v == Bottom
  {
    match v
    case Top => 0
    case Mid => 1
    case Bottom => 2
  }

  /** Follow an entity, pinning the node's centre, without offset. */
  function ToEntity(e: Ecs.Entity): (r: AnchorUiNode)
    ensures r.target == Entity(e)
    ensures HorizontalFraction(r.anchorwidth) == 0.5
    ensures VerticalFraction(r.anchorheight) == 0.5
    ensures r.offset == None
  {
    AnchorUiNode(Entity(e), HorizontalAnchor.Mid, VerticalAnchor.Mid, None)
  }

  /** Follow a fixed world point, pinning the node's centre, without offset. */
  function ToTranslation(p: Vec3): (r: AnchorUiNode)
    ensures r.target == Translation(p)
    ensures HorizontalFraction(r.anchorwidth) == 0.5
    ensures VerticalFraction(r.anchorheight) == 0.5
    ensures r.offset == None
  {
    AnchorUiNode(Translation(p), HorizontalAnchor.Mid, VerticalAnchor.Mid, None)
  }

  function WithOffset(a: AnchorUiNode, o: Vec3): (r: AnchorUiNode)
    ensures r.offset == Some(o)
    ensures r.target == a.target && r.anchorwidth == a.anchorwidth && r.anchorheight == a.anchorheight
  {
    a.(offset := Some(o))
  }

  function WithHorizontalAnchoring(a: AnchorUiNode, h: HorizontalAnchor): (r: AnchorUiNode)
    ensures r.anchorwidth == h
    ensures r.target == a.target && r.anchorheight == a.anchorheight && r.offset == a.offset
  {
    a.(anchorwidth := h)
  }

  function WithVerticalAnchoring(a: AnchorUiNode, v: VerticalAnchor): (r: AnchorUiNode)
    ensures r.anchorheight == v
    ensures r.target == a.target && r.anchorwidth == a.anchorwidth && r.offset == a.offset
  {
    a.(anchorheight := v)
  }

  /** The two constructors agree on everything but the target. */
  lemma ConstructorsDifferOnlyInTarget(e: Ecs.Entity, p: Vec3)
    ensures ToEntity(e).(target := Translation(p)) == ToTranslation(p)
    ensures ToTranslation(p).(target := Entity(e)) == ToEntity(e)
  {}

  /** Builders that set different fields can be applied in either order. */
  lemma BuildersCommute(a: AnchorUiNode, o: Vec3, h: HorizontalAnchor, v: VerticalAnchor)
    ensures WithHorizontalAnchoring(WithOffset(a, o), h) == WithOffset(WithHorizontalAnchoring(a, h), o)
    ensures WithVerticalAnchoring(WithOffset(a, o), v) == WithOffset(WithVerticalAnchoring(a, v), o)
    ensures WithVerticalAnchoring(WithHorizontalAnchoring(a, h), v)
         == WithHorizontalAnchoring(WithVerticalAnchoring(a, v), h)
  {}

  /** Applying the same builder twice keeps only the later value. */
  lemma BuildersLastWins(a: AnchorUiNode, o1: Vec3, o2: Vec3, h1: HorizontalAnchor, h2: HorizontalAnchor,
                         v1: VerticalAnchor, v2: VerticalAnchor)
    ensures WithOffset(WithOffset(a, o1), o2) == WithOffset(a, o2)
    ensures WithHorizontalAnchoring(WithHorizontalAnchoring(a, h1), h2) == WithHorizontalAnchoring(a, h2)
    ensures WithVerticalAnchoring(WithVerticalAnchoring(a, v1), v2) == WithVerticalAnchoring(a, v2)
  {}

  /** Every configuration is reachable from a constructor by the builders:
      the constructor fixes the target, the anchoring builders set both
      anchors, and `WithOffset` is applied exactly when there is an offset. */
  lemma BuildersReachEveryConfig(a: AnchorUiNode)
    ensures a.target.Entity? && a.offset.Some? ==>
      a == WithOffset(WithVerticalAnchoring(WithHorizontalAnchoring(ToEntity(a.target.entity), a.anchorwidth), a.anchorheight), a.offset.value)
    ensures a.target.Entity? && a.offset.None? ==>
      a == WithVerticalAnchoring(WithHorizontalAnchoring(ToEntity(a.target.entity), a.anchorwidth), a.anchorheight)
    ensures a.target.Translation? && a.offset.Some? ==>
      a == WithOffset(WithVerticalAnchoring(WithHorizontalAnchoring(ToTranslation(a.target.translation), a.anchorwidth), a.anchorheight), a.offset.value)
    ensures a.target.Translation? && a.offset.None? ==>
      a == WithVerticalAnchoring(WithHorizontalAnchoring(ToTranslation(a.target.translation), a.anchorwidth), a.anchorheight)
  {}
}
