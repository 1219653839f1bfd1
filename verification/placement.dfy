/** One step of the anchoring system for a single UI node: resolve the
    target to a world point, shift it by the offset, project it onto the
    viewport, and place the node so that its anchored point lands on the
    projected position. */
module Placement {
  import opened Options
  import opened Math
  import Ecs
  import opened Ui
  import opened Anchor

  /** Global transform of an entity, if it can be computed (an entity
      without a transform, or a broken hierarchy, yields `None`). */
  type TransformLookup = Ecs.Entity -> Option<GlobalTransform>

  /** Viewport position (x right, y down, logical pixels) and depth of a
      world point as seen by the given camera placed at the given transform;
      `None` when the point is not visible. */
  type Projection = (Ecs.Entity, GlobalTransform, Vec3) -> Option<Vec3>

  /** The window and camera a frame is placed against, once the system's
      guards have passed. */
  datatype Viewport = Viewport(windowHeight: real, camera: Ecs.Entity, cameraTransform: GlobalTransform)

  /** The world point a target stands for. */
  function WorldLocation(target: AnchorTarget, transforms: TransformLookup): (r: Option<Vec3>)
    ensures target.Translation? ==> r == Some(target.translation)
    ensures target.Entity? ==> (r.Some? <==> transforms(target.entity).Some?)
    ensures target.Entity? && r.Some? ==> r.value == transforms(target.entity).value.translation
  {
    match target
    case Entity(e) =>
      (match transforms(e)
       case Some(gt) => Some(gt.translation)
       case None => None)
    case Translation(p) => Some(p)
  }

  /** The world point after the optional offset is applied. */
  function ApplyOffset(location: Vec3, offset: Option<Vec3>): (r: Vec3)
    ensures offset.None? ==> r == location
    ensures offset.Some? ==> Sub(r, offset.value) == location
  {
    match offset
    case Some(o) => Add(location, o)
    case None => location
  }

  /** Where on the viewport the node's target appears, if anywhere. */
  function ScreenPosition(anchor: AnchorUiNode, vp: Viewport, transforms: TransformLookup, project: Projection)
    : (r: Option<Vec3>)
    ensures r.None? <==>
      WorldLocation(anchor.target, transforms).None? ||
      project(vp.camera, vp.cameraTransform, ApplyOffset(WorldLocation(anchor.target, transforms).value, anchor.offset)).None?
    ensures r.Some? ==>
      r == project(vp.camera, vp.cameraTransform, ApplyOffset(WorldLocation(anchor.target, transforms).value, anchor.offset))
  {
    match WorldLocation(anchor.target, transforms)
    case None => None
    case Some(location) => project(vp.camera, vp.cameraTransform, ApplyOffset(location, anchor.offset))
  }

  /** Width of the node in logical pixels: the explicit pixel width if the
      style sets one, otherwise the computed width scaled back to logical
      pixels. Without a pixel width, converting the result back to physical
      pixels gives the laid-out width. */
  function NodeWidth(node: Node, computed: ComputedNode): (w: real)
    ensures node.width.Px? ==> w == node.width.px
    ensures !node.width.Px? && computed.inverseScaleFactor != 0.0 ==> w / computed.inverseScaleFactor == computed.size.x
  {
    if node.width.Px? then node.width.px else computed.size.x * computed.inverseScaleFactor
  }

  /** Height of the node in logical pixels, chosen like `NodeWidth`. */
  function NodeHeight(node: Node, computed: ComputedNode): (h: real)
    ensures node.height.Px? ==> h == node.height.px
    ensures !node.height.Px? && computed.inverseScaleFactor != 0.0 ==> h / computed.inverseScaleFactor == computed.size.y
  {
    if node.height.Px? then node.height.px else computed.size.y * computed.inverseScaleFactor
  }

  /** The `left` offset that puts the anchored point of a node of width `w`
      at viewport column `x`. */
  function LeftPos(h: HorizontalAnchor, x: real, w: real): (r: real)
    ensures r + HorizontalFraction(h) * w == x
  {
    match h
    case Left => x
    case Mid => x - w / 2.0
    case Right => x - w
  }

  /** The `bottom` offset that puts the anchored point of a node of height
      `h` at viewport row `y`. The viewport's y axis points down from the top
      of the window while `bottom` is measured up from its bottom edge, so
      the anchored point's distance from the top of the window is `y`. */
  function BottomPos(v: VerticalAnchor, windowHeight: real, y: real, h: real): (r: real)
    ensures windowHeight - (r + VerticalFraction(v) * h) == y
  {
    match v
    case Top => windowHeight - y - h
    case Mid => windowHeight - y - h / 2.0
    case Bottom => windowHeight - y
  }

  /** Whether a newly computed position should replace the current one. The
      early return makes the one-pixel hysteresis that follows it
      unreachable, so every new position is taken. */
  function CheckIfNotClose(current: Val, next: Val): (r: bool)
    ensures r
  {
    true
  }

  /** The node's style after one step of the anchoring system. */
  function PlaceNode(anchor: AnchorUiNode, node: Node, computed: ComputedNode, vp: Viewport,
                     transforms: TransformLookup, project: Projection): (r: Node)
    ensures anchor.target.Entity? && transforms(anchor.target.entity).None? ==> r == node
    ensures ScreenPosition(anchor, vp, transforms, project).None? ==> r == node
    ensures ScreenPosition(anchor, vp, transforms, project).Some? ==>
      var p := ScreenPosition(anchor, vp, transforms, project).value;
      && r.positionType == Absolute
      && r.left.Px?
      && r.bottom.Px?
      && r.left.px + HorizontalFraction(anchor.anchorwidth) * NodeWidth(node, computed) == p.x
      && vp.windowHeight - (r.bottom.px + VerticalFraction(anchor.anchorheight) * NodeHeight(node, computed)) == p.y
      && r == node.(positionType := Absolute, left := r.left, bottom := r.bottom)
  {
    match ScreenPosition(anchor, vp, transforms, project)
    case None => node
    case Some(p) =>
      var positioned := node.(positionType := Absolute);
      var leftpos := Px(LeftPos(anchor.anchorwidth, p.x, NodeWidth(positioned, computed)));
      var horizontal := if CheckIfNotClose(positioned.left, leftpos) then positioned.(left := leftpos) else positioned;
      var bottompos := Px(BottomPos(anchor.anchorheight, vp.windowHeight, p.y, NodeHeight(horizontal, computed)));
      if CheckIfNotClose(horizontal.bottom, bottompos) then horizontal.(bottom := bottompos) else horizontal
  }

  /** The three horizontal anchors place the node consistently: the centre
      placement lies halfway between the edge placements, which are one
      node width apart, and a wider anchor fraction moves the node left. */
  lemma HorizontalAnchorsRelate(x: real, w: real)
    ensures LeftPos(HorizontalAnchor.Mid, x, w) == (LeftPos(Left, x, w) + LeftPos(Right, x, w)) / 2.0
    ensures LeftPos(Left, x, w) - LeftPos(Right, x, w) == w
    ensures w >= 0.0 ==> LeftPos(Left, x, w) >= LeftPos(HorizontalAnchor.Mid, x, w) >= LeftPos(Right, x, w)
  {}

  /** The three vertical anchors place the node consistently: bottom- and
      top-anchored placements are one node height apart, the centre lies
      halfway between, and for a node of non-negative height `bottom` grows
      with the anchors' declared order Top < Mid < Bottom. */
  lemma VerticalAnchorsRelate(windowHeight: real, y: real, h: real)
    ensures BottomPos(Bottom, windowHeight, y, h) - BottomPos(Top, windowHeight, y, h) == h
    ensures BottomPos(VerticalAnchor.Mid, windowHeight, y, h)
         == (BottomPos(Top, windowHeight, y, h) + BottomPos(Bottom, windowHeight, y, h)) / 2.0
    ensures h >= 0.0 ==> forall a, b :: VerticalRank(a) <= VerticalRank(b) ==>
      BottomPos(a, windowHeight, y, h) <= BottomPos(b, windowHeight, y, h)
  {}

  /** When the node's style gives no pixel size, the size used for
      placement is the laid-out physical size converted back to the logical
      size it was computed from; an explicit pixel size is used as is. */
  lemma NodeSizeIsLogical(node: Node, logical: Vec2, scale: real)
    requires scale > 0.0
    ensures var computed := ComputedNode(Vec2(logical.x * scale, logical.y * scale), 1.0 / scale);
      && NodeWidth(node, computed) == (if node.width.Px? then node.width.px else logical.x)
      && NodeHeight(node, computed) == (if node.height.Px? then node.height.px else logical.y)
  {}

  /** Placement does not depend on where the node was before: two nodes
      that differ only in position type, `left` and `bottom` end up
      identical once their target is on screen. */
  lemma PlacementForgetsPriorPosition(anchor: AnchorUiNode, n1: Node, n2: Node, computed: ComputedNode,
                                      vp: Viewport, transforms: TransformLookup, project: Projection)
    requires n1.width == n2.width && n1.height == n2.height && n1.right == n2.right && n1.top == n2.top
    requires ScreenPosition(anchor, vp, transforms, project).Some?
    ensures PlaceNode(anchor, n1, computed, vp, transforms, project)
         == PlaceNode(anchor, n2, computed, vp, transforms, project)
  {}

  /** Placing an already placed node again changes nothing. */
  lemma PlaceNodeIdempotent(anchor: AnchorUiNode, node: Node, computed: ComputedNode, vp: Viewport,
                            transforms: TransformLookup, project: Projection)
    ensures var once := PlaceNode(anchor, node, computed, vp, transforms, project);
      PlaceNode(anchor, once, computed, vp, transforms, project) == once
  {}
}
