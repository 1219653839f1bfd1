/** The per-frame anchoring system: find the one primary window and the one
    marked camera, compute the camera's transform, and then place every
    anchored UI node independently. */
module MoveSystem {
  import opened Options
  import opened Ecs
  import opened Ui
  import Anchor
  import opened Placement

  /** One match of the anchored-node query: the UI entity, its style, its
      laid-out size and its anchoring configuration. */
  datatype UiEntry = UiEntry(entity: Entity, node: Node, computed: ComputedNode, anchor: Anchor.AnchorUiNode)

  /** The window and camera to place against, or `None` when the system has
      nothing to do this frame: no primary window or several, no marked
      camera or several, or a camera whose transform cannot be computed. */
  function ResolveViewport(windows: seq<Window>, cameras: seq<Entity>, transforms: TransformLookup)
    : (r: Option<Viewport>)
    ensures r.Some? <==> |windows| == 1 && |cameras| == 1 && transforms(cameras[0]).Some?
    ensures r.Some? ==> r.value == Viewport(windows[0].height, cameras[0], transforms(cameras[0]).value)
  {
    match GetSingle(windows)
    case Err(_) => None
    case Ok(window) =>
      match GetSingle(cameras)
      case Err(_) => None
      case Ok(camera) =>
        match transforms(camera)
        case None => None
        case Some(t) => Some(Viewport(window.height, camera, t))
  }

  /** The query's entries with only the node style replaced by its placed version. */
  function PlaceEntry(entry: UiEntry, vp: Viewport, transforms: TransformLookup, project: Projection): UiEntry
  {
    entry.(node := PlaceNode(entry.anchor, entry.node, entry.computed, vp, transforms, project))
  }

  /** Every entry placed, in query order. */
  function PlaceAll(entries: seq<UiEntry>, vp: Viewport, transforms: TransformLookup, project: Projection)
    : (r: seq<UiEntry>)
    ensures |r| == |entries|
    ensures forall i :: 0 <= i < |r| ==>
      && r[i].entity == entries[i].entity
      && r[i].computed == entries[i].computed
      && r[i].anchor == entries[i].anchor
      && r[i].node == PlaceNode(entries[i].anchor, entries[i].node, entries[i].computed, vp, transforms, project)
    decreases |entries|
  {
    if |entries| == 0 then []
    else [PlaceEntry(entries[0], vp, transforms, project)] + PlaceAll(entries[1..], vp, transforms, project)
  }

  /** One run of the system over the anchored-node query. */
  function MoveUiNodes(windows: seq<Window>, cameras: seq<Entity>, entries: seq<UiEntry>,
                       transforms: TransformLookup, project: Projection): (r: seq<UiEntry>)
    ensures |r| == |entries|
    ensures forall i :: 0 <= i < |r| ==>
      r[i].entity == entries[i].entity && r[i].computed == entries[i].computed && r[i].anchor == entries[i].anchor
    ensures ResolveViewport(windows, cameras, transforms).None? ==> r == entries
    ensures ResolveViewport(windows, cameras, transforms).Some? ==>
      forall i :: 0 <= i < |r| ==>
        r[i].node == PlaceNode(entries[i].anchor, entries[i].node, entries[i].computed,
                               ResolveViewport(windows, cameras, transforms).value, transforms, project)
  {
    match ResolveViewport(windows, cameras, transforms)
    case None => entries
    case Some(vp) => PlaceAll(entries, vp, transforms, project)
  }

  /** A node whose target cannot be resolved or is off screen keeps its
      style exactly, whatever else the frame does. */
  lemma SkippedNodesUnchanged(windows: seq<Window>, cameras: seq<Entity>, entries: seq<UiEntry>,
                              transforms: TransformLookup, project: Projection, i: nat)
    requires i < |entries|
    requires ResolveViewport(windows, cameras, transforms).None? ||
      ScreenPosition(entries[i].anchor, ResolveViewport(windows, cameras, transforms).value, transforms, project).None?
    ensures MoveUiNodes(windows, cameras, entries, transforms, project)[i] == entries[i]
  {}

  /** Placing is done node by node: placing a concatenation places each part. */
  lemma PlaceAllDistributes(a: seq<UiEntry>, b: seq<UiEntry>, vp: Viewport,
                             transforms: TransformLookup, project: Projection)
    ensures PlaceAll(a + b, vp, transforms, project)
         == PlaceAll(a, vp, transforms, project) + PlaceAll(b, vp, transforms, project)
  {}

  /** The system treats the nodes independently of one another: running it
      over two groups of nodes together is running it over each group. */
  lemma MoveUiNodesDistributes(windows: seq<Window>, cameras: seq<Entity>, a: seq<UiEntry>, b: seq<UiEntry>,
                               transforms: TransformLookup, project: Projection)
    ensures MoveUiNodes(windows, cameras, a + b, transforms, project)
         == MoveUiNodes(windows, cameras, a, transforms, project) + MoveUiNodes(windows, cameras, b, transforms, project)
  {}

  /** A second run with the same window, camera, transforms and projection
      leaves every node where the first run put it. */
  lemma PlaceAllIdempotent(entries: seq<UiEntry>, vp: Viewport,
                            transforms: TransformLookup, project: Projection)
    ensures PlaceAll(PlaceAll(entries, vp, transforms, project), vp, transforms, project)
         == PlaceAll(entries, vp, transforms, project)
  {}

  /** Running the system twice in a frame is the same as running it once. */
  lemma MoveUiNodesIdempotent(windows: seq<Window>, cameras: seq<Entity>, entries: seq<UiEntry>,
                              transforms: TransformLookup, project: Projection)
    ensures var once := MoveUiNodes(windows, cameras, entries, transforms, project);
      MoveUiNodes(windows, cameras, once, transforms, project) == once
  {}
}
