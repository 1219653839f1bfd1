# Anchored UI placement, modelled in Dafny

This project models the anchoring logic of `bevy_ui_anchor`: a per-frame system that keeps a UI node
pinned to a point in the 3D world. Each anchored node carries an `AnchorUiNode` configuration naming its
target (another entity, or a fixed world point), which point of the node is pinned (left/centre/right
across, top/centre/bottom along) and an optional world-space offset. Every frame the system finds the one
primary window and the one marked camera, resolves each node's target to a world point, shifts it by the
offset, projects it onto the viewport, switches the node to absolute positioning and writes its `left`
and `bottom` so that the pinned point lands on the projected position.

Layout, one module per concept:

- `options.dfy` (`Options`): `Option` and `Result`.
- `math.dfy` (`Math`): vectors and the global transform, with coordinates as `real`.
- `ecs.dfy` (`Ecs`): entities, the window, and the "exactly one match" query accessor.
- `ui.dfy` (`Ui`): `Val`, `PositionType`, the node style and the computed node size.
- `anchor.dfy` (`Anchor`): the configuration, its constructors and builders, and the meaning of each anchor
  as a fraction of the node's width or height.
- `placement.dfy` (`Placement`): the per-node step.
- `system.dfy` (`MoveSystem`): the frame guards and the step mapped over all anchored nodes.

The two calls into the engine are parameters of the model, as total functions returning `Option`:

- `TransformLookup` computes an entity's global transform.
- `Projection` projects a world point to the viewport for a camera at a given transform.

The horizontal anchors mean 0, 1/2 and 1 of the node's width, measured from its left edge. The vertical
anchors mean 1, 1/2 and 0 of its height, measured up from its bottom edge. The contracts state that the
pinned point lands on the projected position, rather than repeating the placement formulas.

## Model

| member | source | states |
|---|---|---|
| `Ecs.GetSingle` | src/lib.rs:112-127 | the single-match query succeeds exactly when there is one match and yields it; no match and several matches are told apart |
| `Anchor.ToEntity` | src/lib.rs:49-57 | targets the given entity, pins the node's centre (half width, half height) and has no offset |
| `Anchor.ToTranslation` | src/lib.rs:58-66 | targets the given world point, pins the node's centre and has no offset |
| `Anchor.WithOffset` | src/lib.rs:67-70 | sets the offset to `Some(o)` and keeps target and both anchors |
| `Anchor.WithHorizontalAnchoring` | src/lib.rs:71-74 | sets the horizontal anchor and keeps target, vertical anchor and offset |
| `Anchor.WithVerticalAnchoring` | src/lib.rs:75-78 | sets the vertical anchor and keeps target, horizontal anchor and offset |
| `Anchor.ConstructorsDifferOnlyInTarget` | src/lib.rs:50-66 | the two constructors produce configurations that agree on everything except the target |
| `Anchor.BuildersCommute` | src/lib.rs:67-78 | any two builders that set different fields give the same configuration in either order |
| `Anchor.BuildersLastWins` | src/lib.rs:67-78 | applying a builder twice keeps only the later value |
| `Anchor.BuildersReachEveryConfig` | src/lib.rs:50-78 | every configuration, for both kinds of target and with or without an offset, is the matching constructor followed by the two anchoring builders and, exactly when there is an offset, `WithOffset` |
| `Anchor.VerticalRank` | src/lib.rs:16-22 | the derived ordering of vertical anchors follows declaration order: Top is least, Bottom greatest, Mid between; `Placement.VerticalAnchorsRelate` uses it to state that `bottom` is monotone in the anchor |
| `Math.Add` | src/lib.rs:148 | vector sum, undone by subtracting either operand |
| `Placement.WorldLocation` | src/lib.rs:135-145 | a fixed-point target always resolves to its point; an entity target resolves exactly when its transform can be computed, to that transform's translation |
| `Placement.ApplyOffset` | src/lib.rs:147-151 | no offset leaves the world point unchanged; an offset `o` shifts it so that subtracting `o` gives the original point back |
| `Placement.ScreenPosition` | src/lib.rs:133-159 | there is a screen position exactly when the target resolves and the offset point projects, and it is the projection of the offset point |
| `Placement.NodeWidth` | src/lib.rs:165-169 | an explicit pixel width is used as is; otherwise the width, converted back to physical pixels, is the laid-out width (partner: `Placement.NodeSizeIsLogical`) |
| `Placement.NodeHeight` | src/lib.rs:182-186 | an explicit pixel height is used as is; otherwise the height, converted back to physical pixels, is the laid-out height (partner: `Placement.NodeSizeIsLogical`) |
| `Placement.LeftPos` | src/lib.rs:170-174 | the resulting `left` plus the anchor's fraction of the node width is the projected x, so the pinned point lands on it |
| `Placement.BottomPos` | src/lib.rs:180-192 | the window height minus the pinned point's height above the window bottom is the projected (downward) y |
| `Placement.CheckIfNotClose` | src/lib.rs:200-202 | every newly computed position is accepted: the one-pixel threshold after the early return is unreachable |
| `Placement.PlaceNode` | src/lib.rs:133-197 | an unresolved entity target or an off-screen point leaves the node exactly as it was; otherwise the node becomes absolute, `left` and `bottom` become pixel values placing the pinned point on the projected position, and no other style field changes |
| `Placement.HorizontalAnchorsRelate` | src/lib.rs:170-174 | the centre placement is the midpoint of the left and right placements; left minus right is the node width; for non-negative width left ≥ centre ≥ right |
| `Placement.VerticalAnchorsRelate` | src/lib.rs:188-192 | bottom-anchored minus top-anchored `bottom` is the node height; the centre lies halfway between; for non-negative height `bottom` grows with the anchors' declared order Top < Mid < Bottom |
| `Placement.NodeSizeIsLogical` | src/lib.rs:165-186 | an explicit pixel width or height is used as is; otherwise the computed physical size times the inverse scale factor recovers the logical size |
| `Placement.PlacementForgetsPriorPosition` | src/lib.rs:161-196 | once the target is on screen, the placed node does not depend on its previous position type, `left` or `bottom` |
| `Placement.PlaceNodeIdempotent` | src/lib.rs:133-197 | placing an already placed node with the same inputs leaves every style value as the first placement set it |
| `MoveSystem.ResolveViewport` | src/lib.rs:112-131 | the frame proceeds exactly when there is one primary window, one marked camera and the camera's transform can be computed, and then uses that window's height, that camera and its transform |
| `MoveSystem.PlaceAll` | src/lib.rs:133-197 | every entry is placed by the per-node step, keeps its entity, computed size and configuration, and the order and count of entries are preserved |
| `MoveSystem.MoveUiNodes` | src/lib.rs:106-198 | when the frame guards fail no node changes; otherwise each node's style is the per-node step's result and nothing else about the entries changes |
| `MoveSystem.SkippedNodesUnchanged` | src/lib.rs:136-159 | a node is left exactly as it was when the frame guards fail, or when its target is unresolved or off screen |
| `MoveSystem.PlaceAllDistributes` | src/lib.rs:133-197 | placing a concatenation of entries is placing each part |
| `MoveSystem.MoveUiNodesDistributes` | src/lib.rs:106-198 | one run over two groups of nodes equals a run over each group, so nodes do not affect one another |
| `MoveSystem.PlaceAllIdempotent` | src/lib.rs:133-197 | placing all entries a second time with the same inputs leaves every style value as the first pass set it |
| `MoveSystem.MoveUiNodesIdempotent` | src/lib.rs:106-198 | running the system a second time with the same window, camera, transforms and projection leaves every style value as the first run set it |

## Left out

- Plugin construction and registration (`AnchorUiPlugin`, `build`): they only schedule the system before transform propagation and layout, and register the type for reflection.
- The ECS queries themselves: the query results become sequences. Their iteration order does not matter, because `MoveSystem.MoveUiNodesDistributes` shows that nodes are independent.
- Global transform computation and the camera's world-to-viewport projection are engine calls. They are the parameters `TransformLookup` and `Projection`. The window height is a plain number.
- Logging (`warn!`, `error!`, `debug!`). The only difference between the `NoEntities` and `MultipleEntities` query errors is logging, so both just skip the frame.
- Single-precision floating point. Coordinates are exact reals, so rounding, NaN and infinities are not modelled.
- The one-pixel comparison after `return true` in `check_if_not_close`: it is unreachable code.
- Change detection: the style is a plain value with no change ticks. A placed node's writes mark it changed on every frame, even when the values are the same, because `check_if_not_close` always allows the write. A skipped node is never marked. The idempotence lemmas are about style values only.
- The derived `Default` of both anchor enums (`Mid`) is not a separate member. The constructors, which pin the centre, are the only places the model produces these defaults.
- Node style fields other than position type, `left`, `right`, `top`, `bottom`, `width` and `height`: the system neither reads nor writes them.
- The example programs. They are demo scenes, and some of them are written against a different version of this API.
