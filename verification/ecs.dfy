/** The few pieces of the entity-component runtime the anchoring system
    touches: entity identifiers, the primary window, and the "exactly one
    match" query accessor. */
module Ecs {
  import opened Options

  /** An entity identifier (slot index and generation). */
  datatype Entity = Entity(index: nat, generation: nat)

  /** A window, by its logical height in pixels. */
  datatype Window = Window(height: real)

  /** Why a query that expects exactly one match did not get one. */
  datatype QuerySingleError = NoEntities | MultipleEntities

  /** The single match of a query, or why there is not exactly one. */
  function GetSingle<T>(matches: seq<T>): (r: Result<T, QuerySingleError>)
    ensures r.Ok? <==> |matches| == 1
    ensures r.Ok? ==> r.value == matches[0]
    ensures r == Err(NoEntities) <==> |matches| == 0
    ensures r == Err(MultipleEntities) <==> |matches| > 1
  {
    if |matches| == 0 then Err(NoEntities)
    else if |matches| == 1 then Ok(matches[0])
    else Err(MultipleEntities)
  }
}
