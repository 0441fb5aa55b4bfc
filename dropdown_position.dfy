/** `hooks/use-dropdown-position.ts`: on which side of its trigger a dropdown opens and how tall
    it may grow. Lengths are exact reals. */
module DropdownPosition {

  import opened Wrappers

  datatype Side = Top | Bottom

  datatype Position = Position(side: Side, maxHeight: real)

  /** The element's bounding rectangle, as far as the rule reads it. */
  datatype Rect = Rect(top: real, bottom: real)

  /** The state before any measurement. */
  const InitialPosition: Position := Position(Bottom, 300.0)

  /** A JavaScript number option is truthy when it is present and not 0. */
  predicate IsTruthy(margin: Option<real>) {
    margin.Some? && margin.value != 0.0
  }

  function MarginOf(margin: Option<real>): real {
    if IsTruthy(margin) then margin.value else 0.0
  }

  function Max(a: real, b: real): real {
    if a < b then b else a
  }

  /** `updatePosition`: with no element the position stays; otherwise the side with more room
      (below on a tie) and that room less the margin, without clamping. */
  function UpdatePosition(current: Position, element: Option<Rect>, innerHeight: real, margin: Option<real>)
    : (p: Position)
    ensures element.None? ==> p == current
    ensures element.Some? ==>
      var spaceBelow := innerHeight - element.value.bottom;
      var spaceAbove := element.value.top;
      && (p.side == Bottom <==> spaceBelow >= spaceAbove)
      && p.maxHeight + MarginOf(margin) == (if p.side == Bottom then spaceBelow else spaceAbove)
  {
    match element
    case None => current
    case Some(rect) =>
      var spaceBelow := innerHeight - rect.bottom;
      var spaceAbove := rect.top;
      if spaceBelow >= spaceAbove then
        Position(Bottom, if IsTruthy(margin) then spaceBelow - margin.value else spaceBelow)
      else
        Position(Top, if IsTruthy(margin) then spaceAbove - margin.value else spaceAbove)
  }

  /** The dropdown gets the larger of the two spaces, less the margin. */
  lemma UpdateTakesLargerSpace(current: Position, rect: Rect, innerHeight: real, margin: Option<real>)
    ensures UpdatePosition(current, Some(rect), innerHeight, margin).maxHeight
         == Max(innerHeight - rect.bottom, rect.top) - MarginOf(margin)
  {
  }

  /** A measurement decides the position alone: the earlier position does not matter, so
      measuring again without a change is a no-op. */
  lemma UpdateIgnoresCurrent(a: Position, b: Position, rect: Rect, innerHeight: real, margin: Option<real>)
    ensures UpdatePosition(a, Some(rect), innerHeight, margin) == UpdatePosition(b, Some(rect), innerHeight, margin)
    ensures var p := UpdatePosition(a, Some(rect), innerHeight, margin);
      UpdatePosition(p, Some(rect), innerHeight, margin) == p
  {
  }

  /** Nothing bounds the result: a margin larger than the room gives a negative height. */
  lemma MaxHeightCanBeNegative()
    ensures UpdatePosition(InitialPosition, Some(Rect(10.0, 90.0)), 100.0, Some(20.0)) == Position(Bottom, -10.0)
  {
  }
}
