/** Direction.swift: the two horizontal walking directions and their raw values. */
module Directions {
  import opened Wrappers

  datatype Direction = Left | Right {

    /** `rawValue`: left = 1, right = -1. */
    function RawValue(): (n: int)
      ensures n == 1 || n == -1
    {
      match this
      case Left => 1
      case Right => -1
    }
  }

  /** `Direction(rawValue:)`, the partial inverse of RawValue. */
  function DirectionOfRaw(n: int): (d: Option<Direction>)
    ensures d.Some? <==> (n == 1 || n == -1)
  {
    if n == 1 then Some(Left)
    else if n == -1 then Some(Right)
    else None
  }

  lemma DirectionRawRoundTrip(d: Direction)
    ensures DirectionOfRaw(d.RawValue()) == Some(d)
  {
  }
}
