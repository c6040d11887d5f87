/**
 * The part of the `direction` crate the wall builder relies on, written down as an
 * assumption rather than modelled: four cardinal directions in clockwise order
 * North, East, South, West (with `y` growing southwards), and four ordinal
 * directions, each made of the two cardinal directions on either side of it,
 * counter-clockwise one first.
 */
module Directions {
  import opened Grids

  datatype Cardinal = North | East | South | West {

    /** A quarter turn clockwise. */
    function Right90(): Cardinal {
      match this
      case North => East
      case East => South
      case South => West
      case West => North
    }

    /** A quarter turn counter-clockwise. */
    function Left90(): Cardinal {
      match this
      case North => West
      case East => North
      case South => East
      case West => South
    }

    /** The step to the neighbouring cell in this direction (`CardinalDirection::coord`). */
    function Offset(): Coord {
      match this
      case North => Coord(0, -1)
      case East => Coord(1, 0)
      case South => Coord(0, 1)
      case West => Coord(-1, 0)
    }
  }

  /** Two cardinal directions a quarter turn apart. */
  predicate Perpendicular(a: Cardinal, b: Cardinal) {
    a.Right90() == b || a.Left90() == b
  }

  datatype Ordinal = NorthEast | SouthEast | SouthWest | NorthWest {

    /** `OrdinalDirection::to_cardinals`: the counter-clockwise side, then the clockwise side. */
    function ToCardinals(): (r: (Cardinal, Cardinal))
      ensures r.0.Right90() == r.1
    {
      match this
      case NorthEast => (North, East)
      case SouthEast => (East, South)
      case SouthWest => (South, West)
      case NorthWest => (West, North)
    }

    /** `o as usize`: the position of this direction in `Ordinals`. */
    function Index(): (i: nat)
      ensures i < 4 && Ordinals[i] == this
    {
      match this
      case NorthEast => 0
      case SouthEast => 1
      case SouthWest => 2
      case NorthWest => 3
    }
  }

  /** `OrdinalDirections`: every ordinal direction once, in declaration order. */
  const Ordinals: seq<Ordinal> := [NorthEast, SouthEast, SouthWest, NorthWest]
}
