/** Configuration of the cell-decomposition canvas and the `Position` record shared by its markers. */
module Consts {

  /** Canvas size in pixels. */
  const WIDTH: int := 500
  const HEIGHT: int := 500
  const CAR_LENGTH: int := 11
  const CAR_WIDTH: int := 8
  const LIGHT_RADIUS: int := 5

  /** Width of the outer border in which nothing is placed at random. */
  const BUFFER: int := 50

  /** Side lengths of the three square obstacles, largest first. */
  const BOX1_SIZE: int := 200
  const BOX2_SIZE: int := 150
  const BOX3_SIZE: int := 100

  /** A canvas point; (-1,-1) is the "not yet placed" sentinel. */
  datatype Position = Position(x: int, y: int) {
    function GetX(): int { x }
    function GetY(): int { y }
    predicate IsUnset() { x == -1 && y == -1 }
  }

  /** The robot marker is a plain position. */
  type Robot = Position

  /** The constructor `Position(x = -1, y = -1)`, with its default arguments. */
  function MakePosition(x: int := -1, y: int := -1): (p: Position)
    ensures p.GetX() == x && p.GetY() == y
  {
    Position(x, y)
  }

  /** A default-constructed position (and so a default robot) is the unset sentinel. */
  lemma DefaultIsUnset()
    ensures MakePosition().IsUnset()
    ensures var r: Robot := MakePosition(); r.GetX() == -1 && r.GetY() == -1
  {
  }

  /** The getters and the constructor are inverse: rebuilding a position from its coordinates gives it back. */
  lemma PositionRoundTrip(p: Position)
    ensures MakePosition(p.GetX(), p.GetY()) == p
  {
  }

  /** Width of the region left inside the border buffer along one axis. */
  function Interior(extent: int): int {
    extent - 2 * BUFFER
  }

  /** Obstacle sizes strictly decrease from the first box to the third. */
  lemma BoxSizesDecrease()
    ensures BOX1_SIZE > BOX2_SIZE > BOX3_SIZE > 0
  {
  }

  /** The 500x500 canvas leaves a 400-pixel interior per axis, and every box, the largest included, fits in it. */
  lemma BoxesFitInterior()
    ensures Interior(WIDTH) == 400 && Interior(HEIGHT) == 400
    ensures forall size :: size in [BOX1_SIZE, BOX2_SIZE, BOX3_SIZE] ==> size <= Interior(WIDTH) && size <= Interior(HEIGHT)
  {
  }
}
