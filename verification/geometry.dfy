/**
 * Headings and grid cells of the Pacman world, as the agents see them.
 *
 * The rotation tables `Directions.LEFT` and `Directions.RIGHT` belong to the
 * host game; the comments inside `nextCoord` fix their meaning (a left turn
 * from NORTH moves to x-1, a right turn from NORTH to x+1), and `Stop` is
 * mapped to itself as in the host's tables.
 */
module Geometry {

  /** The moves the host offers; `Stop` means staying in place. */
  datatype Direction = North | South | East | West | Stop

  /** A grid cell, the `(x, y)` pair the host reports for Pacman. */
  datatype Pos = Pos(x: int, y: int)

  /** One of the four compass headings, i.e. an actual move. */
  predicate IsCompass(d: Direction) {
    d != Stop
  }

  /** The heading a quarter turn anticlockwise of `d` (the host's LEFT table). */
  function Left(d: Direction): (r: Direction)
    ensures IsCompass(r) <==> IsCompass(d)
    ensures IsCompass(d) ==> r != d
  {
    match d
    case North => West
    case West => South
    case South => East
    case East => North
    case Stop => Stop
  }

  /** The heading a quarter turn clockwise of `d` (the host's RIGHT table). */
  function Right(d: Direction): (r: Direction)
    ensures Left(r) == d
    ensures IsCompass(d) ==> r != d && r != Left(d) && r != Left(Left(d))
  {
    match d
    case North => East
    case East => South
    case South => West
    case West => North
    case Stop => Stop
  }

  /** The agent treats a `Stop` heading as `North` before turning. */
  function Normalize(facing: Direction): (d: Direction)
    ensures facing == Stop ==> d == North
    ensures IsCompass(facing) ==> d == facing
  {
    if facing == Stop then North else facing
  }

  function Abs(n: int): nat {
    if n < 0 then -n else n
  }

  /** Grid (Manhattan) distance between two cells. */
  function Manhattan(p: Pos, q: Pos): nat {
    Abs(p.x - q.x) + Abs(p.y - q.y)
  }

  /** The cell one move from `p` in direction `d`: north is y+1, east is x+1. */
  function Step(p: Pos, d: Direction): (q: Pos)
    ensures IsCompass(d) ==> Manhattan(p, q) == 1
    ensures d == Stop ==> q == p
  {
    match d
    case North => Pos(p.x, p.y + 1)
    case South => Pos(p.x, p.y - 1)
    case East => Pos(p.x + 1, p.y)
    case West => Pos(p.x - 1, p.y)
    case Stop => p
  }

  /** A left turn, a right turn, straight on and reversing are the four compass headings, each once. */
  lemma TurnsCoverCompass(d: Direction, c: Direction)
    requires IsCompass(d)
    ensures IsCompass(c) <==> c in [Left(d), d, Right(d), Left(Left(d))]
  {
  }

  /** A left and a right turn cancel out, and two left turns reverse a compass heading. */
  lemma TurnsCancel(d: Direction)
    ensures Right(Left(d)) == d && Left(Right(d)) == d
    ensures IsCompass(d) ==> Left(Left(d)) != d && Left(Left(d)) == Right(Right(d))
  {
  }

  /** Reversing undoes a move, and different headings lead to different cells. */
  lemma StepReversible(p: Pos, d: Direction, e: Direction)
    requires IsCompass(d) && IsCompass(e)
    ensures Step(Step(p, d), Left(Left(d))) == p
    ensures Step(p, d) == Step(p, e) ==> d == e
  {
  }
}
