/**
 * CornerSeekingAgent: a left-hand wall follower that remembers every cell it
 * has stood on. On a cell it has not seen before it records the cell and
 * turns by the left-hand rule; on a cell it has seen before it first tries to
 * pick a move whose next cell (as computed by `nextCoord`) is unvisited, and
 * otherwise falls back to the same left-hand rule.
 */
module CornerSeeking {
  import opened Geometry
  import opened Moves

  /** The order the agent tries moves in: left, straight, right, reverse. */
  function Candidates(d: Direction): seq<Direction> {
    [Left(d), d, Right(d), Left(Left(d))]
  }

  /** Index of the first candidate that is legal, or `|cs|` when none is. */
  function FirstLegalIndex(cs: seq<Direction>, legal: seq<Direction>): (i: nat)
    ensures i <= |cs|
    ensures i < |cs| ==> cs[i] in legal
    ensures forall j :: 0 <= j < i ==> cs[j] !in legal
  {
    if cs == [] then 0
    else if cs[0] in legal then 0
    else
      var i := FirstLegalIndex(cs[1..], legal);
      assert forall j :: 1 <= j < i + 1 ==> cs[j] == cs[1..][j - 1];
      1 + i
  }

  /** The first legal candidate, or `Stop` when none is legal. */
  function FirstLegal(cs: seq<Direction>, legal: seq<Direction>): Direction {
    var i := FirstLegalIndex(cs, legal);
    if i < |cs| then cs[i] else Stop
  }

  /**
   * The left-hand rule, for a heading `d` already normalized to a compass
   * point: turn left, else go straight, else turn right, else reverse, else STOP.
   */
  function LeftHandRule(legal: seq<Direction>, d: Direction): (r: Direction)
    requires IsCompass(d)
    ensures r == Stop || (r in legal && r in Candidates(d))
    ensures r == Stop <==> forall c :: c in legal ==> c == Stop
    ensures Left(d) in legal ==> r == Left(d)
  {
    var left := Left(d);
    if left in legal then left
    else if d in legal then d
    else if Right(d) in legal then Right(d)
    else if Left(left) in legal then Left(left)
    else
      assert forall c :: c in legal ==> c == Stop by {
        forall c | c in legal ensures c == Stop {
          TurnsCoverCompass(d, c);
        }
      }
      Stop
  }

  /** The left-hand rule picks the first legal move in the order left, straight, right, reverse. */
  lemma LeftHandRuleIsFirstLegal(legal: seq<Direction>, d: Direction)
    requires IsCompass(d)
    ensures LeftHandRule(legal, d) == FirstLegal(Candidates(d), legal)
  {
  }

  /**
   * `nextCoord`: the cell reached by the first of left, straight, right that
   * is legal. As written, the reverse case names a `left` that `nextCoord`
   * never binds (NameError), and a `Stop` heading leaves the result unbound.
   */
  function NextCoord(legal: seq<Direction>, p: Pos, d: Direction): (r: Result<Pos>)
    ensures r.Ok? <==> IsCompass(d) && (Left(d) in legal || d in legal || Right(d) in legal)
    ensures r.Ok? ==> Manhattan(p, r.value) == 1
  {
    if Left(d) in legal then
      match d
      case North => Ok(Pos(p.x - 1, p.y))
      case East => Ok(Pos(p.x, p.y + 1))
      case South => Ok(Pos(p.x + 1, p.y))
      case West => Ok(Pos(p.x, p.y - 1))
      case Stop => Err(UnboundLocalError("nextCoord"))
    else if d in legal then
      match d
      case North => Ok(Pos(p.x, p.y + 1))
      case East => Ok(Pos(p.x + 1, p.y))
      case South => Ok(Pos(p.x, p.y - 1))
      case West => Ok(Pos(p.x - 1, p.y))
      case Stop => Err(UnboundLocalError("nextCoord"))
    else if Right(d) in legal then
      match d
      case North => Ok(Pos(p.x + 1, p.y))
      case East => Ok(Pos(p.x, p.y - 1))
      case South => Ok(Pos(p.x - 1, p.y))
      case West => Ok(Pos(p.x, p.y + 1))
      case Stop => Err(UnboundLocalError("nextCoord"))
    else
      Err(NameError("left"))
  }

  /** For a compass heading, `nextCoord` steps once towards the first legal of left, straight, right. */
  lemma NextCoordStepsFirstLegalTurn(legal: seq<Direction>, p: Pos, d: Direction)
    requires IsCompass(d)
    ensures var t := FirstLegal([Left(d), d, Right(d)], legal);
            NextCoord(legal, p, d) == if t == Stop then Err(NameError("left")) else Ok(Step(p, t))
  {
    var cs := [Left(d), d, Right(d)];
    assert cs[1..] == [d, Right(d)] && cs[1..][1..] == [Right(d)] && cs[1..][1..][1..] == [];
    if Left(d) in legal {
    } else if d in legal {
      assert FirstLegalIndex([d, Right(d)], legal) == 0;
    } else if Right(d) in legal {
      assert FirstLegalIndex([d, Right(d)], legal) == 1;
    } else {
      assert FirstLegalIndex([Right(d)], legal) == 1;
      assert FirstLegalIndex([d, Right(d)], legal) == 2;
    }
  }

  /**
   * Only reverse is legal among the four moves: the one case in which the
   * fourth revisit test calls `nextCoord` and it fails.
   */
  predicate DeadEnd(legal: seq<Direction>, d: Direction) {
    Left(d) !in legal && d !in legal && Right(d) !in legal && Left(Left(d)) in legal
  }

  /** `visited` after a call made while standing on `p`. */
  function Recorded(visited: seq<Pos>, p: Pos): (v: seq<Pos>)
    ensures visited <= v && |v| <= |visited| + 1
    ensures forall q :: q in v <==> q in visited || q == p
    ensures NoDuplicates(visited) ==> NoDuplicates(v)
  {
    if p in visited then visited else visited + [p]
  }

  /** `visited` after a run of calls made while standing on each cell of `path` in turn. */
  function RecordedAlong(visited: seq<Pos>, path: seq<Pos>): seq<Pos>
    decreases |path|
  {
    if path == [] then visited else RecordedAlong(Recorded(visited, path[0]), path[1..])
  }

  /**
   * Over any run of calls, `visited` only grows, by at most one cell per call,
   * keeps its earlier entries in place, never repeats a cell and ends up
   * holding exactly the cells it started with plus the cells stood on.
   */
  lemma {:induction false} RecordedAlongGrows(visited: seq<Pos>, path: seq<Pos>)
    ensures visited <= RecordedAlong(visited, path)
    ensures |RecordedAlong(visited, path)| <= |visited| + |path|
    ensures NoDuplicates(visited) ==> NoDuplicates(RecordedAlong(visited, path))
    ensures forall q :: q in RecordedAlong(visited, path) <==> q in visited || q in path
    decreases |path|
  {
    if path != [] {
      var next := Recorded(visited, path[0]);
      RecordedAlongGrows(next, path[1..]);
      assert path == [path[0]] + path[1..];
    }
  }

  class CornerSeekingAgent {
    /** The cells Pacman has stood on, in the order first reached. */
    var visited: seq<Pos>

    ghost predicate Valid()
      reads this
    {
      NoDuplicates(visited)
    }

    constructor ()
      ensures Valid() && visited == []
    {
      visited := [];
    }

    /**
     * `getAction`, given Pacman's cell, the legal moves and its heading.
     * Because every visited-test in the revisit branch asks about the same
     * cell, `nextCoord(legal, pos, heading)`, the move chosen never depends on
     * `visited`: it is the left-hand rule, except that a revisited dead end
     * makes `nextCoord` raise NameError. The UnboundLocalError of the fourth
     * test is never reached.
     */
    method GetAction(pos: Pos, legal: seq<Direction>, facing: Direction) returns (r: Outcome)
      requires Valid()
      modifies this
      ensures Valid()
      ensures visited == Recorded(old(visited), pos)
      ensures pos !in old(visited) ==> r == Move(LeftHandRule(legal, Normalize(facing)))
      ensures pos in old(visited) && DeadEnd(legal, Normalize(facing)) ==> r == Raised(NameError("left"))
      ensures pos in old(visited) && !DeadEnd(legal, Normalize(facing)) ==>
                r == Move(LeftHandRule(legal, Normalize(facing)))
    {
      if pos !in visited {
        visited := visited + [pos];
        var current := facing;
        if current == Stop {
          current := North;
        }
        return Move(LeftHandRule(legal, current));
      }
      visited := Recorded(visited, pos);  // leaves `visited` as it is: `pos` is already in it
      var d := facing;
      if d == Stop {
        d := North;
      }
      // Each test below asks whether the same cell is unvisited.
      if Left(d) in legal {
        match NextCoord(legal, pos, d)
        case Err(fault) =>
          return Raised(fault);
        case Ok(next) =>
          if next !in visited {
            return Move(Left(d));
          }
      }
      if d in legal {
        match NextCoord(legal, pos, d)
        case Err(fault) =>
          return Raised(fault);
        case Ok(next) =>
          if next !in visited {
            return Move(d);
          }
      }
      if Right(d) in legal {
        match NextCoord(legal, pos, d)
        case Err(fault) =>
          return Raised(fault);
        case Ok(next) =>
          if next !in visited {
            return Move(Right(d));
          }
      }
      if Left(Left(d)) in legal {
        match NextCoord(legal, pos, d)
        case Err(fault) =>
          return Raised(fault);
        case Ok(next) =>
          if next !in visited {
            // `left` is read here before the fallback below assigns it.
            return Raised(UnboundLocalError("left"));
          }
      }
      if d == Stop {
        d := North;
      }
      r := Move(LeftHandRule(legal, d));
    }
  }
}
