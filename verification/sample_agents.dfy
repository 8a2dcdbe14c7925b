/**
 * The three random-choice agents of sampleAgents.py. Each one receives the
 * host's list of legal moves and returns the move it hands to
 * `api.makeMove` (or the exception it raises); `random.choice` is modelled
 * by `Moves.Choose`, a choice of some element of the list.
 */
module SampleAgents {
  import opened Geometry
  import opened Moves

  /** RandomAgent: drop STOP from the legal list, then pick any remaining move. */
  method RandomAgentAction(legal: seq<Direction>) returns (r: Outcome)
    ensures Without(legal, Stop) == [] <==> r == Raised(IndexError)
    ensures Without(legal, Stop) != [] ==> r.Move? && r.dir in Without(legal, Stop)
    ensures NoDuplicates(legal) && r.Move? ==> r.dir in legal && r.dir != Stop
  {
    var moves := legal;
    if Stop in moves {
      moves := RemoveFirst(moves, Stop);
    }
    r := Choose(moves);
    if NoDuplicates(legal) && r.Move? {
      WithoutMembers(legal, Stop, r.dir);
    }
  }

  /**
   * RandomishAgent: keeps going in the direction it last chose while that
   * move stays legal; otherwise picks a new one at random and remembers it.
   */
  class RandomishAgent {
    var last: Direction

    constructor ()
      ensures last == Stop
    {
      last := Stop;
    }

    method GetAction(legal: seq<Direction>) returns (r: Outcome)
      modifies this
      ensures old(last) in Without(legal, Stop) ==> r == Move(old(last)) && last == old(last)
      ensures old(last) !in Without(legal, Stop) && Without(legal, Stop) == [] ==>
                r == Raised(IndexError) && last == old(last)
      ensures old(last) !in Without(legal, Stop) && Without(legal, Stop) != [] ==>
                r.Move? && r.dir in Without(legal, Stop) && last == r.dir
      ensures NoDuplicates(legal) && r.Move? ==> r.dir in legal && r.dir != Stop
    {
      var moves := legal;
      if Stop in moves {
        moves := RemoveFirst(moves, Stop);
      }
      if last in moves {
        r := Move(last);
      } else {
        r := Choose(moves);
        if r.Move? {
          last := r.dir;
        }
      }
      if NoDuplicates(legal) && r.Move? {
        WithoutMembers(legal, Stop, r.dir);
      }
    }
  }

  /**
   * GoWestAgent: goes west whenever it can; otherwise drops EAST from the
   * legal list and picks any remaining move (STOP stays a candidate).
   */
  method GoWestAgentAction(legal: seq<Direction>) returns (r: Outcome)
    ensures West in legal ==> r == Move(West)
    ensures West !in legal && Without(legal, East) == [] ==> r == Raised(IndexError)
    ensures West !in legal && Without(legal, East) != [] ==> r.Move? && r.dir in Without(legal, East)
    ensures NoDuplicates(legal) && r.Move? ==> r.dir in legal && r.dir != East
  {
    if West !in legal {
      var moves := legal;
      if East in moves {
        moves := RemoveFirst(moves, East);
      }
      r := Choose(moves);
      if NoDuplicates(legal) && r.Move? {
        WithoutMembers(legal, East, r.dir);
      }
      return;
    }
    r := Move(West);
  }
}
