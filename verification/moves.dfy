/**
 * What an agent's `getAction` hands back, and the two Python list
 * operations the agents rely on: `list.remove` and `random.choice`.
 */
module Moves {
  import opened Geometry

  /** The Python exceptions the agents can raise. */
  datatype Fault =
    | UnboundLocalError(name: string)  // a local read before it is assigned
    | NameError(name: string)          // a name bound nowhere in scope
    | IndexError                       // `random.choice` on an empty list

  /** The move an agent returns, or the exception that ends its turn. */
  datatype Outcome = Move(dir: Direction) | Raised(fault: Fault)

  /** A value computed by a helper, or the exception it raises. */
  datatype Result<T> = Ok(value: T) | Err(fault: Fault)

  predicate NoDuplicates<T(==)>(s: seq<T>) {
    forall i, j :: 0 <= i < j < |s| ==> s[i] != s[j]
  }

  /** Python's `list.remove(x)`: drops the first occurrence of `x`. */
  function RemoveFirst<T(==)>(s: seq<T>, x: T): (r: seq<T>)
    requires x in s
    ensures |r| == |s| - 1
    ensures multiset(r) == multiset(s) - multiset{x}
  {
    assert s == [s[0]] + s[1..];
    if s[0] == x then s[1..] else [s[0]] + RemoveFirst(s[1..], x)
  }

  /** The idiom `if x in legal: legal.remove(x)` used by the agents. */
  function Without<T(==)>(s: seq<T>, x: T): (r: seq<T>)
    ensures multiset(r) == multiset(s) - multiset{x}
    ensures x !in s ==> r == s
  {
    if x in s then RemoveFirst(s, x) else s
  }

  /** On a list without repeats, removing `x` leaves exactly the other members. */
  lemma {:induction false} RemoveFirstMembers<T>(s: seq<T>, x: T, y: T)
    requires x in s && NoDuplicates(s)
    ensures y in RemoveFirst(s, x) <==> y in s && y != x
  {
    if s[0] == x {
      assert forall k :: 1 <= k < |s| ==> s[k] != s[0];
      assert s == [s[0]] + s[1..];
    } else {
      assert x in s[1..] by {
        assert s == [s[0]] + s[1..];
      }
      RemoveFirstMembers(s[1..], x, y);
      assert s == [s[0]] + s[1..];
    }
  }

  /** `Without` on a list without repeats keeps every member except `x`. */
  lemma WithoutMembers<T>(s: seq<T>, x: T, y: T)
    requires NoDuplicates(s)
    ensures y in Without(s, x) <==> y in s && y != x
  {
    if x in s {
      RemoveFirstMembers(s, x, y);
    }
  }

  /**
   * Python's `random.choice`: some element of a non-empty list, with no
   * claim about the distribution; an empty list raises IndexError.
   */
  method Choose(s: seq<Direction>) returns (r: Outcome)
    ensures s == [] <==> r == Raised(IndexError)
    ensures s != [] ==> r.Move? && r.dir in s
  {
    if |s| == 0 {
      return Raised(IndexError);
    }
    assert s[0] in s;
    var d :| d in s;
    return Move(d);
  }
}
