# Pacman sample agents: direction choice, in Dafny

This project models the move-choosing logic of `sampleAgents.py`. That file defines agents for the Berkeley Pacman host. On every game tick the host calls an agent's `getAction`. The agent reads the legal moves, Pacman's cell and its heading, and returns one move: `NORTH`, `SOUTH`, `EAST`, `WEST` or `STOP`.

- `Geometry` (`geometry.dfy`): the `Direction` datatype, the `Left`/`Right` rotation tables, the STOP-as-NORTH normalization, and the one-cell `Step`. North is y+1 and east is x+1, as the comments in `nextCoord` say.
- `Moves` (`moves.dfy`): an agent's `Outcome` (a move or a Python exception), Python's `list.remove` (`RemoveFirst`), the agents' "remove if present" idiom (`Without`), and `random.choice` (`Choose`). `Choose` picks some element of the list. An empty list raises IndexError.
- `SampleAgents` (`sample_agents.dfy`): `RandomAgent`, `RandomishAgent` and `GoWestAgent`. `RandomishAgent` is a class because `last` persists between calls.
- `CornerSeeking` (`corner_seeking.dfy`): `nextCoord`, the left-hand rule, and the `CornerSeekingAgent` class with its `visited` list.

Python's exceptions are explicit outcomes (`Moves.Fault`) and not preconditions:

- sampleAgents.py:196 reads `left` before line 201 assigns it: `UnboundLocalError("left")`.
- sampleAgents.py:268 reads a `left` that `nextCoord` never binds: `NameError("left")`.
- `nextCoord` with a `STOP` heading leaves its result unbound. This gives `UnboundLocalError("nextCoord")`, or the NameError above.
- `random.choice` on an empty list: `IndexError`.

What the proofs show about `CornerSeekingAgent.getAction` as written:

- Lines 186-195 pass the same `currentDirection` to `nextCoord` every time. So all four visited-tests ask about the same cell: the one reached by the first legal move among left, straight and right.
- The revisit branch therefore never picks a different move because of `visited`. It always returns what the plain left-hand rule returns, except in one case.
- That case is a revisited dead end: only the reverse move is legal among the four. There the fourth test calls `nextCoord`, which raises the NameError of line 268.
- The UnboundLocalError of line 196 can never be reached.
- Lines 176-177 never change `visited`.

`GoWestAgent` as written keeps STOP among its random choices when WEST is not legal: only EAST is removed (sampleAgents.py:131-134). The comment at sampleAgents.py:126 says it will "randomly go north or south". The model follows the code.

`sampleAgents.py` has no seeking phase, no line-of-sight scan for food and no dedicated error for an empty legal list. The model has none of these either.

## Model

| member | source | states |
|---|---|---|
| Geometry.Left | sampleAgents.py:217-229 | A left turn keeps a compass heading a compass heading, and differs from it; `STOP` stays `STOP` |
| Geometry.Right | sampleAgents.py:251-263 | A right turn is undone by a left turn, and differs from straight, left and reverse |
| Geometry.Normalize | sampleAgents.py:161-162 | A `STOP` heading becomes `NORTH`, and compass headings are left alone |
| Geometry.Step | sampleAgents.py:233-248 | A compass move reaches a cell at grid distance exactly 1; `STOP` stays put |
| Geometry.TurnsCoverCompass | sampleAgents.py:163-171 | Left, straight, right and reverse are exactly the four compass headings |
| Geometry.TurnsCancel | sampleAgents.py:170-171 | Left and right turns cancel; two left turns reverse a heading, the same as two right turns |
| Geometry.StepReversible | sampleAgents.py:267-282 | Stepping and then reversing returns to the start cell; different headings lead to different cells |
| Moves.RemoveFirst | sampleAgents.py:46 | `list.remove` drops exactly one occurrence: length one less, multiset minus that element |
| Moves.Without | sampleAgents.py:45-46 | Removing STOP if present leaves the multiset minus one STOP, and leaves the list alone when STOP is absent |
| Moves.RemoveFirstMembers | sampleAgents.py:132-133 | On a list without repeats, after `remove(x)` the members are exactly the old members other than `x` |
| Moves.WithoutMembers | sampleAgents.py:66-67 | On a list without repeats, the filtered list holds exactly the legal moves other than the removed one |
| Moves.Choose | sampleAgents.py:48 | `random.choice` returns a member of a non-empty list and raises IndexError exactly on an empty one |
| SampleAgents.RandomAgentAction | sampleAgents.py:42-48 | The move comes from the legal list with STOP removed; IndexError exactly when nothing is left; never STOP when the list has no repeats |
| SampleAgents.RandomishAgent.constructor | sampleAgents.py:60-61 | `last` starts as STOP |
| SampleAgents.RandomishAgent.GetAction | sampleAgents.py:63-76 | Repeats `last` and keeps it when it is still in the STOP-filtered legal list. Otherwise it picks from that list and stores the pick, or raises IndexError and leaves `last` unchanged |
| SampleAgents.GoWestAgentAction | sampleAgents.py:129-135 | `WEST` whenever it is legal; otherwise a move from the legal list with EAST removed, or IndexError when nothing is left |
| CornerSeeking.FirstLegalIndex | sampleAgents.py:163-172 | Reference for "first legal candidate": every earlier candidate is illegal and the chosen one is legal |
| CornerSeeking.LeftHandRule | sampleAgents.py:163-172 | The result is legal and one of left, straight, right or reverse, or it is STOP exactly when no compass move is legal; a legal left turn always wins |
| CornerSeeking.LeftHandRuleIsFirstLegal | sampleAgents.py:201-210 | The rule returns the first legal move in the order left, straight, right, reverse, else STOP |
| CornerSeeking.NextCoord | sampleAgents.py:214-282 | Gives a cell exactly when the heading is a compass point and one of left, straight, right is legal; that cell is at grid distance 1 |
| CornerSeeking.NextCoordStepsFirstLegalTurn | sampleAgents.py:217-265 | For a compass heading the cell is one step in the first legal direction among left, straight, right; NameError when none is legal |
| CornerSeeking.Recorded | sampleAgents.py:156-157 | `visited` keeps its old entries as a prefix, grows by at most one cell, gains the current cell and stays free of repeats |
| CornerSeeking.RecordedAlongGrows | sampleAgents.py:149-157 | Over any run of calls, `visited` only grows: by at most one cell per call, entries never removed, reordered or repeated; it ends up holding the cells stood on |
| CornerSeeking.CornerSeekingAgent.constructor | sampleAgents.py:148-149 | `visited` starts empty |
| CornerSeeking.CornerSeekingAgent.GetAction | sampleAgents.py:151-210 | Records the cell once and keeps `visited` free of repeats. A first visit returns the left-hand-rule move for the normalized heading. A revisit returns the same move, or NameError at a dead end |

## Left out

- `SensingAgent` (sampleAgents.py:81-121): it only prints what the host reports and returns STOP.
- `api.makeMove`, `api.legalActions`, `api.whereAmI`, `state.getLegalPacmanActions` and `state.getPacmanState`: these are calls into the host. Their results are method parameters. For `RandomAgent`, `RandomishAgent` and `GoWestAgent` the outcome is the move handed to `api.makeMove`; what the host then does with it is not modelled. `CornerSeekingAgent` never calls `api.makeMove`: its `getAction` returns the direction directly (sampleAgents.py:165-172, 187-210).
- Geometry.Left: the host's `Directions.LEFT` and `Directions.RIGHT` tables are not part of this model. They are written out to match the comments in `nextCoord`, with `STOP` mapped to `STOP`.
- Moves.Choose: states membership only. `random.choice` is uniform, but no distribution is modelled.
- Moves.RemoveFirst: does not state the order of the remaining elements. Every caller passes the list to `random.choice`, which is modelled by membership alone.
- The game engine, ghosts, scoring and rendering belong to the host.
