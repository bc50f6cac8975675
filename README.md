# Battlesnake move decision, modelled in Dafny

This project models the per-turn move decision of a Battlesnake agent (the
`logic.go` file of the repository). On each turn the agent gets the board state
and has to answer with one of the moves `"up"`, `"down"`, `"left"` or `"right"`.
The decision has three parts:

- **Neighbour classification** (`Logic.NeighborDirection`). It names the direction
  in which a target cell is a neighbour of a source cell. Right and left change x
  by one. Up means the target's y is one *larger* and down means it is one smaller.
  A cell that is not a neighbour gets the zero value of the `direction` string
  type, `""`. The model calls that value `Blank`.
- **Open directions** (`Logic.OpenDirections`). It starts with a
  `map<Direction, bool>` that has the four directions set to `true`. For every
  blocked cell it then writes `false` under whatever the classification returned.
  So each non-neighbour cell writes `false` under the `Blank` key. The map can
  gain that fifth key, while the four real entries are closed only by genuine
  neighbours.
- **The move** (`Logic.Move`, with `Logic.BlockedCells` and `Logic.SafeMoves`).
  It builds the blocked list from three parts, in the source's order:
  - the snake's body without its head;
  - four strips of wall sentinels one cell outside the board, with no corner cells;
  - the whole body of every snake on the board.

  It then collects the directions whose entry is `true`. It answers `"down"`
  when there are none, and otherwise answers one of them, chosen arbitrarily.

The data types (`Api`) are minimal versions of the game-state records that
`logic.go` reads. `Coord` has x and y. A snake has a body. The board has a
width, a height and a snake list. The state holds the deciding snake and the
board.

Each specification function gives its method's meaning:

- `Logic.Blocked` is the blocked list, `Logic.OpenSet` the open real directions,
  and `Logic.SafeSet` the directions the move may take.
- Each method's `ensures` ties its result to these functions.
- Module `Properties` proves what the functions mean:
  - membership of the blocked list;
  - wall sentinels, and no corner cells;
  - closing a direction through the classification;
  - independence from the order of the blocked list;
  - a safe move stays on the board and never enters a blocked cell;
  - two concrete scenarios.

Where the code and its documentation disagree, the model follows the code:

- **Nil for non-neighbours.** The doc comment of `neighborDirection` says it
  returns nil for non-neighbours. The code always returns a pointer to `dir`,
  and `dir` is `""` there. The model returns the pointee. So the nil check in
  `openDirections` can never fire, and it is not modelled.
- **Own head in the blocked list.** The deciding snake's own head is in the
  blocked list, because it is part of its own entry in the board's snake list.
  It closes no direction, because no cell is its own neighbour
  (`Properties.OwnHeadIsBlocked`, `Properties.OwnHeadClosesNothing`).
- **A fifth map key.** The open-directions map does not always have exactly four
  entries: it gains the key `""` as soon as any blocked cell is not a neighbour.
  That key is always `false`, so it never becomes a safe move.
- **The y axis.** Up is the direction of increasing y, exactly as the code's
  switch says.

## Model

| member | source | states |
|---|---|---|
| `Logic.NeighborDirection` | logic.go:56-73 | for each real direction d, the result is d exactly when the target is the source's d-neighbour (right = x+1, left = x-1, up = y+1, down = y-1) |
| `Properties.NeighborIffAdjacent` | logic.go:57-69 | the result is a real direction iff the cells differ by exactly one in one coordinate and agree in the other |
| `Properties.NonNeighborIsBlank` | logic.go:60-72 | a target that is no neighbour is classified Blank (the zero value), never as a real direction |
| `Properties.SelfIsNotNeighbor` | logic.go:62-69 | a cell is never its own neighbour |
| `Properties.NeighborAntisymmetric` | logic.go:62-69 | the classification from b to a is the opposite of that from a to b: right iff left, up iff down, Blank iff Blank |
| `Properties.NameInjective` | logic.go:44-49 | the four direction strings and the zero value are pairwise distinct, so a move string determines its direction |
| `Logic.OpenDirections` | logic.go:76-93 | every real direction is a key, and its entry is false exactly when its neighbour cell is blocked; the Blank key is present exactly when some blocked cell is no neighbour, and it is then false |
| `Properties.OpenSetOfNothing` | logic.go:77-82 | with nothing blocked, all four directions are open |
| `Properties.OpenSetClosedByNeighbor` | logic.go:84-90 | a real direction is closed iff some blocked cell is classified as the neighbour in that direction |
| `Properties.OpenSetSameMembers` | logic.go:84-90 | the open directions depend only on which cells are blocked, not on their order or repetitions |
| `Properties.OpenSetIgnoresNonNeighbors` | logic.go:84-90 | appending cells that are not neighbours changes no open direction |
| `Logic.AppendColumn` | logic.go:105-111 | appends, in order, the cells (x,0) .. (x,H-1) of a left or right wall strip, and nothing when H <= 0 |
| `Logic.AppendRow` | logic.go:113-119 | appends, in order, the cells (0,y) .. (W-1,y) of a top or bottom wall strip, and nothing when W <= 0 |
| `Logic.BlockedCells` | logic.go:99-123 | the list built is the body without its head, then the left, right, top and bottom wall strips, then every snake's body in list order |
| `Properties.WallsMembership` | logic.go:105-119 | a cell is a wall sentinel iff it is (-1,y) or (W,y) for 0 <= y < H, or (x,H) or (x,-1) for 0 <= x < W |
| `Properties.NoCornerSentinels` | logic.go:105-119 | the four corner cells (-1,-1), (-1,H), (W,-1), (W,H) are never wall sentinels |
| `Properties.BodiesMembership` | logic.go:121-123 | a cell is in the concatenated snake bodies iff it is in the body of some snake on the board |
| `Properties.BlockedMembership` | logic.go:100-123 | a cell is blocked iff it is a non-head segment of the deciding snake, a wall sentinel, or a segment of a snake on the board |
| `Properties.OwnHeadIsBlocked` | logic.go:121-123 | when the deciding snake is on the board's snake list, its own head is in the blocked list |
| `Properties.OwnHeadClosesNothing` | logic.go:121-125 | adding the head itself to the blocked list changes no open direction |
| `Properties.NeckIsClosed` | logic.go:102 | the direction that leads onto the neck, body[1], is never safe |
| `Properties.OriginCornerClosesLeftAndDown` | logic.go:104-119 | a head at (0,0) on a board of positive size can go neither left nor down |
| `Logic.SafeMoves` | logic.go:138-143 | the collected moves are exactly the keys whose entry is true, each once, in map order |
| `Properties.SurroundedHasNoSafeMove` | logic.go:138-148 | a head whose four neighbours are all blocked has no safe move |
| `Logic.Move` | logic.go:98-157 | with no safe direction the move is "down"; otherwise it is the name of a safe direction |
| `Properties.SafeMoveIsOnBoard` | logic.go:147-155 | a safe direction never leads into a blocked cell, and from a head on the board it leads to a cell inside [0,W) x [0,H) |
| `Properties.TwoSegmentSnakeInTheMiddle` | logic.go:98-143 | on an 11x11 board, a snake at (5,5) with its neck at (5,4) has exactly up, left and right as safe moves |

## Left out

- `info`, `start` and `end` (logic.go:18-40) are left out: they only return appearance metadata or log.
- All `log.Println` and `log.Printf` calls are left out: they are observational output only.
- `rand.Intn` is left out: the move picks an arbitrary index of the safe moves, with no random generator.
- Go's map iteration order is left out: `Logic.SafeMoves` visits the keys in an arbitrary order. Its contract speaks of the collected moves as a set without duplicates.
- `Logic.SafeMoves` collects `Direction` values, not their strings. The string is formed only for the chosen move (`Direction.Name`).
- The HTTP server and the JSON types are left out, together with the fields the logic never reads: game id, turn, food, health, names.
- A deciding snake with an empty body is excluded by a precondition: the source would panic on `Body[0]`.
- `Logic.NeighborDirection`: Go's 64-bit `int` subtraction can wrap around for coordinates near the bounds of `int`. The model uses unbounded integers, which agree with Go for every coordinate a real board can produce.
- Board width and height are unbounded integers. A negative dimension gives an empty strip, as Go's loops do.
