/** The per-turn move decision of the snake: which neighbouring cells are
    blocked, which of the four directions stay open, and which move is sent. */
module Logic {
  import opened Api

  /** The source's `direction` string type. Blank is its zero value "",
      which is what the neighbour classification yields for a cell that is
      not a neighbour. */
  datatype Direction = Blank | Up | Down | Left | Right {

    /** One of the four moves the game accepts. */
    predicate IsReal() {
      !Blank?
    }

    /** The string the direction stands for. */
    function Name(): string {
      match this
      case Blank => ""
      case Up => "up"
      case Down => "down"
      case Left => "left"
      case Right => "right"
    }
  }

  const RealDirections: set<Direction> := {Up, Down, Left, Right}

  /** The cell one step from c in direction d: right and left change x by
      one, up increases y by one and down decreases it. */
  function Step(c: Coord, d: Direction): Coord
    requires d.IsReal()
  {
    match d
    case Right => Coord(c.x + 1, c.y)
    case Left => Coord(c.x - 1, c.y)
    case Up => Coord(c.x, c.y + 1)
    case Down => Coord(c.x, c.y - 1)
  }

  /** The direction that leads back. */
  function Opposite(d: Direction): Direction {
    match d
    case Blank => Blank
    case Up => Down
    case Down => Up
    case Left => Right
    case Right => Left
  }

  /** The direction in which target is a neighbour of source. For a cell that
      is not a neighbour the result is Blank (the source returns a pointer to
      the zero value, never nil). */
  function NeighborDirection(source: Coord, target: Coord): (dir: Direction)
    ensures forall d: Direction :: d.IsReal() ==> (dir == d <==> target == Step(source, d))
  {
    var dx := source.x - target.x;
    var dy := source.y - target.y;
    if dx == -1 && dy == 0 then Right
    else if dx == 1 && dy == 0 then Left
    else if dx == 0 && dy == -1 then Up
    else if dx == 0 && dy == 1 then Down
    else Blank
  }

  /** The real directions whose neighbour cell of pos is not in blocked. */
  ghost function OpenSet(pos: Coord, blocked: seq<Coord>): set<Direction> {
    set d | d in RealDirections && Step(pos, d) !in blocked
  }

  /** Starts with the four directions open and closes, for every blocked
      cell, the entry its neighbour classification names. A blocked cell that
      is not a neighbour writes `false` under the Blank key. */
  method OpenDirections(pos: Coord, blocked: seq<Coord>) returns (dirs: map<Direction, bool>)
    ensures forall d: Direction :: d.IsReal() ==> d in dirs && (dirs[d] <==> Step(pos, d) !in blocked)
    ensures Blank in dirs <==> exists b :: b in blocked && NeighborDirection(pos, b) == Blank
    ensures Blank in dirs ==> !dirs[Blank]
  {
    dirs := map[Up := true, Down := true, Left := true, Right := true];
    var i := 0;
    while i < |blocked|
      invariant 0 <= i <= |blocked|
      invariant forall d: Direction :: d.IsReal() ==> d in dirs && (dirs[d] <==> Step(pos, d) !in blocked[..i])
      invariant Blank in dirs <==> exists b :: b in blocked[..i] && NeighborDirection(pos, b) == Blank
      invariant Blank in dirs ==> !dirs[Blank]
    {
      var dir := NeighborDirection(pos, blocked[i]);
      dirs := dirs[dir := false];
      assert blocked[..i + 1] == blocked[..i] + [blocked[i]];
      i := i + 1;
    }
    assert blocked[..i] == blocked;
  }

  /** A board dimension as a loop bound: a loop `for i := 0; i < n; i++`
      runs Count(n) times. */
  function Count(n: int): nat {
    if n < 0 then 0 else n
  }

  /** The cells (x, 0), ..., (x, n - 1). */
  function Column(x: int, n: nat): seq<Coord> {
    seq(n, i => Coord(x, i))
  }

  /** The cells (0, y), ..., (n - 1, y). */
  function Row(y: int, n: nat): seq<Coord> {
    seq(n, i => Coord(i, y))
  }

  /** The wall sentinels one step outside the board, in the order the source
      adds them: left, right, top and bottom strip. */
  function Walls(board: Board): seq<Coord> {
    var w, h := Count(board.width), Count(board.height);
    Column(-1, h) + Column(board.width, h) + Row(board.height, w) + Row(-1, w)
  }

  /** Every snake's body, concatenated in the order of the snake list. */
  function Bodies(snakes: seq<Battlesnake>): seq<Coord> {
    if snakes == [] then [] else Bodies(snakes[..|snakes| - 1]) + snakes[|snakes| - 1].body
  }

  /** The blocked list of one turn: the deciding snake's body without its
      head, the wall sentinels and the bodies of all snakes on the board. */
  function Blocked(state: GameState): seq<Coord>
    requires |state.you.body| > 0
  {
    state.you.body[1..] + Walls(state.board) + Bodies(state.board.snakes)
  }

  /** The moves the decision may choose from. */
  ghost function SafeSet(state: GameState): set<Direction>
    requires |state.you.body| > 0
  {
    OpenSet(state.you.body[0], Blocked(state))
  }

  lemma ColumnGrows(x: int, n: nat)
    ensures Column(x, n + 1) == Column(x, n) + [Coord(x, n)]
  {
  }

  lemma RowGrows(y: int, n: nat)
    ensures Row(y, n + 1) == Row(y, n) + [Coord(n, y)]
  {
  }

  /** Appends the cells (x, 0), ..., (x, height - 1): the left or the right
      wall strip. */
  method AppendColumn(blocked: seq<Coord>, x: int, height: int) returns (r: seq<Coord>)
    ensures r == blocked + Column(x, Count(height))
  {
    r := blocked;
    var i := 0;
    while i < height
      invariant 0 <= i <= Count(height)
      invariant r == blocked + Column(x, i)
    {
      ColumnGrows(x, i);
      r := r + [Coord(x, i)];
      i := i + 1;
    }
  }

  /** Appends the cells (0, y), ..., (width - 1, y): the top or the bottom
      wall strip. */
  method AppendRow(blocked: seq<Coord>, y: int, width: int) returns (r: seq<Coord>)
    ensures r == blocked + Row(y, Count(width))
  {
    r := blocked;
    var i := 0;
    while i < width
      invariant 0 <= i <= Count(width)
      invariant r == blocked + Row(y, i)
    {
      RowGrows(y, i);
      r := r + [Coord(i, y)];
      i := i + 1;
    }
  }

  /** Builds the blocked list step by step, as the source appends to it. */
  method BlockedCells(state: GameState) returns (blocked: seq<Coord>)
    requires |state.you.body| > 0
    ensures blocked == Blocked(state)
  {
    var board := state.board;
    blocked := state.you.body[1..];
    blocked := AppendColumn(blocked, -1, board.height);           // left wall
    blocked := AppendColumn(blocked, board.width, board.height);  // right wall
    blocked := AppendRow(blocked, board.height, board.width);     // top wall
    blocked := AppendRow(blocked, -1, board.width);               // bottom wall
    assert blocked == state.you.body[1..] + Walls(board);
    ghost var walled := blocked;
    // Every snake on the board
    var k := 0;
    while k < |board.snakes|
      invariant 0 <= k <= |board.snakes|
      invariant blocked == walled + Bodies(board.snakes[..k])
    {
      assert board.snakes[..k + 1][..k] == board.snakes[..k];
      blocked := blocked + board.snakes[k].body;
      k := k + 1;
    }
    assert board.snakes[..k] == board.snakes;
  }

  /** Collects the keys whose entry is true, visiting the map's keys in an
      unspecified order. */
  method SafeMoves(openDirs: map<Direction, bool>) returns (safeMoves: seq<Direction>)
    ensures forall d :: d in safeMoves <==> d in openDirs && openDirs[d]
    ensures forall i, j :: 0 <= i < j < |safeMoves| ==> safeMoves[i] != safeMoves[j]
  {
    safeMoves := [];
    var keys := openDirs.Keys;
    while keys != {}
      invariant keys <= openDirs.Keys
      invariant forall d :: d in safeMoves <==> d in openDirs && d !in keys && openDirs[d]
      invariant forall i, j :: 0 <= i < j < |safeMoves| ==> safeMoves[i] != safeMoves[j]
      decreases keys
    {
      var k :| k in keys;
      if openDirs[k] {
        safeMoves := safeMoves + [k];
      }
      keys := keys - {k};
    }
  }

  /** The move sent for a turn: "down" when no direction is safe, otherwise
      one of the safe directions, chosen arbitrarily. */
  method Move(state: GameState) returns (response: BattlesnakeMoveResponse)
    requires |state.you.body| > 0
    ensures SafeSet(state) == {} ==> response.move == "down"
    ensures SafeSet(state) != {} ==> exists d :: d in SafeSet(state) && response.move == d.Name()
  {
    var myHead := state.you.body[0];
    var blocked := BlockedCells(state);
    var openDirs := OpenDirections(myHead, blocked);
    var safeMoves := SafeMoves(openDirs);
    assert forall d :: d in safeMoves <==> d in SafeSet(state);
    if |safeMoves| == 0 {
      response := BattlesnakeMoveResponse("down");
    } else {
      var i :| 0 <= i < |safeMoves|;
      assert safeMoves[i] in SafeSet(state);
      response := BattlesnakeMoveResponse(safeMoves[i].Name());
    }
  }
}
