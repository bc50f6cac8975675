/** What the move decision guarantees: the neighbour classification, the
    blocked list, the open directions and the chosen move. */
module Properties {
  import opened Api
  import opened Logic

  function Abs(n: int): nat {
    if n < 0 then -n else n
  }

  /** Facing the other way twice is facing the same way. */
  lemma OppositeInvolution(d: Direction)
    ensures Opposite(Opposite(d)) == d && (d.IsReal() <==> Opposite(d).IsReal())
  {
  }

  /** A target gets a real direction exactly when it is one step away along
      one axis. */
  lemma NeighborIffAdjacent(a: Coord, b: Coord)
    ensures NeighborDirection(a, b) != Blank <==> Abs(a.x - b.x) + Abs(a.y - b.y) == 1
  {
  }

  /** A cell that is not one step away is classified as Blank, never as one
      of the four directions. */
  lemma NonNeighborIsBlank(a: Coord, b: Coord)
    requires forall d: Direction :: d.IsReal() ==> b != Step(a, d)
    ensures NeighborDirection(a, b) == Blank
  {
    assert b != Step(a, Up) && b != Step(a, Down) && b != Step(a, Left) && b != Step(a, Right);
  }

  /** No cell is its own neighbour. */
  lemma SelfIsNotNeighbor(c: Coord)
    ensures NeighborDirection(c, c) == Blank
  {
  }

  /** Seen from the target, the source lies in the opposite direction; in
      particular right from a to b exactly when left from b to a, and up
      exactly when down. */
  lemma {:induction false} NeighborAntisymmetric(a: Coord, b: Coord)
    ensures NeighborDirection(b, a) == Opposite(NeighborDirection(a, b))
  {
    var d := NeighborDirection(a, b);
    if d.IsReal() {
      assert b == Step(a, d);
      assert a == Step(b, Opposite(d));
    } else {
      forall e: Direction | e.IsReal()
        ensures a != Step(b, e)
      {
        assert a == Step(b, e) ==> b == Step(a, Opposite(e));
      }
    }
  }

  /** The wall sentinels: one cell beyond each edge, alongside the board only. */
  predicate IsWallSentinel(board: Board, c: Coord) {
    || (c.x == -1 && 0 <= c.y < board.height)
    || (c.x == board.width && 0 <= c.y < board.height)
    || (c.y == board.height && 0 <= c.x < board.width)
    || (c.y == -1 && 0 <= c.x < board.width)
  }

  lemma WallsMembership(board: Board, c: Coord)
    ensures c in Walls(board) <==> IsWallSentinel(board, c)
  {
    var w, h := Count(board.width), Count(board.height);
    var left, right := Column(-1, h), Column(board.width, h);
    var top, bottom := Row(board.height, w), Row(-1, w);
    assert Walls(board) == left + right + top + bottom;
    if IsWallSentinel(board, c) {
      if c.x == -1 && 0 <= c.y < board.height {
        assert left[c.y] == c;
      } else if c.x == board.width && 0 <= c.y < board.height {
        assert right[c.y] == c;
      } else if c.y == board.height && 0 <= c.x < board.width {
        assert top[c.x] == c;
      } else {
        assert bottom[c.x] == c;
      }
    }
  }

  /** The four corner cells outside the board are never wall sentinels. */
  lemma NoCornerSentinels(board: Board)
    ensures Coord(-1, -1) !in Walls(board)
    ensures Coord(-1, board.height) !in Walls(board)
    ensures Coord(board.width, -1) !in Walls(board)
    ensures Coord(board.width, board.height) !in Walls(board)
  {
    WallsMembership(board, Coord(-1, -1));
    WallsMembership(board, Coord(-1, board.height));
    WallsMembership(board, Coord(board.width, -1));
    WallsMembership(board, Coord(board.width, board.height));
  }

  lemma {:induction false} BodiesMembership(snakes: seq<Battlesnake>, c: Coord)
    ensures c in Bodies(snakes) <==> exists i :: 0 <= i < |snakes| && c in snakes[i].body
  {
    if snakes != [] {
      var init := snakes[..|snakes| - 1];
      BodiesMembership(init, c);
      if c in Bodies(snakes) {
        if c in Bodies(init) {
          var i :| 0 <= i < |init| && c in init[i].body;
          assert snakes[i] == init[i];
        } else {
          assert c in snakes[|snakes| - 1].body;
        }
      } else {
        forall i | 0 <= i < |snakes|
          ensures c !in snakes[i].body
        {
          if i < |init| {
            assert snakes[i] == init[i];
          }
        }
      }
    }
  }

  /** A cell is blocked exactly when it is a segment of the deciding snake
      other than the head, a wall sentinel, or a segment of a snake on the board. */
  lemma BlockedMembership(state: GameState, c: Coord)
    requires |state.you.body| > 0
    ensures c in Blocked(state) <==>
      || c in state.you.body[1..]
      || IsWallSentinel(state.board, c)
      || exists i :: 0 <= i < |state.board.snakes| && c in state.board.snakes[i].body
  {
    WallsMembership(state.board, c);
    BodiesMembership(state.board.snakes, c);
  }

  /** An empty blocked list leaves all four directions open. */
  lemma OpenSetOfNothing(pos: Coord)
    ensures OpenSet(pos, []) == RealDirections
  {
  }

  /** A direction is closed exactly when a blocked cell is classified as the
      neighbour in that direction. */
  lemma OpenSetClosedByNeighbor(pos: Coord, blocked: seq<Coord>, d: Direction)
    requires d.IsReal()
    ensures d !in OpenSet(pos, blocked) <==> exists b :: b in blocked && NeighborDirection(pos, b) == d
  {
    assert NeighborDirection(pos, Step(pos, d)) == d;
  }

  /** The open directions depend only on which cells are blocked, not on the
      order or the repetitions of the blocked list. */
  lemma OpenSetSameMembers(pos: Coord, blocked: seq<Coord>, other: seq<Coord>)
    requires forall c :: c in blocked <==> c in other
    ensures OpenSet(pos, blocked) == OpenSet(pos, other)
  {
  }

  /** Cells that are not neighbours of pos close nothing. */
  lemma OpenSetIgnoresNonNeighbors(pos: Coord, blocked: seq<Coord>, extra: seq<Coord>)
    requires forall c :: c in extra ==> NeighborDirection(pos, c) == Blank
    ensures OpenSet(pos, blocked + extra) == OpenSet(pos, blocked)
  {
    forall d | d in RealDirections
      ensures Step(pos, d) !in extra
    {
      assert NeighborDirection(pos, Step(pos, d)) == d;
    }
  }

  /** The deciding snake is on the board's snake list, so its own head is
      blocked, yet it closes no direction. */
  lemma OwnHeadIsBlocked(state: GameState)
    requires |state.you.body| > 0
    requires state.you in state.board.snakes
    ensures state.you.body[0] in Blocked(state)
  {
    var i :| 0 <= i < |state.board.snakes| && state.board.snakes[i] == state.you;
    BlockedMembership(state, state.you.body[0]);
  }

  lemma OwnHeadClosesNothing(head: Coord, blocked: seq<Coord>)
    ensures OpenSet(head, blocked + [head]) == OpenSet(head, blocked)
  {
    SelfIsNotNeighbor(head);
    OpenSetIgnoresNonNeighbors(head, blocked, [head]);
  }

  /** The neck, body[1], closes the direction that leads onto it. */
  lemma NeckIsClosed(state: GameState, d: Direction)
    requires |state.you.body| >= 2 && d.IsReal()
    requires state.you.body[1] == Step(state.you.body[0], d)
    ensures d !in SafeSet(state)
  {
    assert state.you.body[1..][0] == state.you.body[1];
  }

  /** A head in the bottom-left corner cannot go left or down. */
  lemma OriginCornerClosesLeftAndDown(state: GameState)
    requires |state.you.body| > 0 && state.you.body[0] == Coord(0, 0)
    requires state.board.width >= 1 && state.board.height >= 1
    ensures Left !in SafeSet(state) && Down !in SafeSet(state)
  {
    BlockedMembership(state, Coord(-1, 0));
    BlockedMembership(state, Coord(0, -1));
  }

  /** A head blocked on all four sides has no safe move. */
  lemma SurroundedHasNoSafeMove(state: GameState)
    requires |state.you.body| > 0
    requires forall d: Direction :: d.IsReal() ==> Step(state.you.body[0], d) in Blocked(state)
    ensures SafeSet(state) == {}
  {
  }

  /** A safe move never steps into a blocked cell, and from a head on the
      board it never leaves the board. */
  lemma {:induction false} SafeMoveIsOnBoard(state: GameState, d: Direction)
    requires |state.you.body| > 0 && d in SafeSet(state)
    requires var h := state.you.body[0];
      0 <= h.x < state.board.width && 0 <= h.y < state.board.height
    ensures Step(state.you.body[0], d) !in Blocked(state)
    ensures var t := Step(state.you.body[0], d);
      0 <= t.x < state.board.width && 0 <= t.y < state.board.height
  {
    var t := Step(state.you.body[0], d);
    BlockedMembership(state, t);
  }

  /** From the chosen move's name one recovers the direction taken. */
  lemma NameInjective(d: Direction, e: Direction)
    ensures d.Name() == e.Name() <==> d == e
  {
    if d != e && |d.Name()| == |e.Name()| && |d.Name()| > 0 {
      assert d.Name()[0] != e.Name()[0];
    }
  }

  /** An 11x11 board holding one snake at (5,5) with its neck at (5,4): every
      direction but down is safe. */
  lemma TwoSegmentSnakeInTheMiddle()
    ensures var you := Battlesnake([Coord(5, 5), Coord(5, 4)]);
      SafeSet(GameState(you, Board(11, 11, [you]))) == {Up, Left, Right}
  {
    var you := Battlesnake([Coord(5, 5), Coord(5, 4)]);
    var state := GameState(you, Board(11, 11, [you]));
    BlockedMembership(state, Coord(5, 6));
    BlockedMembership(state, Coord(5, 4));
    BlockedMembership(state, Coord(4, 5));
    BlockedMembership(state, Coord(6, 5));
    assert state.you.body[1..] == [Coord(5, 4)];
  }
}
