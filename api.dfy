/** The parts of a Battlesnake game-state snapshot that the move logic reads.
    Only the fields the decision uses are kept: names, health, food and the
    turn number are left out. */
module Api {

  /** A board cell. x grows to the right, y grows upward. */
  datatype Coord = Coord(x: int, y: int)

  /** A snake; body[0] is its head and the last element its tail. */
  datatype Battlesnake = Battlesnake(body: seq<Coord>)

  /** The board: its dimensions and every snake on it (the deciding one included). */
  datatype Board = Board(width: int, height: int, snakes: seq<Battlesnake>)

  /** One turn's snapshot: the deciding snake and the board. */
  datatype GameState = GameState(you: Battlesnake, board: Board)

  /** The reply to a move request: one of "up", "down", "left", "right". */
  datatype BattlesnakeMoveResponse = BattlesnakeMoveResponse(move: string)
}
