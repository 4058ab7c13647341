/** The chess board collaborator (ChessBoard and the piece-code helpers of
    Tools). Its source is not part of this model: every operation the view
    calls on it is a function-valued field of `Engine`, over a board state
    of an arbitrary type B. Beyond being functions of their arguments,
    nothing is assumed about what these compute; the queries `at` and
    `tracksOf` give no new board, so they are taken not to change it. */
module ChessBoard {
  import opened Tools

  /** A move as returned by ChessBoard.moveFromTo: the two squares, the
      captured piece code in `eat` (0 when nothing was captured, which
      JavaScript treats as falsy like `undefined`) and the turn stamp the
      game sets on it (`undefined` until then). */
  datatype Move = Move(from: int, to: int, eat: int, turn: Option<nat>)

  /** A square of the board collection: its index and the piece code on it
      (0 for an empty square). */
  datatype Box = Box(id: int, current: int)

  datatype Engine<!B> = Engine(
    /** ChessBoard.createBoard(option, random): a fresh board. With the
        random flag set it is still one fixed board per option. */
    createBoard: (BoardOption, bool) -> B,
    /** ChessBoard.at(id).getCurrent(); None when `at` gives `undefined`. */
    at: (B, int) -> Option<int>,
    /** ChessBoard.getTracksOf(pieceCode): the squares the piece may reach. */
    tracksOf: (B, int) -> seq<Box>,
    /** ChessBoard.moveFromTo(from, to): the board afterwards and the move,
        None when the board refuses it (a falsy result). */
    moveFromTo: (B, int, int) -> (B, Option<Move>),
    /** ChessBoard.updateAll(turn). */
    updateAll: (B, Color) -> B,
    /** Tools.sameColor(pieceCode, colour); the colour may be `undefined`. */
    sameColor: (int, Option<Color>) -> bool
  )
}
