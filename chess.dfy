/** The part of the python-chess library the server relies on. Chess rules are not
    reimplemented: a board is opaque, and each library call is a field of `Rules`,
    so every property proved about the server holds for any rules engine. */
module Chess {
  import opened Options

  /** A python-chess board: the position together with the stack of moves pushed onto it
      (threefold repetition is judged from that stack). */
  type Board

  datatype Rules = Rules(
    /** `chess.Board()`: the standard initial array, White to move. */
    start: Board,
    /** `chess.Board(fen)`: `None` where the library rejects the FEN text. */
    parseFen: string -> Option<Board>,
    /** `chess.Move.from_uci(u) in board.legal_moves`: false both for a token that does not
        parse and for a well-formed move that is not legal here. */
    legal: (Board, string) -> bool,
    /** `board.push(move)`. */
    push: (Board, string) -> Board,
    /** `board.turn`: true when White is to move. */
    whiteToMove: Board -> bool,
    isCheck: Board -> bool,
    isCheckmate: Board -> bool,
    isStalemate: Board -> bool,
    isFiftyMoves: Board -> bool,
    canClaimThreefold: Board -> bool,
    /** `board.san(move)`, the standard algebraic notation of a move in this position. */
    san: (Board, string) -> string,
    /** `board.fen()`. */
    fen: Board -> string,
    /** The PGN transcript built from a starting FEN and the move tokens. */
    pgn: (Option<string>, seq<string>) -> string
  )
}
