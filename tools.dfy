/** Values shared by the board, the view and the game: the two colours,
    the board-generation options and an Option type for JavaScript's
    `undefined`. */
module Tools {

  /** A value that may be `undefined` in the source. */
  datatype Option<T> = None | Some(value: T)

  /** COLOR.WHITE and COLOR.BLACK. */
  datatype Color = White | Black

  /** Tools.getInvertColor: the other of the two colours. */
  function InvertColor(c: Color): (r: Color)
    ensures r != c
  {
    match c
    case White => Black
    case Black => White
  }

  /** Inverting twice gives the colour back, so two half-moves restore the
      colour to move. */
  lemma InvertColorInvolutive(c: Color)
    ensures InvertColor(InvertColor(c)) == c
  {
  }

  /** The layouts of Gen.boardOptions; `normalBoard` is the standard start
      position, the others are kept by name. */
  datatype BoardOption = NormalBoard | OtherBoard(name: string)
}
