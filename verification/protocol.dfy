/** Vocabulary shared by the host (receiver) and the client (sender):
    the optional value used for empty slots and unset fields, and the two
    player symbols of the tictactoe protocol. */
module Protocol {

  /** Some value or nothing; stands for the source's `-1` player slots,
      JavaScript `undefined` fields and Java `null` returns. */
  datatype Option<+T> = None | Some(value: T)

  /** The two player symbols, `TicTacToe.PLAYER` in the receiver. */
  datatype Symbol = X | O

  /** The wire text of a symbol. */
  function Text(s: Symbol): (r: string)
    ensures |r| == 1
    ensures s == X <==> r == "X"
    ensures s == O <==> r == "O"
  {
    match s
    case X => "X"
    case O => "O"
  }

  /** The opponent's symbol. */
  function Other(s: Symbol): (r: Symbol)
    ensures r != s
    ensures r == X <==> s == O
  {
    match s
    case X => O
    case O => X
  }
}
