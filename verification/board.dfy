/** The game board as the host sees it. The board object itself (its cells,
    its win and tie rules) is not part of this model: the host only calls
    the handful of operations gathered in `BoardOps`, and every property
    proved about the host holds for any board that provides them. */
module Board {

  /** What the board reports as the game result; `InProgress` stands for the
      board's `-1` sentinel and `Ended` carries any other end-state value. */
  datatype GameResult = InProgress | Ended(endState: string)

  /** The outcome of `drawCross`/`drawNaught`: whether the board accepted the
      mark, and the board afterwards. */
  datatype Draw<B> = Draw(valid: bool, board: B)

  /** The board operations the host relies on, left uninterpreted. */
  datatype BoardOps<!B> = BoardOps(
    reset: B -> B,
    drawCross: (B, int, int) -> Draw<B>,
    drawNaught: (B, int, int) -> Draw<B>,
    isGameOver: B -> bool,
    gameResult: B -> GameResult,
    winningLocation: B -> int,
    setGameAbandoned: B -> B,
    cell: (B, int, int) -> int)

  /** Number of rows, and of columns, of the board. */
  const Size: nat := 3

  /** The flat, row-major layout of the board sent in a
      `board_layout_response`: cell (i, j) sits at index i * 3 + j. */
  function Layout<B>(ops: BoardOps<B>, b: B): (r: seq<int>)
    ensures |r| == Size * Size
    ensures forall i, j :: 0 <= i < Size && 0 <= j < Size ==> r[i * Size + j] == ops.cell(b, i, j)
  {
    var c := (i, j) => ops.cell(b, i, j);
    [c(0, 0), c(0, 1), c(0, 2), c(1, 0), c(1, 1), c(1, 2), c(2, 0), c(2, 1), c(2, 2)]
  }

  /** The host's nested loop over rows and columns that fills the layout
      array one cell at a time. */
  method BuildLayout<B>(ops: BoardOps<B>, b: B) returns (layout: seq<int>)
    ensures |layout| == Size * Size
    ensures forall i, j :: 0 <= i < Size && 0 <= j < Size ==> layout[i * Size + j] == ops.cell(b, i, j)
    ensures layout == Layout(ops, b)
  {
    layout := [];
    var i := 0;
    while i < Size
      invariant 0 <= i <= Size
      invariant |layout| == i * Size
      invariant forall k :: 0 <= k < |layout| ==> layout[k] == Layout(ops, b)[k]
    {
      var j := 0;
      while j < Size
        invariant 0 <= j <= Size
        invariant |layout| == i * Size + j
        invariant forall k :: 0 <= k < |layout| ==> layout[k] == Layout(ops, b)[k]
      {
        // the write lands at index i * 3 + j, the next free one
        layout := layout + [ops.cell(b, i, j)];
        j := j + 1;
      }
      i := i + 1;
    }
  }
}
