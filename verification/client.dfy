/** The client (sender) side: the pure parts of the game message stream that
    turn host notifications into what the player's screen shows, and the
    end-of-session cleanup. */
module Client {
  import opened Protocol

  /** A board cell, or the player assigned to this client, as its game view knows it. */
  datatype State = Empty | PlayerX | PlayerO

  /** The numeric codes of the winning-location enumeration. Only their
      shape is assumed where a property needs it (see `Contiguous`). */
  datatype LocationCodes = LocationCodes(row0: int, row2: int, col0: int, col2: int, diagonalTopLeft: int, diagonalBottomLeft: int)

  /** The end-state strings the host sends for a win by X, a win by O and an
      abandoned game. */
  datatype EndStateCodes = EndStateCodes(xWon: string, oWon: string, abandoned: string)

  /** Rows 0..2 and columns 0..2 are consecutive codes, and the four
      groups (rows, columns, each diagonal) are pairwise apart. */
  predicate Contiguous(c: LocationCodes)
  {
    && c.row2 == c.row0 + 2
    && c.col2 == c.col0 + 2
    && (c.col0 > c.row2 || c.col2 < c.row0)
    && !(c.row0 <= c.diagonalTopLeft <= c.row2) && !(c.col0 <= c.diagonalTopLeft <= c.col2)
    && !(c.row0 <= c.diagonalBottomLeft <= c.row2) && !(c.col0 <= c.diagonalBottomLeft <= c.col2)
    && c.diagonalTopLeft != c.diagonalBottomLeft
  }

  /** The row codes start at 0: the handler uses a row code as the row index
      itself, while it subtracts the first column code from a column code. */
  predicate RowsFromZero(c: LocationCodes)
  {
    c.row0 == 0
  }

  /** The three end-state strings are different. */
  predicate Distinct(e: EndStateCodes)
  {
    e.xWon != e.oWon && e.xWon != e.abandoned && e.oWon != e.abandoned
  }

  /** The player this client is assigned on `joined`: only "X" and "O" name a
      player, anything else leaves the client without one. */
  function JoinedPlayer(symbol: string): (p: State)
    ensures p == PlayerX <==> symbol == Text(X)
    ensures p == PlayerO <==> symbol == Text(O)
    ensures p == Empty <==> symbol != Text(X) && symbol != Text(O)
  {
    if symbol == Text(X) then PlayerX
    else if symbol == Text(O) then PlayerO
    else Empty
  }

  /** The wire symbol of a player; no symbol for `Empty` (the source's null). */
  function PlayerSymbol(p: State): (r: Option<string>)
    ensures r.None? <==> p == Empty
    ensures r.Some? ==> JoinedPlayer(r.value) == p
  {
    match p
    case PlayerX => Some(Text(X))
    case PlayerO => Some(Text(O))
    case Empty => None
  }

  /** `JoinedPlayer` and `PlayerSymbol` are inverse on the two symbols and
      on the two players. */
  lemma SymbolRoundTrip(symbol: string, p: State)
    ensures PlayerSymbol(JoinedPlayer(symbol)) == (if symbol in {"X", "O"} then Some(symbol) else None)
    ensures p != Empty ==> PlayerSymbol(p).Some? && JoinedPlayer(PlayerSymbol(p).value) == p
  {
  }

  /** What a `moved` notification puts on the screen: the mark drawn and the
      symbol named as next to play. */
  datatype MoveView = MoveView(cell: State, nextTurn: string)

  /** A `moved` symbol "X" draws a cross and names O next; any other symbol
      draws a naught and names X next. */
  function MovedPlayer(symbol: string): (m: MoveView)
    ensures m.cell != Empty
    ensures m.cell == PlayerX <==> symbol == Text(X)
    ensures PlayerSymbol(m.cell).Some? && m.nextTurn != PlayerSymbol(m.cell).value
    ensures {m.nextTurn, PlayerSymbol(m.cell).value} == {Text(X), Text(O)}
  {
    if symbol == Text(X) then MoveView(PlayerX, Text(O)) else MoveView(PlayerO, Text(X))
  }

  /** The winning line to highlight: a row index, a column index or a
      diagonal (0 top-left, 1 bottom-left); -1 where not set. */
  datatype Line = Line(row: int, column: int, diagonal: int)

  /** At most one of the three fields is set. */
  predicate AtMostOne(l: Line)
  {
    && (l.row != -1 ==> l.column == -1 && l.diagonal == -1)
    && (l.column != -1 ==> l.row == -1 && l.diagonal == -1)
    && (l.diagonal != -1 ==> l.row == -1 && l.column == -1)
  }

  /** The location code lies in one of the four recognised groups. */
  predicate Recognised(c: LocationCodes, location: int)
  {
    || c.row0 <= location <= c.row2
    || c.col0 <= location <= c.col2
    || location == c.diagonalTopLeft
    || location == c.diagonalBottomLeft
  }

  /** Decoding of the winning-location code carried by `endgame`. */
  function WinningLine(c: LocationCodes, location: int): (l: Line)
    ensures AtMostOne(l)
    ensures !Recognised(c, location) ==> l == Line(-1, -1, -1)
    ensures c.row0 <= location <= c.row2 ==> l == Line(location, -1, -1)
    ensures l.column != -1 ==> c.col0 <= location <= c.col2 && 0 <= l.column <= c.col2 - c.col0
    ensures l.column != -1 ==> l.column == location - c.col0
    ensures l.diagonal != -1 ==> l.diagonal in {0, 1}
  {
    if c.row0 <= location <= c.row2 then Line(location, -1, -1)
    else if c.col0 <= location <= c.col2 then Line(-1, location - c.col0, -1)
    else if location == c.diagonalTopLeft then Line(-1, -1, 0)
    else if location == c.diagonalBottomLeft then Line(-1, -1, 1)
    else Line(-1, -1, -1)
  }

  /** The location code of a line: the reference encoding the decoding is
      checked against; `None` when no field is set. */
  function LineCode(c: LocationCodes, l: Line): Option<int>
  {
    if l.row != -1 then Some(c.row0 + l.row)
    else if l.column != -1 then Some(c.col0 + l.column)
    else if l.diagonal == 0 then Some(c.diagonalTopLeft)
    else if l.diagonal == 1 then Some(c.diagonalBottomLeft)
    else None
  }

  /** With contiguous codes the decoding loses nothing: a recognised code is
      recovered from its line, an unrecognised one yields no line at all. */
  lemma WinningLineRoundTrip(c: LocationCodes, location: int)
    requires Contiguous(c) && RowsFromZero(c)
    ensures Recognised(c, location) <==> LineCode(c, WinningLine(c, location)) == Some(location)
    ensures !Recognised(c, location) <==> WinningLine(c, location) == Line(-1, -1, -1)
  {
  }

  /** Each column and diagonal has its own code, and decoding it gives that
      line: columns as indexes 0..2. */
  lemma EveryLineDecodes(c: LocationCodes, i: int)
    requires Contiguous(c) && 0 <= i < 3
    ensures WinningLine(c, c.col0 + i) == Line(-1, i, -1)
    ensures WinningLine(c, c.diagonalTopLeft) == Line(-1, -1, 0)
    ensures WinningLine(c, c.diagonalBottomLeft) == Line(-1, -1, 1)
  {
  }

  /** Each row code decodes to that row; it is the row index 0..2 exactly
      when the row codes start at 0. */
  lemma EveryRowDecodes(c: LocationCodes, i: int)
    requires Contiguous(c) && 0 <= i < 3
    ensures WinningLine(c, c.row0 + i) == Line(c.row0 + i, -1, -1)
    ensures RowsFromZero(c) ==> WinningLine(c, c.row0 + i) == Line(i, -1, -1)
  {
  }

  /** The winner shown at the end, and whether the game was abandoned. */
  datatype Outcome = Outcome(winner: State, abandoned: bool)

  /** Decoding of the end state carried by `endgame`: a win by X or O names
      that winner; an abandoned game keeps the client's own player and is
      flagged abandoned; anything else has no winner. */
  function EndOutcome(e: EndStateCodes, own: State, endState: string): (o: Outcome)
    ensures endState == e.xWon ==> o == Outcome(PlayerX, false)
    ensures endState != e.xWon && endState == e.oWon ==> o == Outcome(PlayerO, false)
    ensures o.abandoned <==> endState == e.abandoned && endState != e.xWon && endState != e.oWon
    ensures o.abandoned ==> o.winner == own
    ensures endState !in {e.xWon, e.oWon, e.abandoned} ==> o == Outcome(Empty, false)
  {
    if endState == e.xWon then Outcome(PlayerX, false)
    else if endState == e.oWon then Outcome(PlayerO, false)
    else if endState == e.abandoned then Outcome(own, true)
    else Outcome(Empty, false)
  }

  /** Everything `endgame` hands to the end-of-game display. */
  datatype GameEnd = GameEnd(winner: State, line: Line, abandoned: bool)

  /** The `endgame` handler: end state and location decoded independently. */
  function OnGameEnd(e: EndStateCodes, c: LocationCodes, own: State, endState: string, location: int): (g: GameEnd)
    // the end state alone decides winner and abandonment
    ensures endState == e.xWon ==> g.winner == PlayerX && !g.abandoned
    ensures endState != e.xWon && endState == e.oWon ==> g.winner == PlayerO && !g.abandoned
    ensures g.abandoned <==> endState == e.abandoned && endState != e.xWon && endState != e.oWon
    ensures g.abandoned ==> g.winner == own
    ensures endState !in {e.xWon, e.oWon, e.abandoned} ==> g.winner == Empty && !g.abandoned
    // the location alone decides the line
    ensures AtMostOne(g.line)
    ensures !Recognised(c, location) ==> g.line == Line(-1, -1, -1)
    ensures c.row0 <= location <= c.row2 ==> g.line == Line(location, -1, -1)
    ensures !(c.row0 <= location <= c.row2) && c.col0 <= location <= c.col2 ==> g.line == Line(-1, location - c.col0, -1)
    ensures !(c.row0 <= location <= c.row2) && !(c.col0 <= location <= c.col2) && location == c.diagonalTopLeft ==>
      g.line == Line(-1, -1, 0)
    ensures (!(c.row0 <= location <= c.row2) && !(c.col0 <= location <= c.col2) && location != c.diagonalTopLeft
             && location == c.diagonalBottomLeft) ==> g.line == Line(-1, -1, 1)
  {
    var o := EndOutcome(e, own, endState);
    GameEnd(o.winner, WinningLine(c, location), o.abandoned)
  }

  /** The message of the end-of-game dialog. */
  datatype Verdict = OtherPlayersAbandoned | Abandoned | Tie | Wins(symbol: string)

  /** Choice of the end-of-game message: abandonment first (told apart by
      whether this client had a player), then a tie when nobody won, else
      the winner's symbol. */
  function VerdictOf(own: State, g: GameEnd): (v: Verdict)
    ensures v.Wins? <==> !g.abandoned && g.winner != Empty
    ensures v.Wins? ==> Some(v.symbol) == PlayerSymbol(g.winner)
    ensures v == Tie <==> !g.abandoned && g.winner == Empty
    ensures v == OtherPlayersAbandoned <==> g.abandoned && own == Empty
    ensures v == Abandoned <==> g.abandoned && own != Empty
  {
    if g.abandoned then (if own == Empty then OtherPlayersAbandoned else Abandoned)
    else if g.winner == Empty then Tie
    else Wins(PlayerSymbol(g.winner).value)
  }

  /** With distinct end-state strings the dialog matches the end state: each
      win names its symbol, abandonment is reported as such whichever player
      this client had, and every other end state reads as a tie. */
  lemma VerdictMatchesEndState(e: EndStateCodes, c: LocationCodes, own: State, endState: string, location: int)
    requires Distinct(e)
    ensures var v := VerdictOf(own, OnGameEnd(e, c, own, endState, location));
      && (v == Wins(Text(X)) <==> endState == e.xWon)
      && (v == Wins(Text(O)) <==> endState == e.oWon)
      && (v == Abandoned <==> endState == e.abandoned && own != Empty)
      && (v == OtherPlayersAbandoned <==> endState == e.abandoned && own == Empty)
      && (v == Tie <==> endState !in {e.xWon, e.oWon, e.abandoned})
  {
  }

  /** What the client asks of the host. */
  datatype ClientRequest = JoinRequest(name: string) | MoveRequest(row: int, column: int) | LeaveRequest | BoardLayoutRequest

  /** The client's game view: the player assigned to it and the marks it has
      drawn; a cell absent from `cells` is empty. */
  datatype View = View(own: State, cells: map<(int, int), State>)

  /** The view after a reaction, and the requests the reaction sent. */
  datatype Reaction = Reaction(view: View, sent: seq<ClientRequest>)

  /** The `joined` handler: only the assigned player changes. */
  function OnGameJoined(v: View, symbol: string): (r: View)
    ensures r.cells == v.cells
    ensures PlayerSymbol(r.own) == (if symbol in {"X", "O"} then Some(symbol) else None)
  {
    v.(own := JoinedPlayer(symbol))
  }

  /** The `moved` handler: the one cell receives the mover's mark, nothing
      else changes. */
  function OnGameMove(v: View, symbol: string, row: int, column: int): (r: View)
    ensures r.own == v.own
    ensures (row, column) in r.cells && r.cells[(row, column)] != Empty
    ensures r.cells[(row, column)] == PlayerX <==> symbol == Text(X)
    ensures forall k :: k in v.cells && k != (row, column) ==> k in r.cells && r.cells[k] == v.cells[k]
    ensures r.cells.Keys == v.cells.Keys + {(row, column)}
  {
    v.(cells := v.cells[(row, column) := MovedPlayer(symbol).cell])
  }

  /** The `error` handler: the full-game message turns the client into an
      observer (board cleared, no player) that asks for the board layout;
      any other message changes nothing. */
  function OnGameError(fullGame: string, v: View, message: string): (r: Reaction)
    ensures message == fullGame <==> r.sent == [BoardLayoutRequest]
    ensures message == fullGame ==> r.view.own == Empty && r.view.cells == map[]
    ensures message != fullGame ==> r == Reaction(v, [])
  {
    if message == fullGame then Reaction(View(Empty, map[]), [BoardLayoutRequest])
    else Reaction(v, [])
  }
}
