/** The host side of the game (the receiver): two player slots, the symbol
    whose turn it is and the board. Every inbound command is a transition
    from one host state to the next that also yields the outbound messages,
    either sent to one sender or broadcast to all. */
module Receiver {
  import opened Protocol
  import opened Board

  type SenderId = string

  /** The occupant of a player slot. `symbol` is unset until the game starts. */
  datatype Player = Player(name: string, senderId: SenderId, symbol: Option<Symbol>)

  /** The host state: an empty slot is `None` (the source's `-1`); `current`
      is the symbol whose turn it is, unset before the first game starts. */
  datatype Host<B> = Host(player1: Option<Player>, player2: Option<Player>, current: Option<Symbol>, board: B)

  /** The host as constructed around a board: both slots empty. */
  function Initial<B>(board: B): (s: Host<B>)
    ensures s.player1.None? && s.player2.None? && s.current.None? && s.board == board
  {
    Host(None, None, None, board)
  }

  /** An inbound message: its `command` selects the handler; `name` is read
      by `join`, `row` and `column` by `move`. */
  datatype Request = Request(command: string, name: string, row: int, column: int)

  /** The payloads the host sends. */
  datatype Event =
    | Error(message: string)
    | Joined(player: Symbol, opponent: string)
    | Moved(mover: Option<Symbol>, row: int, column: int, gameOver: bool)
    | EndGame(endState: GameResult, winningLocation: Option<int>)
    | BoardLayoutResponse(layout: seq<int>)

  /** An outbound message: to one sender, or to every connected sender. */
  datatype Outbound = Send(to: SenderId, event: Event) | Broadcast(event: Event)

  /** The new host state and the messages one command produced, in order. */
  datatype Transition<B> = Transition(host: Host<B>, out: seq<Outbound>)

  const GameFull := "Game is full."
  const NotYourTurn := "It's not your turn."
  const NotPlaying := "You are not playing the game"
  const InvalidMove := "Your last move was invalid"

  /** How JavaScript renders a possibly unset symbol inside a string. */
  function Describe(sym: Option<Symbol>): string
  {
    match sym
    case Some(x) => Text(x)
    case None => "undefined"
  }

  /** The error sent to a sender who joins while holding a slot. */
  function AlreadyPlaying(p: Player): string
  {
    "You are already " + Describe(p.symbol) + " You aren't allowed to play against yourself."
  }

  /** The slot is occupied by `sender`. */
  predicate Holds(slot: Option<Player>, sender: SenderId)
  {
    slot.Some? && slot.value.senderId == sender
  }

  /** `sender` occupies one of the two slots. */
  predicate IsPlayer<B>(s: Host<B>, sender: SenderId)
  {
    Holds(s.player1, sender) || Holds(s.player2, sender)
  }

  /** Both slots are occupied. */
  predicate Full<B>(s: Host<B>)
  {
    s.player1.Some? && s.player2.Some?
  }

  /** The same person sits in the slot before and after (the symbol may change). */
  predicate SameOccupant(before: Option<Player>, after: Option<Player>)
  {
    && (before.None? <==> after.None?)
    && (before.Some? ==> after.value.name == before.value.name && after.value.senderId == before.value.senderId)
  }

  /** The well-formed host states: whenever both slots are occupied the two
      players are different senders holding opposite symbols, and the turn
      is set. */
  predicate Valid<B>(s: Host<B>)
  {
    Full(s) ==>
      && s.player1.value.senderId != s.player2.value.senderId
      && s.player1.value.symbol.Some?
      && s.player2.value.symbol == Some(Other(s.player1.value.symbol.value))
      && s.current.Some?
  }

  /** The turn switch after a valid move: X hands over to O, anything else to X. */
  function Toggle(current: Option<Symbol>): (r: Symbol)
    ensures current.Some? ==> r == Other(current.value)
    ensures current.None? ==> r == X
  {
    if current == Some(X) then O else X
  }

  /** Game start: the coin `player1First` (the random draw came out 0)
      gives player 1 the cross, otherwise the naught; player 2 gets the other
      symbol, X is to move, and each player is told its symbol and the
      opponent's name. */
  function StartGame<B>(s: Host<B>, player1First: bool): (t: Transition<B>)
    requires Full(s)
    ensures Full(t.host) && SameOccupant(s.player1, t.host.player1) && SameOccupant(s.player2, t.host.player2)
    ensures t.host.player1.value.symbol == Some(if player1First then X else O)
    ensures t.host.player2.value.symbol == Some(Other(t.host.player1.value.symbol.value))
    ensures t.host.current == Some(X) && t.host.board == s.board
    ensures t.out == [Send(s.player1.value.senderId, Joined(t.host.player1.value.symbol.value, s.player2.value.name)),
                      Send(s.player2.value.senderId, Joined(t.host.player2.value.symbol.value, s.player1.value.name))]
  {
    var first := if player1First then X else O;
    var p1 := s.player1.value.(symbol := Some(first));
    var p2 := s.player2.value.(symbol := Some(Other(first)));
    Transition(s.(player1 := Some(p1), player2 := Some(p2), current := Some(X)),
               [Send(p1.senderId, Joined(first, p2.name)), Send(p2.senderId, Joined(Other(first), p1.name))])
  }

  /** After a slot was filled: reset the board and start the game when both
      slots are now occupied, otherwise wait. */
  function StartIfFull<B>(ops: BoardOps<B>, s: Host<B>, player1First: bool): Transition<B>
  {
    if Full(s) then StartGame(s.(board := ops.reset(s.board)), player1First)
    else Transition(s, [])
  }

  /** Clears both slots and broadcasts the end of the game. */
  function BroadcastEndGame<B>(s: Host<B>, endState: GameResult, winningLocation: Option<int>): (t: Transition<B>)
    ensures t.host.player1.None? && t.host.player2.None?
    ensures t.host.current == s.current && t.host.board == s.board
    ensures t.out == [Broadcast(EndGame(endState, winningLocation))]
  {
    Transition(s.(player1 := None, player2 := None), [Broadcast(EndGame(endState, winningLocation))])
  }

  /** `join`: a sender already holding a slot is refused; otherwise the first
      free slot is taken, and a full game is refused to the joiner alone.
      The game starts exactly when the join fills the second slot. */
  function OnJoin<B>(ops: BoardOps<B>, s: Host<B>, sender: SenderId, name: string, player1First: bool): (t: Transition<B>)
    // a sender holding a slot gets one error and nothing changes
    ensures IsPlayer(s, sender) ==>
      t.host == s && |t.out| == 1 && t.out[0].Send? && t.out[0].to == sender && t.out[0].event.Error?
    // a full game refuses the newcomer alone and nothing changes
    ensures !IsPlayer(s, sender) && Full(s) ==> t == Transition(s, [Send(sender, Error(GameFull))])
    // the newcomer takes slot 1 if it is free, else slot 2; the other slot keeps its occupant
    ensures !IsPlayer(s, sender) && s.player1.None? ==>
      && t.host.player1.Some? && t.host.player1.value.name == name && t.host.player1.value.senderId == sender
      && SameOccupant(s.player2, t.host.player2)
    ensures !IsPlayer(s, sender) && s.player1.Some? && s.player2.None? ==>
      && t.host.player2.Some? && t.host.player2.value.name == name && t.host.player2.value.senderId == sender
      && SameOccupant(s.player1, t.host.player1)
    // the board is reset and the game started exactly when the join fills the last free slot
    ensures !IsPlayer(s, sender) && (s.player1.None? != s.player2.None?) ==>
      && Full(t.host)
      && t.host.board == ops.reset(s.board)
      && t.host.current == Some(X)
      && t.host.player1.value.symbol == Some(if player1First then X else O)
      && t.host.player2.value.symbol == Some(Other(t.host.player1.value.symbol.value))
      && t.out == [Send(t.host.player1.value.senderId, Joined(t.host.player1.value.symbol.value, t.host.player2.value.name)),
                   Send(t.host.player2.value.senderId, Joined(t.host.player2.value.symbol.value, t.host.player1.value.name))]
    ensures !(!IsPlayer(s, sender) && (s.player1.None? != s.player2.None?)) ==>
      t.host.board == s.board && t.host.current == s.current && |t.out| <= 1
    // a lone joiner waits: it gets no symbol and nothing is sent
    ensures !IsPlayer(s, sender) && s.player1.None? && s.player2.None? ==>
      && t.out == []
      && t.host == s.(player1 := Some(Player(name, sender, None)))
  {
    if Holds(s.player1, sender) then
      Transition(s, [Send(sender, Error(AlreadyPlaying(s.player1.value)))])
    else if Holds(s.player2, sender) then
      Transition(s, [Send(sender, Error(AlreadyPlaying(s.player2.value)))])
    else if s.player1.None? then
      StartIfFull(ops, s.(player1 := Some(Player(name, sender, None))), player1First)
    else if s.player2.None? then
      StartIfFull(ops, s.(player2 := Some(Player(name, sender, None))), player1First)
    else
      Transition(s, [Send(sender, Error(GameFull))])
  }

  /** After a player left: if the board reports no result yet, the game is
      marked abandoned and its end broadcast, which clears both slots. */
  function AbandonIfUnfinished<B>(ops: BoardOps<B>, s: Host<B>): Transition<B>
  {
    if ops.gameResult(s.board) == InProgress then
      var b := ops.setGameAbandoned(s.board);
      BroadcastEndGame(s.(board := b), ops.gameResult(b), None)
    else
      Transition(s, [])
  }

  /** `leave`: frees the sender's slot (slot 1 first); a non-player changes
      nothing. */
  function OnLeave<B>(ops: BoardOps<B>, s: Host<B>, sender: SenderId): (t: Transition<B>)
    ensures !IsPlayer(s, sender) ==> t == Transition(s, [])
    ensures t.host.current == s.current
    // a finished game: only the leaver's slot is freed, silently
    ensures IsPlayer(s, sender) && ops.gameResult(s.board) != InProgress ==>
      t.out == [] &&
      t.host == (if Holds(s.player1, sender) then s.(player1 := None) else s.(player2 := None))
    // an unfinished game: abandoned, announced to all, both slots cleared
    ensures IsPlayer(s, sender) && ops.gameResult(s.board) == InProgress ==>
      && t.host.player1.None? && t.host.player2.None?
      && t.host.board == ops.setGameAbandoned(s.board)
      && t.out == [Broadcast(EndGame(ops.gameResult(t.host.board), None))]
  {
    if Holds(s.player1, sender) then
      AbandonIfUnfinished(ops, s.(player1 := None))
    else if Holds(s.player2, sender) then
      AbandonIfUnfinished(ops, s.(player2 := None))
    else
      Transition(s, [])
  }

  /** The slot a move from `sender` is checked against: slot 1 takes precedence. */
  function Mover<B>(s: Host<B>, sender: SenderId): Player
    requires Full(s) && IsPlayer(s, sender)
  {
    if s.player1.value.senderId == sender then s.player1.value else s.player2.value
  }

  /** The mark a player puts down: a cross for X, a naught otherwise. */
  function Mark<B>(ops: BoardOps<B>, b: B, p: Player, row: int, column: int): Draw<B>
  {
    if p.symbol == Some(X) then ops.drawCross(b, row, column) else ops.drawNaught(b, row, column)
  }

  /** A move by a seated player: out of turn it is refused; otherwise the
      mark is drawn and, when the board accepts it, the move is broadcast,
      the game's end (if reached) is broadcast, and the turn passes. */
  function PlayTurn<B>(ops: BoardOps<B>, s: Host<B>, p: Player, sender: SenderId, row: int, column: int): Transition<B>
  {
    if p.symbol != s.current then
      Transition(s, [Send(sender, Error(NotYourTurn))])
    else
      var d := Mark(ops, s.board, p, row, column);
      var s1 := s.(board := d.board);
      if !d.valid then
        Transition(s1, [Send(sender, Error(InvalidMove))])
      else
        var over := ops.isGameOver(s1.board);
        var ended :=
          if over then BroadcastEndGame(s1, ops.gameResult(s1.board), Some(ops.winningLocation(s1.board)))
          else Transition(s1, []);
        Transition(ended.host.(current := Some(Toggle(s.current))),
                   [Broadcast(Moved(s.current, row, column, over))] + ended.out)
  }

  /** `move`: ignored while a slot is empty; refused to non-players and out
      of turn; an invalid mark is refused; a valid one is announced, ends the
      game if the board says so, and passes the turn. */
  function OnMove<B>(ops: BoardOps<B>, s: Host<B>, sender: SenderId, row: int, column: int): (t: Transition<B>)
    // a move while a slot is empty is silently ignored
    ensures !Full(s) ==> t == Transition(s, [])
    // a move by a non-player is refused, touching nothing
    ensures Full(s) && !IsPlayer(s, sender) ==> t == Transition(s, [Send(sender, Error(NotPlaying))])
    // an out-of-turn move is refused, touching nothing
    ensures Full(s) && IsPlayer(s, sender) && Mover(s, sender).symbol != s.current ==>
      t == Transition(s, [Send(sender, Error(NotYourTurn))])
    // a move in turn: the board decides
    ensures Full(s) && IsPlayer(s, sender) && Mover(s, sender).symbol == s.current ==>
      var d := Mark(ops, s.board, Mover(s, sender), row, column);
      && t.host.board == d.board
      && (!d.valid ==> t == Transition(s.(board := d.board), [Send(sender, Error(InvalidMove))]))
      && (d.valid ==>
          var over := ops.isGameOver(d.board);
          && t.host.current == Some(Toggle(s.current))
          && |t.out| >= 1
          && t.out[0] == Broadcast(Moved(Mover(s, sender).symbol, row, column, over))
          && (over ==>
                && t.host.player1.None? && t.host.player2.None?
                && t.out[1..] == [Broadcast(EndGame(ops.gameResult(d.board), Some(ops.winningLocation(d.board))))])
          && (!over ==> t.host.player1 == s.player1 && t.host.player2 == s.player2 && |t.out| == 1))
  {
    if !Full(s) then
      Transition(s, [])
    else if s.player1.value.senderId == sender then
      PlayTurn(ops, s, s.player1.value, sender, row, column)
    else if s.player2.value.senderId == sender then
      PlayTurn(ops, s, s.player2.value, sender, row, column)
    else
      Transition(s, [Send(sender, Error(NotPlaying))])
  }

  /** `board_layout_request`: the layout goes to the requester alone. */
  function OnBoardLayoutRequest<B>(ops: BoardOps<B>, s: Host<B>, sender: SenderId): (t: Transition<B>)
    ensures t.host == s && |t.out| == 1 && t.out[0].Send? && t.out[0].to == sender
    ensures t.out[0].event.BoardLayoutResponse? && |t.out[0].event.layout| == Size * Size
    ensures forall i, j :: 0 <= i < Size && 0 <= j < Size ==>
      t.out[0].event.layout[i * Size + j] == ops.cell(s.board, i, j)
  {
    Transition(s, [Send(sender, BoardLayoutResponse(Layout(ops, s.board)))])
  }

  /** The message dispatch: one handler per known command; an unknown command
      changes nothing and sends nothing. The coin is consulted only when a
      join starts a game. */
  function Step<B>(ops: BoardOps<B>, s: Host<B>, sender: SenderId, req: Request, player1First: bool): (t: Transition<B>)
    ensures Valid(s) ==> Valid(t.host)
    ensures req.command !in {"join", "leave", "move", "board_layout_request"} ==> t == Transition(s, [])
    ensures req.command != "join" ==> t.host.player1.Some? ==> s.player1.Some?
    ensures req.command != "join" ==> t.host.player2.Some? ==> s.player2.Some?
  {
    if req.command == "join" then OnJoin(ops, s, sender, req.name, player1First)
    else if req.command == "leave" then OnLeave(ops, s, sender)
    else if req.command == "move" then OnMove(ops, s, sender, req.row, req.column)
    else if req.command == "board_layout_request" then OnBoardLayoutRequest(ops, s, sender)
    else Transition(s, [])
  }

  /** One delivered message with the coin the host would flip if it started
      a game on it. */
  datatype Delivery = Delivery(sender: SenderId, request: Request, player1First: bool)

  /** The host processing deliveries one at a time, in order; the outbound
      messages are concatenated in the order they were produced. */
  function Run<B>(ops: BoardOps<B>, s: Host<B>, ds: seq<Delivery>): (t: Transition<B>)
    decreases |ds|
  {
    if |ds| == 0 then Transition(s, [])
    else
      var first := Step(ops, s, ds[0].sender, ds[0].request, ds[0].player1First);
      var rest := Run(ops, first.host, ds[1..]);
      Transition(rest.host, first.out + rest.out)
  }
}
