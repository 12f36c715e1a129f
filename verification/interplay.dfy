/** How the client's decoding meets the host's notifications: the messages
    the host produces lead the client to the display the host's state
    implies. The message codec between the two is not modelled; these
    properties assume the fields arrive as sent. */
module Interplay {
  import opened Protocol
  import opened Board
  import opened Receiver
  import opened Client

  /** A third joiner's client turns into an observer: the host refuses it
      with "Game is full.", the client (whose full-game text is that
      message) clears its view, drops its player and requests the layout,
      and the host answers that request to it alone, changing nothing. */
  lemma RefusedJoinerObserves<B>(ops: BoardOps<B>, s: Host<B>, joiner: SenderId, name: string, coin: bool, v: View)
    requires Full(s) && !IsPlayer(s, joiner)
    ensures var refusal := Step(ops, s, joiner, Request("join", name, 0, 0), coin);
      && refusal.host == s
      && |refusal.out| == 1 && refusal.out[0].Send? && refusal.out[0].to == joiner && refusal.out[0].event.Error?
      && var r := OnGameError(GameFull, v, refusal.out[0].event.message);
      && r.view.own == Empty && r.view.cells == map[]
      && r.sent == [BoardLayoutRequest]
      && var answer := Step(ops, s, joiner, Request("board_layout_request", "", 0, 0), coin);
      && answer.host == s && answer.out == [Send(joiner, BoardLayoutResponse(Layout(ops, s.board)))]
  {
  }

  /** When a game starts, each seated client is assigned the symbol of its
      seat, and the two clients get different players. */
  lemma StartedClientsAgree<B>(ops: BoardOps<B>, s: Host<B>, joiner: SenderId, name: string, coin: bool)
    requires !IsPlayer(s, joiner) && (s.player1.None? != s.player2.None?)
    ensures var t := OnJoin(ops, s, joiner, name, coin);
      && |t.out| == 2 && t.out[0].event.Joined? && t.out[1].event.Joined?
      && var p1 := JoinedPlayer(Text(t.out[0].event.player));
      && var p2 := JoinedPlayer(Text(t.out[1].event.player));
      && p1 != Empty && p2 != Empty && p1 != p2
      && PlayerSymbol(p1) == Some(Text(t.host.player1.value.symbol.value))
      && PlayerSymbol(p2) == Some(Text(t.host.player2.value.symbol.value))
  {
  }

  /** After an accepted move on a well-formed host, every client draws the
      mover's mark and names as next to play exactly the symbol the host
      now expects. */
  lemma MovedDisplayAgrees<B>(ops: BoardOps<B>, s: Host<B>, sender: SenderId, row: int, column: int)
    requires Valid(s) && Full(s) && IsPlayer(s, sender)
    requires Mover(s, sender).symbol == s.current
    requires Mark(ops, s.board, Mover(s, sender), row, column).valid
    ensures var t := OnMove(ops, s, sender, row, column);
      && t.out[0].event.Moved? && t.out[0].event.mover.Some?
      && var shown := MovedPlayer(Text(t.out[0].event.mover.value));
      && PlayerSymbol(shown.cell) == Some(Text(Mover(s, sender).symbol.value))
      && t.host.current.Some? && shown.nextTurn == Text(t.host.current.value)
  {
  }
}
