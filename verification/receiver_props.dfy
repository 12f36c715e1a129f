/** Properties of the host that span several commands or whole runs. */
module ReceiverProps {
  import opened Protocol
  import opened Board
  import opened Receiver

  /** The well-formedness of the seats holds in the initial state and after
      any sequence of delivered messages, whatever the board does. */
  lemma {:induction false} RunPreservesValid<B>(ops: BoardOps<B>, s: Host<B>, ds: seq<Delivery>)
    requires Valid(s)
    ensures Valid(Run(ops, s, ds).host)
    decreases |ds|
  {
    if |ds| > 0 {
      var first := Step(ops, s, ds[0].sender, ds[0].request, ds[0].player1First);
      RunPreservesValid(ops, first.host, ds[1..]);
    }
  }

  /** Number of occupied seats. */
  function Seated<B>(s: Host<B>): nat
  {
    (if s.player1.Some? then 1 else 0) + (if s.player2.Some? then 1 else 0)
  }

  /** Without a `join` no seat is ever taken: the number of seated players
      never grows over a run of other commands. */
  lemma {:induction false} SeatsOnlyTakenByJoin<B>(ops: BoardOps<B>, s: Host<B>, ds: seq<Delivery>)
    requires forall k :: 0 <= k < |ds| ==> ds[k].request.command != "join"
    ensures Seated(Run(ops, s, ds).host) <= Seated(s)
    ensures Run(ops, s, ds).host.player1.Some? ==> s.player1.Some?
    ensures Run(ops, s, ds).host.player2.Some? ==> s.player2.Some?
    decreases |ds|
  {
    if |ds| > 0 {
      var first := Step(ops, s, ds[0].sender, ds[0].request, ds[0].player1First);
      SeatsOnlyTakenByJoin(ops, first.host, ds[1..]);
    }
  }

  /** A sender without a seat cannot change the host except by joining, and
      whatever it provokes is sent to it alone. */
  lemma NonPlayerChangesNothing<B>(ops: BoardOps<B>, s: Host<B>, sender: SenderId, req: Request, player1First: bool)
    requires !IsPlayer(s, sender) && req.command != "join"
    ensures Step(ops, s, sender, req, player1First).host == s
    ensures forall m <- Step(ops, s, sender, req, player1First).out :: m.Send? && m.to == sender
  {
  }

  /** Turns alternate: after a player's accepted move that does not end the
      game, the same player is refused with "It's not your turn." and the
      opponent is the one to move. */
  lemma TurnsAlternate<B>(ops: BoardOps<B>, s: Host<B>, sender: SenderId, row: int, column: int, row': int, column': int)
    requires Valid(s) && Full(s) && IsPlayer(s, sender)
    requires Mover(s, sender).symbol == s.current
    requires Mark(ops, s.board, Mover(s, sender), row, column).valid
    requires !ops.isGameOver(Mark(ops, s.board, Mover(s, sender), row, column).board)
    ensures var t := OnMove(ops, s, sender, row, column);
      && Full(t.host) && IsPlayer(t.host, sender)
      && Mover(t.host, sender).symbol != t.host.current
      && OnMove(ops, t.host, sender, row', column') == Transition(t.host, [Send(sender, Error(NotYourTurn))])
  {
  }

  /** Once a move ends the game both seats are empty, so any further move
      is ignored without a reply until two players have joined again. */
  lemma FinishedGameIgnoresMoves<B>(ops: BoardOps<B>, s: Host<B>, sender: SenderId, row: int, column: int,
                                    anyone: SenderId, row': int, column': int)
    requires Full(s) && IsPlayer(s, sender) && Mover(s, sender).symbol == s.current
    requires Mark(ops, s.board, Mover(s, sender), row, column).valid
    requires ops.isGameOver(Mark(ops, s.board, Mover(s, sender), row, column).board)
    ensures var t := OnMove(ops, s, sender, row, column);
      OnMove(ops, t.host, anyone, row', column') == Transition(t.host, [])
  {
  }

  /** A third joiner is turned away: from a fresh host, two different
      senders join and start a game, and a third join is refused with
      "Game is full." to the third sender only, leaving the host unchanged. */
  lemma ThirdJoinerIsRefused<B>(ops: BoardOps<B>, b: B, a: SenderId, c: SenderId, d: SenderId, coin: bool, coin': bool)
    requires a != c && d != a && d != c
    ensures
      var two := Run(ops, Initial(b), [Delivery(a, Request("join", "A", 0, 0), coin), Delivery(c, Request("join", "C", 0, 0), coin')]);
      var three := Step(ops, two.host, d, Request("join", "D", 0, 0), coin);
      && Full(two.host) && Valid(two.host)
      && three == Transition(two.host, [Send(d, Error(GameFull))])
  {
    var s0 := Initial(b);
    var ds := [Delivery(a, Request("join", "A", 0, 0), coin), Delivery(c, Request("join", "C", 0, 0), coin')];
    var s1 := Step(ops, s0, a, ds[0].request, coin).host;
    assert ds[1..] == [ds[1]];
    assert Run(ops, s1, ds[1..]).host == Step(ops, s1, c, ds[1].request, coin').host;
  }
}
