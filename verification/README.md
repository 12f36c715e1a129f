# Tic-tac-toe session protocol, modelled in Dafny

This project models the two halves of the cast tic-tac-toe sample's game
protocol.

- **The host (receiver).** It keeps two player slots, the symbol whose turn
  it is, and a board. Every inbound command (`join`, `leave`, `move`,
  `board_layout_request`, anything else) is a pure transition
  `Step(ops, host, sender, request, coin)`. It returns the next host state
  and the outbound messages in order. Each message is either sent to one
  sender (`Send`) or broadcast (`Broadcast`).
- **The board is abstract.** The host only reaches it through
  `BoardOps<B>`: `reset`, `drawCross`, `drawNaught`, `isGameOver`,
  `gameResult`, `winningLocation`, `setGameAbandoned` and the cell read
  used for the layout. These are uninterpreted total functions, so every
  host property holds for any board. The model gives no win or tie rules.
- **The client (sender).** Its game stream turns notifications into what the
  player sees. It decodes the end state and the winning-location code of
  `endgame`, maps symbol strings to the view's cell state, and reacts to
  the "game is full" error by becoming an observer. The model also covers
  the end-of-session cleanup.
- **Cross-side lemmas.** `Interplay` links the two halves. When the fields
  arrive as sent, the client's display agrees with the host's state.

Files:

- `protocol.dfy`: module `Protocol`, with `Option` and the symbols.
- `board.dfy`: module `Board`, the abstract board and the layout.
- `receiver.dfy`: module `Receiver`, the host state machine.
- `receiver_props.dfy`: module `ReceiverProps`, multi-step properties of the host.
- `client.dfy`: module `Client`, the client decoding.
- `session.dfy`: module `Session`, `endSession`.
- `interplay.dfy`: module `Interplay`, host and client together.

Modelling decisions:

- An empty slot (`-1` in the receiver) is `None`.
- A player's symbol, and the current turn, are `None` until the first game
  starts. This is JavaScript's `undefined`. The host's error text renders it
  as `"undefined"`, exactly as string concatenation does.
- `Math.random` in `startGame_` becomes the boolean `player1First`. It is
  true when the draw is 0, and then player 1 is X.
- The board's `-1` "no result yet" is `GameResult.InProgress`.
- When the board refuses a mark, the host keeps the board value that the
  draw returned. The board implementation is not part of this model, so the
  model does not assume that a refused draw leaves the board untouched.
- The winning-location enumeration values and the `END_STATE_*` strings
  live in a file that is not part of this model. They are parameters
  (`LocationCodes`, `EndStateCodes`).
  - The location decoding itself assumes nothing about these values.
  - The round-trip lemmas assume contiguous, disjoint code groups
    (`Contiguous`) and distinct end-state strings (`Distinct`).
  - They also assume that the row codes start at 0 (`RowsFromZero`). The
    client uses a row code directly as the row index, while it subtracts
    `COL_0` from a column code.
- The client compares symbols with `GameMessageStream.PLAYER_X`/`PLAYER_O`.
  The model takes these to be `"X"`/`"O"`, the receiver's `TicTacToe.PLAYER`
  values.
- The client's full-game string resource is a parameter of `OnGameError`.
  `Interplay` instantiates it with the host's `"Game is full."`.
- The client's view is its assigned player plus a map from cell to mark.
  Clearing the board empties the map.

Behaviour of the code worth noting:

- Symbols are not handed out in join order. Both players stay without a
  symbol until the second one joins. Then a coin flip decides which slot is
  X (receiver/tictactoe.js:297-301).
- A successful join sends no board layout. Only the two `joined` messages
  are sent, and only once the game starts.
- After the game ends, a move is not answered with an error. Both slots are
  cleared, so the move is ignored silently (receiver/tictactoe.js:194-199).
- An abandoned game also clears both slots. The remaining player is told
  only through the `endgame` broadcast.

## Model

| member | source | states |
|---|---|---|
| Protocol.Text | receiver/tictactoe.js:33-36 | X and O are written "X" and "O", one character each, and the mapping is injective |
| Protocol.Other | receiver/tictactoe.js:298-301 | the opponent's symbol always differs from the player's, and X and O swap |
| Board.Layout | receiver/tictactoe.js:265-270 | the layout has 9 entries, and cell (i, j) is found at index i*3+j for every i, j in 0..2 |
| Board.BuildLayout | receiver/tictactoe.js:263-270 | the host's nested row/column loop produces exactly that row-major layout |
| Receiver.Initial | receiver/tictactoe.js:43-47 | a new host has both slots empty, no turn set, and the given board |
| Receiver.Toggle | receiver/tictactoe.js:253-255 | after a valid move the turn passes to the other symbol; an unset turn becomes X |
| Receiver.StartGame | receiver/tictactoe.js:295-316 | the players keep their seats and get opposite symbols chosen by the coin; X moves first; each player is sent `joined` with its own symbol and the other player's name |
| Receiver.BroadcastEndGame | receiver/tictactoe.js:282-290 | ending the game clears both slots, keeps the turn and the board, and broadcasts one `endgame` with the given state and location |
| Receiver.OnJoin | receiver/tictactoe.js:120-159 | a seated sender gets exactly one error and nothing changes; a full game refuses the newcomer alone with "Game is full." and nothing changes; otherwise slot 1 is filled if free, else slot 2, and the other occupant stays; the board is reset and the game started exactly when the second slot is filled; otherwise board and turn are untouched; a lone joiner gets no symbol and nothing is sent |
| Receiver.OnLeave | receiver/tictactoe.js:166-182 | a non-player changes nothing and gets no reply; a player's slot is freed; if the board reports no result, the game is marked abandoned and an `endgame` without a location is broadcast, which clears both slots; the turn never changes |
| Receiver.OnMove | receiver/tictactoe.js:190-256 | with a slot empty the move is ignored silently; a non-player or an out-of-turn mover gets one error and nothing changes; an invalid mark gets "Your last move was invalid" with the turn unchanged; a valid one broadcasts `moved` (the mover's symbol, the row, the column, the game-over flag); if the game is over it broadcasts `endgame` and clears both slots, otherwise the slots are untouched; in every valid case the turn toggles |
| Receiver.OnBoardLayoutRequest | receiver/tictactoe.js:263-274 | the requester alone gets the 9-cell layout with cell (i, j) at i*3+j; the host is unchanged |
| Receiver.Step | receiver/tictactoe.js:94-112 | the dispatch keeps the seat invariant `Valid` (distinct senders, opposite symbols, turn set once both are seated); an unknown command changes nothing and sends nothing; only `join` can fill a slot |
| ReceiverProps.RunPreservesValid | receiver/tictactoe.js:120-159 | any sequence of delivered messages keeps `Valid` |
| ReceiverProps.SeatsOnlyTakenByJoin | receiver/tictactoe.js:138-145 | over a run without `join` no empty slot is filled, and the number of seated players never grows |
| ReceiverProps.NonPlayerChangesNothing | receiver/tictactoe.js:94-112 | a sender without a seat cannot change the host by any command other than `join`, and every reply goes to that sender alone |
| ReceiverProps.TurnsAlternate | receiver/tictactoe.js:201-255 | after an accepted move that does not end the game, the same player's next move is refused with "It's not your turn." |
| ReceiverProps.FinishedGameIgnoresMoves | receiver/tictactoe.js:194-199 | after a move ends the game, any further move from anyone is ignored without a reply |
| ReceiverProps.ThirdJoinerIsRefused | receiver/tictactoe.js:138-150 | two senders join a fresh host and start a game; a third join gets "Game is full." sent to the third sender only, and the host is unchanged |
| Client.JoinedPlayer | src/com/google/cast/samples/tictactoe/GameActivity.java:331-336 | "X" gives PLAYER_X, "O" gives PLAYER_O, and every other symbol gives EMPTY, each as an if-and-only-if |
| Client.PlayerSymbol | src/com/google/cast/samples/tictactoe/GameActivity.java:190-198 | there is no symbol exactly for EMPTY, and the symbol of a player maps back to that player |
| Client.SymbolRoundTrip | src/com/google/cast/samples/tictactoe/GameActivity.java:331-336 | symbol to player to symbol is the identity on "X" and "O" and gives null otherwise; player to symbol to player is the identity on the two players |
| Client.MovedPlayer | src/com/google/cast/samples/tictactoe/GameActivity.java:350-355 | the drawn mark is never EMPTY and is PLAYER_X exactly for "X"; the turn text names the other symbol, never the mover |
| Client.WinningLine | src/com/google/cast/samples/tictactoe/GameActivity.java:382-395 | at most one of row, column and diagonal is set; a code in the row range is the row; a set column is an offset 0..COL_2-COL_0 into the column range; a set diagonal is 0 or 1; an unrecognised code leaves all three at -1 |
| Client.WinningLineRoundTrip | src/com/google/cast/samples/tictactoe/GameActivity.java:385-395 | with contiguous codes starting at row 0, re-encoding the decoded line gives back the code exactly when the code is recognised; unrecognised codes and only those decode to no line |
| Client.EveryLineDecodes | src/com/google/cast/samples/tictactoe/GameActivity.java:388-395 | with contiguous codes, COL_0+i decodes to column i and the two diagonal codes to diagonals 0 and 1 |
| Client.EveryRowDecodes | src/com/google/cast/samples/tictactoe/GameActivity.java:385-387 | with contiguous codes, ROW_0+i decodes to the row code itself, which is the row index i exactly when the row codes start at 0 |
| Client.EndOutcome | src/com/google/cast/samples/tictactoe/GameActivity.java:369-380 | X_WON gives PLAYER_X; O_WON gives PLAYER_O; ABANDONED (not matching an earlier string) keeps the client's player and is the only abandoned case; any other string gives EMPTY, not abandoned |
| Client.OnGameEnd | src/com/google/cast/samples/tictactoe/GameActivity.java:368-399 | X_WON gives winner PLAYER_X and O_WON gives PLAYER_O, neither abandoned; the game counts as abandoned exactly for ABANDONED (when it matches no earlier string), and then the winner is the client's own player; every other end state gives EMPTY, not abandoned; at most one line field is set; a row code is the row, a column code gives its offset from COL_0, the two diagonal codes give 0 and 1, and an unrecognised code gives all -1 |
| Client.VerdictOf | src/com/google/cast/samples/tictactoe/GameActivity.java:206-218 | abandonment comes first, and it reads "other players abandoned" exactly when the client has no player; otherwise, no winner is a tie; a winner is named by its symbol |
| Client.VerdictMatchesEndState | src/com/google/cast/samples/tictactoe/GameActivity.java:206-218 | with distinct end-state strings, the dialog names X or O exactly for their wins; it reports abandonment exactly for ABANDONED, told apart by whether the client has a player; it shows a tie exactly for every other end state |
| Client.OnGameJoined | src/com/google/cast/samples/tictactoe/GameActivity.java:330-338 | only the assigned player changes; it is a player exactly when the symbol is "X" or "O", and that player's symbol is the one received |
| Client.OnGameMove | src/com/google/cast/samples/tictactoe/GameActivity.java:349-357 | the named cell gets the mover's mark, PLAYER_X exactly for "X" and never EMPTY; all other cells and the assigned player stay |
| Client.OnGameError | src/com/google/cast/samples/tictactoe/GameActivity.java:413-420 | exactly the full-game message sends a board-layout request; it also clears the board and drops the assigned player; any other error changes nothing and sends nothing |
| Session.EndSession | src/com/google/cast/samples/tictactoe/GameActivity.java:149-164 | only a started session is acted on, and then the reference is always dropped; `leave` is sent exactly when there is a channel; the session's end is called unless the `leave` threw; `leave` comes first |
| Session.EndSessionIdempotent | src/com/google/cast/samples/tictactoe/GameActivity.java:149-164 | afterwards no started session remains, so ending again makes no call and changes nothing |
| Interplay.RefusedJoinerObserves | src/com/google/cast/samples/tictactoe/GameActivity.java:414-419 | a refused third joiner receives the host's full-game error; its client clears its view, drops its player and asks for the layout; the host answers that request to it alone, unchanged |
| Interplay.StartedClientsAgree | receiver/tictactoe.js:304-315 | when a game starts, each seated client decodes its `joined` symbol to the player of its seat, and the two players differ |
| Interplay.MovedDisplayAgrees | src/com/google/cast/samples/tictactoe/GameActivity.java:349-355 | after an accepted move, clients draw the mover's mark and name as next exactly the symbol the host now expects |

## Left out

- Cast receiver manager, message bus, sender connect/disconnect handlers and `window.close` (receiver/tictactoe.js:50-59, 70-87): platform I/O. Outbound messages are a returned list instead.
- Console logging on both sides: it has no effect on state.
- Receiver.OnMove: the board's draw result is a boolean. The source treats any value other than `false` as valid, and that case is not modelled.
- The board implementation: it is not part of this model. Its operations are uninterpreted parameters, and no win, tie or move-legality rule is assumed.
- The `GameMessageStream` wire codec and its constants: not part of this model. The JSON round trip is not modelled. `Interplay` assumes fields arrive as sent.
- `onGameBoardLayout` (GameActivity.java:405-407): it only hands the layout to `GameView.updateBoard`, whose cell encoding is not part of this model.
- The text of `TextView`s and dialogs, `AlertDialog` buttons (including "play again", which re-joins), `GameView` rendering, activity lifecycle, media-router and device selection, `CastContext`, and volume callbacks: these are UI and platform glue. The choice of end-of-game message is kept, as `VerdictOf`; its text is left out.
- Session.EndSession: an exception thrown by the session's own end is not a parameter. It is the last call, and the reference is dropped either way, so it changes nothing in the model. Logging of the exception is left out.
- Session start and `onSessionStarted` (attach the stream, join "MyName"): these are platform callbacks outside the named core.
