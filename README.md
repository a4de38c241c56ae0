# Checkers rules engine — a Dafny model

This project models the rules engine of a two-player online checkers game. Its
two parts are:

- `Board`: an 8×8 board stored as 64 row-major cells of optional pieces, with a
  live piece count per player. It produces the destinations of a piece,
  applies a move in place (capture, relocation, promotion), lists the movable
  pieces of a player and produces a 64-label snapshot.
- `State`: one match. It tracks the player to move, a pending chain jump (the
  cell of a piece that has just jumped and can jump again), an outcome label
  and a done flag. It drives the board through join, move, cancel and end.

Files:

- `common.dfy`: `Option`, `Result` and the two errors a caller can reach.
- `board_rules.dfy`: the pure part of the board and its properties. It covers
  geometry, the direction probes and `GetMoves`, a reference definition of a
  legal destination by rows and columns, and `ApplyMove`, the effect of a move
  on the cells. It also covers piece counts, movable pieces, the snapshot
  labels and the starting layout.
- `board.dfy`: `class Board`, with the cells as an `array` and the counts as
  fields. Each method is proved against the functions of `board_rules.dfy`.
- `state.dfy`: `class State`, the match state machine.
- `scenarios.dfy`: positions and moves taken from the engine's own tests.

Modelling choices:

- Player identities are `int`s. A match's second player and the player to
  move are `Option<int>`: before anyone joins, a turn change hands the move
  to "nobody" (`None`), as the source does.
- The board methods take the pending chain jump as an `Option<int>`. Only
  whether it is set matters to `getMoves`, so the pure layer takes a
  `chainJump: bool`.
- The four `tryMove*` probes are one function, `TryMove`, over a `Direction`.
  Its guards are the source's guards, written once per direction.
- Python's `ValueError` raises that a caller can reach are `Err` results. The
  "Bad jump" raise in `makeMove` cannot be reached, and the model proves it
  (an `assert` in `Board.Relocate`).

Behaviour worth noting, all modelled as the code has it:

- `getMoves` does not restrict moves to the piece of a pending chain jump.
  A pending chain jump only removes simple moves, so any piece may jump.
- `join` has no guard. It does not clear the pending chain jump and does not
  touch the player to move.
- After a move, the code first checks whether player1 has no pieces left
  (player2 wins), then player2 (player1 wins). It does not ask which player
  moved. The two agree, because a move never lowers the mover's count
  (`ApplyMoveCounts`).
- On the starting board, the man on 17 has two destinations, 24 and 26
  (`Scenarios.StartMoves`), listed down-left first.
- `join` sets the outcome to player 1's turn, and `makeMove` and
  `getMovablePieces` only ever set a win. Only `end`, given the text
  "P2_TURN", produces `P2Turn`. The player to move is kept in `playerTurn`.
- A finished match is not frozen. `makeMove`, `join` and `end` still act on it.

## Model

| member | source | states |
|---|---|---|
| BoardRules.TryMove | src/Board.py:154-227 | a probe yields either no move or an on-board cell other than the piece's own |
| BoardRules.GetMoves | src/Board.py:145-152 | at most one destination per direction, no destination listed twice, each on the board and not the source cell; an empty cell has no moves |
| BoardRules.AlignedExtend | src/Board.py:148-152 | appending the probe of a later direction keeps every destination paired with a direction in which it is legal, directions in probing order |
| BoardRules.GetMovesAligned | src/Board.py:145-152 | the destinations of an occupied cell pair up one to one with the directions that have a move, each legal in its direction |
| BoardRules.GetMovesOrder | src/Board.py:145-152 | destinations come in the order up-left, up-right, down-left, down-right: the i-th is legal in the i-th direction that has a move |
| BoardRules.Rank | src/Board.py:148-152 | definition: the place of a direction in getMoves' probing order, up-left 0 to down-right 3 |
| BoardRules.MoveDirections | src/Board.py:145-152 | definition: the directions in which the piece has a move, in probing order; none for an empty cell |
| BoardRules.Row | src/Board.py:254-261 | definition: `pos / 8`; Dafny's Euclidean division agrees with Python's `//` for the divisor 8 |
| BoardRules.Column | src/Board.py:245-252 | definition: `pos % 8`; Dafny's Euclidean remainder agrees with Python's `%` for the divisor 8 |
| BoardRules.OnBoard | src/Board.py:229-237 | definition: `0 < pos <= 63`, so cell 0 counts as off the board, as in the source |
| BoardRules.IsJump | src/Board.py:132-133 | definition: the destination is the source plus or minus 14 or 18 |
| BoardRules.ShouldKing | src/Board.py:135-139 | definition: the piece on `pos` is player1's on row 0 or player2's on row 7 |
| BoardRules.CanMove | src/Board.py:141-142 | definition: getMoves of the cell is non-empty |
| BoardRules.ApplyMove | src/Board.py:106-130 | definition: clear the midpoint of a jump, copy the piece to the destination, clear the source, crown the piece on its promotion row; its effect is stated by `ApplyMoveCells`, `ApplyMoveWellFormed` and `ApplyMoveCounts` |
| BoardRules.MovableUpTo | src/Board.py:85-90 | definition: the scan over the first `n` cells, appending each cell of the player that can move; its members and order are stated by `MovableUpToMembers` and `MovableUpToAscending` |
| BoardRules.CellLabel | src/Board.py:54-65 | definition: `BLANK`, `P1`, `P1_KING`, `P2` or `P2_KING` for one cell, and no label for a piece of an unknown owner |
| BoardRules.Snapshot | src/Board.py:51-66 | definition: the labels of the first `n` cells in order; `SnapshotRoundTrip` states that they read back as the cells |
| BoardRules.StartCells | src/Board.py:9-38 | definition: player2 men on 1, 3, …, 23, player1 men on 40, 42, …, 62, every other cell empty; `StartLayout` states its counts and shape |
| BoardRules.GuardsMeanDiagonal | src/Board.py:154-227 | the on-board test plus the column guard for a one- or two-cell hop hold exactly when the target is that many diagonal steps away without wrapping round a row |
| BoardRules.TryMoveMatches | src/Board.py:154-227 | a probe returns `d` exactly when `d` is a legal destination in its direction by the row/column reference definition |
| BoardRules.MovesAreLegal | src/Board.py:145-227 | `d` is listed by getMoves if and only if it is a legal destination by the reference definition (a step onto an empty neighbour only without a pending chain jump; a jump over an opponent onto an empty cell always) |
| BoardRules.ViaShape | src/Board.py:159-169 | a legal destination in one direction is the empty neighbour (only without a chain jump) or the empty cell beyond an opponent piece, in a direction the piece may move |
| BoardRules.DiagonalKeepsColour | src/Board.py:154-227 | a diagonal step or jump stays on squares of the same colour |
| BoardRules.LegalShape | src/Board.py:154-227 | a legal destination is an empty cell on the board of the same colour as the source cell, so a dark one on a well-formed board; a jump moves two rows and two columns over an opponent piece at the midpoint; a step moves one row and one column and only without a pending chain jump |
| BoardRules.LegalViaShape | src/Board.py:154-227 | the same, for one direction |
| BoardRules.MoveShape | src/Board.py:103-111 | every destination getMoves offers is such a move (an empty cell of the source's colour, dark on a well-formed board), so the midpoint offset of a jump is always one of ±7, ±9 and the "Bad jump" raise cannot happen |
| BoardRules.ManMovesForward | src/Board.py:154-227 | a man of player1 only moves to lower cells, a man of player2 only to higher ones |
| BoardRules.ChainLegalVia | src/Board.py:161-169 | in one direction, with a pending chain jump a destination is legal iff it is legal without one and is a jump |
| BoardRules.ChainKeepsOnlyJumps | src/Board.py:145-227 | with a pending chain jump getMoves lists exactly the jumps among the destinations it lists without one |
| BoardRules.CountUpdate | src/Board.py:113-118 | overwriting one cell changes a player's count by the piece that left and the piece that arrived |
| BoardRules.ApplyMoveCells | src/Board.py:106-130 | after a legal move the source is empty, the destination holds the mover's piece (a king if it was one or reached its promotion row), a jump removes exactly the opponent piece at the midpoint, and no other cell changes |
| BoardRules.LandingOwner | src/Board.py:123-125 | the piece that lands on the destination belongs to the mover |
| BoardRules.ApplyMoveWellFormed | src/Board.py:122-130 | a legal move keeps every piece on a dark square and owned by one of the two players |
| BoardRules.ApplyMoveCounts | src/Board.py:108-120 | a legal move keeps the board well formed, leaves the mover's count unchanged and lowers the opponent's by one exactly when it is a jump |
| BoardRules.SnapshotRoundTrip | src/Board.py:46-66 | on a well-formed board the snapshot has one label per cell and each label reads back as the cell it came from |
| BoardRules.MovableUpToMembers | src/Board.py:85-90 | the scanned list holds exactly the cells of the player whose piece has a move |
| BoardRules.MovableUpToAscending | src/Board.py:85-90 | the scanned list is strictly ascending |
| BoardRules.StartOwned | src/Board.py:14-38 | on the starting board player1 owns exactly 40, 42, …, 62 and player2 exactly 1, 3, …, 23 |
| BoardRules.StartWellFormed | src/Board.py:9-38 | the starting board is well formed |
| BoardRules.StartSizes | src/Board.py:14-38 | each side starts with twelve cells |
| BoardRules.StartLayout | src/Board.py:9-38 | the starting board is well formed, has twelve pieces per side and no kings |
| BoardModel.Board.constructor | src/Board.py:6-38 | a fresh board holds exactly the starting layout and both counts are 12, which equal the pieces on it |
| BoardModel.Board.ToJSON | src/Board.py:46-66 | the loop builds the 64-label snapshot, and every label reads back as its cell |
| BoardModel.Board.MovablePieces | src/Board.py:68-90 | with a pending chain jump: `[cell]` if the cell holds the player's piece, otherwise the ownership error; without: exactly the player's cells that have a move, ascending |
| BoardModel.Board.MakeMove | src/Board.py:92-130 | fails, changing nothing, iff the destination is not offered by getMoves; otherwise the cells become `ApplyMove` of the old cells, the code says whether it was a jump, the mover keeps its count, the opponent loses one per jump, and the counts still equal the pieces on the board |
| BoardModel.Board.Relocate | src/Board.py:106-130 | capture, relocation and promotion in place produce `ApplyMove` of the old cells, and the count of the captured piece's owner drops by one |
| GameState.StatusName | src/State.py:10-16 | definition: the string the source stores for each outcome, and the reason itself for `Other` |
| GameState.StatusOf | src/State.py:10-16 | a stored string decodes to `Other` exactly when it is none of the seven labels, the result is canonical, and its string reads back as the input |
| GameState.StatusRoundTrip | src/State.py:10-16 | a canonical outcome stored as its string and read back is the same outcome |
| GameState.BoardPlayer2 | src/State.py:23 | definition: the identity the board holds for the second side: -1 from the constructor until `join` rebuilds the board with the joined player |
| GameState.NextTurn | src/State.py:29-33 | definition: player1 hands the move to player2 (none before a join) and anyone else hands it to player1; `NextTurnTwice` and `NextTurnAlternates` state how it alternates |
| GameState.NextTurnTwice | src/State.py:29-33 | two turn changes give the move back to whichever of the two players had it |
| GameState.NextTurnAlternates | src/State.py:29-33 | with two distinct players the move passes from player1 to player2 and back |
| GameState.State.constructor | src/State.py:20-27 | a new match has no second player, a starting board against the placeholder identity -1, outcome waiting, not done, player1 to move and no pending chain jump |
| GameState.State.ChangeTurn | src/State.py:29-33 | player1 hands over to player2 (none before a join); anyone else hands over to player1 |
| GameState.State.CancelMove | src/State.py:35-37 | the turn passes, the pending chain jump is cleared, the board is untouched |
| GameState.State.MakeMove | src/State.py:39-71 | an illegal move is an error and changes nothing; a legal one applies `ApplyMove`; if player1 has no pieces player2 wins, else if player2 has none player1 wins, in both cases with turn and chain jump untouched; otherwise a jump with a further jump from `dest` keeps the turn and sets the chain jump to `dest`, and anything else passes the turn and clears it; if the mover moved its own piece, a pending chain jump stays on a piece of the player to move |
| GameState.State.Settle | src/State.py:57-71 | the win checks and the chain-jump/turn decision after a successful move |
| GameState.State.GetMoves | src/State.py:73-74 | exactly the legal destinations of the reference definition under the pending chain jump |
| GameState.State.GetMovablePieces | src/State.py:86-96 | `[]` outside a turn; otherwise the board's movable pieces for the player to move, and an empty list declares the opponent the winner; never the ownership error while the chain jump sits on a piece of the player to move |
| GameState.State.ToJSON | src/State.py:76-84 | the snapshot's fields are the turn, chain jump, players, board labels, movable pieces and outcome, the outcome read after computing the movable pieces; an error exactly when the pending chain jump is not on a piece of the player to move |
| GameState.State.Join | src/State.py:98-101 | the second player is recorded, the board is rebuilt to the starting layout for both players, the outcome becomes player1's turn, and turn and chain jump stay as they were |
| GameState.State.End | src/State.py:103-105 | the match is done, unconditionally, and the outcome is the one the given string stands for: a named label such as `P1_TURN` becomes that outcome, anything else `Other`, and the outcome reads back as the string |
| Scenarios.StartMoves | src/tests/test.py:208-228 | on the starting board the man on 40 has exactly `[33]`, and the man on 17 has `[24, 26]` |
| Scenarios.ManMove | src/Board.py:106-130 | on a position without kings, a man's move in its forward direction onto an empty cell between rows 1 and 6, over an opponent's man for a jump, is legal by the reference definition, and `ApplyMove` moves the man from `src` to `dest` and removes exactly the captured man |
| Scenarios.OpeningEnds | src/tests/test.py:151-155 | the replayed opening starts from the starting board and ends in the position `AfterTen` |
| Scenarios.OpeningReplay | src/tests/test.py:151-155 | each of the test game's first ten moves is offered by getMoves in the position the previous moves leave, and applying it gives the next position |
| Scenarios.OpeningChainEnds10 | src/State.py:64-70 | after the opening jump 24 → 10 the man on 10 has no further jump, so the turn passes |
| Scenarios.OpeningChainEnds17 | src/State.py:64-70 | after the opening jump 3 → 17 the man on 17 has no further jump, so the turn passes |
| Scenarios.FirstJump | src/tests/test.py:151-156 | after the test game's first ten moves, the man on 39 can only jump to 21, capturing 30, and from 21 it can jump on to 3 |
| Scenarios.SecondJump | src/tests/test.py:151-156 | the chained jump 21 → 3 captures 12 and crowns the man, and the new king has no further jump |
| Scenarios.DoubleJump | src/tests/test.py:151-156 | through the match, the first jump keeps player1 to move with 21 pending, and the second clears it and passes the turn, with counts 11 and 9 |

## Left out

- The Flask/Socket.IO transport, the browser client and the entry script are
  not part of this model. Room bookkeeping, identity generation and message
  parsing live there.
- Piece.pos: the field is never read, and the source initialises it
  inconsistently. Pieces are modelled as owner and king flag only.
- `copy.deepcopy` of the moving piece is a value copy of the `Piece` datatype.
- Concurrency: the engine has none. Callers are assumed to serialise calls per
  match.
- Cell indices passed to `getMoves`, `makeMove` and the board are required to
  be in 0..63. The transport parses them without a range check, so Python's
  negative indexing and out-of-range errors are not modelled.
- BoardModel.Board.constructor: requires distinct player identities. The
  source does not check this; identities come from a unique-ID generator.
- GameState.State.constructor: requires player1 ≠ -1, and
  GameState.State.Join requires the second player to differ from player1. The
  board reserves -1 as the placeholder identity before a join.
- GameState.State.MakeMove: the chain-jump ownership guarantee is stated only
  for moves of the mover's own piece. The source checks nothing about the
  mover, and with any other move a later `movablePieces` can raise.
- GameState.State.Join: keeps a pending chain jump from before the join, as
  the source does. The ownership guarantee is therefore stated only when no
  chain jump was pending.
- Status: the source's outcome is a free string. The model has the seven
  named outcomes plus `Other(reason)` for any other string passed to `end`.
  `StatusOf` turns each named label into its outcome, so `Other` never holds
  one of the seven labels (`Canonical`, part of `State.Valid`).
- The game tests' move sequences are replayed only up to the chain jump
  (`Scenarios`): the first ten moves, then the double jump. The later moves,
  which end games by capture or by blocking, are not replayed.
