/**
 * The per-match state machine: whose turn it is, a pending chain jump, the
 * outcome label and the done flag, around one board.
 */
module GameState {
  import opened Common
  import opened BoardRules
  import opened BoardModel

  /** The outcome labels; `end` may also store any other reason. */
  datatype Status =
    | Waiting | P1Turn | P2Turn | P1Win | P2Win | P1Disconnect | P2Disconnect
    | Other(reason: string)

  /** The strings the source names as outcomes. */
  const OutcomeLabels: set<string> :=
    {"WAITING", "P1_TURN", "P2_TURN", "P1_WIN", "P2_WIN", "P1_DISCONNECT", "P2_DISCONNECT"}

  /** The string the source stores for an outcome. */
  function StatusName(s: Status): string {
    match s
    case Waiting => "WAITING"
    case P1Turn => "P1_TURN"
    case P2Turn => "P2_TURN"
    case P1Win => "P1_WIN"
    case P2Win => "P2_WIN"
    case P1Disconnect => "P1_DISCONNECT"
    case P2Disconnect => "P2_DISCONNECT"
    case Other(reason) => reason
  }

  /** An outcome held in one way only: `Other` never carries a named label. */
  predicate Canonical(s: Status) {
    s.Other? ==> s.reason !in OutcomeLabels
  }

  /** The outcome a stored string stands for: a named label, or `Other` for anything else. */
  function StatusOf(text: string): (s: Status)
    ensures StatusName(s) == text && Canonical(s)
    ensures s.Other? <==> text !in OutcomeLabels
  {
    if text == "WAITING" then Waiting
    else if text == "P1_TURN" then P1Turn
    else if text == "P2_TURN" then P2Turn
    else if text == "P1_WIN" then P1Win
    else if text == "P2_WIN" then P2Win
    else if text == "P1_DISCONNECT" then P1Disconnect
    else if text == "P2_DISCONNECT" then P2Disconnect
    else Other(text)
  }

  /** Reading back the stored string of a canonical outcome gives the outcome. */
  lemma StatusRoundTrip(s: Status)
    requires Canonical(s)
    ensures StatusOf(StatusName(s)) == s
  {
  }

  /** What toJSON reports about a match. */
  datatype MatchView = MatchView(
    playerTurn: Option<int>,
    secondMove: Option<int>,
    players: (int, Option<int>),
    board: seq<Label>,
    movablePieces: seq<int>,
    state: Status)

  /** The identity the board uses for the second side: -1 until a second player joins. */
  function BoardPlayer2(player2: Option<int>): int {
    if player2.Some? then player2.value else -1
  }

  /** changeTurn: player1 hands over to player2 (None before a join); anyone else hands over to player1. */
  function NextTurn(turn: Option<int>, player1: int, player2: Option<int>): Option<int> {
    if turn == Some(player1) then player2 else Some(player1)
  }

  predicate IsTurnState(s: Status) {
    s == P1Turn || s == P2Turn
  }

  /** Two turn changes give the turn back, whoever of the two players has it. */
  lemma NextTurnTwice(turn: Option<int>, player1: int, player2: Option<int>)
    requires turn == Some(player1) || turn == player2
    ensures NextTurn(NextTurn(turn, player1, player2), player1, player2) == turn
  {
  }

  /** Player1's turn passes to the other player and back again. */
  lemma NextTurnAlternates(player1: int, player2: int)
    requires player1 != player2
    ensures NextTurn(Some(player1), player1, Some(player2)) == Some(player2)
    ensures NextTurn(Some(player2), player1, Some(player2)) == Some(player1)
  {
  }

  class State {
    const player1: int
    var player2: Option<int>
    var board: Board
    var state: Status
    var done: bool
    var playerTurn: Option<int>
    var prevChainJmp: Option<int>

    ghost predicate Valid()
      reads this, board, board.cells
    {
      board.Valid() && board.player1 == player1 && board.player2 == BoardPlayer2(player2) &&
      (prevChainJmp.Some? ==> 0 <= prevChainJmp.value < 64) && Canonical(state)
    }

    /**
     * While a turn is being played, a pending chain jump sits on a piece of the
     * player to move; this is what keeps movablePieces from raising.
     */
    ghost predicate ChainHeldByMover()
      reads this, board, board.cells
      requires Valid()
    {
      IsTurnState(state) && prevChainJmp.Some? ==>
        OwnedBy(board.cells[prevChainJmp.value], playerTurn)
    }

    /** getMoves of the board, with the pending chain jump. */
    function GetMoves(pos: int): (r: seq<int>)
      reads this, board, board.cells
      requires Valid() && 0 <= pos < 64
      ensures forall d :: d in r <==> Legal(board.View(), pos, prevChainJmp.Some?, d)
    {
      var r := BoardRules.GetMoves(board.View(), pos, prevChainJmp.Some?);
      assert forall d :: d in r <==> Legal(board.View(), pos, prevChainJmp.Some?, d) by {
        forall d ensures d in r <==> Legal(board.View(), pos, prevChainJmp.Some?, d) {
          MovesAreLegal(board.View(), pos, prevChainJmp.Some?, d);
        }
      }
      r
    }

    /** A match created by its first player, waiting for the second. */
    constructor (player1: int)
      requires player1 != -1
      ensures Valid() && ChainHeldByMover() && fresh(board) && fresh(board.cells)
      ensures this.player1 == player1 && player2 == None
      ensures board.cells[..] == StartCells(player1, -1)
      ensures board.player1Count == 12 && board.player2Count == 12
      ensures state == Waiting && !done
      ensures playerTurn == Some(player1) && prevChainJmp == None
    {
      this.player1 := player1;
      player2 := None;
      board := new Board(player1, -1);
      state := Waiting;
      done := false;
      playerTurn := Some(player1);
      prevChainJmp := None;
    }

    method ChangeTurn()
      modifies this`playerTurn
      ensures playerTurn == NextTurn(old(playerTurn), player1, player2)
    {
      if playerTurn == Some(player1) {
        playerTurn := player2;
      } else {
        playerTurn := Some(player1);
      }
    }

    /** The mover declines to continue a chain jump: the turn passes, the board is untouched. */
    method CancelMove()
      requires Valid()
      modifies this`playerTurn, this`prevChainJmp
      ensures Valid() && ChainHeldByMover()
      ensures playerTurn == NextTurn(old(playerTurn), player1, player2)
      ensures prevChainJmp == None
    {
      ChangeTurn();
      prevChainJmp := None;
    }

    /**
     * makeMove: an illegal move raises and changes nothing. A legal move is
     * applied; a side left without pieces loses; otherwise a jump that can jump
     * again keeps the turn and becomes the pending chain jump, and anything else
     * passes the turn.
     */
    method MakeMove(src: int, dest: int) returns (result: Result<MoveCode>)
      requires Valid() && 0 <= src < 64
      modifies this, board, board.cells
      ensures Valid() && board == old(board)
      ensures player2 == old(player2) && done == old(done)
      ensures result.Err? <==> dest !in old(BoardRules.GetMoves(board.View(), src, prevChainJmp.Some?))
      ensures result.Err? ==>
                result.error == IllegalMoveAttempted &&
                board.cells[..] == old(board.cells[..]) &&
                board.player1Count == old(board.player1Count) &&
                board.player2Count == old(board.player2Count) &&
                state == old(state) && playerTurn == old(playerTurn) && prevChainJmp == old(prevChainJmp)
      ensures result.Ok? ==>
                board.View() == ApplyMove(old(board.View()), src, dest) &&
                (result.value == MoveJump <==> IsJump(src, dest)) && result.value != MoveFailedIllegal
      ensures result.Ok? ==>
                var mover := old(board.cells[src].value.player);
                board.player1Count == old(board.player1Count) - (if result.value == MoveJump && mover != player1 then 1 else 0) &&
                board.player2Count == old(board.player2Count) - (if result.value == MoveJump && mover == player1 then 1 else 0)
      ensures result.Ok? && board.player1Count == 0 ==>
                state == P2Win && playerTurn == old(playerTurn) && prevChainJmp == old(prevChainJmp)
      ensures result.Ok? && board.player1Count != 0 && board.player2Count == 0 ==>
                state == P1Win && playerTurn == old(playerTurn) && prevChainJmp == old(prevChainJmp)
      ensures result.Ok? && board.player1Count != 0 && board.player2Count != 0 ==>
                state == old(state) &&
                if result.value == MoveJump && |BoardRules.GetMoves(board.View(), dest, true)| > 0
                then playerTurn == old(playerTurn) && prevChainJmp == Some(dest)
                else playerTurn == NextTurn(old(playerTurn), player1, player2) && prevChainJmp == None
      ensures old(ChainHeldByMover()) && old(OwnedBy(board.cells[src], playerTurn)) ==> ChainHeldByMover()
    {
      ghost var before := board.View();
      var code := board.MakeMove(src, dest, prevChainJmp);
      if code == MoveFailedIllegal {
        return Err(IllegalMoveAttempted);
      }
      result := Ok(code);
      Settle(code, dest);
      if prevChainJmp == Some(dest) {
        LandingOwner(before, src, dest);
      }
    }

    /**
     * The second half of makeMove, once the board has moved: a side without
     * pieces loses; otherwise a jump that can continue becomes the pending chain
     * jump with the same player to move, and anything else passes the turn.
     */
    method Settle(code: MoveCode, dest: int)
      requires Valid() && code != MoveFailedIllegal && 0 <= dest < 64
      modifies this`state, this`playerTurn, this`prevChainJmp
      ensures Valid()
      ensures board.player1Count == 0 ==>
                state == P2Win && playerTurn == old(playerTurn) && prevChainJmp == old(prevChainJmp)
      ensures board.player1Count != 0 && board.player2Count == 0 ==>
                state == P1Win && playerTurn == old(playerTurn) && prevChainJmp == old(prevChainJmp)
      ensures board.player1Count != 0 && board.player2Count != 0 ==>
                state == old(state) &&
                if code == MoveJump && |BoardRules.GetMoves(board.View(), dest, true)| > 0
                then playerTurn == old(playerTurn) && prevChainJmp == Some(dest)
                else playerTurn == NextTurn(old(playerTurn), player1, player2) && prevChainJmp == None
    {
      if board.player1Count == 0 {
        state := P2Win;
        return;
      }
      if board.player2Count == 0 {
        state := P1Win;
        return;
      }
      if code != MoveJump || |BoardRules.GetMoves(board.View(), dest, true)| == 0 {
        ChangeTurn();
        prevChainJmp := None;
      } else {
        prevChainJmp := Some(dest);
      }
    }

    /**
     * getMovablePieces: [] outside a turn; otherwise the board's movable pieces for
     * the player to move, and if there are none the opponent is declared winner.
     */
    method GetMovablePieces() returns (result: Result<seq<int>>)
      requires Valid()
      modifies this`state
      ensures Valid()
      ensures !IsTurnState(old(state)) ==> result == Ok([]) && state == old(state)
      ensures IsTurnState(old(state)) && prevChainJmp.Some? ==>
                result == if OwnedBy(board.cells[prevChainJmp.value], playerTurn)
                          then Ok([prevChainJmp.value]) else Err(ChainJumpMismatch)
      ensures IsTurnState(old(state)) && prevChainJmp.None? ==>
                result == Ok(MovableUpTo(board.View(), playerTurn, 64))
      ensures IsTurnState(old(state)) && result == Ok([]) ==>
                state == if playerTurn == Some(player1) then P2Win else P1Win
      ensures IsTurnState(old(state)) && result != Ok([]) ==> state == old(state)
      ensures old(ChainHeldByMover()) ==> result.Ok? && ChainHeldByMover()
    {
      if !IsTurnState(state) {
        return Ok([]);
      }
      result := board.MovablePieces(playerTurn, prevChainJmp);
      if result.Ok? && |result.value| == 0 {
        if playerTurn == Some(player1) {
          state := P2Win;
        } else {
          state := P1Win;
        }
      }
    }

    /** toJSON: the snapshot; computing the movable pieces may end the game. */
    method ToJSON() returns (result: Result<MatchView>)
      requires Valid()
      modifies this`state
      ensures Valid()
      ensures result.Ok? ==>
                result.value.playerTurn == playerTurn && result.value.secondMove == prevChainJmp &&
                result.value.players == (player1, player2) &&
                result.value.board == Snapshot(board.View(), 64) &&
                result.value.state == state
      ensures result.Ok? && !IsTurnState(old(state)) ==> result.value.movablePieces == []
      ensures result.Ok? && IsTurnState(old(state)) ==>
                result.value.movablePieces ==
                  if prevChainJmp.Some? then [prevChainJmp.value] else MovableUpTo(board.View(), playerTurn, 64)
      ensures result.Err? <==>
                IsTurnState(old(state)) && prevChainJmp.Some? &&
                !OwnedBy(board.cells[prevChainJmp.value], playerTurn)
      ensures !IsTurnState(old(state)) ==> state == old(state)
      ensures IsTurnState(old(state)) && result.Ok? && result.value.movablePieces == [] ==>
                state == if playerTurn == Some(player1) then P2Win else P1Win
      ensures IsTurnState(old(state)) && !(result.Ok? && result.value.movablePieces == []) ==>
                state == old(state)
      ensures old(ChainHeldByMover()) ==> result.Ok? && ChainHeldByMover()
    {
      var labels := board.ToJSON();
      var pieces := GetMovablePieces();
      if pieces.Err? {
        return Err(pieces.error);
      }
      result := Ok(MatchView(playerTurn, prevChainJmp, (player1, player2), labels, pieces.value, state));
    }

    /** join: the second player arrives; a fresh board and player1 to move. */
    method Join(player2: int)
      requires Valid() && player2 != player1
      modifies this
      ensures Valid() && fresh(board) && fresh(board.cells)
      ensures this.player2 == Some(player2)
      ensures board.cells[..] == StartCells(player1, player2)
      ensures board.player1Count == 12 && board.player2Count == 12
      ensures state == P1Turn
      ensures playerTurn == old(playerTurn) && prevChainJmp == old(prevChainJmp) && done == old(done)
      ensures old(prevChainJmp) == None ==> ChainHeldByMover()
    {
      this.player2 := Some(player2);
      board := new Board(player1, player2);
      state := P1Turn;
    }

    /** end: force the match over with the outcome the given string stands for. */
    method End(reason: string)
      requires Valid()
      modifies this`done, this`state
      ensures Valid() && done && state == StatusOf(reason) && StatusName(state) == reason
      ensures reason != "P1_TURN" && reason != "P2_TURN" ==> ChainHeldByMover()
    {
      done := true;
      state := StatusOf(reason);
    }
  }
}
