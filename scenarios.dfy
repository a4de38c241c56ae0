/**
 * Concrete positions from the engine's own tests: the destinations on the
 * starting board, and an opening in which player1 makes a two-step chain jump.
 */
module Scenarios {
  import opened Common
  import opened BoardRules
  import opened BoardModel
  import opened GameState

  /** The starting board of a match between players 0 and 1. */
  function StartGrid(): (g: Grid)
    ensures Sized(g) && g.player1 == 0 && g.player2 == 1
  {
    Grid(StartCells(0, 1), 0, 1)
  }

  /** From the start, the man on 40 has the single step to 33, and the man on 17 may go to 24 or 26. */
  lemma StartMoves()
    ensures GetMoves(StartGrid(), 40, false) == [33]
    ensures GetMoves(StartGrid(), 17, false) == [24, 26]
  {
    StartMovesFrom40();
    StartMovesFrom17();
  }

  /** The man on 40 stands in column 0, so its only step is up-right to 33. */
  lemma StartMovesFrom40()
    ensures GetMoves(StartGrid(), 40, false) == [33]
  {
    var g := StartGrid();
    assert g.cells[40] == Some(Piece(0, false)) && g.cells[33] == None && g.cells[31] == None;
  }

  /** The man on 17 can step down-left to 24 or down-right to 26. */
  lemma StartMovesFrom17()
    ensures GetMoves(StartGrid(), 17, false) == [24, 26]
  {
    var g := StartGrid();
    assert g.cells[17] == Some(Piece(1, false)) && g.cells[24] == None && g.cells[26] == None;
  }

  /**
   * A position between players 0 and 1: player1's men, player1's kings and
   * player2's men (player2 has no kings here).
   */
  function Layout(men1: set<int>, kings1: set<int>, men2: set<int>): (g: Grid)
    ensures Sized(g) && g.player1 == 0 && g.player2 == 1
  {
    Grid(seq(64, i =>
      if i in kings1 then Some(Piece(0, true))
      else if i in men1 then Some(Piece(0, false))
      else if i in men2 then Some(Piece(1, false))
      else None), 0, 1)
  }

  /** The men of each side after the game tests' first ten moves (40-33, 17-26, ..., 21-30). */
  const AfterTenMen: (set<int>, set<int>) :=
    ({37, 39, 42, 49, 51, 53, 55, 56, 58, 60, 62}, {1, 5, 7, 8, 12, 14, 17, 19, 23, 30, 35})

  /** The position after the first ten moves, as `OpeningReplay` reaches it. */
  function AfterTen(): Grid {
    Layout(AfterTenMen.0, {}, AfterTenMen.1)
  }

  /**
   * A man's move in direction `dir` between rows 1 and 6 on a position without
   * kings, player1's men moving up and player2's down: it is legal, the mover's
   * set trades `src` for `dest`, and a jump also removes the captured man from
   * the other set.
   */
  lemma ManMove(men1: set<int>, men2: set<int>, src: int, dir: Direction, dest: int,
                next1: set<int>, next2: set<int>)
    requires (src in men1) != (src in men2) && dest !in men1 && dest !in men2
    requires 0 <= src < 64 && 8 <= dest < 56 && src != dest
    requires (dir == UpLeft || dir == UpRight) <==> src in men1
    requires Diagonal(src, dest, dir, if IsJump(src, dest) then 2 else 1)
    requires IsJump(src, dest) ==>
               if src in men1 then Midpoint(src, dest) in men2 - men1 else Midpoint(src, dest) in men1 - men2
    requires var cap := if IsJump(src, dest) then {Midpoint(src, dest)} else {};
             if src in men1 then next1 == men1 - {src} + {dest} && next2 == men2 - cap
             else next1 == men1 - cap && next2 == men2 - {src} + {dest}
    ensures Legal(Layout(men1, {}, men2), src, false, dest)
    ensures ApplyMove(Layout(men1, {}, men2), src, dest) == Layout(next1, {}, next2)
  {
    var g := Layout(men1, {}, men2);
    assert LegalVia(g, src, false, dir, dest);
    var m := ApplyMove(g, src, dest);
    forall i | 0 <= i < 64
      ensures m.cells[i] == Layout(next1, {}, next2).cells[i]
    {
    }
  }

  /** The first ten moves of the game tests, alternating player1 and player2. */
  const OpeningMoves: seq<(int, int)> :=
    [(40, 33), (17, 26), (33, 24), (10, 17), (24, 10), (3, 17), (44, 37), (26, 35), (46, 39), (21, 30)]

  /** The men of player1 and of player2 after the first `n` opening moves. */
  function OpeningMen(n: nat): (set<int>, set<int>)
    requires n <= |OpeningMoves|
  {
    match n
    case 0 => (Player1Start, Player2Start)
    case 1 => ({33, 42, 44, 46, 49, 51, 53, 55, 56, 58, 60, 62}, {1, 3, 5, 7, 8, 10, 12, 14, 17, 19, 21, 23})
    case 2 => ({33, 42, 44, 46, 49, 51, 53, 55, 56, 58, 60, 62}, {1, 3, 5, 7, 8, 10, 12, 14, 19, 21, 23, 26})
    case 3 => ({24, 42, 44, 46, 49, 51, 53, 55, 56, 58, 60, 62}, {1, 3, 5, 7, 8, 10, 12, 14, 19, 21, 23, 26})
    case 4 => ({24, 42, 44, 46, 49, 51, 53, 55, 56, 58, 60, 62}, {1, 3, 5, 7, 8, 12, 14, 17, 19, 21, 23, 26})
    case 5 => ({10, 42, 44, 46, 49, 51, 53, 55, 56, 58, 60, 62}, {1, 3, 5, 7, 8, 12, 14, 19, 21, 23, 26})
    case 6 => ({42, 44, 46, 49, 51, 53, 55, 56, 58, 60, 62}, {1, 5, 7, 8, 12, 14, 17, 19, 21, 23, 26})
    case 7 => ({37, 42, 46, 49, 51, 53, 55, 56, 58, 60, 62}, {1, 5, 7, 8, 12, 14, 17, 19, 21, 23, 26})
    case 8 => ({37, 42, 46, 49, 51, 53, 55, 56, 58, 60, 62}, {1, 5, 7, 8, 12, 14, 17, 19, 21, 23, 35})
    case 9 => ({37, 39, 42, 49, 51, 53, 55, 56, 58, 60, 62}, {1, 5, 7, 8, 12, 14, 17, 19, 21, 23, 35})
    case _ => AfterTenMen
  }

  /** The position after the first `n` opening moves. */
  function Opening(n: nat): Grid
    requires n <= |OpeningMoves|
  {
    Layout(OpeningMen(n).0, {}, OpeningMen(n).1)
  }

  /** The opening runs from the starting board to the position after ten moves. */
  lemma OpeningEnds()
    ensures Opening(0) == StartGrid() && Opening(|OpeningMoves|) == AfterTen()
  {
    assert Opening(0).cells == StartGrid().cells;
  }

  /**
   * Opening move `k` is legal by the reference definition, and it turns
   * position `k` into position `k + 1`.
   */
  predicate OpeningMovePlays(k: nat)
    requires k < |OpeningMoves|
  {
    var (src, dest) := OpeningMoves[k];
    0 <= src < 64 && 0 <= dest < 64 && src != dest && Opening(k).cells[src].Some? &&
    Legal(Opening(k), src, false, dest) && ApplyMove(Opening(k), src, dest) == Opening(k + 1)
  }

  // One lemma per opening move, each an instance of ManMove.

  lemma Opening40To33()
    ensures OpeningMovePlays(0)
  {
    ManMove(OpeningMen(0).0, OpeningMen(0).1, 40, UpRight, 33, OpeningMen(1).0, OpeningMen(1).1);
  }

  lemma Opening17To26()
    ensures OpeningMovePlays(1)
  {
    ManMove(OpeningMen(1).0, OpeningMen(1).1, 17, DownRight, 26, OpeningMen(2).0, OpeningMen(2).1);
  }

  lemma Opening33To24()
    ensures OpeningMovePlays(2)
  {
    ManMove(OpeningMen(2).0, OpeningMen(2).1, 33, UpLeft, 24, OpeningMen(3).0, OpeningMen(3).1);
  }

  lemma Opening10To17()
    ensures OpeningMovePlays(3)
  {
    ManMove(OpeningMen(3).0, OpeningMen(3).1, 10, DownLeft, 17, OpeningMen(4).0, OpeningMen(4).1);
  }

  lemma Opening24To10()
    ensures OpeningMovePlays(4)
  {
    ManMove(OpeningMen(4).0, OpeningMen(4).1, 24, UpRight, 10, OpeningMen(5).0, OpeningMen(5).1);
  }

  lemma Opening3To17()
    ensures OpeningMovePlays(5)
  {
    ManMove(OpeningMen(5).0, OpeningMen(5).1, 3, DownLeft, 17, OpeningMen(6).0, OpeningMen(6).1);
  }

  lemma Opening44To37()
    ensures OpeningMovePlays(6)
  {
    ManMove(OpeningMen(6).0, OpeningMen(6).1, 44, UpRight, 37, OpeningMen(7).0, OpeningMen(7).1);
  }

  lemma Opening26To35()
    ensures OpeningMovePlays(7)
  {
    ManMove(OpeningMen(7).0, OpeningMen(7).1, 26, DownRight, 35, OpeningMen(8).0, OpeningMen(8).1);
  }

  lemma Opening46To39()
    ensures OpeningMovePlays(8)
  {
    ManMove(OpeningMen(8).0, OpeningMen(8).1, 46, UpRight, 39, OpeningMen(9).0, OpeningMen(9).1);
  }

  lemma Opening21To30()
    ensures OpeningMovePlays(9)
  {
    ManMove(OpeningMen(9).0, OpeningMen(9).1, 21, DownRight, 30, OpeningMen(10).0, OpeningMen(10).1);
  }

  /** The jump 24-10 leaves the man on 10 without a further jump, so the turn passes. */
  lemma OpeningChainEnds10()
    ensures IsJump(24, 10) && GetMoves(Opening(5), 10, true) == []
  {
    assert Opening(5).cells[10] == Some(Piece(0, false));
  }

  /** The jump 3-17 leaves the man on 17 without a further jump, so the turn passes. */
  lemma OpeningChainEnds17()
    ensures IsJump(3, 17) && GetMoves(Opening(6), 17, true) == []
  {
    assert Opening(6).cells[17] == Some(Piece(1, false));
  }

  /**
   * Replaying the game tests' first ten moves from the starting board: each
   * move is one getMoves offers, and it leads to the next position.
   */
  lemma OpeningReplay()
    ensures forall k | 0 <= k < |OpeningMoves| ::
              OpeningMovePlays(k) && OpeningMoves[k].1 in GetMoves(Opening(k), OpeningMoves[k].0, false)
  {
    forall k | 0 <= k < |OpeningMoves|
      ensures OpeningMovePlays(k) && OpeningMoves[k].1 in GetMoves(Opening(k), OpeningMoves[k].0, false)
    {
      if k == 0 {
        Opening40To33();
      } else if k == 1 {
        Opening17To26();
      } else if k == 2 {
        Opening33To24();
      } else if k == 3 {
        Opening10To17();
      } else if k == 4 {
        Opening24To10();
      } else if k == 5 {
        Opening3To17();
      } else if k == 6 {
        Opening44To37();
      } else if k == 7 {
        Opening26To35();
      } else if k == 8 {
        Opening46To39();
      } else {
        Opening21To30();
      }
      MovesAreLegal(Opening(k), OpeningMoves[k].0, false, OpeningMoves[k].1);
    }
  }

  /** The men of each side after player1's jump 39 -> 21 over 30. */
  const AfterFirstJumpMen: (set<int>, set<int>) :=
    ({21, 37, 42, 49, 51, 53, 55, 56, 58, 60, 62}, {1, 5, 7, 8, 12, 14, 17, 19, 23, 35})

  /** After player1's jump 39 -> 21 over 30. */
  function AfterFirstJump(): Grid {
    Layout(AfterFirstJumpMen.0, {}, AfterFirstJumpMen.1)
  }

  /** After the chained jump 21 -> 3 over 12, which crowns the man on row 0. */
  function AfterSecondJump(): Grid {
    Layout({37, 42, 49, 51, 53, 55, 56, 58, 60, 62}, {3},
           {1, 5, 7, 8, 14, 17, 19, 23, 35})
  }

  /** From the position after ten moves, the man on 39 has the single move 21. */
  lemma OnlyMoveFrom39()
    ensures GetMoves(AfterTen(), 39, false) == [21]
  {
    var g := AfterTen();
    assert g.cells[39] == Some(Piece(0, false)) && g.cells[30] == Some(Piece(1, false));
    assert g.cells[21] == None && g.cells[32] == None;
  }

  /** The jump 39 -> 21 captures the man on 30. */
  lemma JumpOver30()
    ensures ApplyMove(AfterTen(), 39, 21) == AfterFirstJump()
  {
    ManMove(AfterTenMen.0, AfterTenMen.1, 39, UpLeft, 21, AfterFirstJumpMen.0, AfterFirstJumpMen.1);
  }

  /** With the chain jump pending, the man on 21 has the single jump 3. */
  lemma OnlyJumpFrom21()
    ensures GetMoves(AfterFirstJump(), 21, true) == [3]
  {
    var k := AfterFirstJump();
    assert k.cells[21] == Some(Piece(0, false)) && k.cells[12] == Some(Piece(1, false)) && k.cells[3] == None;
    assert k.cells[14] == Some(Piece(1, false)) && k.cells[7] == Some(Piece(1, false));
  }

  /**
   * The test's first jump: from the position after ten moves, 21 is the only
   * destination of the man on 39; it captures 30, and from 21 the man can jump again.
   */
  lemma FirstJump()
    ensures GetMoves(AfterTen(), 39, false) == [21] && IsJump(39, 21)
    ensures ApplyMove(AfterTen(), 39, 21) == AfterFirstJump()
    ensures GetMoves(AfterFirstJump(), 21, true) == [3]
  {
    OnlyMoveFrom39();
    JumpOver30();
    OnlyJumpFrom21();
  }

  /**
   * The test's second jump, made with a chain jump pending: 3 is the only
   * destination, the man lands on row 0 and is crowned, and the new king has no
   * further jump, so the chain ends.
   */
  lemma SecondJump()
    ensures IsJump(21, 3)
    ensures ApplyMove(AfterFirstJump(), 21, 3) == AfterSecondJump()
    ensures AfterSecondJump().cells[3] == Some(Piece(0, true))
    ensures GetMoves(AfterSecondJump(), 3, true) == []
  {
    var g := AfterFirstJump();
    assert g.cells[21] == Some(Piece(0, false)) && g.cells[12] == Some(Piece(1, false)) && g.cells[3] == None;
    var h := ApplyMove(g, 21, 3);
    assert h.cells == AfterSecondJump().cells;
    var k := AfterSecondJump();
    assert k.cells[10] == None && k.cells[12] == None;
  }

  /**
   * The same two jumps played through the match: the first keeps player1 on
   * the move with 21 as the pending chain jump, the second clears it and passes
   * the turn to player2.
   */
  method DoubleJump(s: State) returns (first: Result<MoveCode>, second: Result<MoveCode>)
    requires s.Valid() && s.board.View() == AfterTen()
    requires s.state == P1Turn && s.player2 == Some(1) && s.playerTurn == Some(0) && s.prevChainJmp == None
    requires s.board.player1Count == 11 && s.board.player2Count == 11
    modifies s, s.board, s.board.cells
    ensures first == Ok(MoveJump) && second == Ok(MoveJump)
    ensures s.Valid() && s.board.View() == AfterSecondJump()
    ensures s.state == P1Turn && s.playerTurn == Some(1) && s.prevChainJmp == None
    ensures s.board.player1Count == 11 && s.board.player2Count == 9
  {
    FirstJump();
    SecondJump();
    first := s.MakeMove(39, 21);
    assert s.board.View() == AfterFirstJump();
    assert s.prevChainJmp == Some(21) && s.playerTurn == Some(0);
    second := s.MakeMove(21, 3);
  }
}
