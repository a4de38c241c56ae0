/**
 * The board object: a 64-cell array of optional pieces, updated in place, and a
 * live count of pieces per player.
 */
module BoardModel {
  import opened Common
  import opened BoardRules

  /** The result codes of makeMove (-1, 0 and 1 in the source). */
  datatype MoveCode = MoveFailedIllegal | MoveNoJump | MoveJump

  class Board {
    const player1: int
    const player2: int
    const cells: array<Option<Piece>>
    var player1Count: int
    var player2Count: int

    /** The cells and identities as a value. */
    function View(): Grid
      reads this, cells
    {
      Grid(cells[..], player1, player2)
    }

    /** The counts are the numbers of pieces each player has on a well-formed board. */
    ghost predicate Valid()
      reads this, cells
    {
      cells.Length == 64 && WellFormed(View()) &&
      player1Count == Count(cells[..], player1) && player2Count == Count(cells[..], player2)
    }

    /** A fresh starting board: twelve men each, player2 at the top, player1 at the bottom. */
    constructor (player1: int, player2: int)
      requires player1 != player2
      ensures Valid() && fresh(cells)
      ensures this.player1 == player1 && this.player2 == player2
      ensures cells[..] == StartCells(player1, player2)
      ensures player1Count == 12 && player2Count == 12
    {
      this.player1 := player1;
      this.player2 := player2;
      cells := new Option<Piece>[64](i => StartCell(player1, player2, i));
      player1Count := 12;
      player2Count := 12;
      new;
      assert cells[..] == StartCells(player1, player2);
      StartLayout(player1, player2);
    }

    /**
     * toJSON: one label per cell. On a valid board every cell gets a label, and
     * the labels give back the cells.
     */
    method ToJSON() returns (result: seq<Label>)
      requires Valid()
      ensures result == Snapshot(View(), 64)
      ensures |result| == 64
      ensures forall i | 0 <= i < 64 :: LabelCell(View(), result[i]) == cells[i]
    {
      result := [];
      var i := 0;
      while i < 64
        invariant 0 <= i <= 64
        invariant result == Snapshot(View(), i)
      {
        var cell := cells[i];
        if cell.None? {
          result := result + [Blank];
        } else if cell.value.player == player1 {
          if cell.value.king {
            result := result + [P1King];
          } else {
            result := result + [P1];
          }
        } else if cell.value.player == player2 {
          if cell.value.king {
            result := result + [P2King];
          } else {
            result := result + [P2];
          }
        }
        i := i + 1;
      }
      SnapshotRoundTrip(View(), 64);
    }

    /**
     * movablePieces: with a pending chain jump, only that cell (an error if it does
     * not hold a piece of `player`); otherwise the cells of `player` that can move,
     * in ascending order.
     */
    method MovablePieces(player: Option<int>, prevChainJmp: Option<int>) returns (result: Result<seq<int>>)
      requires Valid()
      requires prevChainJmp.Some? ==> 0 <= prevChainJmp.value < 64
      ensures prevChainJmp.Some? ==>
                result == if OwnedBy(cells[prevChainJmp.value], player)
                          then Ok([prevChainJmp.value]) else Err(ChainJumpMismatch)
      ensures prevChainJmp.None? ==> result.Ok? && result.value == MovableUpTo(View(), player, 64)
      ensures prevChainJmp.None? ==>
                forall x :: x in result.value <==> 0 <= x < 64 && Movable(View(), player, x)
      ensures prevChainJmp.None? ==>
                forall i, j | 0 <= i < j < |result.value| :: result.value[i] < result.value[j]
    {
      if prevChainJmp.Some? {
        var c := prevChainJmp.value;
        if !(cells[c].Some? && Some(cells[c].value.player) == player) {
          return Err(ChainJumpMismatch);
        }
        return Ok([c]);
      }
      var pieces := [];
      var i := 0;
      while i < 64
        invariant 0 <= i <= 64
        invariant pieces == MovableUpTo(View(), player, i)
      {
        if cells[i].Some? && Some(cells[i].value.player) == player {
          if |GetMoves(View(), i, prevChainJmp.Some?)| > 0 {
            pieces := pieces + [i];
          }
        }
        i := i + 1;
      }
      MovableUpToMembers(View(), player, 64);
      MovableUpToAscending(View(), player, 64);
      result := Ok(pieces);
    }

    /**
     * makeMove: an illegal destination changes nothing; a legal one captures the
     * jumped piece (decrementing its owner's count), relocates the piece and
     * promotes it on its promotion row.
     */
    method MakeMove(src: int, dest: int, prevChainJmp: Option<int>) returns (result: MoveCode)
      requires Valid() && 0 <= src < 64
      modifies this, cells
      ensures Valid()
      ensures result == MoveFailedIllegal <==> dest !in old(GetMoves(View(), src, prevChainJmp.Some?))
      ensures result == MoveFailedIllegal ==>
                cells[..] == old(cells[..]) &&
                player1Count == old(player1Count) && player2Count == old(player2Count)
      ensures result != MoveFailedIllegal ==>
                ProperMove(old(View()), src, dest) &&
                View() == ApplyMove(old(View()), src, dest) &&
                (result == MoveJump <==> IsJump(src, dest))
      ensures result != MoveFailedIllegal ==>
                var mover := old(cells[src].value.player);
                player1Count == old(player1Count) - (if result == MoveJump && mover != player1 then 1 else 0) &&
                player2Count == old(player2Count) - (if result == MoveJump && mover == player1 then 1 else 0)
    {
      if dest !in GetMoves(View(), src, prevChainJmp.Some?) {
        return MoveFailedIllegal;
      }
      ghost var before := View();
      MoveShape(before, src, prevChainJmp.Some?, dest);
      var jumped := Relocate(src, dest);
      result := if jumped then MoveJump else MoveNoJump;
      ApplyMoveCounts(before, src, dest);
    }

    /**
     * The in-place part of makeMove, for a destination already checked: capture,
     * relocation and promotion.
     */
    method Relocate(src: int, dest: int) returns (jumped: bool)
      requires cells.Length == 64 && ProperMove(View(), src, dest)
      modifies this, cells
      ensures View() == ApplyMove(old(View()), src, dest)
      ensures jumped == IsJump(src, dest)
      ensures var captured := if jumped then old(cells[Midpoint(src, dest)]) else None;
              player1Count == old(player1Count) - Owns(captured, player1) &&
              player2Count == old(player2Count) - (if captured.Some? && captured.value.player != player1 then 1 else 0)
    {
      ghost var before := View();
      jumped := false;
      if IsJump(src, dest) {
        var otherPosDir := (dest - src) / 2;
        // The source raises "Bad jump" here; a legal jump never gets there.
        assert otherPosDir in {9, -9, 7, -7};
        if cells[src + otherPosDir].value.player == player1 {
          player1Count := player1Count - 1;
        } else {
          player2Count := player2Count - 1;
        }
        cells[src + otherPosDir] := None;
        jumped := true;
      }
      ghost var captured := cells[..];
      assert captured == if jumped then before.cells[Midpoint(src, dest) := None] else before.cells;

      cells[dest] := cells[src];
      cells[src] := None;
      assert cells[..] == captured[dest := before.cells[src]][src := None];

      if ShouldKing(View(), dest) {
        cells[dest] := Some(cells[dest].value.(king := true));
      }
    }
  }
}
