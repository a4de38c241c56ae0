/**
 * The pure part of the checkers board: cell geometry, the four direction
 * probes, the destinations of a piece, the effect of a move on the cells,
 * piece counts, the 64-label snapshot and the starting layout.
 *
 * Cells are numbered 0..63 in row-major order; a player identity is an int.
 */
module BoardRules {
  import opened Common

  /** A piece: the identity of its owner and whether it has been kinged. */
  datatype Piece = Piece(player: int, king: bool)

  /** The cells of a board together with the two identities it was built for. */
  datatype Grid = Grid(cells: seq<Option<Piece>>, player1: int, player2: int)

  /** The diagonal directions, in the order the destinations are listed. */
  datatype Direction = UpLeft | UpRight | DownLeft | DownRight

  /** Sentinel returned by a probe that finds no move. */
  const NoMoveExists: int := -1

  predicate Sized(g: Grid) { |g.cells| == 64 }

  // Python's // and % with divisor 8 agree with Dafny's Euclidean / and %.
  function Row(pos: int): int { pos / 8 }
  function Column(pos: int): int { pos % 8 }

  /** Cell 0 counts as off the board, as in the source. */
  predicate OnBoard(pos: int) { pos > 0 && pos <= 63 }

  /** The dark squares, the only ones pieces ever stand on. */
  predicate Dark(pos: int) { (Row(pos) + Column(pos)) % 2 == 1 }

  predicate OwnedBy(cell: Option<Piece>, who: Option<int>) {
    cell.Some? && who == Some(cell.value.player)
  }

  /**
   * A sized grid whose two identities differ, whose pieces belong to one of them
   * and stand on dark squares.
   */
  ghost predicate WellFormed(g: Grid) {
    Sized(g) && g.player1 != g.player2 &&
    forall i | 0 <= i < 64 && g.cells[i].Some? ::
      (g.cells[i].value.player == g.player1 || g.cells[i].value.player == g.player2) && Dark(i)
  }

  // ---------------------------------------------------------------------------
  // Direction probes

  function Offset(dir: Direction): int {
    match dir
    case UpLeft => -9
    case UpRight => -7
    case DownLeft => 7
    case DownRight => 9
  }

  function RowStep(dir: Direction): int {
    if dir == UpLeft || dir == UpRight then -1 else 1
  }

  function ColumnStep(dir: Direction): int {
    if dir == UpLeft || dir == DownLeft then -1 else 1
  }

  /** Men of player1 move up, men of player2 move down, kings both ways. */
  predicate Forward(g: Grid, me: Piece, dir: Direction) {
    if dir == UpLeft || dir == UpRight then me.player == g.player1 || me.king
    else me.player == g.player2 || me.king
  }

  /**
   * The source's wrap guard for a move of `hops` cells: leftwards the column
   * must be at least `hops`, rightwards at most 7 - `hops`.
   */
  predicate ColumnGuard(pos: int, dir: Direction, hops: int) {
    if dir == UpLeft || dir == DownLeft then Column(pos) > hops - 1 else Column(pos) < 8 - hops
  }

  /**
   * One probe (tryMoveUpLeft, tryMoveUpRight, tryMoveDownLeft, tryMoveDownRight):
   * a simple move to an empty neighbour when no chain jump is pending, or a jump
   * over an opponent piece onto an empty cell, or NoMoveExists.
   */
  function TryMove(g: Grid, pos: int, chainJump: bool, dir: Direction): (r: int)
    requires Sized(g) && 0 <= pos < 64 && g.cells[pos].Some?
    ensures r == NoMoveExists || (OnBoard(r) && r != pos)
    ensures r == NoMoveExists || r == pos + Offset(dir) || r == pos + 2 * Offset(dir)
  {
    var me := g.cells[pos].value;
    var near := pos + Offset(dir);
    var far := pos + 2 * Offset(dir);
    if Forward(g, me, dir) && OnBoard(near) && ColumnGuard(pos, dir, 1) then
      match g.cells[near]
      case None => if !chainJump then near else NoMoveExists
      case Some(other) =>
        if me.player != other.player && OnBoard(far) && ColumnGuard(pos, dir, 2) && g.cells[far].None?
        then far
        else NoMoveExists
    else
      NoMoveExists
  }

  function Present(r: int): seq<int> {
    if r != NoMoveExists then [r] else []
  }

  /**
   * getMoves: the destinations of the piece at `pos`, at most one per direction,
   * in the order up-left, up-right, down-left, down-right; [] for an empty cell.
   */
  function GetMoves(g: Grid, pos: int, chainJump: bool): (r: seq<int>)
    requires Sized(g) && 0 <= pos < 64
    ensures |r| <= 4
    ensures forall d :: d in r ==> OnBoard(d) && d != pos
    ensures forall i, j | 0 <= i < j < |r| :: r[i] != r[j]
    ensures g.cells[pos].None? ==> r == []
  {
    if g.cells[pos].None? then []
    else
      Present(TryMove(g, pos, chainJump, UpLeft)) + Present(TryMove(g, pos, chainJump, UpRight)) +
      Present(TryMove(g, pos, chainJump, DownLeft)) + Present(TryMove(g, pos, chainJump, DownRight))
  }

  /** The place of a direction in getMoves' probing order. */
  function Rank(dir: Direction): nat {
    match dir
    case UpLeft => 0
    case UpRight => 1
    case DownLeft => 2
    case DownRight => 3
  }

  /** `[dir]` when the probe in direction `dir` finds a move, `[]` otherwise. */
  function FoundIn(g: Grid, pos: int, chainJump: bool, dir: Direction): seq<Direction>
    requires Sized(g) && 0 <= pos < 64 && g.cells[pos].Some?
  {
    if TryMove(g, pos, chainJump, dir) != NoMoveExists then [dir] else []
  }

  /** The directions in which the piece at `pos` has a move, in probing order. */
  function MoveDirections(g: Grid, pos: int, chainJump: bool): seq<Direction>
    requires Sized(g) && 0 <= pos < 64
  {
    if g.cells[pos].None? then []
    else
      FoundIn(g, pos, chainJump, UpLeft) + FoundIn(g, pos, chainJump, UpRight) +
      FoundIn(g, pos, chainJump, DownLeft) + FoundIn(g, pos, chainJump, DownRight)
  }

  predicate CanMove(g: Grid, pos: int, chainJump: bool)
    requires Sized(g) && 0 <= pos < 64
  {
    |GetMoves(g, pos, chainJump)| > 0
  }

  // ---------------------------------------------------------------------------
  // Reference definition of a legal destination, by rows and columns

  /** `to` is `k` diagonal steps from `from` in direction `dir`, on the board, without wrapping. */
  predicate Diagonal(from: int, to: int, dir: Direction, k: int) {
    OnBoard(to) &&
    Row(to) == Row(from) + k * RowStep(dir) &&
    Column(to) == Column(from) + k * ColumnStep(dir)
  }

  /** A legal destination in direction `dir`: a step onto an empty cell, or a jump over an opponent. */
  predicate LegalVia(g: Grid, pos: int, chainJump: bool, dir: Direction, d: int)
    requires Sized(g) && 0 <= pos < 64 && g.cells[pos].Some?
  {
    var me := g.cells[pos].value;
    Forward(g, me, dir) &&
    ((!chainJump && Diagonal(pos, d, dir, 1) && g.cells[d].None?) ||
     (Diagonal(pos, d, dir, 2) && g.cells[d].None? &&
      g.cells[(pos + d) / 2].Some? && g.cells[(pos + d) / 2].value.player != me.player))
  }

  predicate Legal(g: Grid, pos: int, chainJump: bool, d: int)
    requires Sized(g) && 0 <= pos < 64
  {
    g.cells[pos].Some? &&
    (LegalVia(g, pos, chainJump, UpLeft, d) || LegalVia(g, pos, chainJump, UpRight, d) ||
     LegalVia(g, pos, chainJump, DownLeft, d) || LegalVia(g, pos, chainJump, DownRight, d))
  }

  // ---------------------------------------------------------------------------
  // Moves

  /** isJump: the offset is one of ±14, ±18. */
  predicate IsJump(src: int, dest: int) {
    dest in [src + 18, src - 18, src + 14, src - 14]
  }

  function Midpoint(src: int, dest: int): int {
    src + (dest - src) / 2
  }

  /**
   * What every destination listed by getMoves satisfies (lemma MoveShape): a piece
   * at `src`, an empty cell `d` on the board of the same colour as `src` (a dark
   * one on a well-formed board), and for a jump an opponent piece at the midpoint.
   */
  predicate ProperMove(g: Grid, src: int, d: int) {
    Sized(g) && 0 <= src < 64 && g.cells[src].Some? && OnBoard(d) && g.cells[d].None? &&
    (Dark(d) <==> Dark(src)) &&
    (IsJump(src, d) ==>
       (d - src) / 2 in {9, -9, 7, -7} &&
       g.cells[Midpoint(src, d)].Some? &&
       g.cells[Midpoint(src, d)].value.player != g.cells[src].value.player) &&
    (!IsJump(src, d) ==> d - src in {9, -9, 7, -7})
  }

  /** shouldKing: the piece at `pos` stands on its owner's promotion row. */
  predicate ShouldKing(g: Grid, pos: int)
    requires Sized(g) && 0 <= pos < 64 && g.cells[pos].Some?
  {
    PromotionRow(g, g.cells[pos].value.player, pos)
  }

  /** Row 0 promotes player1's men, row 7 player2's. */
  predicate PromotionRow(g: Grid, player: int, pos: int) {
    (player == g.player1 && Row(pos) == 0) || (player == g.player2 && Row(pos) == 7)
  }

  /**
   * The cells after moving `src` to `dest`: a jump first clears the midpoint,
   * then the piece is copied to `dest`, `src` is cleared, and the piece is kinged
   * if it landed on its promotion row.
   */
  function ApplyMove(g: Grid, src: int, dest: int): Grid
    requires Sized(g) && 0 <= src < 64 && 0 <= dest < 64 && src != dest && g.cells[src].Some?
  {
    var captured := if IsJump(src, dest) then g.cells[Midpoint(src, dest) := None] else g.cells;
    var moved := g.(cells := captured[dest := g.cells[src]][src := None]);
    if ShouldKing(moved, dest)
    then moved.(cells := moved.cells[dest := Some(g.cells[src].value.(king := true))])
    else moved
  }

  // ---------------------------------------------------------------------------
  // Counting pieces

  function Owned(cells: seq<Option<Piece>>, p: int): set<int> {
    set i | 0 <= i < |cells| && cells[i].Some? && cells[i].value.player == p
  }

  function Count(cells: seq<Option<Piece>>, p: int): nat {
    |Owned(cells, p)|
  }

  function Owns(cell: Option<Piece>, p: int): nat {
    if cell.Some? && cell.value.player == p then 1 else 0
  }

  // ---------------------------------------------------------------------------
  // Movable pieces

  /** The cells below `n` holding a piece of `who` that has a simple move or a jump, ascending. */
  function MovableUpTo(g: Grid, who: Option<int>, n: int): seq<int>
    requires Sized(g) && 0 <= n <= 64
  {
    if n == 0 then []
    else MovableUpTo(g, who, n - 1) + (if Movable(g, who, n - 1) then [n - 1] else [])
  }

  /** The cell holds a piece of `who` that has a simple move or a jump. */
  predicate Movable(g: Grid, who: Option<int>, pos: int)
    requires Sized(g) && 0 <= pos < 64
  {
    OwnedBy(g.cells[pos], who) && CanMove(g, pos, false)
  }

  // ---------------------------------------------------------------------------
  // Snapshot labels

  datatype Label = Blank | P1 | P1King | P2 | P2King

  /** The label toJSON appends for one cell; nothing for a piece of an unknown owner. */
  function CellLabel(g: Grid, cell: Option<Piece>): seq<Label> {
    match cell
    case None => [Blank]
    case Some(piece) =>
      if piece.player == g.player1 then (if piece.king then [P1King] else [P1])
      else if piece.player == g.player2 then (if piece.king then [P2King] else [P2])
      else []
  }

  /** The labels of the first `n` cells. */
  function Snapshot(g: Grid, n: int): seq<Label>
    requires Sized(g) && 0 <= n <= 64
  {
    if n == 0 then [] else Snapshot(g, n - 1) + CellLabel(g, g.cells[n - 1])
  }

  /** Reads a label back as a cell, given the board's two identities. */
  function LabelCell(g: Grid, l: Label): Option<Piece> {
    match l
    case Blank => None
    case P1 => Some(Piece(g.player1, false))
    case P1King => Some(Piece(g.player1, true))
    case P2 => Some(Piece(g.player2, false))
    case P2King => Some(Piece(g.player2, true))
  }

  // ---------------------------------------------------------------------------
  // Starting layout

  const Player2Start: set<int> := {1, 3, 5, 7, 8, 10, 12, 14, 17, 19, 21, 23}
  const Player1Start: set<int> := {40, 42, 44, 46, 49, 51, 53, 55, 56, 58, 60, 62}

  /** What Board.__init__ puts on cell `i`: a man of player2, a man of player1, or nothing. */
  function StartCell(player1: int, player2: int, i: int): Option<Piece> {
    if i in Player2Start then Some(Piece(player2, false))
    else if i in Player1Start then Some(Piece(player1, false))
    else None
  }

  function StartCells(player1: int, player2: int): seq<Option<Piece>> {
    seq(64, i => StartCell(player1, player2, i))
  }

  // ===========================================================================
  // Lemmas

  /** The source's on-board and column guards for a move of `k` cells mean exactly "no wrap". */
  lemma GuardsMeanDiagonal(pos: int, dir: Direction, k: int)
    requires 0 <= pos < 64 && (k == 1 || k == 2)
    ensures (OnBoard(pos + k * Offset(dir)) && ColumnGuard(pos, dir, k)) <==>
            Diagonal(pos, pos + k * Offset(dir), dir, k)
  {
    var r, c := Row(pos), Column(pos);
    assert pos == 8 * r + c;
    var to := pos + k * Offset(dir);
    assert to == 8 * (r + k * RowStep(dir)) + (c + k * ColumnStep(dir)) by {
      if k == 1 { } else { }
    }
    if 0 <= c + k * ColumnStep(dir) < 8 {
      DivMod(r + k * RowStep(dir), c + k * ColumnStep(dir));
    } else {
      assert Column(to) != c + k * ColumnStep(dir) by {
        if c + k * ColumnStep(dir) < 0 {
          DivMod(r + k * RowStep(dir) - 1, c + k * ColumnStep(dir) + 8);
        } else {
          DivMod(r + k * RowStep(dir) + 1, c + k * ColumnStep(dir) - 8);
        }
      }
    }
  }

  lemma DivMod(q: int, m: int)
    requires 0 <= m < 8
    ensures (8 * q + m) / 8 == q && (8 * q + m) % 8 == m
  {
  }

  /** A diagonal target is determined by its direction and distance. */
  lemma DiagonalTarget(from: int, to: int, dir: Direction, k: int)
    requires 0 <= from < 64 && (k == 1 || k == 2) && Diagonal(from, to, dir, k)
    ensures to == from + k * Offset(dir)
  {
    assert from == 8 * Row(from) + Column(from);
    assert to == 8 * Row(to) + Column(to);
    if k == 1 { } else { }
  }

  /** One probe returns `d` exactly when `d` is a legal destination in its direction. */
  lemma TryMoveMatches(g: Grid, pos: int, chainJump: bool, dir: Direction, d: int)
    requires Sized(g) && 0 <= pos < 64 && g.cells[pos].Some?
    ensures (d != NoMoveExists && TryMove(g, pos, chainJump, dir) == d) <==> LegalVia(g, pos, chainJump, dir, d)
  {
    GuardsMeanDiagonal(pos, dir, 1);
    GuardsMeanDiagonal(pos, dir, 2);
    if Diagonal(pos, d, dir, 1) { DiagonalTarget(pos, d, dir, 1); }
    if Diagonal(pos, d, dir, 2) {
      DiagonalTarget(pos, d, dir, 2);
      assert (pos + d) / 2 == pos + Offset(dir);
    }
  }

  /** getMoves lists exactly the legal destinations of the reference definition. */
  lemma MovesAreLegal(g: Grid, pos: int, chainJump: bool, d: int)
    requires Sized(g) && 0 <= pos < 64
    ensures d in GetMoves(g, pos, chainJump) <==> Legal(g, pos, chainJump, d)
  {
    if g.cells[pos].Some? {
      TryMoveMatches(g, pos, chainJump, UpLeft, d);
      TryMoveMatches(g, pos, chainJump, UpRight, d);
      TryMoveMatches(g, pos, chainJump, DownLeft, d);
      TryMoveMatches(g, pos, chainJump, DownRight, d);
    }
  }

  /** Destinations `r` and directions `dirs` pair up: same length, directions in probing order, each destination legal in its direction. */
  ghost predicate Aligned(g: Grid, pos: int, chainJump: bool, r: seq<int>, dirs: seq<Direction>)
    requires Sized(g) && 0 <= pos < 64 && g.cells[pos].Some?
  {
    |dirs| == |r| &&
    (forall i, j | 0 <= i < j < |dirs| :: Rank(dirs[i]) < Rank(dirs[j])) &&
    (forall i | 0 <= i < |r| :: LegalVia(g, pos, chainJump, dirs[i], r[i]))
  }

  /** Appending the probe of a later direction keeps destinations and directions paired. */
  lemma AlignedExtend(g: Grid, pos: int, chainJump: bool, r: seq<int>, dirs: seq<Direction>, dir: Direction)
    requires Sized(g) && 0 <= pos < 64 && g.cells[pos].Some?
    requires Aligned(g, pos, chainJump, r, dirs)
    requires forall i | 0 <= i < |dirs| :: Rank(dirs[i]) < Rank(dir)
    ensures Aligned(g, pos, chainJump, r + Present(TryMove(g, pos, chainJump, dir)),
                    dirs + FoundIn(g, pos, chainJump, dir))
    ensures forall i | 0 <= i < |dirs + FoundIn(g, pos, chainJump, dir)| ::
              Rank((dirs + FoundIn(g, pos, chainJump, dir))[i]) <= Rank(dir)
  {
    var t := TryMove(g, pos, chainJump, dir);
    if t != NoMoveExists {
      TryMoveMatches(g, pos, chainJump, dir, t);
      var r', dirs' := r + [t], dirs + [dir];
      assert r'[|r|] == t && dirs'[|dirs|] == dir;
    } else {
      assert r + Present(t) == r && dirs + FoundIn(g, pos, chainJump, dir) == dirs;
    }
  }

  /** The four probes of getMoves, appended in order, stay aligned with their directions. */
  lemma GetMovesAligned(g: Grid, pos: int, chainJump: bool)
    requires Sized(g) && 0 <= pos < 64 && g.cells[pos].Some?
    ensures Aligned(g, pos, chainJump, GetMoves(g, pos, chainJump), MoveDirections(g, pos, chainJump))
  {
    var r1, d1 := Present(TryMove(g, pos, chainJump, UpLeft)), FoundIn(g, pos, chainJump, UpLeft);
    AlignedExtend(g, pos, chainJump, [], [], UpLeft);
    assert [] + r1 == r1 && [] + d1 == d1;
    AlignedExtend(g, pos, chainJump, r1, d1, UpRight);
    var r2, d2 := r1 + Present(TryMove(g, pos, chainJump, UpRight)), d1 + FoundIn(g, pos, chainJump, UpRight);
    AlignedExtend(g, pos, chainJump, r2, d2, DownLeft);
    var r3, d3 := r2 + Present(TryMove(g, pos, chainJump, DownLeft)), d2 + FoundIn(g, pos, chainJump, DownLeft);
    AlignedExtend(g, pos, chainJump, r3, d3, DownRight);
  }

  /**
   * getMoves lists its destinations in the order up-left, up-right, down-left,
   * down-right: the i-th is legal in the i-th direction that has a move.
   */
  lemma GetMovesOrder(g: Grid, pos: int, chainJump: bool)
    requires Sized(g) && 0 <= pos < 64
    ensures var r, dirs := GetMoves(g, pos, chainJump), MoveDirections(g, pos, chainJump);
            |dirs| == |r| &&
            (forall i, j | 0 <= i < j < |dirs| :: Rank(dirs[i]) < Rank(dirs[j])) &&
            (forall i | 0 <= i < |r| :: g.cells[pos].Some? && LegalVia(g, pos, chainJump, dirs[i], r[i]))
  {
    if g.cells[pos].Some? {
      GetMovesAligned(g, pos, chainJump);
    }
  }

  /** What a legal destination in one direction looks like as an offset. */
  lemma ViaShape(g: Grid, pos: int, chainJump: bool, dir: Direction, d: int)
    requires Sized(g) && 0 <= pos < 64 && g.cells[pos].Some? && LegalVia(g, pos, chainJump, dir, d)
    ensures OnBoard(d) && g.cells[d].None? && Forward(g, g.cells[pos].value, dir)
    ensures (!chainJump && Diagonal(pos, d, dir, 1) && d == pos + Offset(dir)) ||
            (Diagonal(pos, d, dir, 2) && d == pos + 2 * Offset(dir) &&
             g.cells[pos + Offset(dir)].Some? &&
             g.cells[pos + Offset(dir)].value.player != g.cells[pos].value.player)
  {
    if !chainJump && Diagonal(pos, d, dir, 1) && g.cells[d].None? {
      DiagonalTarget(pos, d, dir, 1);
    } else {
      assert Diagonal(pos, d, dir, 2);
      DiagonalTarget(pos, d, dir, 2);
      assert (pos + d) / 2 == pos + Offset(dir);
    }
  }

  /** Diagonal moves keep the colour of the square. */
  lemma DiagonalKeepsColour(from: int, to: int, dir: Direction, k: int)
    requires Diagonal(from, to, dir, k) && (k == 1 || k == 2)
    ensures Dark(to) <==> Dark(from)
  {
    var sum := Row(from) + Column(from);
    assert Row(to) + Column(to) == sum + k * (RowStep(dir) + ColumnStep(dir));
    assert k * (RowStep(dir) + ColumnStep(dir)) in {-4, -2, 0, 2, 4};
  }

  /** Where a legal destination lies and what it requires of the cells around it. */
  lemma LegalShape(g: Grid, pos: int, chainJump: bool, d: int)
    requires Sized(g) && 0 <= pos < 64 && Legal(g, pos, chainJump, d)
    ensures ProperMove(g, pos, d)
    ensures WellFormed(g) ==> Dark(d)
    ensures IsJump(pos, d) ==> Row(d) - Row(pos) in {2, -2} && Column(d) - Column(pos) in {2, -2}
    ensures !IsJump(pos, d) ==>
              !chainJump && Row(d) - Row(pos) in {1, -1} && Column(d) - Column(pos) in {1, -1}
  {
    var dir :| dir in {UpLeft, UpRight, DownLeft, DownRight} && LegalVia(g, pos, chainJump, dir, d);
    LegalViaShape(g, pos, chainJump, dir, d);
  }

  /** LegalShape, for one direction. */
  lemma LegalViaShape(g: Grid, pos: int, chainJump: bool, dir: Direction, d: int)
    requires Sized(g) && 0 <= pos < 64 && g.cells[pos].Some? && LegalVia(g, pos, chainJump, dir, d)
    ensures ProperMove(g, pos, d)
    ensures IsJump(pos, d) ==> Row(d) - Row(pos) in {2, -2} && Column(d) - Column(pos) in {2, -2}
    ensures !IsJump(pos, d) ==>
              !chainJump && Row(d) - Row(pos) in {1, -1} && Column(d) - Column(pos) in {1, -1}
  {
    ViaShape(g, pos, chainJump, dir, d);
    if Diagonal(pos, d, dir, 1) && d == pos + Offset(dir) {
      DiagonalKeepsColour(pos, d, dir, 1);
    } else {
      DiagonalKeepsColour(pos, d, dir, 2);
    }
  }

  /** The same, for a destination listed by getMoves. */
  lemma MoveShape(g: Grid, pos: int, chainJump: bool, d: int)
    requires Sized(g) && 0 <= pos < 64 && d in GetMoves(g, pos, chainJump)
    ensures ProperMove(g, pos, d)
    ensures WellFormed(g) ==> Dark(d)
    ensures IsJump(pos, d) ==> Row(d) - Row(pos) in {2, -2} && Column(d) - Column(pos) in {2, -2}
    ensures !IsJump(pos, d) ==>
              !chainJump && Row(d) - Row(pos) in {1, -1} && Column(d) - Column(pos) in {1, -1}
  {
    MovesAreLegal(g, pos, chainJump, d);
    LegalShape(g, pos, chainJump, d);
  }

  /** A man never moves backwards: player1's only move up, player2's only down. */
  lemma ManMovesForward(g: Grid, pos: int, chainJump: bool, d: int)
    requires WellFormed(g) && 0 <= pos < 64 && d in GetMoves(g, pos, chainJump)
    requires g.cells[pos].Some? && !g.cells[pos].value.king
    ensures g.cells[pos].value.player == g.player1 ==> d < pos
    ensures g.cells[pos].value.player == g.player2 ==> d > pos
  {
    MovesAreLegal(g, pos, chainJump, d);
    var dir :| dir in {UpLeft, UpRight, DownLeft, DownRight} && LegalVia(g, pos, chainJump, dir, d);
    ViaShape(g, pos, chainJump, dir, d);
  }

  lemma ChainLegalVia(g: Grid, pos: int, dir: Direction, d: int)
    requires Sized(g) && 0 <= pos < 64 && g.cells[pos].Some?
    ensures LegalVia(g, pos, true, dir, d) <==> LegalVia(g, pos, false, dir, d) && IsJump(pos, d)
  {
    if LegalVia(g, pos, true, dir, d) { ViaShape(g, pos, true, dir, d); }
    if LegalVia(g, pos, false, dir, d) { ViaShape(g, pos, false, dir, d); }
  }

  /** A pending chain jump leaves exactly the jumps among the unrestricted destinations. */
  lemma ChainKeepsOnlyJumps(g: Grid, pos: int, d: int)
    requires Sized(g) && 0 <= pos < 64
    ensures d in GetMoves(g, pos, true) <==> d in GetMoves(g, pos, false) && IsJump(pos, d)
  {
    MovesAreLegal(g, pos, true, d);
    MovesAreLegal(g, pos, false, d);
    if g.cells[pos].Some? {
      ChainLegalVia(g, pos, UpLeft, d);
      ChainLegalVia(g, pos, UpRight, d);
      ChainLegalVia(g, pos, DownLeft, d);
      ChainLegalVia(g, pos, DownRight, d);
    }
  }

  /** Writing one cell changes a player's count by what left and what arrived. */
  lemma CountUpdate(s: seq<Option<Piece>>, k: int, x: Option<Piece>, p: int)
    requires 0 <= k < |s|
    ensures Count(s[k := x], p) == Count(s, p) - Owns(s[k], p) + Owns(x, p)
  {
    var before, after := Owned(s, p), Owned(s[k := x], p);
    if Owns(s[k], p) == 1 && Owns(x, p) == 0 {
      assert after == before - {k};
    } else if Owns(s[k], p) == 0 && Owns(x, p) == 1 {
      assert after == before + {k};
    } else {
      assert after == before;
    }
  }

  /**
   * A legal move empties `src`, puts the piece on `d` (kinged if it reached its
   * promotion row, and never un-kinged), removes exactly the opponent piece it
   * jumped, and touches no other cell.
   */
  lemma ApplyMoveCells(g: Grid, src: int, d: int)
    requires ProperMove(g, src, d)
    ensures var g' := ApplyMove(g, src, d);
            var piece := g.cells[src].value;
            g'.player1 == g.player1 && g'.player2 == g.player2 && |g'.cells| == 64 &&
            g'.cells[src] == None &&
            g'.cells[d] == Some(Piece(piece.player, piece.king || PromotionRow(g, piece.player, d))) &&
            (IsJump(src, d) ==>
               g.cells[Midpoint(src, d)].Some? &&
               g.cells[Midpoint(src, d)].value.player != piece.player &&
               g'.cells[Midpoint(src, d)] == None) &&
            (forall i | 0 <= i < 64 && i != src && i != d && !(IsJump(src, d) && i == Midpoint(src, d)) ::
               g'.cells[i] == g.cells[i])
  {
  }

  /** The piece that lands on `d` is the mover's. */
  lemma LandingOwner(g: Grid, src: int, d: int)
    requires ProperMove(g, src, d)
    ensures ApplyMove(g, src, d).cells[d].Some?
    ensures ApplyMove(g, src, d).cells[d].value.player == g.cells[src].value.player
  {
    ApplyMoveCells(g, src, d);
  }

  /** A legal move keeps every piece on a dark square and owned by one of the two players. */
  lemma ApplyMoveWellFormed(g: Grid, src: int, d: int)
    requires WellFormed(g) && ProperMove(g, src, d)
    ensures WellFormed(ApplyMove(g, src, d))
  {
    ApplyMoveCells(g, src, d);
    var g' := ApplyMove(g, src, d);
    forall i | 0 <= i < 64 && g'.cells[i].Some?
      ensures (g'.cells[i].value.player == g.player1 || g'.cells[i].value.player == g.player2) && Dark(i)
    {
      if i != d {
        assert g'.cells[i] == g.cells[i];
      }
    }
  }

  /**
   * A legal move keeps the board well formed; the mover keeps its count and the
   * opponent loses exactly one piece per jump.
   */
  lemma ApplyMoveCounts(g: Grid, src: int, d: int)
    requires WellFormed(g) && ProperMove(g, src, d)
    ensures var g' := ApplyMove(g, src, d);
            var mover := g.cells[src].value.player;
            var other := if mover == g.player1 then g.player2 else g.player1;
            WellFormed(g') &&
            Count(g'.cells, mover) == Count(g.cells, mover) &&
            Count(g'.cells, other) == Count(g.cells, other) - (if IsJump(src, d) then 1 else 0)
  {
    ApplyMoveWellFormed(g, src, d);
    var piece := g.cells[src].value;
    var mover := piece.player;
    var other := if mover == g.player1 then g.player2 else g.player1;
    var mid := Midpoint(src, d);
    var captured := if IsJump(src, d) then g.cells[mid := None] else g.cells;
    if IsJump(src, d) {
      CountUpdate(g.cells, mid, None, mover);
      CountUpdate(g.cells, mid, None, other);
    }
    var c1 := captured[d := g.cells[src]];
    CountUpdate(captured, d, g.cells[src], mover);
    CountUpdate(captured, d, g.cells[src], other);
    var c2 := c1[src := None];
    CountUpdate(c1, src, None, mover);
    CountUpdate(c1, src, None, other);
    if ShouldKing(g.(cells := c2), d) {
      CountUpdate(c2, d, Some(piece.(king := true)), mover);
      CountUpdate(c2, d, Some(piece.(king := true)), other);
    }
  }

  /** The cells for which toJSON emits a label: all of them on a well-formed board. */
  lemma {:induction false} SnapshotRoundTrip(g: Grid, n: int)
    requires WellFormed(g) && 0 <= n <= 64
    ensures |Snapshot(g, n)| == n
    ensures forall i | 0 <= i < n :: LabelCell(g, Snapshot(g, n)[i]) == g.cells[i]
  {
    if n > 0 {
      SnapshotRoundTrip(g, n - 1);
    }
  }

  /** movablePieces without a chain jump lists exactly the player's cells that can move. */
  lemma {:induction false} MovableUpToMembers(g: Grid, who: Option<int>, n: int)
    requires Sized(g) && 0 <= n <= 64
    ensures forall x :: x in MovableUpTo(g, who, n) <==> 0 <= x < n && Movable(g, who, x)
  {
    if n > 0 {
      MovableUpToMembers(g, who, n - 1);
      var prefix, last := MovableUpTo(g, who, n - 1), Movable(g, who, n - 1);
      assert MovableUpTo(g, who, n) == prefix + (if last then [n - 1] else []);
      forall x ensures x in MovableUpTo(g, who, n) <==> 0 <= x < n && Movable(g, who, x) {
        assert x in prefix <==> 0 <= x < n - 1 && Movable(g, who, x);
      }
    }
  }

  /** ... in strictly ascending order. */
  lemma {:induction false} MovableUpToAscending(g: Grid, who: Option<int>, n: int)
    requires Sized(g) && 0 <= n <= 64
    ensures forall i, j | 0 <= i < j < |MovableUpTo(g, who, n)| ::
              MovableUpTo(g, who, n)[i] < MovableUpTo(g, who, n)[j]
  {
    if n > 0 {
      MovableUpToAscending(g, who, n - 1);
      MovableUpToMembers(g, who, n - 1);
      var prefix, r := MovableUpTo(g, who, n - 1), MovableUpTo(g, who, n);
      forall i, j | 0 <= i < j < |r| ensures r[i] < r[j] {
        assert r[i] == prefix[i];
        if j < |prefix| {
          assert r[j] == prefix[j];
        } else {
          assert r[j] == n - 1;
          assert prefix[i] in prefix;
        }
      }
    }
  }

  /** The pieces of each side on the starting board are exactly its start cells. */
  lemma StartOwned(player1: int, player2: int)
    requires player1 != player2
    ensures Owned(StartCells(player1, player2), player1) == Player1Start
    ensures Owned(StartCells(player1, player2), player2) == Player2Start
  {
    var s := StartCells(player1, player2);
    forall x | x in Player1Start ensures x in Owned(s, player1) {
      assert x !in Player2Start;
    }
  }

  /** The starting layout: twelve men each, on dark squares, no kings. */
  lemma StartLayout(player1: int, player2: int)
    requires player1 != player2
    ensures WellFormed(Grid(StartCells(player1, player2), player1, player2))
    ensures Count(StartCells(player1, player2), player1) == 12
    ensures Count(StartCells(player1, player2), player2) == 12
    ensures forall i | 0 <= i < 64 && StartCells(player1, player2)[i].Some? ::
              !StartCells(player1, player2)[i].value.king
  {
    StartWellFormed(player1, player2);
    StartOwned(player1, player2);
    StartSizes();
  }

  lemma StartWellFormed(player1: int, player2: int)
    requires player1 != player2
    ensures WellFormed(Grid(StartCells(player1, player2), player1, player2))
  {
  }

  lemma StartSizes()
    ensures |Player1Start| == 12 && |Player2Start| == 12
  {
  }
}
