/** The pawn-structure measures of the session layer (`count_pawns`,
    `count_backward_pawns`, `count_isolated_pawns`, `count_doubled_pawns`,
    `count_passed_pawns`) as functions of the 8x8 grid it exposes. Each
    count is the number of squares, in row-major order, that pass a
    per-square test; the tests say what the nested scans of the session
    layer look for. */
module PawnStructure {
  import opened Types
  import opened Board

  predicate PawnAt(g: Grid, r: int, c: int, color: Color) {
    At(g, r, c).Some? && At(g, r, c).value.kind == Pawn && At(g, r, c).value.color == color
  }

  /** `checkRow` lies behind `row` for a pawn of `color` (white pawns
      advance towards row 0). */
  predicate Behind(color: Color, checkRow: int, row: int) {
    if color == White then checkRow > row else checkRow < row
  }

  /** `checkRow` lies ahead of `row` for a pawn of `color`. */
  predicate Ahead(color: Color, checkRow: int, row: int) {
    if color == White then checkRow < row else checkRow > row
  }

  function PawnTest(g: Grid, color: Color): Pos -> bool {
    (p: Pos) => PawnAt(g, p.0, p.1, color)
  }

  /** `count_pawns`. */
  function PawnCount(g: Grid, color: Color): nat {
    Count(RowMajor(), PawnTest(g, color))
  }

  // ---------------------------------------------------------------------
  // Isolated pawns

  predicate PawnOnFile(g: Grid, col: int, color: Color) {
    exists r :: 0 <= r < 8 && PawnAt(g, r, col, color)
  }

  /** A pawn with no pawn of its colour on either neighbouring file. */
  predicate Isolated(g: Grid, r: int, c: int, color: Color) {
    PawnAt(g, r, c, color) && !(c > 0 && PawnOnFile(g, c - 1, color)) && !(c < 7 && PawnOnFile(g, c + 1, color))
  }

  function IsolatedTest(g: Grid, color: Color): Pos -> bool {
    (p: Pos) => Isolated(g, p.0, p.1, color)
  }

  /** `count_isolated_pawns`. */
  function IsolatedCount(g: Grid, color: Color): nat {
    Count(RowMajor(), IsolatedTest(g, color))
  }

  // ---------------------------------------------------------------------
  // Doubled pawns

  /** The pawns of `color` on file `col` within rows `0 .. rows - 1`. */
  function FilePawns(g: Grid, col: int, color: Color, rows: nat): nat
    requires rows <= 8
  {
    if rows == 0 then 0
    else FilePawns(g, col, color, rows - 1) + (if PawnAt(g, rows - 1, col, color) then 1 else 0)
  }

  /** The pawns beyond the first on a file holding `n`. */
  function Extra(n: nat): nat {
    if n > 1 then n - 1 else 0
  }

  /** The extra pawns summed over files `0 .. files - 1`. */
  function DoubledBelow(g: Grid, color: Color, files: nat): nat
    requires files <= 8
  {
    if files == 0 then 0 else DoubledBelow(g, color, files - 1) + Extra(FilePawns(g, files - 1, color, 8))
  }

  /** `count_doubled_pawns`. */
  function DoubledCount(g: Grid, color: Color): nat {
    DoubledBelow(g, color, 8)
  }

  // ---------------------------------------------------------------------
  // Backward pawns

  /** A pawn of the same colour one row in the pawn's direction of travel,
      on a neighbouring file. */
  predicate DefendedDiagonally(g: Grid, r: int, c: int, color: Color) {
    var d := r + Direction(color);
    0 <= d < 8 && ((c > 0 && PawnAt(g, d, c - 1, color)) || (c < 7 && PawnAt(g, d, c + 1, color)))
  }

  predicate PawnBehindOnFile(g: Grid, col: int, row: int, color: Color) {
    exists cr :: 0 <= cr < 8 && PawnAt(g, cr, col, color) && Behind(color, cr, row)
  }

  /** A pawn of the same colour behind the pawn's row on a neighbouring file. */
  predicate SupportFromBehind(g: Grid, r: int, c: int, color: Color) {
    (0 <= c - 1 < 8 && PawnBehindOnFile(g, c - 1, r, color)) || (0 <= c + 1 < 8 && PawnBehindOnFile(g, c + 1, r, color))
  }

  predicate CanBeDefended(g: Grid, r: int, c: int, color: Color) {
    DefendedDiagonally(g, r, c, color) || SupportFromBehind(g, r, c, color)
  }

  /** An enemy pawn two rows ahead on a neighbouring file, guarding the
      square in front of the pawn. */
  predicate AdvanceGuarded(g: Grid, r: int, c: int, color: Color) {
    var a := r + Direction(color);
    var e := a + Direction(color);
    0 <= a < 8 && 0 <= e < 8 &&
    ((0 <= c - 1 < 8 && PawnAt(g, e, c - 1, Opponent(color))) || (0 <= c + 1 < 8 && PawnAt(g, e, c + 1, Opponent(color))))
  }

  predicate Backward(g: Grid, r: int, c: int, color: Color) {
    PawnAt(g, r, c, color) && !CanBeDefended(g, r, c, color) && AdvanceGuarded(g, r, c, color)
  }

  function BackwardTest(g: Grid, color: Color): Pos -> bool {
    (p: Pos) => Backward(g, p.0, p.1, color)
  }

  /** `count_backward_pawns`. */
  function BackwardCount(g: Grid, color: Color): nat {
    Count(RowMajor(), BackwardTest(g, color))
  }

  // ---------------------------------------------------------------------
  // The defence test as intended

  /** A pawn of the same colour one row behind the pawn on a neighbouring
      file: the squares from which a pawn defends this one. */
  predicate DefendedDiagonallyBehind(g: Grid, r: int, c: int, color: Color) {
    var d := r - Direction(color);
    0 <= d < 8 && ((c > 0 && PawnAt(g, d, c - 1, color)) || (c < 7 && PawnAt(g, d, c + 1, color)))
  }

  /** `count_backward_pawns` with its diagonal test looking behind. */
  predicate IntendedCanBeDefended(g: Grid, r: int, c: int, color: Color) {
    DefendedDiagonallyBehind(g, r, c, color) || SupportFromBehind(g, r, c, color)
  }

  predicate IntendedBackward(g: Grid, r: int, c: int, color: Color) {
    PawnAt(g, r, c, color) && !IntendedCanBeDefended(g, r, c, color) && AdvanceGuarded(g, r, c, color)
  }

  function IntendedBackwardTest(g: Grid, color: Color): Pos -> bool {
    (p: Pos) => IntendedBackward(g, p.0, p.1, color)
  }

  function IntendedBackwardCount(g: Grid, color: Color): nat {
    Count(RowMajor(), IntendedBackwardTest(g, color))
  }

  /** With the diagonal test looking behind, a pawn can be defended exactly
      when a pawn of its colour stands behind it on a neighbouring file:
      no pawn level with it or ahead of it counts. */
  lemma {:induction false} IntendedDefendersAreBehind(g: Grid, r: int, c: int, color: Color)
    ensures IntendedCanBeDefended(g, r, c, color) <==> SupportFromBehind(g, r, c, color)
    ensures SupportFromBehind(g, r, c, color) <==>
      exists cr, cc :: 0 <= cr < 8 && 0 <= cc < 8 && (cc == c - 1 || cc == c + 1) && PawnAt(g, cr, cc, color) && Behind(color, cr, r)
  {
    var d := r - Direction(color);
    if DefendedDiagonallyBehind(g, r, c, color) {
      assert Behind(color, d, r);
      if c > 0 && PawnAt(g, d, c - 1, color) {
        assert PawnBehindOnFile(g, c - 1, r, color);
      } else {
        assert PawnBehindOnFile(g, c + 1, r, color);
      }
    }
  }

  /** The diagonal test as written only adds defenders, so the count as
      written never exceeds the intended count. */
  lemma {:induction false} BackwardUndercounted(g: Grid, color: Color)
    ensures BackwardCount(g, color) <= IntendedBackwardCount(g, color)
  {
    forall q: Pos | BackwardTest(g, color)(q) ensures IntendedBackwardTest(g, color)(q) {
      assert Backward(g, q.0, q.1, color);
    }
    FilterWeaker(RowMajor(), BackwardTest(g, color), IntendedBackwardTest(g, color));
  }

  function ShieldedE4Square(r: int, c: int): Square {
    if (r == 4 && c == 4) || (r == 3 && c == 3) then Some(Piece(Pawn, White, false))
    else if r == 2 && c == 5 then Some(Piece(Pawn, Black, false))
    else None
  }

  /** White pawns on e4 and d5 and a black pawn on f6. */
  function ShieldedE4(): (g: Grid)
    ensures IsGrid(g)
    ensures forall r, c :: At(g, r, c) == ShieldedE4Square(r, c)
  {
    Place(Place(Place(EmptyGrid(), 4, 4, Some(Piece(Pawn, White, false))), 3, 3, Some(Piece(Pawn, White, false))),
          2, 5, Some(Piece(Pawn, Black, false)))
  }

  /** As written, the pawn on d5, ahead of the pawn on e4, defends it: the
      e4 pawn, whose advance to e5 the f6 pawn guards and which no pawn
      behind supports, is not counted as backward, and no white pawn is. */
  lemma {:induction false} DiagonalAheadDefends()
    ensures DefendedDiagonally(ShieldedE4(), 4, 4, White)
    ensures !Backward(ShieldedE4(), 4, 4, White) && IntendedBackward(ShieldedE4(), 4, 4, White)
    ensures BackwardCount(ShieldedE4(), White) == 0 && IntendedBackwardCount(ShieldedE4(), White) >= 1
  {
    var g := ShieldedE4();
    assert PawnAt(g, 3, 3, White);
    assert PawnAt(g, 2, 5, Black);
    assert !SupportFromBehind(g, 4, 4, White) by {
      assert !PawnBehindOnFile(g, 3, 4, White);
      assert !PawnBehindOnFile(g, 5, 4, White);
    }
    assert !DefendedDiagonallyBehind(g, 4, 4, White);
    assert IntendedBackward(g, 4, 4, White);
    forall i | 0 <= i < |RowMajor()| ensures !BackwardTest(g, White)(RowMajor()[i]) {
      var q := RowMajor()[i];
      if PawnAt(g, q.0, q.1, White) && q == (3, 3) {
        assert PawnAt(g, 4, 4, White) && Behind(White, 4, 3);
        assert PawnBehindOnFile(g, 4, 3, White);
      }
    }
    FilterNone(RowMajor(), BackwardTest(g, White));
    RowMajorMembers(IntendedBackwardTest(g, White), (4, 4));
  }

  // ---------------------------------------------------------------------
  // Passed pawns

  /** The rows the passed-pawn count examines: white rows up to 6, black
      rows from 1. */
  predicate PassedCandidate(r: int, color: Color) {
    if color == White then r <= 6 else r >= 1
  }

  /** An enemy pawn on file `col`, on the board and strictly ahead of `row`. */
  predicate EnemyPawnAhead(g: Grid, row: int, col: int, color: Color) {
    0 <= col <= 7 && exists cr :: 0 <= cr < 8 && Ahead(color, cr, row) && PawnAt(g, cr, col, Opponent(color))
  }

  predicate Passed(g: Grid, r: int, c: int, color: Color) {
    PawnAt(g, r, c, color) && PassedCandidate(r, color) &&
    !EnemyPawnAhead(g, r, c - 1, color) && !EnemyPawnAhead(g, r, c, color) && !EnemyPawnAhead(g, r, c + 1, color)
  }

  function PassedTest(g: Grid, color: Color): Pos -> bool {
    (p: Pos) => Passed(g, p.0, p.1, color)
  }

  /** `count_passed_pawns`. */
  function PassedCount(g: Grid, color: Color): nat {
    Count(RowMajor(), PassedTest(g, color))
  }

  /** The four per-square tests that `chess_board_backup.py` counts over
      the board in row-major order. */
  datatype Measure = PawnsMeasure | IsolatedMeasure | BackwardMeasure | PassedMeasure

  function MeasureTest(g: Grid, color: Color, m: Measure): Pos -> bool {
    match m
    case PawnsMeasure => PawnTest(g, color)
    case IsolatedMeasure => IsolatedTest(g, color)
    case BackwardMeasure => BackwardTest(g, color)
    case PassedMeasure => PassedTest(g, color)
  }

  // ---------------------------------------------------------------------
  // Properties

  /** Every measure counts pawns only: none exceeds the number of pawns. */
  lemma {:induction false} MeasuresBounded(g: Grid, color: Color)
    ensures IsolatedCount(g, color) <= PawnCount(g, color)
    ensures BackwardCount(g, color) <= PawnCount(g, color)
    ensures PassedCount(g, color) <= PawnCount(g, color)
  {
    FilterWeaker(RowMajor(), IsolatedTest(g, color), PawnTest(g, color));
    FilterWeaker(RowMajor(), BackwardTest(g, color), PawnTest(g, color));
    FilterWeaker(RowMajor(), PassedTest(g, color), PawnTest(g, color));
  }

  /** The doubled count is the number of pawns minus the number of files
      that hold one. */
  lemma {:induction false} DoubledIsPawnsMinusFiles(g: Grid, color: Color, files: nat)
    requires files <= 8
    ensures DoubledBelow(g, color, files) + OccupiedFiles(g, color, files) == PawnsOnFiles(g, color, files)
  {
    if files > 0 {
      DoubledIsPawnsMinusFiles(g, color, files - 1);
    }
  }

  /** The files among `0 .. files - 1` that hold a pawn of `color`. */
  function OccupiedFiles(g: Grid, color: Color, files: nat): nat
    requires files <= 8
  {
    if files == 0 then 0
    else OccupiedFiles(g, color, files - 1) + (if FilePawns(g, files - 1, color, 8) > 0 then 1 else 0)
  }

  /** The pawns of `color` on files `0 .. files - 1`. */
  function PawnsOnFiles(g: Grid, color: Color, files: nat): nat
    requires files <= 8
  {
    if files == 0 then 0 else PawnsOnFiles(g, color, files - 1) + FilePawns(g, files - 1, color, 8)
  }

  /** Where the starting position has pawns: white on row 6, black on row 1. */
  lemma {:induction false} InitialPawns(r: int, c: int, color: Color)
    ensures PawnAt(InitialGrid(), r, c, color) <==> OnBoard(r, c) && r == (if color == White then 6 else 1)
  {
    InitialLayout();
  }

  /** A file whose only pawn of `color` among rows `0 .. rows - 1` stands in
      row `row` counts one pawn there (none when `row` is not yet reached). */
  lemma {:induction false} SinglePawnOnFile(g: Grid, col: int, color: Color, row: int, rows: nat)
    requires rows <= 8
    requires forall r :: 0 <= r < rows ==> (PawnAt(g, r, col, color) <==> r == row)
    ensures FilePawns(g, col, color, rows) == (if 0 <= row < rows then 1 else 0)
  {
    if rows > 0 {
      SinglePawnOnFile(g, col, color, row, rows - 1);
    }
  }

  /** The starting position has eight pawns a side, none isolated and none
      doubled. */
  lemma {:induction false} InitialPawnStructure(color: Color)
    ensures PawnCount(InitialGrid(), color) == 8
    ensures IsolatedCount(InitialGrid(), color) == 0
    ensures DoubledCount(InitialGrid(), color) == 0
  {
    var g := InitialGrid();
    var row := if color == White then 6 else 1;
    forall r, c ensures PawnAt(g, r, c, color) <==> OnBoard(r, c) && r == row {
      InitialPawns(r, c, color);
    }
    FullPawnRow(g, color, row);
  }

  /** A grid whose pawns of `color` fill exactly one row. */
  lemma {:induction false} FullPawnRow(g: Grid, color: Color, row: int)
    requires 0 <= row < 8
    requires forall r, c :: PawnAt(g, r, c, color) <==> OnBoard(r, c) && r == row
    ensures PawnCount(g, color) == 8
    ensures IsolatedCount(g, color) == 0
    ensures DoubledCount(g, color) == 0
  {
    FullPawnRowCount(g, color, row);
    forall i | 0 <= i < 64 ensures !IsolatedTest(g, color)(RowMajor()[i]) {
      var (r, c) := RowMajor()[i];
      if PawnAt(g, r, c, color) {
        if c > 0 {
          assert PawnAt(g, row, c - 1, color);
        } else {
          assert PawnAt(g, row, c + 1, color);
        }
      }
    }
    FilterNone(RowMajor(), IsolatedTest(g, color));
    forall c | 0 <= c < 8 ensures FilePawns(g, c, color, 8) == 1 {
      SinglePawnOnFile(g, c, color, row, 8);
    }
    NoDoubled(g, color, 8);
  }

  lemma {:induction false} FullPawnRowCount(g: Grid, color: Color, row: int)
    requires 0 <= row < 8
    requires forall r, c :: PawnAt(g, r, c, color) <==> OnBoard(r, c) && r == row
    ensures PawnCount(g, color) == 8
  {
    PawnsInPrefix(g, color, row, 64);
    RowMajorWhole();
  }

  /** Scanning the first `n` squares of a grid whose pawns fill one row. */
  lemma {:induction false} PawnsInPrefix(g: Grid, color: Color, row: int, n: nat)
    requires 0 <= row < 8 && n <= 64
    requires forall r, c :: PawnAt(g, r, c, color) <==> OnBoard(r, c) && r == row
    ensures |Filter(RowMajor()[..n], PawnTest(g, color))| ==
            if n <= 8 * row then 0 else if n <= 8 * row + 8 then n - 8 * row else 8
  {
    if n > 0 {
      var xs := RowMajor();
      PawnsInPrefix(g, color, row, n - 1);
      assert xs[..n] == xs[..n - 1] + [xs[n - 1]];
      FilterSnoc(xs[..n - 1], xs[n - 1], PawnTest(g, color));
      RowOfIndex(n - 1, row);
    }
  }

  lemma {:induction false} RowOfIndex(i: int, row: int)
    requires 0 <= i < 64 && 0 <= row < 8
    ensures i < 8 * row ==> i / 8 < row
    ensures 8 * row <= i < 8 * row + 8 ==> i / 8 == row
    ensures 8 * row + 8 <= i ==> i / 8 > row
  {
  }

  lemma {:induction false} NoDoubled(g: Grid, color: Color, files: nat)
    requires files <= 8
    requires forall c :: 0 <= c < files ==> FilePawns(g, c, color, 8) == 1
    ensures DoubledBelow(g, color, files) == 0
  {
    if files > 0 {
      NoDoubled(g, color, files - 1);
    }
  }
}
