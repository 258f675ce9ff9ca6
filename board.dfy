/** The self-contained chess engine of `chess_board.py`: an 8x8 grid of
    optional pieces (row 0 is rank 8, column 0 is file a), castling rights,
    pseudo-legal move generation per piece kind, moves that update the grid
    and the counters, and export of the position as a FEN record. */
module Board {
  import opened Types
  import opened Text

  type Square = Option<Piece>
  type Grid = seq<seq<Square>>

  predicate IsGrid(g: Grid) {
    |g| == 8 && forall r :: 0 <= r < 8 ==> |g[r]| == 8
  }

  /** `get_piece`: the square's content, `None` off the board. */
  function At(g: Grid, r: int, c: int): (s: Square)
    ensures !OnBoard(r, c) ==> s.None?
    ensures IsGrid(g) && OnBoard(r, c) ==> s == g[r][c]
  {
    if OnBoard(r, c) && r < |g| && c < |g[r]| then g[r][c] else None
  }

  /** `set_piece`: writes an on-board square and ignores any other. */
  function Place(g: Grid, r: int, c: int, p: Square): (h: Grid)
    requires IsGrid(g)
    ensures IsGrid(h)
    ensures forall rr, cc :: At(h, rr, cc) == if OnBoard(r, c) && rr == r && cc == c then p else At(g, rr, cc)
    ensures !OnBoard(r, c) ==> h == g
  {
    if OnBoard(r, c) then g[r := g[r][c := p]] else g
  }

  function EmptyGrid(): (g: Grid)
    ensures IsGrid(g)
    ensures forall r, c :: At(g, r, c).None?
  {
    seq(8, r => seq(8, c => None))
  }

  /** The back rank from file a to file h. */
  function BackRank(): seq<Kind> {
    [Rook, Knight, Bishop, Queen, King, Bishop, Knight, Rook]
  }

  /** A full rank of unmoved pieces of one colour. */
  function RankOf(kinds: seq<Kind>, color: Color): (rank: seq<Square>)
    requires |kinds| == 8
    ensures |rank| == 8
  {
    seq(8, c requires 0 <= c < 8 => Some(Piece(kinds[c], color, false)))
  }

  function Pawns(): seq<Kind> {
    seq(8, _ => Pawn)
  }

  /** The starting position: black back rank on row 0, black pawns on row 1,
      white pawns on row 6, white back rank on row 7, rows 2 to 5 empty. */
  function InitialGrid(): (g: Grid)
    ensures IsGrid(g)
  {
    EmptyGrid()[0 := RankOf(BackRank(), Black)][1 := RankOf(Pawns(), Black)]
               [6 := RankOf(Pawns(), White)][7 := RankOf(BackRank(), White)]
  }

  lemma {:induction false} InitialLayout()
    ensures forall c :: 0 <= c < 8 ==> InitialGrid()[0][c] == Some(Piece(BackRank()[c], Black, false))
    ensures forall c :: 0 <= c < 8 ==> InitialGrid()[1][c] == Some(Piece(Pawn, Black, false))
    ensures forall c :: 0 <= c < 8 ==> InitialGrid()[6][c] == Some(Piece(Pawn, White, false))
    ensures forall c :: 0 <= c < 8 ==> InitialGrid()[7][c] == Some(Piece(BackRank()[c], White, false))
    ensures forall r, c :: 2 <= r < 6 && 0 <= c < 8 ==> InitialGrid()[r][c].None?
  {
  }

  // ---------------------------------------------------------------------
  // Move generation

  /** The step `i` squares away from `(r, c)` in direction `(dr, dc)`. */
  function Step(r: int, c: int, dr: int, dc: int, i: int): Pos {
    (r + i * dr, c + i * dc)
  }

  predicate Vacant(g: Grid, p: Pos) {
    OnBoard(p.0, p.1) && At(g, p.0, p.1).None?
  }

  /** `_is_square_empty_or_enemy`. */
  predicate EmptyOrEnemy(g: Grid, p: Pos, color: Color) {
    OnBoard(p.0, p.1) && (At(g, p.0, p.1).None? || At(g, p.0, p.1).value.color != color)
  }

  predicate Enemy(g: Grid, p: Pos, color: Color) {
    OnBoard(p.0, p.1) && At(g, p.0, p.1).Some? && At(g, p.0, p.1).value.color != color
  }

  function EmptyOrEnemyTest(g: Grid, color: Color): Pos -> bool {
    p => EmptyOrEnemy(g, p, color)
  }

  function EnemyTest(g: Grid, color: Color): Pos -> bool {
    p => Enemy(g, p, color)
  }

  /** The destinations of a sliding piece along one direction, from step
      `i` on: empty squares are taken and the scan goes on, an enemy square
      is taken and ends the scan, a friendly square or the edge ends it. */
  function Ray(g: Grid, r: int, c: int, dr: int, dc: int, color: Color, i: nat): seq<Pos>
    requires 1 <= i <= 8
    decreases 8 - i
  {
    if i == 8 then []
    else
      var p := Step(r, c, dr, dc, i);
      if !OnBoard(p.0, p.1) then []
      else if At(g, p.0, p.1).None? then [p] + Ray(g, r, c, dr, dc, color, i + 1)
      else if At(g, p.0, p.1).value.color != color then [p]
      else []
  }

  /** Step `k` of a ray can be reached: every square before it is empty and
      the square itself is on the board, empty or an enemy. */
  predicate Reachable(g: Grid, r: int, c: int, dr: int, dc: int, color: Color, k: int) {
    (forall j :: 1 <= j < k ==> Vacant(g, Step(r, c, dr, dc, j))) &&
    EmptyOrEnemy(g, Step(r, c, dr, dc, k), color)
  }

  /** The ray from step `i` on lists steps `i`, `i + 1`, ... in order, and
      exactly the reachable ones. */
  predicate RayFromSpec(g: Grid, r: int, c: int, dr: int, dc: int, color: Color, i: nat)
    requires 1 <= i <= 8
  {
    var rs := Ray(g, r, c, dr, dc, color, i);
    i + |rs| <= 8 &&
    (forall k :: 0 <= k < |rs| ==> rs[k] == Step(r, c, dr, dc, i + k)) &&
    (forall k :: i <= k < 8 ==> (k < i + |rs| <==> Reachable(g, r, c, dr, dc, color, k)))
  }

  lemma {:induction false} RayFrom(g: Grid, r: int, c: int, dr: int, dc: int, color: Color, i: nat)
    requires 1 <= i <= 8
    requires forall j :: 1 <= j < i ==> Vacant(g, Step(r, c, dr, dc, j))
    ensures RayFromSpec(g, r, c, dr, dc, color, i)
    decreases 8 - i
  {
    if i < 8 {
      if Vacant(g, Step(r, c, dr, dc, i)) {
        RayFrom(g, r, c, dr, dc, color, i + 1);
        RayFromVacant(g, r, c, dr, dc, color, i);
      } else {
        RayFromBlocked(g, r, c, dr, dc, color, i);
      }
    }
  }

  /** An empty step extends the ray from the next step by one square. */
  lemma {:induction false} RayFromVacant(g: Grid, r: int, c: int, dr: int, dc: int, color: Color, i: nat)
    requires 1 <= i < 8
    requires forall j :: 1 <= j <= i ==> Vacant(g, Step(r, c, dr, dc, j))
    requires RayFromSpec(g, r, c, dr, dc, color, i + 1)
    ensures RayFromSpec(g, r, c, dr, dc, color, i)
  {
    var p := Step(r, c, dr, dc, i);
    var tail := Ray(g, r, c, dr, dc, color, i + 1);
    assert Ray(g, r, c, dr, dc, color, i) == [p] + tail;
  }

  /** An occupied step or the edge ends the ray. */
  lemma {:induction false} RayFromBlocked(g: Grid, r: int, c: int, dr: int, dc: int, color: Color, i: nat)
    requires 1 <= i < 8
    requires forall j :: 1 <= j < i ==> Vacant(g, Step(r, c, dr, dc, j))
    requires !Vacant(g, Step(r, c, dr, dc, i))
    ensures RayFromSpec(g, r, c, dr, dc, color, i)
  {
    forall k | i < k < 8 ensures !Reachable(g, r, c, dr, dc, color, k) {
      assert !Vacant(g, Step(r, c, dr, dc, i));
    }
  }

  /** Along one direction the destinations are steps 1 to n in order, and
      step k (1 <= k <= 7) is a destination exactly when it is reachable: a
      contiguous run of empty squares that ends at the first occupied square,
      which is included exactly when it holds an enemy. */
  lemma {:induction false} RayExact(g: Grid, r: int, c: int, dr: int, dc: int, color: Color)
    ensures var rs := Ray(g, r, c, dr, dc, color, 1);
      |rs| <= 7 &&
      (forall k :: 0 <= k < |rs| ==> rs[k] == Step(r, c, dr, dc, k + 1)) &&
      (forall k :: 1 <= k < 8 ==> (k <= |rs| <==> Reachable(g, r, c, dr, dc, color, k)))
  {
    RayFrom(g, r, c, dr, dc, color, 1);
  }

  /** All rays of a sliding piece, direction by direction in the given order. */
  function Slide(g: Grid, r: int, c: int, color: Color, dirs: seq<(int, int)>): seq<Pos>
  {
    if dirs == [] then []
    else Slide(g, r, c, color, dirs[..|dirs| - 1]) + Ray(g, r, c, dirs[|dirs| - 1].0, dirs[|dirs| - 1].1, color, 1)
  }

  function RookDirections(): seq<(int, int)> { [(0, 1), (0, -1), (1, 0), (-1, 0)] }
  function BishopDirections(): seq<(int, int)> { [(1, 1), (1, -1), (-1, 1), (-1, -1)] }
  function KnightOffsets(): seq<(int, int)> { [(-2, -1), (-2, 1), (-1, -2), (-1, 2), (1, -2), (1, 2), (2, -1), (2, 1)] }
  function KingOffsets(): seq<(int, int)> { [(-1, -1), (-1, 0), (-1, 1), (0, -1), (0, 1), (1, -1), (1, 0), (1, 1)] }

  function Targets(r: int, c: int, offsets: seq<(int, int)>): (ts: seq<Pos>)
    ensures |ts| == |offsets|
  {
    seq(|offsets|, k requires 0 <= k < |offsets| => (r + offsets[k].0, c + offsets[k].1))
  }

  /** The destinations of a jumping piece: every offset square that is on the
      board and empty or enemy, in offset order. */
  function Jumps(g: Grid, r: int, c: int, color: Color, offsets: seq<(int, int)>): seq<Pos> {
    Filter(Targets(r, c, offsets), EmptyOrEnemyTest(g, color))
  }

  function Direction(color: Color): int {
    if color == White then -1 else 1
  }

  function StartRow(color: Color): int {
    if color == White then 6 else 1
  }

  /** The pawn pushes: one step forward onto an empty square, and from the
      start row a second step when that square is empty too. */
  function Pushes(g: Grid, r: int, c: int, color: Color): seq<Pos> {
    var d := Direction(color);
    if Vacant(g, (r + d, c)) then
      [(r + d, c)] + (if r == StartRow(color) && Vacant(g, (r + 2 * d, c)) then [(r + 2 * d, c)] else [])
    else []
  }

  function EnPassantMove(ep: Option<Pos>, r: int, c: int, color: Color): seq<Pos> {
    if ep.Some? && r + Direction(color) == ep.value.0 && Abs(c - ep.value.1) == 1 then [ep.value] else []
  }

  function PawnMoves(g: Grid, ep: Option<Pos>, r: int, c: int, color: Color): seq<Pos> {
    var d := Direction(color);
    Pushes(g, r, c, color) + Filter([(r + d, c - 1), (r + d, c + 1)], EnemyTest(g, color)) + EnPassantMove(ep, r, c, color)
  }

  /** `get_possible_moves` on a grid and en-passant target. */
  function PossibleMoves(g: Grid, ep: Option<Pos>, r: int, c: int): seq<Pos> {
    match At(g, r, c)
    case None => []
    case Some(p) =>
      match p.kind
      case Pawn => PawnMoves(g, ep, r, c, p.color)
      case Rook => Slide(g, r, c, p.color, RookDirections())
      case Knight => Jumps(g, r, c, p.color, KnightOffsets())
      case Bishop => Slide(g, r, c, p.color, BishopDirections())
      case Queen => Slide(g, r, c, p.color, RookDirections()) + Slide(g, r, c, p.color, BishopDirections())
      case King => Jumps(g, r, c, p.color, KingOffsets())
  }

  lemma {:induction false} SlideSafe(g: Grid, r: int, c: int, color: Color, dirs: seq<(int, int)>)
    ensures forall m :: m in Slide(g, r, c, color, dirs) ==> EmptyOrEnemy(g, m, color)
  {
    if dirs != [] {
      var d := dirs[|dirs| - 1];
      SlideSafe(g, r, c, color, dirs[..|dirs| - 1]);
      RayExact(g, r, c, d.0, d.1, color);
      var rs := Ray(g, r, c, d.0, d.1, color, 1);
      forall k | 0 <= k < |rs| ensures EmptyOrEnemy(g, rs[k], color) {
        assert Reachable(g, r, c, d.0, d.1, color, k + 1);
      }
    }
  }

  lemma {:induction false} JumpsSafe(g: Grid, r: int, c: int, color: Color, offsets: seq<(int, int)>)
    ensures forall m :: m in Jumps(g, r, c, color, offsets) ==> EmptyOrEnemy(g, m, color)
  {
    var js := Jumps(g, r, c, color, offsets);
    forall m | m in js ensures EmptyOrEnemy(g, m, color) {
      FilterMembers(Targets(r, c, offsets), EmptyOrEnemyTest(g, color), m);
    }
  }

  lemma {:induction false} PawnMovesOnBoard(g: Grid, ep: Option<Pos>, r: int, c: int, color: Color)
    requires ep.Some? ==> OnBoard(ep.value.0, ep.value.1)
    ensures forall m :: m in PawnMoves(g, ep, r, c, color) ==> OnBoard(m.0, m.1)
  {
    var d := Direction(color);
    var caps := Filter([(r + d, c - 1), (r + d, c + 1)], EnemyTest(g, color));
    forall m | m in caps ensures OnBoard(m.0, m.1) {
      FilterMembers([(r + d, c - 1), (r + d, c + 1)], EnemyTest(g, color), m);
    }
  }

  /** Rook, knight, bishop, queen and king destinations are on the board and
      never hold a piece of the mover's colour; every destination of any
      piece, pawns included, is on the board when the en-passant target is. */
  lemma {:induction false} MovesSafe(g: Grid, ep: Option<Pos>, r: int, c: int)
    requires ep.Some? ==> OnBoard(ep.value.0, ep.value.1)
    ensures forall m :: m in PossibleMoves(g, ep, r, c) ==> OnBoard(m.0, m.1)
    ensures At(g, r, c).Some? && At(g, r, c).value.kind != Pawn ==>
      forall m :: m in PossibleMoves(g, ep, r, c) ==> EmptyOrEnemy(g, m, At(g, r, c).value.color)
    ensures PossibleMoves(g, ep, r, c) != [] ==> OnBoard(r, c)
  {
    if At(g, r, c).Some? {
      var p := At(g, r, c).value;
      match p.kind
      case Pawn => PawnMovesOnBoard(g, ep, r, c, p.color);
      case Rook => SlideSafe(g, r, c, p.color, RookDirections());
      case Knight => JumpsSafe(g, r, c, p.color, KnightOffsets());
      case Bishop => SlideSafe(g, r, c, p.color, BishopDirections());
      case Queen =>
        SlideSafe(g, r, c, p.color, RookDirections());
        SlideSafe(g, r, c, p.color, BishopDirections());
      case King => JumpsSafe(g, r, c, p.color, KingOffsets());
    }
  }

  // ---------------------------------------------------------------------
  // Executing a move

  /** The grid after `make_move` moves the piece on `(fr, fc)` to `(tr, tc)`:
      the mover arrives marked as moved, its origin is emptied, and a pawn
      that moves diagonally onto an empty square removes the piece beside its
      origin on the destination file. */
  function AfterMove(g: Grid, fr: int, fc: int, tr: int, tc: int): (h: Grid)
    requires IsGrid(g) && OnBoard(fr, fc) && OnBoard(tr, tc) && At(g, fr, fc).Some?
    ensures IsGrid(h)
    ensures forall r, c :: At(h, r, c) == MovedSquare(g, fr, fc, tr, tc, r, c)
  {
    var piece := At(g, fr, fc).value;
    var g1 := Place(Place(g, tr, tc, Some(piece.(hasMoved := true))), fr, fc, None);
    if EnPassantCapture(g, fr, fc, tr, tc) then Place(g1, fr, tc, None) else g1
  }

  /** Square `(r, c)` after the move: the square beside the origin on the
      destination file when an en-passant capture empties it, then the
      origin, then the destination holding the moved piece. */
  function MovedSquare(g: Grid, fr: int, fc: int, tr: int, tc: int, r: int, c: int): Square
    requires At(g, fr, fc).Some?
  {
    if r == fr && c == tc && EnPassantCapture(g, fr, fc, tr, tc) then None
    else if r == fr && c == fc then None
    else if r == tr && c == tc then Some(At(g, fr, fc).value.(hasMoved := true))
    else At(g, r, c)
  }

  predicate EnPassantCapture(g: Grid, fr: int, fc: int, tr: int, tc: int) {
    At(g, fr, fc).Some? && At(g, fr, fc).value.kind == Pawn && At(g, tr, tc).None? && Abs(tc - fc) == 1
  }

  /** The en-passant target a move leaves: the square a pawn's double step
      passed over, and none after any other move. */
  function DoubleStepTarget(moved: Piece, fromRow: int, toRow: int, toCol: int): (t: Option<Pos>)
    requires 0 <= fromRow < 8 && 0 <= toRow < 8 && 0 <= toCol < 8
    ensures t == if moved.kind == Pawn && Abs(toRow - fromRow) == 2 then Some(((fromRow + toRow) / 2, toCol)) else None
    ensures t.Some? ==> OnBoard(t.value.0, t.value.1)
  {
    if moved.kind == Pawn && Abs(toRow - fromRow) == 2 then Some((fromRow + (toRow - fromRow) / 2, toCol)) else None
  }

  /** One entry of `move_history`; the other fields of the source's `Move`
      record keep their default values in this engine. */
  datatype MoveRecord = MoveRecord(fromSquare: Pos, toSquare: Pos, piece: Piece, captured: Option<Piece>, moveNumber: int)

  // ---------------------------------------------------------------------
  // FEN export (section 16.1 of the PGN Standard)

  function KindLetter(k: Kind): char {
    match k
    case Pawn => 'P'
    case Rook => 'R'
    case Knight => 'N'
    case Bishop => 'B'
    case Queen => 'Q'
    case King => 'K'
  }

  /** `str(piece)`: the kind letter, upper case for white, lower for black. */
  function PieceChar(p: Piece): char {
    var u := KindLetter(p.kind);
    if p.color == White then u else (u as int + 32) as char
  }

  /** The inverse reading of a FEN piece letter. */
  function LetterPiece(ch: char): Option<ColoredPiece> {
    match ch
    case 'P' => Some(ColoredPiece(Pawn, White))
    case 'R' => Some(ColoredPiece(Rook, White))
    case 'N' => Some(ColoredPiece(Knight, White))
    case 'B' => Some(ColoredPiece(Bishop, White))
    case 'Q' => Some(ColoredPiece(Queen, White))
    case 'K' => Some(ColoredPiece(King, White))
    case 'p' => Some(ColoredPiece(Pawn, Black))
    case 'r' => Some(ColoredPiece(Rook, Black))
    case 'n' => Some(ColoredPiece(Knight, Black))
    case 'b' => Some(ColoredPiece(Bishop, Black))
    case 'q' => Some(ColoredPiece(Queen, Black))
    case 'k' => Some(ColoredPiece(King, Black))
    case _ => None
  }

  function Occupant(s: Square): Option<ColoredPiece> {
    if s.None? then None else Some(ColoredPiece(s.value.kind, s.value.color))
  }

  lemma {:induction false} PieceCharRead(p: Piece)
    ensures LetterPiece(PieceChar(p)) == Occupant(Some(p))
    ensures !IsDigit(PieceChar(p)) && !IsSpace(PieceChar(p)) && PieceChar(p) != '/'
  {
  }

  /** The rank text for `row` when `empty` vacant squares precede it. */
  function RankFenFrom(row: seq<Square>, empty: nat): string
  {
    if row == [] then Flush(empty)
    else if row[0].None? then RankFenFrom(row[1..], empty + 1)
    else Flush(empty) + [PieceChar(row[0].value)] + RankFenFrom(row[1..], 0)
  }

  /** One square of the rank writer: a vacancy is counted, a piece flushes
      the count and writes its letter. */
  lemma {:induction false} RankFenFromStep(row: seq<Square>, col: int, empty: nat)
    requires 0 <= col < |row|
    ensures RankFenFrom(row[col..], empty) ==
      if row[col].None? then RankFenFrom(row[col + 1..], empty + 1)
      else Flush(empty) + [PieceChar(row[col].value)] + RankFenFrom(row[col + 1..], 0)
  {
    assert row[col..][0] == row[col];
    assert row[col..][1..] == row[col + 1..];
  }

  function RankFen(row: seq<Square>): string {
    RankFenFrom(row, 0)
  }

  function Vacancies(n: nat): seq<Option<ColoredPiece>> {
    seq(n, _ => None)
  }

  /** Reads a FEN rank back: a digit stands for that many empty squares, a
      piece letter for one piece. */
  function Expand(s: string): seq<Option<ColoredPiece>> {
    if s == [] then []
    else (if IsDigit(s[0]) then Vacancies(DigitValue(s[0])) else [LetterPiece(s[0])]) + Expand(s[1..])
  }

  function Occupants(row: seq<Square>): (os: seq<Option<ColoredPiece>>)
    ensures |os| == |row|
  {
    if row == [] then [] else [Occupant(row[0])] + Occupants(row[1..])
  }

  lemma {:induction false} ExpandAppend(a: string, b: string)
    ensures Expand(a + b) == Expand(a) + Expand(b)
  {
    if a == [] {
      assert a + b == b;
    } else {
      assert (a + b)[0] == a[0];
      assert (a + b)[1..] == a[1..] + b;
      ExpandAppend(a[1..], b);
    }
  }

  /** No two digits are adjacent. */
  predicate NoAdjacentDigits(s: string) {
    |s| < 2 || (!(IsDigit(s[0]) && IsDigit(s[1])) && NoAdjacentDigits(s[1..]))
  }

  predicate RankChar(ch: char) {
    IsDigit(ch) || LetterPiece(ch).Some?
  }

  function Flush(empty: nat): string {
    if empty > 0 then NatToString(empty) else ""
  }

  lemma {:induction false} FlushFacts(empty: nat)
    requires empty < 10
    ensures Flush(empty) == [] || Flush(empty) == [DigitChar(empty)]
    ensures Expand(Flush(empty)) == Vacancies(empty)
  {
    if empty > 0 {
      assert Expand(Flush(empty)) == Vacancies(empty) + Expand([]);
    }
  }

  lemma {:induction false} FlushExpands(empty: nat)
    requires empty < 10
    ensures Expand(Flush(empty)) == Vacancies(empty)
  {
    FlushFacts(empty);
  }

  /** A rank's text reads back as the rank. */
  lemma {:induction false} RankFenFromExpands(row: seq<Square>, empty: nat)
    requires empty + |row| <= 8
    ensures Expand(RankFenFrom(row, empty)) == Vacancies(empty) + Occupants(row)
  {
    if row == [] {
      FlushFacts(empty);
    } else if row[0].None? {
      RankFenFromExpands(row[1..], empty + 1);
      ExpandsAfterVacancy(row, empty);
    } else {
      RankFenFromExpands(row[1..], 0);
      assert Vacancies(0) + Occupants(row[1..]) == Occupants(row[1..]);
      ExpandsAfterPiece(row, empty);
    }
  }

  lemma {:induction false} ExpandsAfterVacancy(row: seq<Square>, empty: nat)
    requires row != [] && row[0].None?
    requires Expand(RankFenFrom(row[1..], empty + 1)) == Vacancies(empty + 1) + Occupants(row[1..])
    ensures Expand(RankFenFrom(row, empty)) == Vacancies(empty) + Occupants(row)
  {
    assert Vacancies(empty + 1) == Vacancies(empty) + [Occupant(row[0])];
    AppendThree(Vacancies(empty), [Occupant(row[0])], Occupants(row[1..]));
    calc {
      Expand(RankFenFrom(row, empty));
      Expand(RankFenFrom(row[1..], empty + 1));
      Vacancies(empty + 1) + Occupants(row[1..]);
      Vacancies(empty) + ([Occupant(row[0])] + Occupants(row[1..]));
    }
  }

  lemma {:induction false} ExpandsAfterPiece(row: seq<Square>, empty: nat)
    requires row != [] && row[0].Some? && empty < 10
    requires Expand(RankFenFrom(row[1..], 0)) == Occupants(row[1..])
    ensures Expand(RankFenFrom(row, empty)) == Vacancies(empty) + Occupants(row)
  {
    var ch := PieceChar(row[0].value);
    var flushed, rest := Flush(empty), RankFenFrom(row[1..], 0);
    PieceCharRead(row[0].value);
    ExpandPiece(flushed, ch, rest);
    FlushExpands(empty);
    calc {
      Expand(RankFenFrom(row, empty));
      Expand(flushed + [ch] + rest);
      Expand(flushed) + [LetterPiece(ch)] + Expand(rest);
      Vacancies(empty) + [Occupant(row[0])] + Occupants(row[1..]);
      { AppendThree(Vacancies(empty), [Occupant(row[0])], Occupants(row[1..])); }
      Vacancies(empty) + ([Occupant(row[0])] + Occupants(row[1..]));
    }
  }

  /** A piece letter between two texts reads back as that piece. */
  lemma {:induction false} ExpandPiece(before: string, ch: char, after: string)
    requires !IsDigit(ch)
    ensures Expand(before + [ch] + after) == Expand(before) + [LetterPiece(ch)] + Expand(after)
  {
    ExpandAppend(before + [ch], after);
    ExpandAppend(before, [ch]);
    assert Expand([ch]) == [LetterPiece(ch)] + Expand([]);
  }

  /** A rank's text uses only digits and piece letters, is not empty, and
      never puts two digits side by side. */
  lemma {:induction false} RankFenFromShape(row: seq<Square>, empty: nat)
    requires empty + |row| <= 8
    ensures forall i :: 0 <= i < |RankFenFrom(row, empty)| ==> RankChar(RankFenFrom(row, empty)[i])
    ensures NoAdjacentDigits(RankFenFrom(row, empty))
    ensures row != [] && row[0].Some? && empty == 0 ==> !IsDigit(RankFenFrom(row, empty)[0])
    ensures empty + |row| > 0 ==> RankFenFrom(row, empty) != []
  {
    FlushFacts(empty);
    if row == [] {
    } else if row[0].None? {
      RankFenFromShape(row[1..], empty + 1);
    } else {
      var ch := PieceChar(row[0].value);
      var rest := RankFenFrom(row[1..], 0);
      RankFenFromShape(row[1..], 0);
      PieceCharRead(row[0].value);
      assert RankFenFrom(row, empty) == Flush(empty) + [ch] + rest;
      PieceTextShape(Flush(empty), ch, rest);
    }
  }

  /** A flushed count, a piece letter and a well-formed rest make a
      well-formed rank text. */
  lemma {:induction false} PieceTextShape(flushed: string, ch: char, rest: string)
    requires flushed == [] || (|flushed| == 1 && IsDigit(flushed[0]))
    requires RankChar(ch) && !IsDigit(ch)
    requires forall i :: 0 <= i < |rest| ==> RankChar(rest[i])
    requires NoAdjacentDigits(rest)
    ensures var s := flushed + [ch] + rest;
      (forall i :: 0 <= i < |s| ==> RankChar(s[i])) && NoAdjacentDigits(s) &&
      (flushed == [] ==> !IsDigit(s[0])) && s != []
  {
    var s := flushed + [ch] + rest;
    assert NoAdjacentDigits([ch] + rest) by {
      assert ([ch] + rest)[1..] == rest;
    }
    if flushed != [] {
      assert s[1..] == [ch] + rest;
    }
    forall i | 0 <= i < |s|
      ensures RankChar(s[i])
    {
      if i > |flushed| {
        assert s[i] == rest[i - |flushed| - 1];
      }
    }
  }

  /** The placement field: the eight rank texts joined by '/'. */
  function Placement(g: Grid): string
    requires IsGrid(g)
  {
    Join(seq(8, r requires 0 <= r < 8 => RankFen(g[r])), "/")
  }

  /** Reading the placement field back gives every square of the grid: the
      field splits at '/' into eight ranks, each of which expands to exactly
      the eight occupants of its row and has no two adjacent digits. */
  lemma {:induction false} PlacementReadsBack(g: Grid)
    requires IsGrid(g)
    ensures var ranks := SplitOn(Placement(g), '/');
      |ranks| == 8 &&
      forall r :: 0 <= r < 8 ==>
        Expand(ranks[r]) == Occupants(g[r]) && |Expand(ranks[r])| == 8 && NoAdjacentDigits(ranks[r])
  {
    var ranks := seq(8, r requires 0 <= r < 8 => RankFen(g[r]));
    forall r | 0 <= r < 8
      ensures Expand(ranks[r]) == Occupants(g[r]) && NoAdjacentDigits(ranks[r])
      ensures '/' !in ranks[r] && ranks[r] != []
    {
      RankFenFromExpands(g[r], 0);
      RankFenFromShape(g[r], 0);
      assert Vacancies(0) + Occupants(g[r]) == Occupants(g[r]);
    }
    SplitOnJoin(ranks, '/');
  }

  function ActiveColor(turn: Color): string {
    if turn == White then "w" else "b"
  }

  function Held(held: bool, letter: char): string {
    if held then [letter] else []
  }

  /** The castling field: the held rights as letters of "KQkq" in that order,
      or "-" when none is held. */
  function CastlingField(wk: bool, wq: bool, bk: bool, bq: bool): string {
    var s := Held(wk, 'K') + Held(wq, 'Q') + Held(bk, 'k') + Held(bq, 'q');
    if s == [] then "-" else s
  }

  /** The FEN letter of one castling right. */
  function RightLetter(color: Color, kingside: bool): char {
    if color == White then (if kingside then 'K' else 'Q') else (if kingside then 'k' else 'q')
  }

  predicate IsRightLetter(ch: char) {
    ch == 'K' || ch == 'Q' || ch == 'k' || ch == 'q'
  }

  /** The position of a right's letter in "KQkq". */
  function CastlingIndex(ch: char): int {
    if ch == 'K' then 0 else if ch == 'Q' then 1 else if ch == 'k' then 2 else 3
  }

  /** Right letters of index below `bound`, in strictly increasing order. */
  predicate LettersBelow(s: string, bound: int) {
    (forall i :: 0 <= i < |s| ==> IsRightLetter(s[i]) && CastlingIndex(s[i]) < bound) &&
    (forall i, j :: 0 <= i < j < |s| ==> CastlingIndex(s[i]) < CastlingIndex(s[j]))
  }

  lemma {:induction false} AppendHeld(s: string, held: bool, letter: char)
    requires IsRightLetter(letter) && LettersBelow(s, CastlingIndex(letter))
    ensures LettersBelow(s + Held(held, letter), CastlingIndex(letter) + 1)
  {
  }

  lemma {:induction false} MemberHeld(s: string, held: bool, letter: char, x: char)
    ensures x in s + Held(held, letter) <==> x in s || (held && x == letter)
  {
    if held {
      assert (s + Held(held, letter))[|s|] == letter;
    }
    if x in s + Held(held, letter) && x !in s {
      var i :| 0 <= i < |s + Held(held, letter)| && (s + Held(held, letter))[i] == x;
      assert i >= |s|;
    }
  }

  lemma {:induction false} CastlingLettersOrdered(wk: bool, wq: bool, bk: bool, bq: bool)
    ensures var s := Held(wk, 'K') + Held(wq, 'Q') + Held(bk, 'k') + Held(bq, 'q');
      CastlingField(wk, wq, bk, bq) == (if s == [] then "-" else s) &&
      (s == [] <==> !(wk || wq || bk || bq)) && LettersBelow(s, 4)
  {
    CastlingLettersNone(wk, wq, bk, bq);
    CastlingLettersBelow(wk, wq, bk, bq);
  }

  lemma {:induction false} CastlingLettersNone(wk: bool, wq: bool, bk: bool, bq: bool)
    ensures Held(wk, 'K') + Held(wq, 'Q') + Held(bk, 'k') + Held(bq, 'q') == [] <==> !(wk || wq || bk || bq)
  {
    assert |Held(wk, 'K') + Held(wq, 'Q') + Held(bk, 'k') + Held(bq, 'q')| ==
      |Held(wk, 'K')| + |Held(wq, 'Q')| + |Held(bk, 'k')| + |Held(bq, 'q')|;
  }

  lemma {:induction false} CastlingLettersBelow(wk: bool, wq: bool, bk: bool, bq: bool)
    ensures LettersBelow(Held(wk, 'K') + Held(wq, 'Q') + Held(bk, 'k') + Held(bq, 'q'), 4)
  {
    CastlingLettersBelowThree(wk, wq, bk);
    assert CastlingIndex('q') == 3;
    AppendHeld(Held(wk, 'K') + Held(wq, 'Q') + Held(bk, 'k'), bq, 'q');
  }

  lemma {:induction false} CastlingLettersBelowThree(wk: bool, wq: bool, bk: bool)
    ensures LettersBelow(Held(wk, 'K') + Held(wq, 'Q') + Held(bk, 'k'), 3)
  {
    CastlingLettersBelowTwo(wk, wq);
    assert CastlingIndex('k') == 2;
    AppendHeld(Held(wk, 'K') + Held(wq, 'Q'), bk, 'k');
  }

  lemma {:induction false} CastlingLettersBelowTwo(wk: bool, wq: bool)
    ensures LettersBelow(Held(wk, 'K') + Held(wq, 'Q'), 2)
  {
    var s1 := Held(wk, 'K');
    AppendHeld([], wk, 'K');
    assert [] + s1 == s1;
    assert CastlingIndex('Q') == 1;
    AppendHeld(s1, wq, 'Q');
  }

  lemma {:induction false} CastlingLettersHeld(wk: bool, wq: bool, bk: bool, bq: bool)
    ensures var s := Held(wk, 'K') + Held(wq, 'Q') + Held(bk, 'k') + Held(bq, 'q');
      forall x :: IsRightLetter(x) ==> (x in s <==> (x == 'K' && wk) || (x == 'Q' && wq) || (x == 'k' && bk) || (x == 'q' && bq))
  {
    var s1 := Held(wk, 'K');
    var s2 := s1 + Held(wq, 'Q');
    var s3 := s2 + Held(bk, 'k');
    var s := s3 + Held(bq, 'q');
    forall x | IsRightLetter(x) ensures x in s <==> (x == 'K' && wk) || (x == 'Q' && wq) || (x == 'k' && bk) || (x == 'q' && bq) {
      MemberHeld([], wk, 'K', x);
      assert [] + s1 == s1;
      MemberHeld(s1, wq, 'Q', x);
      MemberHeld(s2, bk, 'k', x);
      MemberHeld(s3, bq, 'q', x);
    }
  }

  /** The castling field is "-" exactly when no right is held; otherwise it
      holds the letter of each held right and no other letter, in the order
      K, Q, k, q. */
  lemma {:induction false} CastlingFieldShape(wk: bool, wq: bool, bk: bool, bq: bool)
    ensures var f := CastlingField(wk, wq, bk, bq);
      (f == "-" <==> !(wk || wq || bk || bq)) &&
      (f != "-" ==>
        ('K' in f <==> wk) && ('Q' in f <==> wq) && ('k' in f <==> bk) && ('q' in f <==> bq) &&
        (forall i :: 0 <= i < |f| ==> IsRightLetter(f[i])) &&
        (forall i, j :: 0 <= i < j < |f| ==> CastlingIndex(f[i]) < CastlingIndex(f[j])))
  {
    CastlingLettersOrdered(wk, wq, bk, bq);
    CastlingLettersHeld(wk, wq, bk, bq);
    var s := Held(wk, 'K') + Held(wq, 'Q') + Held(bk, 'k') + Held(bq, 'q');
    if s != [] {
      assert IsRightLetter(s[0]);
      assert s != "-";
    }
  }

  lemma {:induction false} CastlingFieldWord(wk: bool, wq: bool, bk: bool, bq: bool)
    ensures CastlingField(wk, wq, bk, bq) != [] && NoSpace(CastlingField(wk, wq, bk, bq))
  {
    CastlingLettersOrdered(wk, wq, bk, bq);
  }

  /** The name of a square: file letter then rank digit ("e3"). */
  function SquareName(r: int, c: int): (s: string)
    requires OnBoard(r, c)
    ensures |s| == 2 && 'a' <= s[0] <= 'h' && '1' <= s[1] <= '8'
  {
    [('a' as int + c) as char] + NatToString(8 - r)
  }

  function EnPassantField(ep: Option<Pos>): string
    requires ep.Some? ==> OnBoard(ep.value.0, ep.value.1)
  {
    if ep.Some? then SquareName(ep.value.0, ep.value.1) else "-"
  }

  /** `get_fen_position`: six fields separated by single spaces. */
  function Fen(g: Grid, turn: Color, wk: bool, wq: bool, bk: bool, bq: bool, ep: Option<Pos>, halfmove: nat, fullmove: nat): string
    requires IsGrid(g)
    requires ep.Some? ==> OnBoard(ep.value.0, ep.value.1)
  {
    Placement(g) + " " + ActiveColor(turn) + " " + CastlingField(wk, wq, bk, bq) + " " + EnPassantField(ep) + " " +
    NatToString(halfmove) + " " + NatToString(fullmove)
  }

  lemma {:induction false} RankCharNotSpace(ch: char)
    requires RankChar(ch)
    ensures !IsSpace(ch)
  {
  }

  /** A rank's text is a non-empty word. */
  lemma {:induction false} RankTextWord(row: seq<Square>)
    requires |row| == 8
    ensures RankFen(row) != [] && NoSpace(RankFen(row))
  {
    var s := RankFen(row);
    RankFenFromShape(row, 0);
    forall i | 0 <= i < |s| ensures !IsSpace(s[i]) {
      RankCharNotSpace(s[i]);
    }
  }

  lemma {:induction false} PlacementWord(g: Grid)
    requires IsGrid(g)
    ensures Placement(g) != [] && NoSpace(Placement(g))
  {
    var ranks := seq(8, r requires 0 <= r < 8 => RankFen(g[r]));
    forall r | 0 <= r < 8 ensures NoSpace(ranks[r]) {
      RankTextWord(g[r]);
    }
    NoSpaceJoin(ranks, "/");
    RankTextWord(g[0]);
    assert Placement(g) == ranks[0] + "/" + Join(ranks[1..], "/");
  }

  lemma {:induction false} EnPassantFieldWord(ep: Option<Pos>)
    requires ep.Some? ==> OnBoard(ep.value.0, ep.value.1)
    ensures EnPassantField(ep) != [] && NoSpace(EnPassantField(ep))
  {
    if ep.Some? {
      var s := SquareName(ep.value.0, ep.value.1);
      assert !IsSpace(s[0]) && !IsSpace(s[1]);
    } else {
      assert "-"[0] == '-';
    }
  }

  lemma {:induction false} ActiveColorWord(turn: Color)
    ensures ActiveColor(turn) != [] && NoSpace(ActiveColor(turn))
  {
  }

  lemma {:induction false} CounterWord(n: nat)
    ensures NatToString(n) != [] && NoSpace(NatToString(n))
  {
    var s := NatToString(n);
    forall i | 0 <= i < |s| ensures !IsSpace(s[i]) {
      assert IsDigit(s[i]);
    }
  }

  lemma {:induction false} FenIsJoin(g: Grid, turn: Color, wk: bool, wq: bool, bk: bool, bq: bool, ep: Option<Pos>, halfmove: nat, fullmove: nat)
    requires IsGrid(g)
    requires ep.Some? ==> OnBoard(ep.value.0, ep.value.1)
    ensures Fen(g, turn, wk, wq, bk, bq, ep, halfmove, fullmove) ==
      Join([Placement(g), ActiveColor(turn), CastlingField(wk, wq, bk, bq), EnPassantField(ep), NatToString(halfmove), NatToString(fullmove)], " ")
  {
    JoinSix(Placement(g), ActiveColor(turn), CastlingField(wk, wq, bk, bq), EnPassantField(ep), NatToString(halfmove), NatToString(fullmove), " ");
  }

  /** The record splits at whitespace into exactly its six fields, so the
      counters read back as the numbers they print. */
  lemma {:induction false} FenFields(g: Grid, turn: Color, wk: bool, wq: bool, bk: bool, bq: bool, ep: Option<Pos>, halfmove: nat, fullmove: nat)
    requires IsGrid(g)
    requires ep.Some? ==> OnBoard(ep.value.0, ep.value.1)
    ensures var fs := Words(Fen(g, turn, wk, wq, bk, bq, ep, halfmove, fullmove));
      fs == [Placement(g), ActiveColor(turn), CastlingField(wk, wq, bk, bq), EnPassantField(ep), NatToString(halfmove), NatToString(fullmove)] &&
      AllDigits(fs[4]) && DigitsValue(fs[4]) == halfmove && AllDigits(fs[5]) && DigitsValue(fs[5]) == fullmove
  {
    var fields := [Placement(g), ActiveColor(turn), CastlingField(wk, wq, bk, bq), EnPassantField(ep), NatToString(halfmove), NatToString(fullmove)];
    PlacementWord(g);
    ActiveColorWord(turn);
    CastlingFieldWord(wk, wq, bk, bq);
    EnPassantFieldWord(ep);
    CounterWord(halfmove);
    CounterWord(fullmove);
    SixWords(fields[0], fields[1], fields[2], fields[3], fields[4], fields[5]);
    FenIsJoin(g, turn, wk, wq, bk, bq, ep, halfmove, fullmove);
    WordsOfJoin(fields);
    NatToStringRoundTrip(halfmove);
    NatToStringRoundTrip(fullmove);
  }

  lemma {:induction false} RankFenVacant(row: seq<Square>, empty: nat)
    requires forall i :: 0 <= i < |row| ==> row[i].None?
    requires empty + |row| > 0
    ensures RankFenFrom(row, empty) == NatToString(empty + |row|)
  {
    if row != [] {
      RankFenVacant(row[1..], empty + 1);
    }
  }

  lemma {:induction false} RankFenFull(row: seq<Square>)
    requires forall i :: 0 <= i < |row| ==> row[i].Some?
    ensures RankFen(row) == seq(|row|, i requires 0 <= i < |row| => PieceChar(row[i].value))
  {
    if row != [] {
      RankFenFull(row[1..]);
    }
  }

  lemma {:induction false} BackRankFen(color: Color)
    ensures RankFen(RankOf(BackRank(), color)) == (if color == White then "RNBQKBNR" else "rnbqkbnr")
  {
    var row := RankOf(BackRank(), color);
    RankFenFull(row);
    var s := RankFen(row);
    assert |s| == 8;
    if color == White {
      assert s[0] == 'R' && s[1] == 'N' && s[2] == 'B' && s[3] == 'Q';
      assert s[4] == 'K' && s[5] == 'B' && s[6] == 'N' && s[7] == 'R';
    } else {
      assert s[0] == 'r' && s[1] == 'n' && s[2] == 'b' && s[3] == 'q';
      assert s[4] == 'k' && s[5] == 'b' && s[6] == 'n' && s[7] == 'r';
    }
  }

  lemma {:induction false} PawnRankFen(color: Color)
    ensures RankFen(RankOf(Pawns(), color)) == (if color == White then "PPPPPPPP" else "pppppppp")
  {
    var row := RankOf(Pawns(), color);
    RankFenFull(row);
    var s := RankFen(row);
    assert |s| == 8;
    assert forall i :: 0 <= i < 8 ==> s[i] == PieceChar(Piece(Pawn, color, false));
  }

  lemma {:induction false} InitialRanks()
    ensures var g := InitialGrid();
      seq(8, r requires 0 <= r < 8 => RankFen(g[r])) == ["rnbqkbnr", "pppppppp", "8", "8", "8", "8", "PPPPPPPP", "RNBQKBNR"]
  {
    var g := InitialGrid();
    assert g[0] == RankOf(BackRank(), Black) && g[1] == RankOf(Pawns(), Black);
    assert g[6] == RankOf(Pawns(), White) && g[7] == RankOf(BackRank(), White);
    BackRankFen(Black);
    PawnRankFen(Black);
    PawnRankFen(White);
    BackRankFen(White);
    MiddleRankFen(2);
    MiddleRankFen(3);
    MiddleRankFen(4);
    MiddleRankFen(5);
    RankTexts(g, "rnbqkbnr", "pppppppp", "8", "8", "8", "8", "PPPPPPPP", "RNBQKBNR");
  }

  /** The rank texts of a grid, listed from row 0. */
  lemma {:induction false} RankTexts(g: Grid, a: string, b: string, c: string, d: string, e: string, f: string, h: string, k: string)
    requires IsGrid(g)
    requires RankFen(g[0]) == a && RankFen(g[1]) == b && RankFen(g[2]) == c && RankFen(g[3]) == d
    requires RankFen(g[4]) == e && RankFen(g[5]) == f && RankFen(g[6]) == h && RankFen(g[7]) == k
    ensures seq(8, r requires 0 <= r < 8 => RankFen(g[r])) == [a, b, c, d, e, f, h, k]
  {
  }

  /** The four middle ranks of the starting position are empty. */
  lemma {:induction false} MiddleRankFen(r: int)
    requires 2 <= r < 6
    ensures RankFen(InitialGrid()[r]) == "8"
  {
    var row := InitialGrid()[r];
    assert row == EmptyGrid()[r];
    assert forall i :: 0 <= i < |row| ==> row[i] == None;
    RankFenVacant(row, 0);
  }

  /** The ranks of the starting position, joined with `/`. */
  lemma {:induction false} InitialRanksJoin()
    ensures Join(["rnbqkbnr", "pppppppp", "8", "8", "8", "8", "PPPPPPPP", "RNBQKBNR"], "/")
         == "rnbqkbnr/pppppppp/8/8/8/8/PPPPPPPP/RNBQKBNR"
  {
    JoinEight("rnbqkbnr", "pppppppp", "8", "8", "8", "8", "PPPPPPPP", "RNBQKBNR", "/");
    InitialPlacementText();
  }

  lemma {:induction false} InitialPlacementText()
    ensures "rnbqkbnr" + "/" + "pppppppp" + "/" + "8" + "/" + "8" + "/" + "8" + "/" + "8" + "/" + "PPPPPPPP" + "/" + "RNBQKBNR"
         == "rnbqkbnr/pppppppp/8/8/8/8/PPPPPPPP/RNBQKBNR"
  {
    assert "rnbqkbnr" + "/" + "pppppppp" == "rnbqkbnr/pppppppp";
    assert "rnbqkbnr/pppppppp" + "/" + "8" + "/" + "8" == "rnbqkbnr/pppppppp/8/8";
    assert "rnbqkbnr/pppppppp/8/8" + "/" + "8" + "/" + "8" == "rnbqkbnr/pppppppp/8/8/8/8";
    assert "rnbqkbnr/pppppppp/8/8/8/8" + "/" + "PPPPPPPP" == "rnbqkbnr/pppppppp/8/8/8/8/PPPPPPPP";
  }

  lemma {:induction false} InitialPlacement()
    ensures Placement(InitialGrid()) == "rnbqkbnr/pppppppp/8/8/8/8/PPPPPPPP/RNBQKBNR"
  {
    InitialRanks();
    InitialRanksJoin();
  }

  /** The starting position exports as the standard starting FEN record. */
  lemma {:induction false} InitialFen()
    ensures Fen(InitialGrid(), White, true, true, true, true, None, 0, 1)
         == "rnbqkbnr/pppppppp/8/8/8/8/PPPPPPPP/RNBQKBNR w KQkq - 0 1"
  {
    InitialPlacement();
    InitialFields();
    InitialFenText();
  }

  lemma {:induction false} InitialFields()
    ensures ActiveColor(White) == "w" && CastlingField(true, true, true, true) == "KQkq"
    ensures EnPassantField(None) == "-" && NatToString(0) == "0" && NatToString(1) == "1"
  {
    assert Held(true, 'K') + Held(true, 'Q') + Held(true, 'k') + Held(true, 'q') == "KQkq";
  }

  lemma {:induction false} InitialFenText()
    ensures "rnbqkbnr/pppppppp/8/8/8/8/PPPPPPPP/RNBQKBNR" + " " + "w" + " " + "KQkq" + " " + "-" + " " + "0" + " " + "1"
         == "rnbqkbnr/pppppppp/8/8/8/8/PPPPPPPP/RNBQKBNR w KQkq - 0 1"
  {
  }

  // ---------------------------------------------------------------------
  // The engine's mutable state

  /** `CastlingRights`: four flags, all held at the start. */
  class CastlingRights {
    var whiteKingside: bool
    var whiteQueenside: bool
    var blackKingside: bool
    var blackQueenside: bool

    constructor()
      ensures whiteKingside && whiteQueenside && blackKingside && blackQueenside
    {
      whiteKingside, whiteQueenside := true, true;
      blackKingside, blackQueenside := true, true;
    }

    /** `can_castle`: the flag for this colour and side, which is held
        exactly when its letter appears in the FEN castling field. */
    function CanCastle(color: Color, kingside: bool): (held: bool)
      reads this
      ensures held <==> RightLetter(color, kingside) in CastlingField(whiteKingside, whiteQueenside, blackKingside, blackQueenside)
    {
      CastlingFieldShape(whiteKingside, whiteQueenside, blackKingside, blackQueenside);
      if color == White then (if kingside then whiteKingside else whiteQueenside)
      else (if kingside then blackKingside else blackQueenside)
    }

    /** `lose_castling_right`: clears one flag and no other. */
    method LoseCastlingRight(color: Color, kingside: bool)
      modifies this
      ensures !CanCastle(color, kingside)
      ensures forall c, k :: (c, k) != (color, kingside) ==> CanCastle(c, k) == old(CanCastle(c, k))
    {
      if color == White {
        if kingside { whiteKingside := false; } else { whiteQueenside := false; }
      } else {
        if kingside { blackKingside := false; } else { blackQueenside := false; }
      }
    }

    /** `lose_all_castling_rights`: clears both flags of one colour. */
    method LoseAllCastlingRights(color: Color)
      modifies this
      ensures !CanCastle(color, true) && !CanCastle(color, false)
      ensures CanCastle(Opponent(color), true) == old(CanCastle(Opponent(color), true))
      ensures CanCastle(Opponent(color), false) == old(CanCastle(Opponent(color), false))
    {
      if color == White {
        whiteKingside := false;
        whiteQueenside := false;
      } else {
        blackKingside := false;
        blackQueenside := false;
      }
    }
  }

  predicate IsKingOf(s: Square, color: Color) {
    s.Some? && s.value.kind == King && s.value.color == color
  }

  function CastlingColumns(kingside: bool): seq<int> {
    if kingside then [5, 6] else [1, 2, 3]
  }

  function HomeRow(color: Color): int {
    if color == Black then 0 else 7
  }

  /** `BoardState` of the engine. */
  class BoardState {
    var board: Grid
    var currentTurn: Color
    var moveNumber: int
    var halfmoveClock: nat
    var fullmoveNumber: nat
    const castlingRights: CastlingRights
    var enPassantTarget: Option<Pos>
    var moveHistory: seq<MoveRecord>

    predicate Valid()
      reads this
    {
      IsGrid(board) && (enPassantTarget.Some? ==> OnBoard(enPassantTarget.value.0, enPassantTarget.value.1))
    }

    /** A new engine: the starting position, white to move, move counters
        at 0 and 1, every castling right held, no en-passant target and an
        empty history. */
    constructor()
      ensures Valid() && board == InitialGrid()
      ensures currentTurn == White && moveNumber == 1 && halfmoveClock == 0 && fullmoveNumber == 1
      ensures enPassantTarget == None && moveHistory == []
      ensures fresh(castlingRights)
      ensures castlingRights.whiteKingside && castlingRights.whiteQueenside
      ensures castlingRights.blackKingside && castlingRights.blackQueenside
    {
      board := EmptyGrid();
      currentTurn := White;
      moveNumber := 1;
      halfmoveClock := 0;
      fullmoveNumber := 1;
      castlingRights := new CastlingRights();
      enPassantTarget := None;
      moveHistory := [];
      new;
      SetupInitialPosition();
    }

    /** Fills one rank with unmoved pieces of one colour, file by file. */
    method FillRank(row: int, kinds: seq<Kind>, color: Color)
      requires Valid() && 0 <= row < 8 && |kinds| == 8
      modifies this
      ensures Valid()
      ensures board == old(board)[row := RankOf(kinds, color)]
      ensures currentTurn == old(currentTurn) && moveNumber == old(moveNumber)
      ensures halfmoveClock == old(halfmoveClock) && fullmoveNumber == old(fullmoveNumber)
      ensures enPassantTarget == old(enPassantTarget) && moveHistory == old(moveHistory)
    {
      for col := 0 to 8
        invariant Valid()
        invariant forall r :: 0 <= r < 8 && r != row ==> board[r] == old(board)[r]
        invariant forall c :: 0 <= c < 8 ==> board[row][c] == (if c < col then RankOf(kinds, color)[c] else old(board)[row][c])
        invariant currentTurn == old(currentTurn) && moveNumber == old(moveNumber)
        invariant halfmoveClock == old(halfmoveClock) && fullmoveNumber == old(fullmoveNumber)
        invariant enPassantTarget == old(enPassantTarget) && moveHistory == old(moveHistory)
      {
        board := board[row := board[row][col := Some(Piece(kinds[col], color, false))]];
      }
      assert board[row] == RankOf(kinds, color);
    }

    /** `setup_initial_position`: clears the grid and sets up the starting
        position; nothing else changes. */
    method SetupInitialPosition()
      requires Valid()
      modifies this
      ensures Valid() && board == InitialGrid()
      ensures currentTurn == old(currentTurn) && moveNumber == old(moveNumber)
      ensures halfmoveClock == old(halfmoveClock) && fullmoveNumber == old(fullmoveNumber)
      ensures enPassantTarget == old(enPassantTarget) && moveHistory == old(moveHistory)
    {
      board := EmptyGrid();
      FillRank(0, BackRank(), Black);
      FillRank(1, Pawns(), Black);
      FillRank(6, Pawns(), White);
      FillRank(7, BackRank(), White);
    }

    /** `get_piece`: the square's content, `None` off the board. */
    function GetPiece(row: int, col: int): (s: Square)
      reads this
      ensures !OnBoard(row, col) ==> s.None?
      ensures Valid() && OnBoard(row, col) ==> s == board[row][col]
    {
      At(board, row, col)
    }

    /** `set_piece`: writes the square when it is on the board. */
    method SetPiece(row: int, col: int, piece: Square)
      requires Valid()
      modifies this
      ensures Valid()
      ensures board == Place(old(board), row, col, piece)
      ensures currentTurn == old(currentTurn) && moveNumber == old(moveNumber)
      ensures halfmoveClock == old(halfmoveClock) && fullmoveNumber == old(fullmoveNumber)
      ensures enPassantTarget == old(enPassantTarget) && moveHistory == old(moveHistory)
    {
      if OnBoard(row, col) {
        board := board[row := board[row][col := piece]];
      }
    }

    /** `get_king_position`: the first square in row-major order holding the
        king of `color`, or `None` when there is none. */
    method GetKingPosition(color: Color) returns (pos: Option<Pos>)
      requires Valid()
      ensures pos.Some? ==> OnBoard(pos.value.0, pos.value.1) && IsKingOf(board[pos.value.0][pos.value.1], color)
      ensures pos.Some? ==> forall r, c :: OnBoard(r, c) && 8 * r + c < 8 * pos.value.0 + pos.value.1 ==> !IsKingOf(board[r][c], color)
      ensures pos.None? <==> forall r, c :: OnBoard(r, c) ==> !IsKingOf(board[r][c], color)
    {
      for row := 0 to 8
        invariant forall r, c :: 0 <= r < row && 0 <= c < 8 ==> !IsKingOf(board[r][c], color)
      {
        for col := 0 to 8
          invariant forall r, c :: OnBoard(r, c) && 8 * r + c < 8 * row + col ==> !IsKingOf(board[r][c], color)
        {
          if IsKingOf(board[row][col], color) {
            return Some((row, col));
          }
        }
      }
      return None;
    }

    /** `is_square_attacked`: a placeholder in this engine that never reports
        an attack. */
    function IsSquareAttacked(row: int, col: int, byColor: Color): (attacked: bool)
      ensures !attacked
    {
      false
    }

    /** `is_king_in_check`: never true, since no square is reported attacked. */
    method IsKingInCheck(color: Color) returns (inCheck: bool)
      requires Valid()
      ensures !inCheck
    {
      var king := GetKingPosition(color);
      if king.None? {
        return false;
      }
      inCheck := IsSquareAttacked(king.value.0, king.value.1, Opponent(color));
    }

    /** `can_castle`: the right is held and the squares between king and
        rook on the colour's home row are empty (the check and attack tests
        never fail). */
    method CanCastle(color: Color, kingside: bool) returns (ok: bool)
      requires Valid()
      ensures ok == (castlingRights.CanCastle(color, kingside) &&
        forall i :: 0 <= i < |CastlingColumns(kingside)| ==> board[HomeRow(color)][CastlingColumns(kingside)[i]].None?)
    {
      var inCheck := IsKingInCheck(color);
      if !castlingRights.CanCastle(color, kingside) || inCheck {
        return false;
      }
      var kingRow := HomeRow(color);
      var cols := CastlingColumns(kingside);
      for i := 0 to |cols|
        invariant forall j :: 0 <= j < i ==> board[kingRow][cols[j]].None?
      {
        if board[kingRow][cols[i]].Some? || IsSquareAttacked(kingRow, cols[i], Opponent(color)) {
          return false;
        }
      }
      return true;
    }

    /** One rank of the placement field: runs of empty squares counted in
        `emptyCount` and written as a digit before the next piece letter and
        at the end of the rank. */
    method RankText(row: int) returns (rowStr: string)
      requires Valid() && 0 <= row < 8
      ensures rowStr == RankFen(board[row])
    {
      var cells := board[row];
      var emptyCount: nat := 0;
      rowStr := "";
      for col := 0 to 8
        invariant rowStr + RankFenFrom(cells[col..], emptyCount) == RankFen(cells)
      {
        var piece := cells[col];
        RankFenFromStep(cells, col, emptyCount);
        if piece.None? {
          emptyCount := emptyCount + 1;
        } else {
          ghost var before, flushed, rest := rowStr, Flush(emptyCount), RankFenFrom(cells[col + 1..], 0);
          var ch := PieceChar(piece.value);
          assert RankFenFrom(cells[col..], emptyCount) == flushed + [ch] + rest;
          if emptyCount > 0 {
            rowStr := rowStr + NatToString(emptyCount);
            emptyCount := 0;
          }
          assert rowStr == before + flushed;
          rowStr := rowStr + [ch];
          AppendFour(before, flushed, [ch], rest);
        }
      }
      assert cells[8..] == [];
      if emptyCount > 0 {
        rowStr := rowStr + NatToString(emptyCount);
      }
    }

    method CastlingText() returns (castling: string)
      ensures castling == CastlingField(castlingRights.whiteKingside, castlingRights.whiteQueenside,
                                        castlingRights.blackKingside, castlingRights.blackQueenside)
    {
      ghost var wk, wq, bk, bq := castlingRights.whiteKingside, castlingRights.whiteQueenside,
                                  castlingRights.blackKingside, castlingRights.blackQueenside;
      castling := "";
      if castlingRights.whiteKingside { castling := castling + "K"; }
      assert castling == Held(wk, 'K');
      if castlingRights.whiteQueenside { castling := castling + "Q"; }
      assert castling == Held(wk, 'K') + Held(wq, 'Q');
      if castlingRights.blackKingside { castling := castling + "k"; }
      assert castling == Held(wk, 'K') + Held(wq, 'Q') + Held(bk, 'k');
      if castlingRights.blackQueenside { castling := castling + "q"; }
      assert castling == Held(wk, 'K') + Held(wq, 'Q') + Held(bk, 'k') + Held(bq, 'q');
      if castling == "" { castling := "-"; }
    }

    /** `get_fen_position`: the FEN record of the current position. */
    method GetFenPosition() returns (fen: string)
      requires Valid()
      ensures fen == Fen(board, currentTurn, castlingRights.whiteKingside, castlingRights.whiteQueenside,
                         castlingRights.blackKingside, castlingRights.blackQueenside,
                         enPassantTarget, halfmoveClock, fullmoveNumber)
    {
      var parts: seq<string> := [];
      for row := 0 to 8
        invariant |parts| == row
        invariant forall i :: 0 <= i < row ==> parts[i] == RankFen(board[i])
      {
        var rowStr := RankText(row);
        parts := parts + [rowStr];
      }
      var g := board;
      assert parts == seq(8, r requires 0 <= r < 8 => RankFen(g[r]));
      var boardFen := Join(parts, "/");
      var activeColor := if currentTurn == White then "w" else "b";
      var castling := CastlingText();
      var epTarget := "-";
      if enPassantTarget.Some? {
        var colLetter := ('a' as int + enPassantTarget.value.1) as char;
        var rowNumber := 8 - enPassantTarget.value.0;
        epTarget := [colLetter] + NatToString(rowNumber);
      }
      var halfmove, fullmove := NatToString(halfmoveClock), NatToString(fullmoveNumber);
      assert boardFen == Placement(board);
      assert activeColor == ActiveColor(currentTurn);
      assert epTarget == EnPassantField(enPassantTarget);
      fen := boardFen + " " + activeColor + " " + castling + " " + epTarget + " " + halfmove + " " + fullmove;
    }

    /** The squares swept by a sliding piece, direction by direction. */
    method SlidingMoves(row: int, col: int, color: Color, dirs: seq<(int, int)>) returns (moves: seq<Pos>)
      requires Valid()
      ensures moves == Slide(board, row, col, color, dirs)
    {
      moves := [];
      for d := 0 to |dirs|
        invariant moves == Slide(board, row, col, color, dirs[..d])
      {
        var (dr, dc) := dirs[d];
        var ray := RaySquares(row, col, dr, dc, color);
        moves := moves + ray;
        assert dirs[..d + 1][..d] == dirs[..d];
      }
      assert dirs[..|dirs|] == dirs;
    }

    /** The squares swept in one direction: up to seven steps, stopping at
        the board's edge, before a piece of `color` or on an enemy piece. */
    method RaySquares(row: int, col: int, dr: int, dc: int, color: Color) returns (moves: seq<Pos>)
      requires Valid()
      ensures moves == Ray(board, row, col, dr, dc, color, 1)
    {
      moves := [];
      var i := 1;
      while i < 8
        invariant 1 <= i <= 8
        invariant moves + Ray(board, row, col, dr, dc, color, i) == Ray(board, row, col, dr, dc, color, 1)
      {
        var newRow, newCol := row + i * dr, col + i * dc;
        if !OnBoard(newRow, newCol) {
          break;
        }
        var piece := GetPiece(newRow, newCol);
        if piece.None? {
          moves := moves + [(newRow, newCol)];
        } else if piece.value.color != color {
          moves := moves + [(newRow, newCol)];
          break;
        } else {
          break;
        }
        i := i + 1;
      }
    }

    /** The squares reached by a jumping piece, offset by offset. */
    method JumpingMoves(row: int, col: int, color: Color, offsets: seq<(int, int)>) returns (moves: seq<Pos>)
      requires Valid()
      ensures moves == Jumps(board, row, col, color, offsets)
    {
      moves := [];
      var targets := Targets(row, col, offsets);
      for k := 0 to |offsets|
        invariant moves == Filter(targets[..k], EmptyOrEnemyTest(board, color))
      {
        var (dr, dc) := offsets[k];
        var newRow, newCol := row + dr, col + dc;
        assert targets[..k + 1] == targets[..k] + [(newRow, newCol)];
        FilterSnoc(targets[..k], (newRow, newCol), EmptyOrEnemyTest(board, color));
        if EmptyOrEnemy(board, (newRow, newCol), color) {
          moves := moves + [(newRow, newCol)];
        }
      }
      assert targets[..|offsets|] == targets;
    }

    /** The forward part of `_get_pawn_moves`: one step, and from the start
        row a second. */
    method PawnPushes(row: int, col: int, color: Color) returns (moves: seq<Pos>)
      requires Valid()
      ensures moves == Pushes(board, row, col, color)
    {
      moves := [];
      var direction := if color == White then -1 else 1;
      var startRow := if color == White then 6 else 1;
      var newRow := row + direction;
      if OnBoard(newRow, col) && GetPiece(newRow, col).None? {
        moves := moves + [(newRow, col)];
        if row == startRow {
          newRow := row + 2 * direction;
          if OnBoard(newRow, col) && GetPiece(newRow, col).None? {
            moves := moves + [(newRow, col)];
          }
        }
      }
    }

    /** The diagonal-capture loop of `_get_pawn_moves`, over the two sides. */
    method PawnCaptures(row: int, col: int, color: Color) returns (moves: seq<Pos>)
      requires Valid()
      ensures moves == Filter([(row + Direction(color), col - 1), (row + Direction(color), col + 1)], EnemyTest(board, color))
    {
      moves := [];
      var direction := if color == White then -1 else 1;
      var sides := [(row + direction, col - 1), (row + direction, col + 1)];
      for k := 0 to 2
        invariant moves == Filter(sides[..k], EnemyTest(board, color))
      {
        var (captureRow, captureCol) := sides[k];
        assert sides[..k + 1] == sides[..k] + [(captureRow, captureCol)];
        FilterSnoc(sides[..k], (captureRow, captureCol), EnemyTest(board, color));
        if OnBoard(captureRow, captureCol) {
          var piece := GetPiece(captureRow, captureCol);
          if piece.Some? && piece.value.color != color {
            moves := moves + [(captureRow, captureCol)];
          }
        }
      }
      assert sides[..2] == sides;
    }

    /** `_get_pawn_moves`: pushes, then captures, then the en-passant capture. */
    method GetPawnMoves(row: int, col: int, color: Color) returns (moves: seq<Pos>)
      requires Valid()
      ensures moves == PawnMoves(board, enPassantTarget, row, col, color)
    {
      var pushes := PawnPushes(row, col, color);
      var captures := PawnCaptures(row, col, color);
      moves := pushes + captures;
      var direction := if color == White then -1 else 1;
      if enPassantTarget.Some? {
        var (epRow, epCol) := enPassantTarget.value;
        if row + direction == epRow && Abs(col - epCol) == 1 {
          moves := moves + [(epRow, epCol)];
        }
      }
    }

    /** `get_possible_moves`: the destinations of the piece on a square, by
        kind; a queen's are the rook's followed by the bishop's. */
    method GetPossibleMoves(row: int, col: int) returns (moves: seq<Pos>)
      requires Valid()
      ensures moves == PossibleMoves(board, enPassantTarget, row, col)
    {
      var piece := GetPiece(row, col);
      if piece.None? {
        return [];
      }
      var color := piece.value.color;
      match piece.value.kind
      case Pawn => moves := GetPawnMoves(row, col, color);
      case Rook => moves := SlidingMoves(row, col, color, RookDirections());
      case Knight => moves := JumpingMoves(row, col, color, KnightOffsets());
      case Bishop => moves := SlidingMoves(row, col, color, BishopDirections());
      case Queen =>
        var straight := SlidingMoves(row, col, color, RookDirections());
        var diagonal := SlidingMoves(row, col, color, BishopDirections());
        moves := straight + diagonal;
      case King => moves := JumpingMoves(row, col, color, KingOffsets());
    }

    /** `make_move`: refuses, changing nothing, a destination the piece
        cannot reach or a piece of the side not to move; otherwise moves the
        piece, updates the en-passant target, the clocks and the side to
        move, and records the move. */
    method MakeMove(fromRow: int, fromCol: int, toRow: int, toCol: int) returns (ok: bool)
      requires Valid()
      modifies this
      ensures Valid()
      ensures ok == ((toRow, toCol) in PossibleMoves(old(board), old(enPassantTarget), fromRow, fromCol) &&
                     old(At(board, fromRow, fromCol)).value.color == old(currentTurn))
      ensures !ok ==> board == old(board) && currentTurn == old(currentTurn) && halfmoveClock == old(halfmoveClock) &&
                      fullmoveNumber == old(fullmoveNumber) && enPassantTarget == old(enPassantTarget) &&
                      moveHistory == old(moveHistory)
      ensures ok ==> OnBoard(fromRow, fromCol) && OnBoard(toRow, toCol) && old(At(board, fromRow, fromCol)).Some?
      ensures ok ==> board == AfterMove(old(board), fromRow, fromCol, toRow, toCol)
      ensures ok ==> currentTurn == Opponent(old(currentTurn))
      ensures ok ==> fullmoveNumber == old(fullmoveNumber) + (if old(currentTurn) == Black then 1 else 0)
      ensures ok ==> (halfmoveClock ==
        (if old(At(board, toRow, toCol)).Some? || old(At(board, fromRow, fromCol)).value.kind == Pawn then 0
         else old(halfmoveClock) + 1))
      ensures ok ==> (enPassantTarget ==
        (if old(At(board, fromRow, fromCol)).value.kind == Pawn && Abs(toRow - fromRow) == 2
         then Some(((fromRow + toRow) / 2, toCol)) else None))
      ensures ok ==> (moveHistory == old(moveHistory) +
        [MoveRecord((fromRow, fromCol), (toRow, toCol), old(At(board, fromRow, fromCol)).value.(hasMoved := true),
                    old(At(board, toRow, toCol)), fullmoveNumber)])
      ensures moveNumber == old(moveNumber)
    {
      MovesSafe(board, enPassantTarget, fromRow, fromCol);
      var possibleMoves := GetPossibleMoves(fromRow, fromCol);
      var piece := GetPiece(fromRow, fromCol);
      if (toRow, toCol) !in possibleMoves || piece.None? || piece.value.color != currentTurn {
        return false;
      }
      ExecuteMove(fromRow, fromCol, toRow, toCol);
      ok := true;
    }

    /** The part of `make_move` after its checks have passed. */
    method ExecuteMove(fromRow: int, fromCol: int, toRow: int, toCol: int)
      requires Valid() && OnBoard(fromRow, fromCol) && OnBoard(toRow, toCol) && At(board, fromRow, fromCol).Some?
      modifies this
      ensures Valid()
      ensures board == AfterMove(old(board), fromRow, fromCol, toRow, toCol)
      ensures currentTurn == Opponent(old(currentTurn))
      ensures fullmoveNumber == old(fullmoveNumber) + (if old(currentTurn) == Black then 1 else 0)
      ensures halfmoveClock ==
        (if old(At(board, toRow, toCol)).Some? || old(At(board, fromRow, fromCol)).value.kind == Pawn then 0
         else old(halfmoveClock) + 1)
      ensures enPassantTarget ==
        (if old(At(board, fromRow, fromCol)).value.kind == Pawn && Abs(toRow - fromRow) == 2
         then Some(((fromRow + toRow) / 2, toCol)) else None)
      ensures moveHistory == old(moveHistory) +
        [MoveRecord((fromRow, fromCol), (toRow, toCol), old(At(board, fromRow, fromCol)).value.(hasMoved := true),
                    old(At(board, toRow, toCol)), fullmoveNumber)]
      ensures moveNumber == old(moveNumber)
    {
      var moved, capturedPiece := MovePieces(fromRow, fromCol, toRow, toCol);
      RecordMove(fromRow, fromCol, toRow, toCol, moved, capturedPiece);
    }

    /** The bookkeeping half of `make_move`: the en-passant target, the two
        move counters, the side to move and the history entry. */
    method RecordMove(fromRow: int, fromCol: int, toRow: int, toCol: int, moved: Piece, capturedPiece: Square)
      requires Valid() && OnBoard(fromRow, fromCol) && OnBoard(toRow, toCol)
      modifies this
      ensures Valid() && board == old(board) && moveNumber == old(moveNumber)
      ensures currentTurn == Opponent(old(currentTurn))
      ensures fullmoveNumber == old(fullmoveNumber) + (if old(currentTurn) == Black then 1 else 0)
      ensures halfmoveClock == (if capturedPiece.Some? || moved.kind == Pawn then 0 else old(halfmoveClock) + 1)
      ensures enPassantTarget ==
        (if moved.kind == Pawn && Abs(toRow - fromRow) == 2 then Some(((fromRow + toRow) / 2, toCol)) else None)
      ensures moveHistory == old(moveHistory) + [MoveRecord((fromRow, fromCol), (toRow, toCol), moved, capturedPiece, fullmoveNumber)]
    {
      enPassantTarget := DoubleStepTarget(moved, fromRow, toRow, toCol);
      halfmoveClock := if capturedPiece.Some? || moved.kind == Pawn then 0 else halfmoveClock + 1;
      currentTurn := if currentTurn == White then Black else White;
      fullmoveNumber := if currentTurn == White then fullmoveNumber + 1 else fullmoveNumber;
      moveHistory := moveHistory + [MoveRecord((fromRow, fromCol), (toRow, toCol), moved, capturedPiece, fullmoveNumber)];
    }

    /** The board half of `make_move`: the piece leaves its square, lands on
        the destination marked as moved, and a pawn moving diagonally onto an
        empty square removes the pawn beside its origin. */
    method MovePieces(fromRow: int, fromCol: int, toRow: int, toCol: int) returns (moved: Piece, capturedPiece: Square)
      requires Valid() && OnBoard(fromRow, fromCol) && OnBoard(toRow, toCol) && At(board, fromRow, fromCol).Some?
      modifies this
      ensures Valid()
      ensures board == AfterMove(old(board), fromRow, fromCol, toRow, toCol)
      ensures moved == old(At(board, fromRow, fromCol)).value.(hasMoved := true)
      ensures capturedPiece == old(At(board, toRow, toCol))
      ensures currentTurn == old(currentTurn) && moveNumber == old(moveNumber)
      ensures halfmoveClock == old(halfmoveClock) && fullmoveNumber == old(fullmoveNumber)
      ensures enPassantTarget == old(enPassantTarget) && moveHistory == old(moveHistory)
    {
      ghost var g := board;
      var piece := GetPiece(fromRow, fromCol);
      capturedPiece := GetPiece(toRow, toCol);
      moved := piece.value.(hasMoved := true);
      SetPiece(toRow, toCol, Some(moved));
      SetPiece(fromRow, fromCol, None);
      if moved.kind == Pawn && capturedPiece.None? && Abs(toCol - fromCol) == 1 {
        SetPiece(fromRow, toCol, None);
      }
      assert board == AfterMove(g, fromRow, fromCol, toRow, toCol);
    }
  }
}
