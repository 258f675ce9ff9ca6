/** The board-analysis helpers of the display: the squares it highlights
    when a statistic of the side panel is hovered (`_get_pawn_pieces`,
    `_get_backward_pawn_pieces`, `_get_isolated_pawn_pieces`,
    `_get_doubled_pawn_pieces`, `_get_passed_pawn_pieces`,
    `_get_developed_pieces`). They read the rules library's position
    through `pieceAt`, visit the library's squares `0 .. 63` in order
    (square `rank * 8 + file`, a1 first) and report every square they keep
    as `(row, col)` through `_square_to_pos`. */
module DisplayStatistics {
  import opened Types
  import opened Session
  import PawnStructure

  // ---------------------------------------------------------------------
  // The library's squares

  /** `chess.square(file, rank)`. */
  function SquareAt(file: int, rank: int): int {
    rank * 8 + file
  }

  /** The rank of a `(row, col)`: row 0 is rank 8, numbered 7. */
  function RankOf(q: Pos): int {
    7 - q.0
  }

  /** `chess.SQUARES` as coordinates: the order of every scan here. */
  function LibraryOrder(): (s: seq<Pos>)
    ensures |s| == 64
    ensures forall i :: 0 <= i < 64 ==> s[i] == SquareToPos(i)
  {
    seq(64, i => SquareToPos(i))
  }

  /** `chess.SQUARES` as square numbers. */
  function LibrarySquares(): (s: seq<int>)
    ensures |s| == 64
    ensures forall i :: 0 <= i < 64 ==> s[i] == i
  {
    seq(64, i => i)
  }

  /** A library square seen as rank, file and coordinates. */
  lemma {:induction false} SquareParts(sq: int)
    requires 0 <= sq < 64
    ensures 0 <= sq / 8 < 8 && 0 <= sq % 8 < 8
    ensures SquareAt(sq % 8, sq / 8) == sq
    ensures SquareToPos(sq) == (7 - sq / 8, sq % 8)
  {
  }

  /** The coordinates of `chess.square(file, rank)`. */
  lemma {:induction false} SquareAtPos(file: int, rank: int)
    requires 0 <= file < 8 && 0 <= rank < 8
    ensures SquareToPos(SquareAt(file, rank)) == (7 - rank, file)
    ensures PosToSquare(7 - rank, file) == SquareAt(file, rank)
  {
    var sq := SquareAt(file, rank);
    assert sq / 8 == rank && sq % 8 == file;
  }

  /** The test for a pawn on a library square, and that square's file
      and rank. */
  lemma {:induction false} PawnSquare<P>(o: Oracle<P>, p: P, c: Color, sq: int)
    requires 0 <= sq < 64
    ensures SquareToPos(sq).1 == sq % 8 && RankOf(SquareToPos(sq)) == sq / 8
    ensures PawnOn(o, p, c, sq % 8, sq / 8) <==> o.pieceAt(p, sq) == Some(ColoredPiece(Pawn, c))
  {
    SquareParts(sq);
  }

  /** The squares `0 .. n - 1` passing `test`, as coordinates, in the
      library's order: what a loop over `chess.SQUARES` appending
      `coords_from_square(square)` for every square it keeps produces. */
  function Scan(test: Pos -> bool, n: nat): seq<Pos>
    requires n <= 64
  {
    if n == 0 then [] else Scan(test, n - 1) + (if test(SquareToPos(n - 1)) then [SquareToPos(n - 1)] else [])
  }

  lemma {:induction false} ScanIsFilter(test: Pos -> bool, n: nat)
    requires n <= 64
    ensures Scan(test, n) == Filter(LibraryOrder()[..n], test)
  {
    if n > 0 {
      ScanIsFilter(test, n - 1);
      assert LibraryOrder()[..n] == LibraryOrder()[..n - 1] + [SquareToPos(n - 1)];
      FilterSnoc(LibraryOrder()[..n - 1], SquareToPos(n - 1), test);
    }
  }

  /** A test that only passes where another passes keeps no more squares. */
  lemma {:induction false} ScanWeaker(test: Pos -> bool, other: Pos -> bool, n: nat)
    requires n <= 64
    requires forall q: Pos :: test(q) ==> other(q)
    ensures |Scan(test, n)| <= |Scan(other, n)|
  {
    if n > 0 {
      ScanWeaker(test, other, n - 1);
    }
  }

  /** The whole scan keeps exactly the on-board squares passing the test. */
  lemma {:induction false} ScanMembers(test: Pos -> bool, q: Pos)
    ensures q in Scan(test, 64) <==> OnBoard(q.0, q.1) && test(q)
  {
    ScanIsFilter(test, 64);
    assert LibraryOrder()[..64] == LibraryOrder();
    LibraryOrderMembers(test, q);
  }

  /** The library's order keeps exactly the on-board squares passing the
      test. */
  lemma {:induction false} LibraryOrderMembers(test: Pos -> bool, q: Pos)
    ensures q in Filter(LibraryOrder(), test) <==> OnBoard(q.0, q.1) && test(q)
  {
    var r := Filter(LibraryOrder(), test);
    FilterMembers(LibraryOrder(), test, q);
    if q in r {
      var i :| 0 <= i < 64 && LibraryOrder()[i] == q;
    }
    if OnBoard(q.0, q.1) && test(q) {
      PosSquarePos(q.0, q.1);
      assert LibraryOrder()[PosToSquare(q.0, q.1)] == q;
    }
  }

  // ---------------------------------------------------------------------
  // Same squares, another order

  predicate Distinct<T(==)>(s: seq<T>) {
    forall i, j :: 0 <= i < j < |s| ==> s[i] != s[j]
  }

  lemma {:induction false} DistinctFilter<T>(xs: seq<T>, test: T -> bool)
    requires Distinct(xs)
    ensures Distinct(Filter(xs, test))
  {
    if xs != [] {
      var rest := Filter(xs[1..], test);
      DistinctFilter(xs[1..], test);
      assert xs[0] !in xs[1..];
      FilterMembers(xs[1..], test, xs[0]);
      assert xs[0] !in rest;
      var head := if test(xs[0]) then [xs[0]] else [];
      var r := head + rest;
      forall i, j | 0 <= i < j < |r|
        ensures r[i] != r[j]
      {
        if i < |head| {
          assert r[j] == rest[j - |head|];
        } else {
          assert r[i] == rest[i - |head|] && r[j] == rest[j - |head|];
        }
      }
    }
  }

  lemma {:induction false} DistinctCardinality<T>(s: seq<T>)
    requires Distinct(s)
    ensures |set x | x in s| == |s|
  {
    if s != [] {
      var init := s[..|s| - 1];
      var last := s[|s| - 1];
      assert Distinct(init);
      DistinctCardinality(init);
      assert last !in init;
      assert (set x | x in s) == (set x | x in init) + {last} by {
        assert s == init + [last];
      }
    }
  }

  lemma {:induction false} LibraryOrderDistinct()
    ensures Distinct(LibraryOrder())
  {
    var s := LibraryOrder();
    forall i, j | 0 <= i < j < 64
      ensures s[i] != s[j]
    {
      SquarePosSquare(i);
      SquarePosSquare(j);
    }
  }

  lemma {:induction false} RowMajorDistinct()
    ensures Distinct(RowMajor())
  {
    var s := RowMajor();
    forall i, j | 0 <= i < j < 64
      ensures s[i] != s[j]
    {
      assert s[i] == (i / 8, i % 8) && s[j] == (j / 8, j % 8);
    }
  }

  /** A test that agrees with another on the board keeps as many squares
      in the library's order as the other keeps in row-major order: the
      display's highlight lists and the session layer's counters measure
      the same squares. */
  lemma {:induction false} SameScanCount(test: Pos -> bool, other: Pos -> bool)
    requires forall q: Pos :: OnBoard(q.0, q.1) ==> test(q) == other(q)
    ensures |Scan(test, 64)| == Count(RowMajor(), other)
  {
    ScanIsFilter(test, 64);
    assert LibraryOrder()[..64] == LibraryOrder();
    var a := Filter(LibraryOrder(), test);
    var b := Filter(RowMajor(), other);
    ScansDistinct(test, other);
    DistinctCardinality(a);
    DistinctCardinality(b);
    SameScanSquares(test, other);
  }

  lemma {:induction false} ScansDistinct(test: Pos -> bool, other: Pos -> bool)
    ensures Distinct(Filter(LibraryOrder(), test)) && Distinct(Filter(RowMajor(), other))
  {
    LibraryOrderDistinct();
    RowMajorDistinct();
    DistinctFilter(LibraryOrder(), test);
    DistinctFilter(RowMajor(), other);
  }

  lemma {:induction false} SameScanSquares(test: Pos -> bool, other: Pos -> bool)
    requires forall q: Pos :: OnBoard(q.0, q.1) ==> test(q) == other(q)
    ensures (set x | x in Filter(LibraryOrder(), test)) == (set x | x in Filter(RowMajor(), other))
  {
    forall q
      ensures q in Filter(LibraryOrder(), test) <==> q in Filter(RowMajor(), other)
    {
      LibraryOrderMembers(test, q);
      RowMajorMembers(other, q);
    }
  }

  // ---------------------------------------------------------------------
  // Pawns

  /** A pawn of colour `c` on the square at `file`, `rank`, on the board. */
  predicate PawnOn<P>(o: Oracle<P>, p: P, c: Color, file: int, rank: int) {
    0 <= file < 8 && 0 <= rank < 8 && o.pieceAt(p, SquareAt(file, rank)) == Some(ColoredPiece(Pawn, c))
  }

  function PawnTest<P>(o: Oracle<P>, p: P, c: Color): Pos -> bool {
    (q: Pos) => PawnOn(o, p, c, q.1, RankOf(q))
  }

  /** `_get_pawn_pieces`. */
  function PawnPieces<P>(o: Oracle<P>, p: P, c: Color): seq<Pos> {
    Scan(PawnTest(o, p, c), 64)
  }

  method GetPawnPieces<P>(o: Oracle<P>, p: P, c: Color) returns (pawns: seq<Pos>)
    ensures pawns == PawnPieces(o, p, c)
  {
    pawns := [];
    for sq := 0 to 64
      invariant pawns == Scan(PawnTest(o, p, c), sq)
    {
      PawnSquare(o, p, c, sq);
      var piece := o.pieceAt(p, sq);
      if piece.Some? && piece.value.color == c && piece.value.kind == Pawn {
        pawns := pawns + [SquareToPos(sq)];
      }
    }
  }

  /** The pawn list holds exactly the squares of the pawns of colour `c`. */
  lemma {:induction false} PawnPiecesExactly<P>(o: Oracle<P>, p: P, c: Color, q: Pos)
    ensures q in PawnPieces(o, p, c) <==>
      OnBoard(q.0, q.1) && o.pieceAt(p, PosToSquare(q.0, q.1)) == Some(ColoredPiece(Pawn, c))
  {
    ScanMembers(PawnTest(o, p, c), q);
    if OnBoard(q.0, q.1) {
      assert SquareAt(q.1, RankOf(q)) == PosToSquare(q.0, q.1);
    }
  }

  /** The pawn list is as long as the session layer's `count_pawns`. */
  lemma {:induction false} PawnPiecesCount<P>(o: Oracle<P>, p: P, c: Color)
    ensures |PawnPieces(o, p, c)| == PawnStructure.PawnCount(ViewOf(o, p), c)
  {
    PawnTestsAgree(o, p, c);
    SameScanCount(PawnTest(o, p, c), PawnStructure.PawnTest(ViewOf(o, p), c));
  }

  /** The display's pawn test and the session layer's agree on the board. */
  lemma {:induction false} PawnTestsAgree<P>(o: Oracle<P>, p: P, c: Color)
    ensures forall q: Pos :: OnBoard(q.0, q.1) ==>
      PawnTest(o, p, c)(q) == PawnStructure.PawnTest(ViewOf(o, p), c)(q)
  {
    forall q: Pos | OnBoard(q.0, q.1)
      ensures PawnTest(o, p, c)(q) == PawnStructure.PawnTest(ViewOf(o, p), c)(q)
    {
      PawnAgrees(o, p, c, q.0, q.1);
    }
  }

  lemma {:induction false} PawnAgrees<P>(o: Oracle<P>, p: P, c: Color, row: int, col: int)
    requires OnBoard(row, col)
    ensures PawnOn(o, p, c, col, 7 - row) == PawnStructure.PawnAt(ViewOf(o, p), row, col, c)
  {
    assert SquareAt(col, 7 - row) == PosToSquare(row, col);
  }

  // ---------------------------------------------------------------------
  // Isolated pawns

  /** A pawn of colour `c` somewhere on `file`. */
  predicate FileHasPawn<P>(o: Oracle<P>, p: P, c: Color, file: int) {
    exists rank :: 0 <= rank < 8 && PawnOn(o, p, c, file, rank)
  }

  /** A pawn with no pawn of its colour on either neighbouring file. */
  predicate IsolatedOn<P>(o: Oracle<P>, p: P, c: Color, file: int, rank: int) {
    PawnOn(o, p, c, file, rank) && !FileHasPawn(o, p, c, file - 1) && !FileHasPawn(o, p, c, file + 1)
  }

  function IsolatedTest<P>(o: Oracle<P>, p: P, c: Color): Pos -> bool {
    (q: Pos) => IsolatedOn(o, p, c, q.1, RankOf(q))
  }

  /** `_get_isolated_pawn_pieces`. */
  function IsolatedPawnPieces<P>(o: Oracle<P>, p: P, c: Color): seq<Pos> {
    Scan(IsolatedTest(o, p, c), 64)
  }

  /** The inner scan of one file, up to the first pawn found. */
  method FindPawnOnFile<P>(o: Oracle<P>, p: P, c: Color, file: int) returns (found: bool)
    ensures found == FileHasPawn(o, p, c, file)
  {
    found := false;
    if 0 <= file < 8 {
      for rank := 0 to 8
        invariant !found
        invariant forall r :: 0 <= r < rank ==> !PawnOn(o, p, c, file, r)
      {
        var piece := o.pieceAt(p, SquareAt(file, rank));
        if piece.Some? && piece.value.color == c && piece.value.kind == Pawn {
          assert PawnOn(o, p, c, file, rank);
          found := true;
          break;
        }
      }
    }
  }

  /** The loop over the two neighbouring files, up to the first holding a
      pawn. */
  method HasAdjacentPawn<P>(o: Oracle<P>, p: P, c: Color, file: int) returns (has: bool)
    ensures has == (FileHasPawn(o, p, c, file - 1) || FileHasPawn(o, p, c, file + 1))
  {
    has := false;
    var adjacent := [file - 1, file + 1];
    for k := 0 to |adjacent|
      invariant !has
      invariant forall j :: 0 <= j < k ==> !FileHasPawn(o, p, c, adjacent[j])
    {
      has := FindPawnOnFile(o, p, c, adjacent[k]);
      if has {
        assert adjacent[k] == file - 1 || adjacent[k] == file + 1;
        break;
      }
    }
    assert adjacent[0] == file - 1 && adjacent[1] == file + 1;
  }

  lemma {:induction false} IsolatedAt<P>(o: Oracle<P>, p: P, c: Color, sq: int)
    requires 0 <= sq < 64
    ensures IsolatedTest(o, p, c)(SquareToPos(sq)) ==
      (o.pieceAt(p, sq) == Some(ColoredPiece(Pawn, c)) && !(FileHasPawn(o, p, c, sq % 8 - 1) || FileHasPawn(o, p, c, sq % 8 + 1)))
  {
    PawnSquare(o, p, c, sq);
  }

  /** The body of the square loop: whether the square is kept. */
  method IsolatedSquare<P>(o: Oracle<P>, p: P, c: Color, sq: int) returns (keep: bool)
    requires 0 <= sq < 64
    ensures keep == IsolatedTest(o, p, c)(SquareToPos(sq))
  {
    IsolatedAt(o, p, c, sq);
    keep := false;
    var piece := o.pieceAt(p, sq);
    if piece.Some? && piece.value.color == c && piece.value.kind == Pawn {
      var file := sq % 8;
      var hasAdjacent := HasAdjacentPawn(o, p, c, file);
      keep := !hasAdjacent;
    }
  }

  method GetIsolatedPawnPieces<P>(o: Oracle<P>, p: P, c: Color) returns (isolated: seq<Pos>)
    ensures isolated == IsolatedPawnPieces(o, p, c)
  {
    isolated := [];
    for sq := 0 to 64
      invariant isolated == Scan(IsolatedTest(o, p, c), sq)
    {
      var keep := IsolatedSquare(o, p, c, sq);
      if keep {
        isolated := isolated + [SquareToPos(sq)];
      }
    }
  }

  /** The isolated list holds exactly the pawns with no friendly pawn on a
      neighbouring file, at any rank. */
  lemma {:induction false} IsolatedPawnPiecesExactly<P>(o: Oracle<P>, p: P, c: Color, q: Pos)
    ensures q in IsolatedPawnPieces(o, p, c) <==> OnBoard(q.0, q.1) && IsolatedOn(o, p, c, q.1, RankOf(q))
  {
    ScanMembers(IsolatedTest(o, p, c), q);
  }

  /** The isolated list is as long as the session layer's
      `count_isolated_pawns`. */
  lemma {:induction false} IsolatedPawnPiecesCount<P>(o: Oracle<P>, p: P, c: Color)
    ensures |IsolatedPawnPieces(o, p, c)| == PawnStructure.IsolatedCount(ViewOf(o, p), c)
  {
    forall q: Pos | OnBoard(q.0, q.1)
      ensures IsolatedTest(o, p, c)(q) == PawnStructure.IsolatedTest(ViewOf(o, p), c)(q)
    {
      IsolatedAgrees(o, p, c, q);
    }
    SameScanCount(IsolatedTest(o, p, c), PawnStructure.IsolatedTest(ViewOf(o, p), c));
  }

  lemma {:induction false} IsolatedAgrees<P>(o: Oracle<P>, p: P, c: Color, q: Pos)
    requires OnBoard(q.0, q.1)
    ensures IsolatedOn(o, p, c, q.1, RankOf(q)) == PawnStructure.Isolated(ViewOf(o, p), q.0, q.1, c)
  {
    PawnAgrees(o, p, c, q.0, q.1);
    FileAgrees(o, p, c, q.1 - 1);
    FileAgrees(o, p, c, q.1 + 1);
  }

  /** A file holds a pawn for the display exactly when it does for the
      session layer. */
  lemma {:induction false} FileAgrees<P>(o: Oracle<P>, p: P, c: Color, file: int)
    ensures FileHasPawn(o, p, c, file) <==>
      0 <= file < 8 && PawnStructure.PawnOnFile(ViewOf(o, p), file, c)
  {
    if FileHasPawn(o, p, c, file) {
      var rank :| 0 <= rank < 8 && PawnOn(o, p, c, file, rank);
      PawnAgrees(o, p, c, 7 - rank, file);
    }
    if 0 <= file < 8 && PawnStructure.PawnOnFile(ViewOf(o, p), file, c) {
      var row :| 0 <= row < 8 && PawnStructure.PawnAt(ViewOf(o, p), row, file, c);
      PawnAgrees(o, p, c, row, file);
    }
  }

  // ---------------------------------------------------------------------
  // Backward pawns

  /** `pawn_direction`: the rank step of a pawn's advance. */
  function Forward(c: Color): int {
    if c == White then 1 else -1
  }

  /** A pawn of the same colour one rank behind, on a neighbouring file. */
  predicate CanBeDefended<P>(o: Oracle<P>, p: P, c: Color, file: int, rank: int) {
    var d := rank - Forward(c);
    0 <= d < 8 && (PawnOn(o, p, c, file - 1, d) || PawnOn(o, p, c, file + 1, d))
  }

  /** An enemy pawn two ranks ahead, on a neighbouring file: it guards the
      square in front of the pawn. */
  predicate AdvanceGuarded<P>(o: Oracle<P>, p: P, c: Color, file: int, rank: int) {
    var a := rank + Forward(c);
    var e := a + Forward(c);
    0 <= a < 8 && 0 <= e < 8 &&
    (PawnOn(o, p, Opponent(c), file - 1, e) || PawnOn(o, p, Opponent(c), file + 1, e))
  }

  predicate BackwardOn<P>(o: Oracle<P>, p: P, c: Color, file: int, rank: int) {
    PawnOn(o, p, c, file, rank) && !CanBeDefended(o, p, c, file, rank) && AdvanceGuarded(o, p, c, file, rank)
  }

  function BackwardTest<P>(o: Oracle<P>, p: P, c: Color): Pos -> bool {
    (q: Pos) => BackwardOn(o, p, c, q.1, RankOf(q))
  }

  /** `_get_backward_pawn_pieces`. */
  function BackwardPawnPieces<P>(o: Oracle<P>, p: P, c: Color): seq<Pos> {
    Scan(BackwardTest(o, p, c), 64)
  }

  /** The `can_be_defended` loop. */
  method CheckDefended<P>(o: Oracle<P>, p: P, c: Color, file: int, rank: int) returns (defended: bool)
    ensures defended == CanBeDefended(o, p, c, file, rank)
  {
    defended := false;
    var d := rank - Forward(c);
    if 0 <= d < 8 {
      var adjacent := [file - 1, file + 1];
      for k := 0 to |adjacent|
        invariant !defended
        invariant forall j :: 0 <= j < k ==> !PawnOn(o, p, c, adjacent[j], d)
      {
        var f := adjacent[k];
        if 0 <= f < 8 {
          var defender := o.pieceAt(p, SquareAt(f, d));
          if defender.Some? && defender.value.color == c && defender.value.kind == Pawn {
            assert PawnOn(o, p, c, f, d) && (f == file - 1 || f == file + 1);
            defended := true;
            break;
          }
        }
      }
      assert adjacent[0] == file - 1 && adjacent[1] == file + 1;
    }
  }

  /** The `can_safely_advance` loop. */
  method CheckSafeAdvance<P>(o: Oracle<P>, p: P, c: Color, file: int, rank: int) returns (safe: bool)
    ensures safe == !AdvanceGuarded(o, p, c, file, rank)
  {
    safe := true;
    var a := rank + Forward(c);
    if 0 <= a < 8 {
      var adjacent := [file - 1, file + 1];
      for k := 0 to |adjacent|
        invariant safe
        invariant forall j :: 0 <= j < k ==> !PawnOn(o, p, Opponent(c), adjacent[j], a + Forward(c))
      {
        var f := adjacent[k];
        if 0 <= f < 8 {
          var e := a + Forward(c);
          if 0 <= e < 8 {
            var enemy := o.pieceAt(p, SquareAt(f, e));
            if enemy.Some? && enemy.value.color == Opponent(c) && enemy.value.kind == Pawn {
              assert PawnOn(o, p, Opponent(c), f, e) && (f == file - 1 || f == file + 1);
              safe := false;
              break;
            }
          }
        }
      }
      assert adjacent[0] == file - 1 && adjacent[1] == file + 1;
    }
  }

  lemma {:induction false} BackwardAt<P>(o: Oracle<P>, p: P, c: Color, sq: int)
    requires 0 <= sq < 64
    ensures BackwardTest(o, p, c)(SquareToPos(sq)) ==
      (o.pieceAt(p, sq) == Some(ColoredPiece(Pawn, c)) &&
       !CanBeDefended(o, p, c, sq % 8, sq / 8) && AdvanceGuarded(o, p, c, sq % 8, sq / 8))
  {
    PawnSquare(o, p, c, sq);
  }

  /** The body of the square loop: whether the square is kept. */
  method BackwardSquare<P>(o: Oracle<P>, p: P, c: Color, sq: int) returns (keep: bool)
    requires 0 <= sq < 64
    ensures keep == BackwardTest(o, p, c)(SquareToPos(sq))
  {
    BackwardAt(o, p, c, sq);
    keep := false;
    var piece := o.pieceAt(p, sq);
    if piece.Some? && piece.value.color == c && piece.value.kind == Pawn {
      var rank := sq / 8;
      var file := sq % 8;
      var defended := CheckDefended(o, p, c, file, rank);
      var safe := CheckSafeAdvance(o, p, c, file, rank);
      keep := !defended && !safe;
    }
  }

  method GetBackwardPawnPieces<P>(o: Oracle<P>, p: P, c: Color) returns (backward: seq<Pos>)
    ensures backward == BackwardPawnPieces(o, p, c)
  {
    backward := [];
    for sq := 0 to 64
      invariant backward == Scan(BackwardTest(o, p, c), sq)
    {
      var keep := BackwardSquare(o, p, c, sq);
      if keep {
        backward := backward + [SquareToPos(sq)];
      }
    }
  }

  /** The backward list holds exactly the pawns with no friendly pawn one
      rank behind on a neighbouring file and an enemy pawn two ranks ahead
      on a neighbouring file. It is never longer than the pawn list. */
  lemma {:induction false} BackwardPawnPiecesExactly<P>(o: Oracle<P>, p: P, c: Color, q: Pos)
    ensures q in BackwardPawnPieces(o, p, c) <==> OnBoard(q.0, q.1) && BackwardOn(o, p, c, q.1, RankOf(q))
    ensures |BackwardPawnPieces(o, p, c)| <= |PawnPieces(o, p, c)|
  {
    ScanMembers(BackwardTest(o, p, c), q);
    BackwardPawnPiecesBounded(o, p, c);
  }

  lemma {:induction false} BackwardIsPawn<P>(o: Oracle<P>, p: P, c: Color, q: Pos)
    requires BackwardTest(o, p, c)(q)
    ensures PawnTest(o, p, c)(q)
  {
    assert BackwardOn(o, p, c, q.1, RankOf(q));
  }

  lemma {:induction false} BackwardPawnPiecesBounded<P>(o: Oracle<P>, p: P, c: Color)
    ensures |BackwardPawnPieces(o, p, c)| <= |PawnPieces(o, p, c)|
  {
    forall q: Pos | BackwardTest(o, p, c)(q)
      ensures PawnTest(o, p, c)(q)
    {
      BackwardIsPawn(o, p, c, q);
    }
    ScanWeaker(BackwardTest(o, p, c), PawnTest(o, p, c), 64);
  }

  // ---------------------------------------------------------------------
  // Passed pawns

  /** The ranks the display examines: white ranks up to 2, black ranks
      from 7 (indices 0 .. 1 and 6 .. 7). */
  predicate DisplayedRank(c: Color, rank: int) {
    if c == White then rank <= 1 else rank >= 6
  }

  /** Rank `r` lies strictly ahead of `rank` for a pawn of colour `c`. */
  predicate AheadOf(c: Color, r: int, rank: int) {
    if c == White then r > rank else r < rank
  }

  /** An enemy pawn on `file`, strictly ahead of `rank`. */
  predicate EnemyPawnAhead<P>(o: Oracle<P>, p: P, c: Color, file: int, rank: int) {
    exists r :: 0 <= r < 8 && AheadOf(c, r, rank) && PawnOn(o, p, Opponent(c), file, r)
  }

  predicate Unopposed<P>(o: Oracle<P>, p: P, c: Color, file: int, rank: int) {
    !EnemyPawnAhead(o, p, c, file - 1, rank) && !EnemyPawnAhead(o, p, c, file, rank) &&
    !EnemyPawnAhead(o, p, c, file + 1, rank)
  }

  predicate PassedOn<P>(o: Oracle<P>, p: P, c: Color, file: int, rank: int) {
    PawnOn(o, p, c, file, rank) && DisplayedRank(c, rank) && Unopposed(o, p, c, file, rank)
  }

  function PassedTest<P>(o: Oracle<P>, p: P, c: Color): Pos -> bool {
    (q: Pos) => PassedOn(o, p, c, q.1, RankOf(q))
  }

  /** `_get_passed_pawn_pieces`, as written. */
  function PassedPawnPieces<P>(o: Oracle<P>, p: P, c: Color): seq<Pos> {
    Scan(PassedTest(o, p, c), 64)
  }

  /** The `while` loop walking one file from the pawn towards promotion. */
  method ScanAhead<P>(o: Oracle<P>, p: P, c: Color, file: int, rank: int) returns (blocked: bool)
    requires 0 <= file <= 7 && 0 <= rank < 8
    ensures blocked == EnemyPawnAhead(o, p, c, file, rank)
  {
    blocked := false;
    var checkRank := rank + Forward(c);
    while 0 <= checkRank <= 7
      invariant !blocked
      invariant -1 <= checkRank <= 8 && AheadOf(c, checkRank, rank)
      invariant forall r :: 0 <= r < 8 && AheadOf(c, r, rank) && AheadOf(c, checkRank, r) ==>
        !PawnOn(o, p, Opponent(c), file, r)
      decreases if c == White then 8 - checkRank else checkRank + 1
    {
      var enemy := o.pieceAt(p, SquareAt(file, checkRank));
      if enemy.Some? && enemy.value.color == Opponent(c) && enemy.value.kind == Pawn {
        assert PawnOn(o, p, Opponent(c), file, checkRank);
        blocked := true;
        break;
      }
      checkRank := checkRank + Forward(c);
    }
  }

  /** The loop over the pawn's file and its neighbours. */
  method CheckPassed<P>(o: Oracle<P>, p: P, c: Color, file: int, rank: int) returns (isPassed: bool)
    requires 0 <= rank < 8
    ensures isPassed == Unopposed(o, p, c, file, rank)
  {
    isPassed := true;
    var files := [file - 1, file, file + 1];
    for k := 0 to |files|
      invariant isPassed
      invariant forall j :: 0 <= j < k ==> !EnemyPawnAhead(o, p, c, files[j], rank)
    {
      var f := files[k];
      if 0 <= f <= 7 {
        var blocked := ScanAhead(o, p, c, f, rank);
        if blocked {
          assert f == file - 1 || f == file || f == file + 1;
          isPassed := false;
          break;
        }
      }
    }
    assert files[0] == file - 1 && files[1] == file && files[2] == file + 1;
  }

  lemma {:induction false} PassedAt<P>(o: Oracle<P>, p: P, c: Color, sq: int)
    requires 0 <= sq < 64
    ensures PassedTest(o, p, c)(SquareToPos(sq)) ==
      (o.pieceAt(p, sq) == Some(ColoredPiece(Pawn, c)) && DisplayedRank(c, sq / 8) && Unopposed(o, p, c, sq % 8, sq / 8))
  {
    PawnSquare(o, p, c, sq);
  }

  /** The body of the square loop: whether the square is kept. */
  method PassedSquare<P>(o: Oracle<P>, p: P, c: Color, sq: int) returns (keep: bool)
    requires 0 <= sq < 64
    ensures keep == PassedTest(o, p, c)(SquareToPos(sq))
  {
    PassedAt(o, p, c, sq);
    keep := false;
    var piece := o.pieceAt(p, sq);
    if piece.Some? && piece.value.color == c && piece.value.kind == Pawn {
      var rank := sq / 8;
      var file := sq % 8;
      if (c == White && rank <= 1) || (c == Black && rank >= 6) {
        keep := CheckPassed(o, p, c, file, rank);
      }
    }
  }

  method GetPassedPawnPieces<P>(o: Oracle<P>, p: P, c: Color) returns (passed: seq<Pos>)
    ensures passed == PassedPawnPieces(o, p, c)
  {
    passed := [];
    for sq := 0 to 64
      invariant passed == Scan(PassedTest(o, p, c), sq)
    {
      var keep := PassedSquare(o, p, c, sq);
      if keep {
        passed := passed + [SquareToPos(sq)];
      }
    }
  }

  /** The passed list holds exactly the pawns on the examined ranks with no
      enemy pawn strictly ahead on their own or a neighbouring file. */
  lemma {:induction false} PassedPawnPiecesExactly<P>(o: Oracle<P>, p: P, c: Color, q: Pos)
    ensures q in PassedPawnPieces(o, p, c) <==> OnBoard(q.0, q.1) && PassedOn(o, p, c, q.1, RankOf(q))
  {
    ScanMembers(PassedTest(o, p, c), q);
  }

  /** The ranks the session layer's `count_passed_pawns` examines, in ranks:
      white pawns from rank index 1, black pawns up to rank index 6. */
  predicate CountedRank(c: Color, rank: int) {
    if c == White then rank >= 1 else rank <= 6
  }

  function IntendedPassedTest<P>(o: Oracle<P>, p: P, c: Color): Pos -> bool {
    (q: Pos) => PawnOn(o, p, c, q.1, RankOf(q)) && CountedRank(c, RankOf(q)) && Unopposed(o, p, c, q.1, RankOf(q))
  }

  /** The passed-pawn highlight with the rank filter of the counter it
      illustrates. */
  function IntendedPassedPawnPieces<P>(o: Oracle<P>, p: P, c: Color): seq<Pos> {
    Scan(IntendedPassedTest(o, p, c), 64)
  }

  /** With the counter's rank filter the highlight marks as many pawns as
      `count_passed_pawns` counts. */
  lemma {:induction false} IntendedPassedMatchesCount<P>(o: Oracle<P>, p: P, c: Color)
    ensures |IntendedPassedPawnPieces(o, p, c)| == PawnStructure.PassedCount(ViewOf(o, p), c)
  {
    forall q: Pos | OnBoard(q.0, q.1)
      ensures IntendedPassedTest(o, p, c)(q) == PawnStructure.PassedTest(ViewOf(o, p), c)(q)
    {
      IntendedPassedAgrees(o, p, c, q);
    }
    SameScanCount(IntendedPassedTest(o, p, c), PawnStructure.PassedTest(ViewOf(o, p), c));
  }

  lemma {:induction false} IntendedPassedAgrees<P>(o: Oracle<P>, p: P, c: Color, q: Pos)
    requires OnBoard(q.0, q.1)
    ensures IntendedPassedTest(o, p, c)(q) == PawnStructure.PassedTest(ViewOf(o, p), c)(q)
  {
    var g := ViewOf(o, p);
    PawnAgrees(o, p, c, q.0, q.1);
    AheadAgrees(o, p, c, q.1 - 1, q.0);
    AheadAgrees(o, p, c, q.1, q.0);
    AheadAgrees(o, p, c, q.1 + 1, q.0);
    assert RankOf(q) == 7 - q.0;
    assert CountedRank(c, RankOf(q)) == PawnStructure.PassedCandidate(q.0, c);
    assert PawnStructure.PassedTest(g, c)(q) == PawnStructure.Passed(g, q.0, q.1, c);
  }

  /** An enemy pawn ahead for the display exactly when there is one for
      the session layer. */
  lemma {:induction false} AheadAgrees<P>(o: Oracle<P>, p: P, c: Color, file: int, row: int)
    requires 0 <= row < 8
    ensures EnemyPawnAhead(o, p, c, file, 7 - row) == PawnStructure.EnemyPawnAhead(ViewOf(o, p), row, file, c)
  {
    var g := ViewOf(o, p);
    if EnemyPawnAhead(o, p, c, file, 7 - row) {
      var r :| 0 <= r < 8 && AheadOf(c, r, 7 - row) && PawnOn(o, p, Opponent(c), file, r);
      PawnAgrees(o, p, Opponent(c), 7 - r, file);
      assert PawnStructure.Ahead(c, 7 - r, row);
    }
    if PawnStructure.EnemyPawnAhead(g, row, file, c) {
      var cr :| 0 <= cr < 8 && PawnStructure.Ahead(c, cr, row) && PawnStructure.PawnAt(g, cr, file, Opponent(c));
      PawnAgrees(o, p, Opponent(c), cr, file);
      assert AheadOf(c, 7 - cr, 7 - row);
    }
  }

  /** A lone white pawn on e4 (library square 28). */
  function LoneE4Pawn(): Oracle<int> {
    Oracle(0, (x: int) => [], (x: int, m: LibMove) => x,
           (x: int, sq: int) => if sq == 28 then Some(ColoredPiece(Pawn, White)) else None,
           (x: int, side: Color, sq: int) => false, (x: int) => White, (x: int) => 1,
           (x: int) => false, (x: int) => false, (x: int) => false)
  }

  /** The highlight as written marks no pawn for a lone white pawn on e4,
      though the counter beside it counts that pawn as passed; the
      intended highlight marks it. */
  lemma {:induction false} PassedHighlightMissesE4()
    ensures PassedPawnPieces(LoneE4Pawn(), 0, White) == []
    ensures PawnStructure.PassedCount(ViewOf(LoneE4Pawn(), 0), White) >= 1
    ensures (4, 4) in IntendedPassedPawnPieces(LoneE4Pawn(), 0, White)
  {
    E4NotHighlighted();
    E4Counted();
    E4IntendedHighlighted();
  }

  lemma {:induction false} E4NotHighlighted()
    ensures PassedPawnPieces(LoneE4Pawn(), 0, White) == []
  {
    var o := LoneE4Pawn();
    var s := PassedPawnPieces(o, 0, White);
    if s != [] {
      ScanMembers(PassedTest(o, 0, White), s[0]);
      E4NotPassed(s[0].1, RankOf(s[0]));
    }
  }

  /** The only pawn stands on rank index 3, which the display skips. */
  lemma {:induction false} E4NotPassed(file: int, rank: int)
    ensures !PassedOn(LoneE4Pawn(), 0, White, file, rank)
  {
    if PawnOn(LoneE4Pawn(), 0, White, file, rank) {
      assert SquareAt(file, rank) == 28;
      assert rank == 3;
    }
  }

  lemma {:induction false} E4Counted()
    ensures PawnStructure.PassedCount(ViewOf(LoneE4Pawn(), 0), White) >= 1
  {
    var o := LoneE4Pawn();
    var g := ViewOf(o, 0);
    assert PosToSquare(4, 4) == 28;
    assert PawnStructure.PawnAt(g, 4, 4, White);
    assert PawnStructure.Passed(g, 4, 4, White);
    RowMajorMembers(PawnStructure.PassedTest(g, White), (4, 4));
  }

  lemma {:induction false} E4IntendedHighlighted()
    ensures (4, 4) in IntendedPassedPawnPieces(LoneE4Pawn(), 0, White)
  {
    var o := LoneE4Pawn();
    assert SquareAt(4, 3) == 28;
    assert PawnOn(o, 0, White, 4, 3);
    assert Unopposed(o, 0, White, 4, 3);
    ScanMembers(IntendedPassedTest(o, 0, White), (4, 4));
  }

  // ---------------------------------------------------------------------
  // Doubled pawns

  /** The pawns of colour `c` on `file` at ranks `0 .. n - 1`, lowest rank
      first: `pawns_on_file`. */
  function FileScan<P>(o: Oracle<P>, p: P, c: Color, file: int, n: nat): seq<Pos>
    requires n <= 8
  {
    if n == 0 then []
    else FileScan(o, p, c, file, n - 1) + (if PawnOn(o, p, c, file, n - 1) then [SquareToPos(SquareAt(file, n - 1))] else [])
  }

  /** `pawns_on_file[1:]` when the file holds more than one pawn. */
  function AllButFirst(s: seq<Pos>): seq<Pos> {
    if |s| > 1 then s[1..] else []
  }

  lemma {:induction false} AllButFirstIn(s: seq<Pos>, q: Pos)
    requires q in AllButFirst(s)
    ensures q in s
  {
    var i :| 0 <= i < |AllButFirst(s)| && AllButFirst(s)[i] == q;
    assert s[i + 1] == q;
  }

  /** The doubled pawns of files `0 .. files - 1`. */
  function DoubledFiles<P>(o: Oracle<P>, p: P, c: Color, files: nat): seq<Pos>
    requires files <= 8
  {
    if files == 0 then [] else DoubledFiles(o, p, c, files - 1) + AllButFirst(FileScan(o, p, c, files - 1, 8))
  }

  /** `_get_doubled_pawn_pieces`. */
  function DoubledPawnPieces<P>(o: Oracle<P>, p: P, c: Color): seq<Pos> {
    DoubledFiles(o, p, c, 8)
  }

  method GetDoubledPawnPieces<P>(o: Oracle<P>, p: P, c: Color) returns (doubled: seq<Pos>)
    ensures doubled == DoubledPawnPieces(o, p, c)
  {
    doubled := [];
    for file := 0 to 8
      invariant doubled == DoubledFiles(o, p, c, file)
    {
      var pawnsOnFile := [];
      for rank := 0 to 8
        invariant pawnsOnFile == FileScan(o, p, c, file, rank)
      {
        var square := SquareAt(file, rank);
        var piece := o.pieceAt(p, square);
        if piece.Some? && piece.value.color == c && piece.value.kind == Pawn {
          pawnsOnFile := pawnsOnFile + [SquareToPos(square)];
        }
      }
      if |pawnsOnFile| > 1 {
        doubled := doubled + pawnsOnFile[1..];
      }
    }
  }

  lemma {:induction false} FileScanMembers<P>(o: Oracle<P>, p: P, c: Color, file: int, n: nat, q: Pos)
    requires 0 <= file < 8 && n <= 8
    ensures q in FileScan(o, p, c, file, n) <==>
      q.1 == file && 0 <= RankOf(q) < n && PawnOn(o, p, c, file, RankOf(q))
  {
    if n > 0 {
      var a := FileScan(o, p, c, file, n - 1);
      FileScanMembers(o, p, c, file, n - 1, q);
      if PawnOn(o, p, c, file, n - 1) {
        SquareAtPos(file, n - 1);
        var x := SquareToPos(SquareAt(file, n - 1));
        assert FileScan(o, p, c, file, n) == a + [x];
        assert q in a + [x] <==> q in a || q == x;
        assert q == x <==> q.1 == file && RankOf(q) == n - 1;
      } else {
        assert FileScan(o, p, c, file, n) == a;
        assert !(q.1 == file && RankOf(q) == n - 1 && PawnOn(o, p, c, file, RankOf(q)));
      }
    }
  }

  /** The scan of a file without its first entry holds exactly the pawns
      with a pawn of their colour on a lower rank of the file. */
  lemma {:induction false} TailMembers<P>(o: Oracle<P>, p: P, c: Color, file: int, n: nat, q: Pos)
    requires 0 <= file < 8 && n <= 8
    ensures q in AllButFirst(FileScan(o, p, c, file, n)) <==>
      q in FileScan(o, p, c, file, n) && PawnBelow(o, p, c, file, RankOf(q))
  {
    if n > 0 {
      var a := FileScan(o, p, c, file, n - 1);
      TailMembers(o, p, c, file, n - 1, q);
      if PawnOn(o, p, c, file, n - 1) {
        var x := SquareToPos(SquareAt(file, n - 1));
        SquareAtPos(file, n - 1);
        assert FileScan(o, p, c, file, n) == a + [x];
        AllButFirstSnoc(a, x);
        if q == x {
          LowerPawn(o, p, c, file, n - 1);
        } else {
          assert q in a + [x] <==> q in a;
        }
      } else {
        assert FileScan(o, p, c, file, n) == a;
      }
    }
  }

  /** A pawn of colour `c` on `file` below `rank`. */
  predicate PawnBelow<P>(o: Oracle<P>, p: P, c: Color, file: int, rank: int) {
    exists r :: 0 <= r < rank && PawnOn(o, p, c, file, r)
  }

  lemma {:induction false} AllButFirstSnoc(a: seq<Pos>, x: Pos)
    ensures AllButFirst(a + [x]) == if a == [] then [] else AllButFirst(a) + [x]
  {
    if a != [] {
      assert (a + [x])[1..] == a[1..] + [x];
    }
  }

  /** The scan of the ranks below `m` is empty exactly when no pawn stands
      there. */
  lemma {:induction false} LowerPawn<P>(o: Oracle<P>, p: P, c: Color, file: int, m: nat)
    requires 0 <= file < 8 && m <= 8
    ensures FileScan(o, p, c, file, m) != [] <==> PawnBelow(o, p, c, file, m)
  {
    var a := FileScan(o, p, c, file, m);
    if a != [] {
      FileScanMembers(o, p, c, file, m, a[0]);
    }
    if PawnBelow(o, p, c, file, m) {
      var r :| 0 <= r < m && PawnOn(o, p, c, file, r);
      FileScanMembers(o, p, c, file, m, (7 - r, file));
    }
  }

  lemma {:induction false} DoubledFilesMembers<P>(o: Oracle<P>, p: P, c: Color, files: nat, q: Pos)
    requires files <= 8
    ensures q in DoubledFiles(o, p, c, files) <==>
      0 <= q.1 < files && q in AllButFirst(FileScan(o, p, c, q.1, 8))
  {
    if files > 0 {
      var front := DoubledFiles(o, p, c, files - 1);
      var tail := AllButFirst(FileScan(o, p, c, files - 1, 8));
      DoubledFilesMembers(o, p, c, files - 1, q);
      assert DoubledFiles(o, p, c, files) == front + tail;
      assert q in front + tail <==> q in front || q in tail;
      if q in tail {
        AllButFirstIn(FileScan(o, p, c, files - 1, 8), q);
        FileScanMembers(o, p, c, files - 1, 8, q);
      }
    }
  }

  /** The doubled list holds exactly the pawns of colour `c` with another
      pawn of their colour on a lower rank of their file: every pawn of a
      file but the lowest. */
  lemma {:induction false} DoubledPawnPiecesExactly<P>(o: Oracle<P>, p: P, c: Color, q: Pos)
    ensures q in DoubledPawnPieces(o, p, c) <==>
      OnBoard(q.0, q.1) && PawnOn(o, p, c, q.1, RankOf(q)) && PawnBelow(o, p, c, q.1, RankOf(q))
  {
    DoubledFilesMembers(o, p, c, 8, q);
    if 0 <= q.1 < 8 {
      TailMembers(o, p, c, q.1, 8, q);
      FileScanMembers(o, p, c, q.1, 8, q);
    }
  }

  /** Counting a file from both ends: the session layer counts rows from
      the top, the display collects ranks from the bottom. */
  lemma {:induction false} FileCountsAgree<P>(o: Oracle<P>, p: P, c: Color, file: int, rows: nat)
    requires 0 <= file < 8 && rows <= 8
    ensures PawnStructure.FilePawns(ViewOf(o, p), file, c, rows) + |FileScan(o, p, c, file, 8 - rows)| ==
      |FileScan(o, p, c, file, 8)|
  {
    if rows > 0 {
      FileCountsAgree(o, p, c, file, rows - 1);
      PawnAgrees(o, p, c, rows - 1, file);
    }
  }

  lemma {:induction false} DoubledFilesCount<P>(o: Oracle<P>, p: P, c: Color, files: nat)
    requires files <= 8
    ensures |DoubledFiles(o, p, c, files)| == PawnStructure.DoubledBelow(ViewOf(o, p), c, files)
  {
    if files > 0 {
      DoubledFilesCount(o, p, c, files - 1);
      FileCountsAgree(o, p, c, files - 1, 8);
    }
  }

  /** The doubled list is as long as the session layer's
      `count_doubled_pawns`: the sum over files of the pawns beyond the
      first. */
  lemma {:induction false} DoubledPawnPiecesCount<P>(o: Oracle<P>, p: P, c: Color)
    ensures |DoubledPawnPieces(o, p, c)| == PawnStructure.DoubledCount(ViewOf(o, p), c)
  {
    DoubledFilesCount(o, p, c, 8);
  }

  // ---------------------------------------------------------------------
  // Developed pieces

  /** `starting_rank`. */
  function HomeRank(c: Color): int {
    if c == White then 0 else 7
  }

  /** `king_start`: e1 is square 4 and e8 square 60. */
  function KingStart(c: Color): int {
    if c == White then 4 else 60
  }

  /** A piece of colour `c` and kind `kind` off the home rank. */
  function OffHomeTest<P>(o: Oracle<P>, p: P, c: Color, kind: Kind): Pos -> bool {
    (q: Pos) => o.pieceAt(p, SquareAt(q.1, RankOf(q))) == Some(ColoredPiece(kind, c)) && RankOf(q) != HomeRank(c)
  }

  /** The first loop: for each kind in turn, its pieces off the home rank. */
  function OffHomePieces<P>(o: Oracle<P>, p: P, c: Color, kinds: seq<Kind>): seq<Pos> {
    if kinds == [] then []
    else OffHomePieces(o, p, c, kinds[..|kinds| - 1]) + Scan(OffHomeTest(o, p, c, kinds[|kinds| - 1]), 64)
  }

  /** The kinds developed by leaving the home rank. */
  function MinorKinds(): seq<Kind> {
    [Knight, Bishop, Queen]
  }

  /** The squares `0 .. n - 1` passing `test`, in order. */
  function SquareScan(test: int -> bool, n: nat): seq<int> {
    if n == 0 then [] else SquareScan(test, n - 1) + (if test(n - 1) then [n - 1] else [])
  }

  lemma {:induction false} SquareScanMembers(test: int -> bool, n: nat, sq: int)
    ensures sq in SquareScan(test, n) <==> 0 <= sq < n && test(sq)
  {
    if n > 0 {
      SquareScanMembers(test, n - 1, sq);
    }
  }

  /** `board.king(c)` over the squares below `n`: the library answers with
      the highest-numbered square holding a king of colour `c`. */
  function KingBelow<P>(o: Oracle<P>, p: P, c: Color, n: nat): Option<int> {
    if n == 0 then None
    else if o.pieceAt(p, n - 1) == Some(ColoredPiece(King, c)) then Some(n - 1)
    else KingBelow(o, p, c, n - 1)
  }

  function KingSquare<P>(o: Oracle<P>, p: P, c: Color): Option<int> {
    KingBelow(o, p, c, 64)
  }

  function RookTest<P>(o: Oracle<P>, p: P, c: Color): int -> bool {
    (sq: int) => o.pieceAt(p, sq) == Some(ColoredPiece(Rook, c))
  }

  /** `rook_squares`. */
  function RookSquares<P>(o: Oracle<P>, p: P, c: Color): seq<int> {
    SquareScan(RookTest(o, p, c), 64)
  }

  function Min(a: int, b: int): int {
    if a <= b then a else b
  }

  function Max(a: int, b: int): int {
    if a <= b then b else a
  }

  /** `rooks_connected`: exactly two rooks, both on the home rank, with
      only empty squares between them. */
  predicate RooksConnected<P>(o: Oracle<P>, p: P, c: Color, rooks: seq<int>) {
    |rooks| == 2 && rooks[0] / 8 == HomeRank(c) && rooks[1] / 8 == HomeRank(c) &&
    forall f :: Min(rooks[0] % 8, rooks[1] % 8) < f < Max(rooks[0] % 8, rooks[1] % 8) ==>
      o.pieceAt(p, SquareAt(f, HomeRank(c))).None?
  }

  /** The last loop: each rook in turn, when off the home rank or when the
      rooks are connected. */
  function RookEntries(rooks: seq<int>, c: Color, connected: bool): seq<Pos> {
    if rooks == [] then []
    else
      var r := rooks[|rooks| - 1];
      RookEntries(rooks[..|rooks| - 1], c, connected) + (if r / 8 != HomeRank(c) || connected then [SquareToPos(r)] else [])
  }

  /** `_get_developed_pieces`. `None` when the side has no king: the
      library's `king` answers `None`, which differs from the king's home
      square, and `coords_from_square(None)` raises. */
  function DevelopedPieces<P>(o: Oracle<P>, p: P, c: Color): Option<seq<Pos>> {
    match KingSquare(o, p, c)
    case None => None
    case Some(k) =>
      var rooks := RookSquares(o, p, c);
      Some(OffHomePieces(o, p, c, MinorKinds()) + KingEntry(k, c) + RookEntries(rooks, c, RooksConnected(o, p, c, rooks)))
  }

  /** The king's entry: its square, when it has left its home square. */
  function KingEntry(k: int, c: Color): seq<Pos> {
    if k != KingStart(c) then [SquareToPos(k)] else []
  }

  lemma {:induction false} DevelopedUnfold<P>(o: Oracle<P>, p: P, c: Color, k: int)
    requires KingSquare(o, p, c) == Some(k)
    ensures DevelopedPieces(o, p, c) ==
      Some(OffHomePieces(o, p, c, MinorKinds()) + KingEntry(k, c) +
           RookEntries(RookSquares(o, p, c), c, RooksConnected(o, p, c, RookSquares(o, p, c))))
  {
  }

  lemma {:induction false} OffHomeAt<P>(o: Oracle<P>, p: P, c: Color, kind: Kind, sq: int)
    requires 0 <= sq < 64
    ensures OffHomeTest(o, p, c, kind)(SquareToPos(sq)) ==
      (o.pieceAt(p, sq) == Some(ColoredPiece(kind, c)) && sq / 8 != HomeRank(c))
  {
    SquareParts(sq);
    var q := SquareToPos(sq);
    assert RankOf(q) == sq / 8 && q.1 == sq % 8;
    assert SquareAt(q.1, RankOf(q)) == sq;
  }

  method FindRooks<P>(o: Oracle<P>, p: P, c: Color) returns (rookSquares: seq<int>)
    ensures rookSquares == RookSquares(o, p, c)
  {
    rookSquares := [];
    for sq := 0 to 64
      invariant rookSquares == SquareScan(RookTest(o, p, c), sq)
    {
      var piece := o.pieceAt(p, sq);
      if piece.Some? && piece.value.color == c && piece.value.kind == Rook {
        rookSquares := rookSquares + [sq];
      }
    }
  }

  /** The check for connected rooks, with its scan of the squares between. */
  method CheckRooksConnected<P>(o: Oracle<P>, p: P, c: Color, rooks: seq<int>) returns (connected: bool)
    ensures connected == RooksConnected(o, p, c, rooks)
  {
    connected := false;
    if |rooks| == 2 {
      var r1, r2 := rooks[0], rooks[1];
      if r1 / 8 == HomeRank(c) && r2 / 8 == HomeRank(c) {
        var minFile, maxFile := Min(r1 % 8, r2 % 8), Max(r1 % 8, r2 % 8);
        var piecesBetween := false;
        var file := minFile + 1;
        while file < maxFile
          invariant !piecesBetween
          invariant forall f :: minFile < f < file ==> o.pieceAt(p, SquareAt(f, HomeRank(c))).None?
          decreases maxFile - file
        {
          if o.pieceAt(p, SquareAt(file, HomeRank(c))).Some? {
            piecesBetween := true;
            break;
          }
          file := file + 1;
        }
        if !piecesBetween {
          connected := true;
        }
      }
    }
  }

  /** The test of the first loop on one square. */
  method IsOffHome<P>(o: Oracle<P>, p: P, c: Color, kind: Kind, sq: int) returns (keep: bool)
    requires 0 <= sq < 64
    ensures keep == OffHomeTest(o, p, c, kind)(SquareToPos(sq))
  {
    OffHomeAt(o, p, c, kind, sq);
    var startingRank := HomeRank(c);
    var piece := o.pieceAt(p, sq);
    keep := piece.Some? && piece.value.color == c && piece.value.kind == kind && sq / 8 != startingRank;
  }

  /** One pass of the first loop: the pieces of `kind` off the home rank. */
  method CollectOffHome<P>(o: Oracle<P>, p: P, c: Color, kind: Kind) returns (found: seq<Pos>)
    ensures found == Scan(OffHomeTest(o, p, c, kind), 64)
  {
    found := [];
    ghost var test := OffHomeTest(o, p, c, kind);
    for sq := 0 to 64
      invariant found == Scan(test, sq)
    {
      var keep := IsOffHome(o, p, c, kind, sq);
      if keep {
        found := found + [SquareToPos(sq)];
      }
    }
  }

  lemma {:induction false} OffHomeStep<P>(o: Oracle<P>, p: P, c: Color, kinds: seq<Kind>, k: int)
    requires 0 <= k < |kinds|
    ensures OffHomePieces(o, p, c, kinds[..k + 1]) == OffHomePieces(o, p, c, kinds[..k]) + Scan(OffHomeTest(o, p, c, kinds[k]), 64)
  {
    assert kinds[..k + 1][..k] == kinds[..k];
  }

  /** The first loop over knights, bishops and queens. */
  method CollectMinors<P>(o: Oracle<P>, p: P, c: Color) returns (pieces: seq<Pos>)
    ensures pieces == OffHomePieces(o, p, c, MinorKinds())
  {
    pieces := [];
    var kinds := MinorKinds();
    for k := 0 to |kinds|
      invariant pieces == OffHomePieces(o, p, c, kinds[..k])
    {
      var found := CollectOffHome(o, p, c, kinds[k]);
      OffHomeStep(o, p, c, kinds, k);
      pieces := pieces + found;
    }
    assert kinds[..|kinds|] == kinds;
  }

  /** The last loop, appending the rooks that count as developed. */
  method AppendRooks(pieces: seq<Pos>, rookSquares: seq<int>, c: Color, connected: bool) returns (result: seq<Pos>)
    ensures result == pieces + RookEntries(rookSquares, c, connected)
  {
    result := pieces;
    var startingRank := HomeRank(c);
    for i := 0 to |rookSquares|
      invariant result == pieces + RookEntries(rookSquares[..i], c, connected)
    {
      var rookSquare := rookSquares[i];
      assert rookSquares[..i + 1][..i] == rookSquares[..i];
      if rookSquare / 8 != startingRank {
        result := result + [SquareToPos(rookSquare)];
      } else if connected {
        result := result + [SquareToPos(rookSquare)];
      }
    }
    assert rookSquares[..|rookSquares|] == rookSquares;
  }

  method GetDevelopedPieces<P>(o: Oracle<P>, p: P, c: Color) returns (developed: Option<seq<Pos>>)
    ensures developed == DevelopedPieces(o, p, c)
  {
    var pieces := CollectMinors(o, p, c);
    ghost var minors := pieces;
    var kingSquare := KingSquare(o, p, c);
    if kingSquare.None? {
      return None;
    }
    if kingSquare.value != KingStart(c) {
      pieces := pieces + [SquareToPos(kingSquare.value)];
    }
    assert pieces == minors + KingEntry(kingSquare.value, c);
    var rookSquares := FindRooks(o, p, c);
    var connected := CheckRooksConnected(o, p, c, rookSquares);
    pieces := AppendRooks(pieces, rookSquares, c, connected);
    developed := Some(pieces);
    DevelopedUnfold(o, p, c, kingSquare.value);
  }

  // Properties of the developed pieces

  predicate KingOn<P>(o: Oracle<P>, p: P, c: Color, sq: int) {
    o.pieceAt(p, sq) == Some(ColoredPiece(King, c))
  }

  lemma {:induction false} KingBelowSpec<P>(o: Oracle<P>, p: P, c: Color, n: nat)
    ensures KingBelow(o, p, c, n).None? <==> forall sq :: 0 <= sq < n ==> !KingOn(o, p, c, sq)
    ensures KingBelow(o, p, c, n).Some? ==>
      var k := KingBelow(o, p, c, n).value;
      0 <= k < n && KingOn(o, p, c, k) && forall sq :: k < sq < n ==> !KingOn(o, p, c, sq)
  {
    if n > 0 {
      KingBelowSpec(o, p, c, n - 1);
      if KingOn(o, p, c, n - 1) {
        assert KingBelow(o, p, c, n) == Some(n - 1);
      } else {
        assert KingBelow(o, p, c, n) == KingBelow(o, p, c, n - 1);
      }
    }
  }

  /** `board.king`: the highest-numbered square holding a king of the
      colour, and `None` only when there is none. */
  lemma {:induction false} KingSquareSpec<P>(o: Oracle<P>, p: P, c: Color)
    ensures KingSquare(o, p, c).None? <==> forall sq :: 0 <= sq < 64 ==> !KingOn(o, p, c, sq)
    ensures KingSquare(o, p, c).Some? ==>
      var k := KingSquare(o, p, c).value;
      0 <= k < 64 && KingOn(o, p, c, k) && forall sq :: k < sq < 64 ==> !KingOn(o, p, c, sq)
  {
    KingBelowSpec(o, p, c, 64);
  }

  /** The helper has an answer exactly when the side has a king. */
  lemma {:induction false} DevelopedNeedsKing<P>(o: Oracle<P>, p: P, c: Color)
    ensures DevelopedPieces(o, p, c).None? <==> forall sq :: 0 <= sq < 64 ==> !KingOn(o, p, c, sq)
  {
    KingSquareSpec(o, p, c);
  }

  /** The kinds the first loop looks for. */
  predicate LeavesHomeRank(kind: Kind) {
    kind == Knight || kind == Bishop || kind == Queen
  }

  /** A knight, bishop or queen of colour `c` at `q`, off its home rank. */
  predicate MinorDeveloped<P>(o: Oracle<P>, p: P, c: Color, q: Pos) {
    OnBoard(q.0, q.1) && RankOf(q) != HomeRank(c) &&
    var piece := o.pieceAt(p, SquareAt(q.1, RankOf(q)));
    piece.Some? && piece.value.color == c && LeavesHomeRank(piece.value.kind)
  }

  /** A rook of colour `c` at `q`, off its home rank or connected. */
  predicate RookDeveloped<P>(o: Oracle<P>, p: P, c: Color, q: Pos) {
    OnBoard(q.0, q.1) && o.pieceAt(p, SquareAt(q.1, RankOf(q))) == Some(ColoredPiece(Rook, c)) &&
    (RankOf(q) != HomeRank(c) || RooksConnected(o, p, c, RookSquares(o, p, c)))
  }

  /** A piece of colour `c` whose kind is among `kinds`, at `q` off the home rank. */
  predicate OffHomeAmong<P>(o: Oracle<P>, p: P, c: Color, kinds: seq<Kind>, q: Pos) {
    OnBoard(q.0, q.1) && RankOf(q) != HomeRank(c) &&
    var piece := o.pieceAt(p, SquareAt(q.1, RankOf(q)));
    piece.Some? && piece.value.color == c && piece.value.kind in kinds
  }

  lemma {:induction false} OffHomeKindMembers<P>(o: Oracle<P>, p: P, c: Color, kind: Kind, q: Pos)
    ensures q in Scan(OffHomeTest(o, p, c, kind), 64) <==> OffHomeAmong(o, p, c, [kind], q)
  {
    ScanMembers(OffHomeTest(o, p, c, kind), q);
  }

  lemma {:induction false} OffHomeKindsMembers<P>(o: Oracle<P>, p: P, c: Color, kinds: seq<Kind>, q: Pos)
    ensures q in OffHomePieces(o, p, c, kinds) <==> OffHomeAmong(o, p, c, kinds, q)
  {
    if kinds != [] {
      var init, last := kinds[..|kinds| - 1], kinds[|kinds| - 1];
      assert kinds == init + [last];
      OffHomeKindsMembers(o, p, c, init, q);
      OffHomeKindMembers(o, p, c, last, q);
      assert OffHomePieces(o, p, c, kinds) == OffHomePieces(o, p, c, init) + Scan(OffHomeTest(o, p, c, last), 64);
      assert OffHomeAmong(o, p, c, kinds, q) <==> OffHomeAmong(o, p, c, init, q) || OffHomeAmong(o, p, c, [last], q);
    }
  }

  lemma {:induction false} OffHomeMembers<P>(o: Oracle<P>, p: P, c: Color, q: Pos)
    ensures q in OffHomePieces(o, p, c, MinorKinds()) <==> MinorDeveloped(o, p, c, q)
  {
    OffHomeKindsMembers(o, p, c, MinorKinds(), q);
  }

  lemma {:induction false} RookEntriesMembers(rooks: seq<int>, c: Color, connected: bool, q: Pos)
    ensures q in RookEntries(rooks, c, connected) <==>
      exists sq :: sq in rooks && q == SquareToPos(sq) && (sq / 8 != HomeRank(c) || connected)
  {
    if rooks != [] {
      var init, last := rooks[..|rooks| - 1], rooks[|rooks| - 1];
      RookEntriesMembers(init, c, connected, q);
      assert rooks == init + [last];
      assert forall sq :: sq in rooks <==> sq in init || sq == last;
    }
  }

  lemma {:induction false} RookDevelopedListed<P>(o: Oracle<P>, p: P, c: Color, q: Pos)
    requires RookDeveloped(o, p, c, q)
    ensures q in RookEntries(RookSquares(o, p, c), c, RooksConnected(o, p, c, RookSquares(o, p, c)))
  {
    var rooks := RookSquares(o, p, c);
    var connected := RooksConnected(o, p, c, rooks);
    var sq := SquareAt(q.1, RankOf(q));
    SquareAtPos(q.1, RankOf(q));
    SquareScanMembers(RookTest(o, p, c), 64, sq);
    assert sq in rooks && q == SquareToPos(sq);
    assert sq / 8 == RankOf(q);
    RookEntriesMembers(rooks, c, connected, q);
  }

  lemma {:induction false} RookListedDeveloped<P>(o: Oracle<P>, p: P, c: Color, q: Pos)
    requires q in RookEntries(RookSquares(o, p, c), c, RooksConnected(o, p, c, RookSquares(o, p, c)))
    ensures RookDeveloped(o, p, c, q)
  {
    var rooks := RookSquares(o, p, c);
    var connected := RooksConnected(o, p, c, rooks);
    RookEntriesMembers(rooks, c, connected, q);
    var sq :| sq in rooks && q == SquareToPos(sq) && (sq / 8 != HomeRank(c) || connected);
    SquareScanMembers(RookTest(o, p, c), 64, sq);
    SquareParts(sq);
    assert SquareAt(q.1, RankOf(q)) == sq;
  }

  lemma {:induction false} RookEntriesExactly<P>(o: Oracle<P>, p: P, c: Color, q: Pos)
    ensures q in RookEntries(RookSquares(o, p, c), c, RooksConnected(o, p, c, RookSquares(o, p, c))) <==>
      RookDeveloped(o, p, c, q)
  {
    if RookDeveloped(o, p, c, q) {
      RookDevelopedListed(o, p, c, q);
    }
    if q in RookEntries(RookSquares(o, p, c), c, RooksConnected(o, p, c, RookSquares(o, p, c))) {
      RookListedDeveloped(o, p, c, q);
    }
  }

  /** A square is listed exactly when it holds a knight, bishop or queen
      off the home rank, the king away from its home square, or a rook
      off the home rank or connected to the other. */
  lemma {:induction false} DevelopedPiecesExactly<P>(o: Oracle<P>, p: P, c: Color, q: Pos)
    requires DevelopedPieces(o, p, c).Some?
    ensures q in DevelopedPieces(o, p, c).value <==>
      MinorDeveloped(o, p, c, q) ||
      (KingSquare(o, p, c).value != KingStart(c) && q == SquareToPos(KingSquare(o, p, c).value)) ||
      RookDeveloped(o, p, c, q)
  {
    OffHomeMembers(o, p, c, q);
    RookEntriesExactly(o, p, c, q);
    DevelopedUnfold(o, p, c, KingSquare(o, p, c).value);
  }
}
