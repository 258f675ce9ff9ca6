/** The game-session layer of `chess_board_backup.py`. The rules library's
    position is an opaque type `P` reached through an `Oracle` of total
    functions (legal moves, playing a move, the piece on a square, attacks,
    side to move, counters and game status). Over it the session keeps the
    move history, the last move and the undo/redo snapshot stacks, maps the
    application's (row, col) squares to the library's square indices,
    selects which legal move a request means, and scans the board for
    hanging pieces and pawn structure. */
module Session {
  import opened Types
  import opened Board
  import opened PawnStructure

  /** A move as the rules library lists it: square indices and an optional
      promotion kind. */
  datatype LibMove = LibMove(fromSquare: int, toSquare: int, promotion: Option<Kind>)

  /** The rules library's operations on its positions. */
  datatype Oracle<!P> = Oracle(
    initial: P,
    legalMoves: P -> seq<LibMove>,
    push: (P, LibMove) -> P,
    pieceAt: (P, int) -> Option<ColoredPiece>,
    isAttackedBy: (P, Color, int) -> bool,
    turn: P -> Color,
    fullmoveNumber: P -> nat,
    isCheck: P -> bool,
    isCheckmate: P -> bool,
    isStalemate: P -> bool)

  // ---------------------------------------------------------------------
  // Coordinates

  /** `_pos_to_square`: row 0 is rank 8 and the library numbers squares
      `rank * 8 + file`. The row and column are not checked. */
  function PosToSquare(row: int, col: int): (sq: int)
    ensures OnBoard(row, col) ==> 0 <= sq < 64
  {
    (7 - row) * 8 + col
  }

  /** `_square_to_pos`: rank `sq >> 3` and file `sq & 7`, which are Dafny's
      `sq / 8` and `sq % 8` for every integer. */
  function SquareToPos(sq: int): (p: Pos)
    ensures OnBoard(p.0, p.1) <==> 0 <= sq < 64
  {
    (7 - sq / 8, sq % 8)
  }

  lemma {:induction false} PosSquarePos(row: int, col: int)
    requires OnBoard(row, col)
    ensures SquareToPos(PosToSquare(row, col)) == (row, col)
  {
    var sq := PosToSquare(row, col);
    assert sq == (7 - row) * 8 + col;
    assert sq / 8 == 7 - row && sq % 8 == col;
  }

  lemma {:induction false} SquarePosSquare(sq: int)
    ensures PosToSquare(SquareToPos(sq).0, SquareToPos(sq).1) == sq
  {
  }

  /** `get_piece`: the library's piece, converted, on an on-board square;
      the flag `has_moved` is not tracked here and is always false. */
  function PieceOn<P>(o: Oracle<P>, p: P, row: int, col: int): (s: Square)
    ensures s.Some? <==> OnBoard(row, col) && o.pieceAt(p, PosToSquare(row, col)).Some?
    ensures s.Some? ==> s.value == Piece(o.pieceAt(p, PosToSquare(row, col)).value.kind,
                                         o.pieceAt(p, PosToSquare(row, col)).value.color, false)
  {
    if !OnBoard(row, col) then None
    else match o.pieceAt(p, PosToSquare(row, col))
      case None => None
      case Some(cp) => Some(Piece(cp.kind, cp.color, false))
  }

  /** The `board` property: the position as an 8x8 grid. */
  function ViewOf<P>(o: Oracle<P>, p: P): (g: Grid)
    ensures IsGrid(g)
    ensures forall r, c :: At(g, r, c) == PieceOn(o, p, r, c)
  {
    seq(8, r => seq(8, c => PieceOn(o, p, r, c)))
  }

  // ---------------------------------------------------------------------
  // Session state as a value

  /** An entry of `move_history` (the captured piece is always `None` in
      this layer and is not kept). */
  datatype HistoryEntry = HistoryEntry(fromSquare: Pos, toSquare: Pos, piece: Piece, promotion: Option<Kind>, moveNumber: nat)

  type LastMove = Option<(Pos, Pos)>

  /** One element of the undo or redo stack. */
  datatype Snapshot<P> = Snapshot(position: P, history: seq<HistoryEntry>, lastMove: LastMove)

  datatype Game<P> = Game(position: P, history: seq<HistoryEntry>, lastMove: LastMove,
                          undo: seq<Snapshot<P>>, redo: seq<Snapshot<P>>)

  function Current<P>(g: Game<P>): Snapshot<P> {
    Snapshot(g.position, g.history, g.lastMove)
  }

  /** The game with its current position, history and last move replaced. */
  function Restore<P>(g: Game<P>, s: Snapshot<P>): (h: Game<P>)
    ensures Current(h) == s && h.undo == g.undo && h.redo == g.redo
  {
    g.(position := s.position, history := s.history, lastMove := s.lastMove)
  }

  /** `_save_state_for_undo`. */
  function SaveForUndo<P>(g: Game<P>): Game<P> {
    g.(undo := g.undo + [Current(g)], redo := [])
  }

  /** `undo_move`: refused on an empty undo stack; otherwise the current
      state goes onto the redo stack and the top of the undo stack becomes
      current. */
  function Undo<P>(g: Game<P>): (r: (bool, Game<P>))
    ensures r.0 <==> g.undo != []
    ensures !r.0 ==> r.1 == g
    ensures r.0 ==> |r.1.undo| == |g.undo| - 1 && |r.1.redo| == |g.redo| + 1
  {
    if g.undo == [] then (false, g)
    else
      var top := g.undo[|g.undo| - 1];
      (true, Restore(g, top).(undo := g.undo[..|g.undo| - 1], redo := g.redo + [Current(g)]))
  }

  /** `redo_move`, the mirror image of `Undo`. */
  function Redo<P>(g: Game<P>): (r: (bool, Game<P>))
    ensures r.0 <==> g.redo != []
    ensures !r.0 ==> r.1 == g
    ensures r.0 ==> |r.1.redo| == |g.redo| - 1 && |r.1.undo| == |g.undo| + 1
  {
    if g.redo == [] then (false, g)
    else
      var top := g.redo[|g.redo| - 1];
      (true, Restore(g, top).(redo := g.redo[..|g.redo| - 1], undo := g.undo + [Current(g)]))
  }

  /** Redo takes back an undo. */
  lemma {:induction false} RedoAfterUndo<P>(g: Game<P>)
    requires g.undo != []
    ensures Redo(Undo(g).1) == (true, g)
  {
    var u := Undo(g).1;
    assert u.undo + [Current(u)] == g.undo;
    assert u.redo[..|u.redo| - 1] == g.redo;
  }

  /** Undo takes back a redo. */
  lemma {:induction false} UndoAfterRedo<P>(g: Game<P>)
    requires g.redo != []
    ensures Undo(Redo(g).1) == (true, g)
  {
    var u := Redo(g).1;
    assert u.redo + [Current(u)] == g.redo;
    assert u.undo[..|u.undo| - 1] == g.undo;
  }

  /** `reset_to_initial_position`. */
  function Reset<P>(o: Oracle<P>): (g: Game<P>)
    ensures g.position == o.initial && g.history == [] && g.lastMove.None? && g.undo == [] && g.redo == []
  {
    Game(o.initial, [], None, [], [])
  }

  /** `copy`: everything but the stacks, which start empty. */
  function CopyOf<P>(g: Game<P>): (h: Game<P>)
    ensures Current(h) == Current(g) && Undo(h).0 == false && Redo(h).0 == false
  {
    g.(undo := [], redo := [])
  }

  // ---------------------------------------------------------------------
  // Choosing a legal move

  /** Whether the legal move `m` answers a request from `from` to `to`:
      a move without promotion always does, a promotion only when it is to
      the requested kind. */
  predicate Accepts(m: LibMove, from: int, to: int, want: Option<Kind>) {
    m.fromSquare == from && m.toSquare == to && (m.promotion.None? || (want.Some? && m.promotion == want))
  }

  /** The position of the first accepted move in `moves`, `|moves|` when
      there is none: the loop over `legal_moves` that breaks at the first
      match. */
  function FirstAccepted(moves: seq<LibMove>, from: int, to: int, want: Option<Kind>): (i: nat)
    ensures i <= |moves|
    ensures i < |moves| ==> Accepts(moves[i], from, to, want)
    ensures forall j :: 0 <= j < i ==> !Accepts(moves[j], from, to, want)
  {
    if moves == [] then 0
    else if Accepts(moves[0], from, to, want) then 0
    else 1 + FirstAccepted(moves[1..], from, to, want)
  }

  function Select(moves: seq<LibMove>, from: int, to: int, want: Option<Kind>): (m: Option<LibMove>)
    ensures m.Some? ==> m.value in moves && Accepts(m.value, from, to, want)
    ensures m.None? ==> forall j :: 0 <= j < |moves| ==> !Accepts(moves[j], from, to, want)
  {
    var i := FirstAccepted(moves, from, to, want);
    if i < |moves| then Some(moves[i]) else None
  }

  /** `make_move` asks for a queen: it takes a promotion only to a queen. */
  lemma {:induction false} MakeMoveTakesOnlyQueenPromotion(moves: seq<LibMove>, from: int, to: int)
    ensures var m := Select(moves, from, to, Some(Queen));
      m.Some? ==> m.value.promotion.None? || m.value.promotion == Some(Queen)
  {
  }

  /** `make_move_with_promotion` takes a promotion only to the requested
      kind, and none at all when no kind is requested. */
  lemma {:induction false} PromotionMatchesRequest(moves: seq<LibMove>, from: int, to: int, want: Option<Kind>)
    ensures var m := Select(moves, from, to, want);
      m.Some? && m.value.promotion.Some? ==> m.value.promotion == want
  {
  }

  /** A legal move without promotion between the two squares is always
      found, whatever kind is requested. */
  lemma {:induction false} PlainMoveAlwaysFound(moves: seq<LibMove>, from: int, to: int, want: Option<Kind>, k: int)
    requires 0 <= k < |moves| && moves[k] == LibMove(from, to, None)
    ensures Select(moves, from, to, want).Some?
  {
    assert Accepts(moves[k], from, to, want);
  }

  // ---------------------------------------------------------------------
  // Making a move

  /** `make_move` (`want == Some(Queen)`, no promotion recorded) and
      `make_move_with_promotion` (`want` the requested kind, recorded when
      the chosen move promotes). */
  function Play<P>(o: Oracle<P>, g: Game<P>, fr: int, fc: int, tr: int, tc: int,
                   want: Option<Kind>, recordPromotion: bool): (r: (bool, Game<P>))
    ensures !r.0 <==> PieceOn(o, g.position, fr, fc).None? ||
                      PieceOn(o, g.position, fr, fc).value.color != o.turn(g.position) ||
                      Select(o.legalMoves(g.position), PosToSquare(fr, fc), PosToSquare(tr, tc), want).None?
    ensures !r.0 ==> r.1 == g
  {
    var piece := PieceOn(o, g.position, fr, fc);
    if piece.None? || piece.value.color != o.turn(g.position) then (false, g)
    else
      var chosen := Select(o.legalMoves(g.position), PosToSquare(fr, fc), PosToSquare(tr, tc), want);
      if chosen.None? then (false, g)
      else
        var m := chosen.value;
        var next := o.push(g.position, m);
        var promotion := if recordPromotion && m.promotion.Some? then want else None;
        var entry := HistoryEntry((fr, fc), (tr, tc), piece.value, promotion, o.fullmoveNumber(next));
        (true, SaveForUndo(g).(position := next, lastMove := Some(((fr, fc), (tr, tc))), history := g.history + [entry]))
  }

  function MakeMoveStep<P>(o: Oracle<P>, g: Game<P>, fr: int, fc: int, tr: int, tc: int): (bool, Game<P>) {
    Play(o, g, fr, fc, tr, tc, Some(Queen), false)
  }

  function MakeMoveWithPromotionStep<P>(o: Oracle<P>, g: Game<P>, fr: int, fc: int, tr: int, tc: int,
                                        promotion: Option<Kind>): (bool, Game<P>) {
    Play(o, g, fr, fc, tr, tc, promotion, true)
  }

  /** A move that succeeds plays the chosen legal move, pushes exactly one
      snapshot of the state before it, empties the redo stack, records the
      last move and adds one history entry for the moving piece. */
  lemma {:induction false} PlaySucceeds<P>(o: Oracle<P>, g: Game<P>, fr: int, fc: int, tr: int, tc: int,
                        want: Option<Kind>, recordPromotion: bool)
    requires Play(o, g, fr, fc, tr, tc, want, recordPromotion).0
    ensures var h := Play(o, g, fr, fc, tr, tc, want, recordPromotion).1;
      var m := Select(o.legalMoves(g.position), PosToSquare(fr, fc), PosToSquare(tr, tc), want).value;
      h.position == o.push(g.position, m) &&
      h.undo == g.undo + [Current(g)] && h.redo == [] &&
      h.lastMove == Some(((fr, fc), (tr, tc))) &&
      |h.history| == |g.history| + 1 && h.history[..|g.history|] == g.history &&
      h.history[|g.history|].fromSquare == (fr, fc) && h.history[|g.history|].toSquare == (tr, tc) &&
      h.history[|g.history|].piece == PieceOn(o, g.position, fr, fc).value
  {
    var h := Play(o, g, fr, fc, tr, tc, want, recordPromotion).1;
    assert h.history[..|g.history|] == g.history;
  }

  /** Undoing a successful move restores the position, history and last
      move from before it, and leaves the undo stack as it was. */
  lemma {:induction false} UndoAfterPlay<P>(o: Oracle<P>, g: Game<P>, fr: int, fc: int, tr: int, tc: int,
                         want: Option<Kind>, recordPromotion: bool)
    requires Play(o, g, fr, fc, tr, tc, want, recordPromotion).0
    ensures var h := Play(o, g, fr, fc, tr, tc, want, recordPromotion).1;
      Undo(h).0 && Current(Undo(h).1) == Current(g) && Undo(h).1.undo == g.undo &&
      Undo(h).1.redo == [Current(h)]
  {
    var h := Play(o, g, fr, fc, tr, tc, want, recordPromotion).1;
    assert h.undo == g.undo + [Current(g)];
    assert h.undo[..|h.undo| - 1] == g.undo;
  }

  // ---------------------------------------------------------------------
  // Queries over a position

  /** The destinations of the legal moves leaving square `from`, in the
      library's order. */
  function MoveTargets(moves: seq<LibMove>, from: int): (ts: seq<Pos>)
    ensures |ts| <= |moves|
  {
    if moves == [] then []
    else (if moves[0].fromSquare == from then [SquareToPos(moves[0].toSquare)] else []) + MoveTargets(moves[1..], from)
  }

  /** The targets are exactly the destinations of the moves from `from`. */
  lemma {:induction false} MoveTargetsMembers(moves: seq<LibMove>, from: int, q: Pos)
    ensures q in MoveTargets(moves, from) <==> exists m :: m in moves && m.fromSquare == from && SquareToPos(m.toSquare) == q
  {
    if moves != [] {
      MoveTargetsMembers(moves[1..], from, q);
      assert moves == [moves[0]] + moves[1..];
      assert forall m :: m in moves <==> m == moves[0] || m in moves[1..];
    }
  }

  /** `get_possible_moves`: nothing for an empty square or a piece of the
      side not to move. */
  function PossibleMovesOf<P>(o: Oracle<P>, p: P, row: int, col: int): seq<Pos> {
    var piece := PieceOn(o, p, row, col);
    if piece.None? || piece.value.color != o.turn(p) then []
    else MoveTargets(o.legalMoves(p), PosToSquare(row, col))
  }

  /** `_is_piece_hanging_simple`: a piece attacked by the enemy and not by
      its own side. */
  predicate Hanging<P>(o: Oracle<P>, p: P, row: int, col: int) {
    var piece := PieceOn(o, p, row, col);
    piece.Some? &&
    o.isAttackedBy(p, Opponent(piece.value.color), PosToSquare(row, col)) &&
    !o.isAttackedBy(p, piece.value.color, PosToSquare(row, col))
  }

  function HangingTest<P>(o: Oracle<P>, p: P, color: Color): Pos -> bool {
    (q: Pos) => PieceOn(o, p, q.0, q.1).Some? && PieceOn(o, p, q.0, q.1).value.color == color && Hanging(o, p, q.0, q.1)
  }

  /** The squares the hanging scan lists are exactly the hanging pieces of `color`. */
  lemma {:induction false} HangingListMembers<P>(o: Oracle<P>, p: P, color: Color)
    ensures forall q :: q in Filter(RowMajor(), HangingTest(o, p, color)) <==>
      OnBoard(q.0, q.1) && PieceOn(o, p, q.0, q.1).Some? && PieceOn(o, p, q.0, q.1).value.color == color &&
      Hanging(o, p, q.0, q.1)
  {
    var test := HangingTest(o, p, color);
    forall q: Pos
      ensures q in Filter(RowMajor(), test) <==>
        OnBoard(q.0, q.1) && PieceOn(o, p, q.0, q.1).Some? && PieceOn(o, p, q.0, q.1).value.color == color &&
        Hanging(o, p, q.0, q.1)
    {
      RowMajorMembers(test, q);
      assert test(q) <==>
        PieceOn(o, p, q.0, q.1).Some? && PieceOn(o, p, q.0, q.1).value.color == color && Hanging(o, p, q.0, q.1);
    }
  }

  /** `is_pawn_promotion`: a pawn moving onto the far back rank. */
  predicate PawnPromotion<P>(o: Oracle<P>, p: P, fr: int, fc: int, tr: int) {
    var piece := PieceOn(o, p, fr, fc);
    piece.Some? && piece.value.kind == Pawn && tr == HomeRow(Opponent(piece.value.color))
  }

  // ---------------------------------------------------------------------
  // The session object

  class BoardState<P> {
    const oracle: Oracle<P>
    var position: P
    var isCheck: bool
    var isInCheckmate: bool
    var isInStalemate: bool
    var moveHistory: seq<HistoryEntry>
    var lastMove: LastMove
    var undoStack: seq<Snapshot<P>>
    var redoStack: seq<Snapshot<P>>

    function State(): Game<P>
      reads this
    {
      Game(position, moveHistory, lastMove, undoStack, redoStack)
    }

    /** The status flags describe the current position. */
    predicate Valid()
      reads this
    {
      isCheck == oracle.isCheck(position) && isInCheckmate == oracle.isCheckmate(position) &&
      isInStalemate == oracle.isStalemate(position)
    }

    /** A fresh session on the library's starting position. */
    constructor(oracle: Oracle<P>)
      ensures this.oracle == oracle && State() == Reset(oracle) && Valid()
    {
      this.oracle := oracle;
      position := oracle.initial;
      moveHistory, lastMove := [], None;
      undoStack, redoStack := [], [];
      new;
      UpdateGameStatus();
    }

    /** `_update_game_status`. */
    method UpdateGameStatus()
      modifies this
      ensures Valid() && State() == old(State())
    {
      isCheck := oracle.isCheck(position);
      isInCheckmate := oracle.isCheckmate(position);
      isInStalemate := oracle.isStalemate(position);
    }

    function GetPiece(row: int, col: int): Square
      reads this
    {
      PieceOn(oracle, position, row, col)
    }

    /** `current_turn`: the side to move, as the rules library reports it
        for the current position. */
    function CurrentTurn(): (turn: Color)
      reads this
      ensures turn == oracle.turn(position)
    {
      oracle.turn(position)
    }

    function View(): Grid
      reads this
    {
      ViewOf(oracle, position)
    }

    /** `can_undo`: exactly when `undo_move` succeeds. */
    function CanUndo(): (can: bool)
      reads this
      ensures can <==> undoStack != []
      ensures can <==> Undo(State()).0
    {
      |undoStack| > 0
    }

    /** `can_redo`: exactly when `redo_move` succeeds. */
    function CanRedo(): (can: bool)
      reads this
      ensures can <==> redoStack != []
      ensures can <==> Redo(State()).0
    {
      |redoStack| > 0
    }

    method SaveStateForUndo()
      modifies this
      ensures State() == SaveForUndo(old(State()))
      ensures isCheck == old(isCheck) && isInCheckmate == old(isInCheckmate) && isInStalemate == old(isInStalemate)
    {
      undoStack := undoStack + [Snapshot(position, moveHistory, lastMove)];
      redoStack := [];
    }

    /** The scan of `legal_moves` for the first move that answers the
        request. */
    method FindLegalMove(from: int, to: int, want: Option<Kind>) returns (chosen: Option<LibMove>)
      ensures chosen == Select(oracle.legalMoves(position), from, to, want)
    {
      var moves := oracle.legalMoves(position);
      chosen := None;
      var k := 0;
      while k < |moves|
        invariant 0 <= k <= |moves|
        invariant forall j :: 0 <= j < k ==> !Accepts(moves[j], from, to, want)
      {
        var move := moves[k];
        if move.fromSquare == from && move.toSquare == to {
          if move.promotion.Some? {
            if want.Some? && move.promotion == want {
              chosen := Some(move);
              break;
            }
          } else {
            chosen := Some(move);
            break;
          }
        }
        k := k + 1;
      }
      ghost var i := FirstAccepted(moves, from, to, want);
      assert chosen.Some? ==> k == i;
      assert chosen.None? ==> i == |moves|;
    }

    /** The common body of `make_move` and `make_move_with_promotion`. */
    method PlayRequest(fromRow: int, fromCol: int, toRow: int, toCol: int, want: Option<Kind>,
                       recordPromotion: bool) returns (ok: bool)
      requires Valid()
      modifies this
      ensures Valid()
      ensures (ok, State()) == Play(oracle, old(State()), fromRow, fromCol, toRow, toCol, want, recordPromotion)
    {
      var piece := GetPiece(fromRow, fromCol);
      if piece.None? || piece.value.color != CurrentTurn() {
        return false;
      }
      var fromSquare := PosToSquare(fromRow, fromCol);
      var toSquare := PosToSquare(toRow, toCol);
      var chosen := FindLegalMove(fromSquare, toSquare, want);
      if chosen.None? {
        return false;
      }
      CommitMove(fromRow, fromCol, toRow, toCol, piece.value, chosen.value, want, recordPromotion);
      ok := true;
    }

    /** The part of `make_move` after the legal move is found: save the
        undo snapshot, push the move, refresh the status flags and record
        the history entry. */
    method CommitMove(fromRow: int, fromCol: int, toRow: int, toCol: int, piece: Piece, m: LibMove,
                      want: Option<Kind>, recordPromotion: bool)
      modifies this
      ensures Valid()
      ensures var next := oracle.push(old(position), m);
        var promotion := if recordPromotion && m.promotion.Some? then want else None;
        var entry := HistoryEntry((fromRow, fromCol), (toRow, toCol), piece, promotion, oracle.fullmoveNumber(next));
        State() == SaveForUndo(old(State())).(position := next, lastMove := Some(((fromRow, fromCol), (toRow, toCol))),
                                               history := old(moveHistory) + [entry])
    {
      SaveStateForUndo();
      position := oracle.push(position, m);
      lastMove := Some(((fromRow, fromCol), (toRow, toCol)));
      UpdateGameStatus();
      var promotion := if recordPromotion && m.promotion.Some? then want else None;
      moveHistory := moveHistory + [HistoryEntry((fromRow, fromCol), (toRow, toCol), piece, promotion,
                                                 oracle.fullmoveNumber(position))];
    }

    /** `make_move`: a promotion is taken only to a queen. */
    method MakeMove(fromRow: int, fromCol: int, toRow: int, toCol: int) returns (ok: bool)
      requires Valid()
      modifies this
      ensures Valid()
      ensures (ok, State()) == MakeMoveStep(oracle, old(State()), fromRow, fromCol, toRow, toCol)
    {
      ok := PlayRequest(fromRow, fromCol, toRow, toCol, Some(Queen), false);
    }

    /** `make_move_with_promotion`. */
    method MakeMoveWithPromotion(fromRow: int, fromCol: int, toRow: int, toCol: int,
                                 promotionPiece: Option<Kind>) returns (ok: bool)
      requires Valid()
      modifies this
      ensures Valid()
      ensures (ok, State()) == MakeMoveWithPromotionStep(oracle, old(State()), fromRow, fromCol, toRow, toCol, promotionPiece)
    {
      ok := PlayRequest(fromRow, fromCol, toRow, toCol, promotionPiece, true);
    }

    method UndoMove() returns (ok: bool)
      requires Valid()
      modifies this
      ensures Valid()
      ensures (ok, State()) == Undo(old(State()))
    {
      if !CanUndo() {
        return false;
      }
      redoStack := redoStack + [Snapshot(position, moveHistory, lastMove)];
      var previous := undoStack[|undoStack| - 1];
      undoStack := undoStack[..|undoStack| - 1];
      position, moveHistory, lastMove := previous.position, previous.history, previous.lastMove;
      UpdateGameStatus();
      ok := true;
    }

    method RedoMove() returns (ok: bool)
      requires Valid()
      modifies this
      ensures Valid()
      ensures (ok, State()) == Redo(old(State()))
    {
      if !CanRedo() {
        return false;
      }
      undoStack := undoStack + [Snapshot(position, moveHistory, lastMove)];
      var next := redoStack[|redoStack| - 1];
      redoStack := redoStack[..|redoStack| - 1];
      position, moveHistory, lastMove := next.position, next.history, next.lastMove;
      UpdateGameStatus();
      ok := true;
    }

    method ResetToInitialPosition()
      modifies this
      ensures Valid()
      ensures State() == Reset(oracle)
    {
      position := oracle.initial;
      UpdateGameStatus();
      moveHistory, lastMove := [], None;
      undoStack, redoStack := [], [];
    }

    method Copy() returns (c: BoardState<P>)
      requires Valid()
      ensures fresh(c) && c.oracle == oracle && c.Valid()
      ensures c.State() == CopyOf(State())
    {
      c := new BoardState(oracle);
      c.position := position;
      c.isCheck, c.isInCheckmate, c.isInStalemate := isCheck, isInCheckmate, isInStalemate;
      c.moveHistory := moveHistory;
      c.lastMove := lastMove;
      c.undoStack, c.redoStack := [], [];
    }

    /** `get_possible_moves`. */
    method GetPossibleMoves(row: int, col: int) returns (moves: seq<Pos>)
      ensures moves == PossibleMovesOf(oracle, position, row, col)
    {
      var piece := GetPiece(row, col);
      if piece.None? || piece.value.color != CurrentTurn() {
        return [];
      }
      var fromSquare := PosToSquare(row, col);
      var legal := oracle.legalMoves(position);
      moves := [];
      for k := 0 to |legal|
        invariant moves + MoveTargets(legal[k..], fromSquare) == MoveTargets(legal, fromSquare)
      {
        assert legal[k..][1..] == legal[k + 1..];
        if legal[k].fromSquare == fromSquare {
          moves := moves + [SquareToPos(legal[k].toSquare)];
        }
      }
    }

    function IsPawnPromotion(fromRow: int, fromCol: int, toRow: int, toCol: int): (promotes: bool)
      reads this
      ensures promotes <==> (GetPiece(fromRow, fromCol).Some? && GetPiece(fromRow, fromCol).value.kind == Pawn &&
        ((GetPiece(fromRow, fromCol).value.color == White && toRow == 0) ||
         (GetPiece(fromRow, fromCol).value.color == Black && toRow == 7)))
    {
      PawnPromotion(oracle, position, fromRow, fromCol, toRow)
    }

    /** `get_hanging_pieces`: the squares, in row-major order, of the
        pieces of `color` that are hanging. */
    method GetHangingPieces(color: Color) returns (hanging: seq<Pos>)
      ensures hanging == Filter(RowMajor(), HangingTest(oracle, position, color))
      ensures forall q :: q in hanging <==>
        OnBoard(q.0, q.1) && GetPiece(q.0, q.1).Some? && GetPiece(q.0, q.1).value.color == color &&
        Hanging(oracle, position, q.0, q.1)
    {
      hanging := [];
      ghost var test := HangingTest(oracle, position, color);
      for row := 0 to 8
        invariant hanging == Filter(RowMajor()[..8 * row], test)
      {
        hanging := HangingRow(row, color, hanging);
      }
      RowMajorWhole();
      HangingListMembers(oracle, position, color);
    }

    /** One row of the scan in `get_hanging_pieces`. */
    method HangingRow(row: int, color: Color, before: seq<Pos>) returns (hanging: seq<Pos>)
      requires 0 <= row < 8
      requires before == Filter(RowMajor()[..8 * row], HangingTest(oracle, position, color))
      ensures hanging == Filter(RowMajor()[..8 * row + 8], HangingTest(oracle, position, color))
    {
      hanging := before;
      ghost var test := HangingTest(oracle, position, color);
      for col := 0 to 8
        invariant hanging == Filter(RowMajor()[..8 * row + col], test)
      {
        RowMajorStep(row, col);
        FilterSnoc(RowMajor()[..8 * row + col], (row, col), test);
        var listed := HangingOfColor(row, col, color);
        if listed {
          hanging := hanging + [(row, col)];
        }
      }
    }

    /** The body of the scan in `get_hanging_pieces`. */
    method HangingOfColor(row: int, col: int, color: Color) returns (listed: bool)
      ensures listed == HangingTest(oracle, position, color)((row, col))
    {
      listed := false;
      var piece := GetPiece(row, col);
      if piece.Some? && piece.value.color == color {
        listed := IsPieceHangingSimple(row, col);
      }
    }

    /** `_is_piece_hanging_simple`. */
    method IsPieceHangingSimple(row: int, col: int) returns (hanging: bool)
      ensures hanging == Hanging(oracle, position, row, col)
    {
      var piece := GetPiece(row, col);
      if piece.None? {
        return false;
      }
      var enemy := if piece.value.color == White then Black else White;
      if !oracle.isAttackedBy(position, enemy, PosToSquare(row, col)) {
        return false;
      }
      if oracle.isAttackedBy(position, piece.value.color, PosToSquare(row, col)) {
        return false;
      }
      return true;
    }

    // -------------------------------------------------------------------
    // Pawn structure

    /** Whether the square holds a pawn of `color`. */
    method PawnOfColor(row: int, col: int, color: Color) returns (isPawn: bool)
      ensures isPawn == PawnAt(View(), row, col, color)
      ensures isPawn == PawnTest(View(), color)((row, col))
    {
      var piece := GetPiece(row, col);
      isPawn := piece.Some? && piece.value.color == color && piece.value.kind == Pawn;
    }

    /** Whether the square passes the per-square test of measure `m`. */
    method MeasureSquare(row: int, col: int, color: Color, m: Measure) returns (listed: bool)
      requires OnBoard(row, col)
      ensures listed == MeasureTest(View(), color, m)((row, col))
    {
      match m
      case PawnsMeasure => listed := PawnOfColor(row, col, color);
      case IsolatedMeasure => listed := IsIsolatedPawn(row, col, color);
      case BackwardMeasure => listed := IsBackwardPawn(row, col, color);
      case PassedMeasure => listed := IsPassedPawn(row, col, color);
    }

    /** One row of the counting loop shared by `count_pawns`,
        `count_isolated_pawns`, `count_backward_pawns` and
        `count_passed_pawns`. */
    method CountRow(row: int, color: Color, m: Measure, before: nat) returns (count: nat)
      requires 0 <= row < 8
      requires before == Count(RowMajor()[..8 * row], MeasureTest(View(), color, m))
      ensures count == Count(RowMajor()[..8 * row + 8], MeasureTest(View(), color, m))
    {
      count := before;
      ghost var test := MeasureTest(View(), color, m);
      for col := 0 to 8
        invariant count == Count(RowMajor()[..8 * row + col], test)
      {
        CountStep(row, col, test);
        var listed := MeasureSquare(row, col, color, m);
        if listed {
          count := count + 1;
        }
      }
    }

    /** The row-by-row counting loop of those four counters. */
    method CountMeasure(color: Color, m: Measure) returns (count: nat)
      ensures count == Count(RowMajor(), MeasureTest(View(), color, m))
    {
      count := 0;
      for row := 0 to 8
        invariant count == Count(RowMajor()[..8 * row], MeasureTest(View(), color, m))
      {
        count := CountRow(row, color, m, count);
      }
      RowMajorWhole();
    }

    /** `count_pawns`. */
    method CountPawns(color: Color) returns (count: nat)
      ensures count == PawnCount(View(), color)
    {
      count := CountMeasure(color, PawnsMeasure);
    }

    /** `get_pawn_counts`: white's, then black's. */
    method GetPawnCounts() returns (white: nat, black: nat)
      ensures white == PawnCount(View(), White) && black == PawnCount(View(), Black)
    {
      white := CountPawns(White);
      black := CountPawns(Black);
    }

    /** The scan of one file for a pawn of `color`, stopping at the first. */
    method PawnOnFileScan(file: int, color: Color) returns (found: bool)
      ensures found == PawnOnFile(View(), file, color)
    {
      found := false;
      var checkRow := 0;
      while checkRow < 8
        invariant 0 <= checkRow <= 8
        invariant forall r :: 0 <= r < checkRow ==> !PawnAt(View(), r, file, color)
      {
        var isPawn := PawnOfColor(checkRow, file, color);
        if isPawn {
          found := true;
          break;
        }
        checkRow := checkRow + 1;
      }
    }

    /** The test `count_isolated_pawns` applies to one square. */
    method IsIsolatedPawn(row: int, col: int, color: Color) returns (isolated: bool)
      ensures isolated == Isolated(View(), row, col, color)
      ensures isolated == IsolatedTest(View(), color)((row, col))
    {
      var isPawn := PawnOfColor(row, col, color);
      if !isPawn {
        return false;
      }
      var hasAdjacentPawn := false;
      if col > 0 {
        hasAdjacentPawn := PawnOnFileScan(col - 1, color);
      }
      if col < 7 && !hasAdjacentPawn {
        hasAdjacentPawn := PawnOnFileScan(col + 1, color);
      }
      isolated := !hasAdjacentPawn;
    }

    /** `count_isolated_pawns`. */
    method CountIsolatedPawns(color: Color) returns (count: nat)
      ensures count == IsolatedCount(View(), color)
    {
      count := CountMeasure(color, IsolatedMeasure);
    }

    /** `count_doubled_pawns`: per file, the pawns beyond the first. */
    method CountDoubledPawns(color: Color) returns (count: nat)
      ensures count == DoubledCount(View(), color)
    {
      count := 0;
      for col := 0 to 8
        invariant count == DoubledBelow(View(), color, col)
      {
        var pawnsOnFile := 0;
        for row := 0 to 8
          invariant pawnsOnFile == FilePawns(View(), col, color, row)
        {
          var isPawn := PawnOfColor(row, col, color);
          if isPawn {
            pawnsOnFile := pawnsOnFile + 1;
          }
        }
        if pawnsOnFile > 1 {
          count := count + pawnsOnFile - 1;
        }
      }
    }

    /** The scan of an adjacent file for a pawn of `color` behind `row`. */
    method PawnBehindScan(file: int, row: int, color: Color) returns (found: bool)
      ensures found == PawnBehindOnFile(View(), file, row, color)
    {
      found := false;
      var checkRow := 0;
      while checkRow < 8
        invariant 0 <= checkRow <= 8
        invariant forall r :: 0 <= r < checkRow ==> !(PawnAt(View(), r, file, color) && Behind(color, r, row))
      {
        var isPawn := PawnOfColor(checkRow, file, color);
        if isPawn && ((color == White && checkRow > row) || (color == Black && checkRow < row)) {
          found := true;
          break;
        }
        checkRow := checkRow + 1;
      }
    }

    /** Whether a pawn of `color` on the square can be defended by a pawn:
        one diagonally in its direction of travel, or one behind it on an
        adjacent file. */
    method CanBeDefendedScan(row: int, col: int, color: Color) returns (canBeDefended: bool)
      ensures canBeDefended == CanBeDefended(View(), row, col, color)
    {
      canBeDefended := DiagonalDefenderScan(row, col, color);
      if !canBeDefended {
        canBeDefended := RearDefenderScan(row, col, color);
      }
    }

    /** The first defence test of `count_backward_pawns`: a pawn of `color`
        on a neighbouring file one row in the pawn's direction of travel,
        that is one row ahead of it. */
    method DiagonalDefenderScan(row: int, col: int, color: Color) returns (canBeDefended: bool)
      ensures canBeDefended == DefendedDiagonally(View(), row, col, color)
    {
      var direction := if color == White then -1 else 1;
      canBeDefended := false;
      var defendRow := row + direction;
      if 0 <= defendRow < 8 {
        if col > 0 {
          var isPawn := PawnOfColor(defendRow, col - 1, color);
          if isPawn {
            canBeDefended := true;
          }
        }
        if col < 7 {
          var isPawn := PawnOfColor(defendRow, col + 1, color);
          if isPawn {
            canBeDefended := true;
          }
        }
      }
    }

    /** The second defence test of `count_backward_pawns`: a pawn of `color` behind on a
        neighbouring file, files scanned left then right. */
    method RearDefenderScan(row: int, col: int, color: Color) returns (canBeDefended: bool)
      ensures canBeDefended == SupportFromBehind(View(), row, col, color)
    {
      canBeDefended := false;
      var adjacent := [col - 1, col + 1];
      var k := 0;
      while k < 2
        invariant 0 <= k <= 2 && !canBeDefended
        invariant forall j :: 0 <= j < k ==> !(0 <= adjacent[j] < 8 && PawnBehindOnFile(View(), adjacent[j], row, color))
      {
        if 0 <= adjacent[k] < 8 {
          canBeDefended := PawnBehindScan(adjacent[k], row, color);
        }
        if canBeDefended {
          break;
        }
        k := k + 1;
      }
      assert canBeDefended ==> k < 2 && 0 <= adjacent[k] < 8 && PawnBehindOnFile(View(), adjacent[k], row, color);
      assert !canBeDefended ==> k == 2;
      assert adjacent[0] == col - 1 && adjacent[1] == col + 1;
    }

    /** Whether an enemy pawn guards the square in front of the pawn. */
    method AdvanceGuardedScan(row: int, col: int, color: Color) returns (guarded: bool)
      ensures guarded == AdvanceGuarded(View(), row, col, color)
    {
      var direction := if color == White then -1 else 1;
      var enemy := if color == White then Black else White;
      assert direction == Direction(color) && enemy == Opponent(color);
      guarded := false;
      var advanceRow := row + direction;
      if 0 <= advanceRow < 8 {
        var sides := [col - 1, col + 1];
        var enemyAttackRow := advanceRow + direction;
        var k := 0;
        while k < 2
          invariant 0 <= k <= 2 && !guarded
          invariant forall j :: 0 <= j < k ==> !(0 <= sides[j] < 8 && 0 <= enemyAttackRow < 8 &&
                                                 PawnAt(View(), enemyAttackRow, sides[j], enemy))
        {
          if 0 <= sides[k] < 8 && 0 <= enemyAttackRow < 8 {
            var isEnemyPawn := PawnOfColor(enemyAttackRow, sides[k], enemy);
            if isEnemyPawn {
              guarded := true;
              break;
            }
          }
          k := k + 1;
        }
        assert guarded ==> k < 2 && 0 <= sides[k] < 8 && 0 <= enemyAttackRow < 8 &&
                           PawnAt(View(), enemyAttackRow, sides[k], enemy);
        assert !guarded ==> k == 2;
        assert sides[0] == col - 1 && sides[1] == col + 1;
      }
    }

    /** The test `count_backward_pawns` applies to one square. */
    method IsBackwardPawn(row: int, col: int, color: Color) returns (backward: bool)
      ensures backward == Backward(View(), row, col, color)
      ensures backward == BackwardTest(View(), color)((row, col))
    {
      var isPawn := PawnOfColor(row, col, color);
      if !isPawn {
        return false;
      }
      var canBeDefended := CanBeDefendedScan(row, col, color);
      var guarded := AdvanceGuardedScan(row, col, color);
      backward := !canBeDefended && guarded;
    }

    /** `count_backward_pawns`. */
    method CountBackwardPawns(color: Color) returns (count: nat)
      ensures count == BackwardCount(View(), color)
    {
      count := CountMeasure(color, BackwardMeasure);
    }

    /** The walk from the pawn towards promotion along file `file`, stopping
        at the first enemy pawn. */
    method EnemyPawnAheadScan(row: int, file: int, color: Color) returns (found: bool)
      requires 0 <= file <= 7 && 0 <= row < 8
      ensures found == EnemyPawnAhead(View(), row, file, color)
    {
      var direction := if color == White then -1 else 1;
      var enemy := if color == White then Black else White;
      found := false;
      var checkRow := row + direction;
      while 0 <= checkRow <= 7
        invariant -1 <= checkRow <= 8 && Ahead(color, checkRow, row)
        invariant forall cr :: 0 <= cr < 8 && Ahead(color, cr, row) && Ahead(color, checkRow, cr) ==>
                    !PawnAt(View(), cr, file, enemy)
        decreases if color == White then checkRow + 1 else 8 - checkRow
      {
        var isEnemyPawn := PawnOfColor(checkRow, file, enemy);
        if isEnemyPawn {
          found := true;
          break;
        }
        checkRow := checkRow + direction;
      }
    }

    /** The test `count_passed_pawns` applies to one square. */
    method IsPassedPawn(row: int, col: int, color: Color) returns (passed: bool)
      requires OnBoard(row, col)
      ensures passed == Passed(View(), row, col, color)
      ensures passed == PassedTest(View(), color)((row, col))
    {
      var isPawn := PawnOfColor(row, col, color);
      if !isPawn || !((color == White && row <= 6) || (color == Black && row >= 1)) {
        return false;
      }
      passed := true;
      var files := [col - 1, col, col + 1];
      var k := 0;
      while k < 3
        invariant 0 <= k <= 3 && passed
        invariant forall j :: 0 <= j < k ==> !EnemyPawnAhead(View(), row, files[j], color)
      {
        if 0 <= files[k] <= 7 {
          var blocked := EnemyPawnAheadScan(row, files[k], color);
          if blocked {
            passed := false;
          }
        }
        if !passed {
          break;
        }
        k := k + 1;
      }
      assert !passed ==> k < 3 && EnemyPawnAhead(View(), row, files[k], color);
      assert passed ==> k == 3;
      assert passed ==> !EnemyPawnAhead(View(), row, files[0], color) && !EnemyPawnAhead(View(), row, files[1], color) && !EnemyPawnAhead(View(), row, files[2], color);
      assert PawnAt(View(), row, col, color) && PassedCandidate(row, color);
    }

    /** `count_passed_pawns`. */
    method CountPassedPawns(color: Color) returns (count: nat)
      ensures count == PassedCount(View(), color)
    {
      count := CountMeasure(color, PassedMeasure);
    }

    /** `get_pawn_statistics`: backward, isolated, doubled and passed counts,
        white's then black's. */
    method GetPawnStatistics() returns (white: (nat, nat, nat, nat), black: (nat, nat, nat, nat))
      ensures white == (BackwardCount(View(), White), IsolatedCount(View(), White),
                        DoubledCount(View(), White), PassedCount(View(), White))
      ensures black == (BackwardCount(View(), Black), IsolatedCount(View(), Black),
                        DoubledCount(View(), Black), PassedCount(View(), Black))
    {
      var wb := CountBackwardPawns(White);
      var wi := CountIsolatedPawns(White);
      var wd := CountDoubledPawns(White);
      var wp := CountPassedPawns(White);
      var bb := CountBackwardPawns(Black);
      var bi := CountIsolatedPawns(Black);
      var bd := CountDoubledPawns(Black);
      var bp := CountPassedPawns(Black);
      white := (wb, wi, wd, wp);
      black := (bb, bi, bd, bp);
    }
  }

  /** One more square of a row-major count. */
  lemma {:induction false} CountStep(row: int, col: int, test: Pos -> bool)
    requires OnBoard(row, col)
    ensures Count(RowMajor()[..8 * row + col + 1], test) ==
      Count(RowMajor()[..8 * row + col], test) + (if test((row, col)) then 1 else 0)
  {
    RowMajorStep(row, col);
    FilterSnoc(RowMajor()[..8 * row + col], (row, col), test);
  }

  /** One more square of the row-major scan. */
  lemma {:induction false} RowMajorStep(row: int, col: int)
    requires OnBoard(row, col)
    ensures RowMajor()[..8 * row + col + 1] == RowMajor()[..8 * row + col] + [(row, col)]
  {
    RowMajorIndex(row, col);
  }
}
