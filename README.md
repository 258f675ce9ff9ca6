# A verified model of a chess application's core

This project models the logic of a desktop chess application written in
Python and proves properties of the model in Dafny.

- **The stand-alone engine** (`chess_board.py`). An 8×8 grid of pieces:
  - the starting set-up and square reads and writes with bounds checks;
  - move generation (pawn pushes, captures and en passant, rook and bishop
    rays, knight and king jumps, the queen as rook then bishop);
  - `make_move` with its clocks, turn, en-passant target and move history;
  - the castling flags;
  - export of the position as a FEN record (section 16.1 of the PGN
    Standard).

  The engine's attack test is a stub that always answers "not attacked".
  The model keeps it that way, so check detection and the check step of
  `can_castle` are always false.
- **The game session** (`chess_board_backup.py`). It sits over the
  python-chess rules library. The library's position is an opaque type
  reached through an `Oracle` of total functions. On top of it the model
  keeps:
  - the (row, col) to square-index mapping;
  - how a move request is matched against the legal-move list;
  - the undo/redo snapshot stacks, reset and copy;
  - hanging pieces and `is_pawn_promotion`;
  - the four pawn-structure counters.
- **The PGN subsystem** (`pgn_manager.py`):
  - the writer (the Seven Tag Roster of section 8.1.1 of the PGN Standard,
    numbered move text and greedy wrapping at 80 columns);
  - the line-oriented reader with its move-text tokenizer;
  - the move resolver for castling, coordinate and SAN-like tokens.

  The reader and the writer are proved to round-trip a game's moves and
  result.
- **The display's board helpers** (`display.py`):
  - the pawn and development highlight scans;
  - the mouse-to-square and flip arithmetic;
  - the help-option toggle.

Loops in the source are modelled as methods with loop invariants. Each
method is proved equal to a specification function, and the lemmas state
the properties of those functions.

Module layout:

| module | file | models |
|---|---|---|
| `Types` | types.dfy | colours, kinds, positions, the row-major square order, `Filter` |
| `Text` | text.dfy | the Python string operations used: `str(int)`, `split()`, `strip()`, `split('\n')`, `join` |
| `Board` | board.dfy | `chess_board.py` |
| `PawnStructure` | pawn_structure.dfy | the pawn counters, as functions on a grid |
| `Session` | session.dfy | `chess_board_backup.py` |
| `PgnGames` | pgn_game.dfy | `PGNGame` and its writer |
| `PgnParser` | pgn_parser.dfy | `PGNParser` |
| `PgnRoundTrip` | pgn_round_trip.dfy | the writer/reader round trip |
| `PgnManager` | pgn_manager.dfy | `PGNManager`: conversion and the move resolver |
| `DisplayStatistics` | display_statistics.dfy | the highlight scans of `display.py` |
| `Display` | display.dfy | board geometry and the help options of `display.py` |

## Model

| member | source | states |
|---|---|---|
| `Board.Place` | chess_board.py:176-179 | writing a square changes exactly that square when it is on the board; off the board the grid is unchanged |
| `Board.At` | chess_board.py:170-174 | the square's content for an on-board square and `None` off the board |
| `Board.EmptyGrid` | chess_board.py:113 | the fresh grid is 8×8 and every square is empty |
| `Board.InitialLayout` | chess_board.py:144-168 | black back rank on row 0, black pawns on row 1, white pawns on row 6, white back rank on row 7, rows 2–5 empty |
| `Board.RayExact` | chess_board.py:370-390 | a ray holds at most 7 squares; its k-th entry is the k-th step; step k is listed iff every earlier step is empty and step k is empty or an enemy |
| `Board.JumpsSafe` | chess_board.py:392-402 | every knight or king jump lands on a square that is empty or holds an enemy |
| `Board.SlideSafe` | chess_board.py:404-428 | every rook, bishop or queen destination is on the board and empty or an enemy |
| `Board.PawnMovesOnBoard` | chess_board.py:337-368 | every pawn destination is on the board |
| `Board.MovesSafe` | chess_board.py:305-335 | every destination is on the board; a non-pawn never lands on its own colour; only an on-board origin has moves |
| `Board.AfterMove` | chess_board.py:460-484 | after a move: the origin is empty, the target holds the moved piece marked as moved, an en-passant capture empties `(from_row, to_col)`, and nothing else changes |
| `Board.PieceCharRead` | chess_board.py:47-51 | a piece's FEN letter reads back as its kind and colour |
| `Board.RankFenFromExpands` | chess_board.py:239-252 | expanding a rank's text (digits to empty squares) gives back the rank's squares |
| `Board.RankFenFromShape` | chess_board.py:239-252 | a rank's text holds only piece letters and digits 1–8, and no two digits are adjacent |
| `Board.PlacementReadsBack` | chess_board.py:239-254 | the placement field splits at '/' into 8 ranks, each of which expands to exactly 8 squares equal to the grid's row, with no adjacent digits |
| `Board.CastlingLettersHeld` | chess_board.py:259-270 | a castling letter appears in the field iff its right is held |
| `Board.CastlingLettersBelow` | chess_board.py:259-270 | the castling field holds only right letters, each at most once and in the order K, Q, k, q |
| `Board.CastlingFieldShape` | chess_board.py:259-270 | the castling field is "-" iff no right is held; otherwise it is the held letters of "KQkq", in that order |
| `Board.SquareName` | chess_board.py:273-276 | a square's name is a file letter a–h followed by a rank digit 1–8 |
| `Board.FenFields` | chess_board.py:234-284 | the FEN record splits into exactly six fields; the last two read back as the half-move clock and the full-move number |
| `Board.InitialFen` | chess_board.py:144-168 | the starting position exports as `rnbqkbnr/pppppppp/8/8/8/8/PPPPPPPP/RNBQKBNR w KQkq - 0 1` |
| `Board.CastlingRights.constructor` | chess_board.py:53-58 | all four rights are held at the start |
| `Board.CastlingRights.CanCastle` | chess_board.py:60-65 | the flag of the colour and side, which is held exactly when its letter appears in the FEN castling field |
| `Board.CastlingRights.LoseCastlingRight` | chess_board.py:67-78 | clears the one right named and keeps the other three |
| `Board.CastlingRights.LoseAllCastlingRights` | chess_board.py:80-87 | clears both rights of one colour and keeps the other colour's |
| `Board.BoardState.constructor` | chess_board.py:108-142 | a new state holds the starting grid, white to move, clocks at 0 and 1, no en-passant target, empty history, all castling rights |
| `Board.BoardState.FillRank` | chess_board.py:153-168 | one rank is filled with unmoved pieces of one colour; every other field is unchanged |
| `Board.BoardState.SetupInitialPosition` | chess_board.py:144-168 | the grid becomes the starting grid and nothing else changes |
| `Board.BoardState.SetPiece` | chess_board.py:176-179 | the grid becomes `Place` of the old grid; no other field changes |
| `Board.BoardState.GetPiece` | chess_board.py:170-174 | the grid's square when the square is on the board, and `None` off the board |
| `Board.BoardState.GetKingPosition` | chess_board.py:181-188 | answers the first king of the colour in row-major order, or `None` iff there is no such king |
| `Board.BoardState.IsSquareAttacked` | chess_board.py:190-198 | the stub answers false for every square |
| `Board.BoardState.IsKingInCheck` | chess_board.py:200-205 | therefore never in check |
| `Board.BoardState.CanCastle` | chess_board.py:207-232 | true iff the right is held and every square between king and rook is empty |
| `Board.BoardState.RankText` | chess_board.py:239-252 | the rank loop with its empty-square counter produces the rank's FEN text |
| `Board.BoardState.CastlingText` | chess_board.py:259-270 | the castling field for the current flags |
| `Board.BoardState.GetFenPosition` | chess_board.py:234-284 | the FEN record of the current grid, turn, rights, en-passant target and clocks |
| `Board.BoardState.SlidingMoves` | chess_board.py:370-390 | the ray loops, breaking at the first occupied square, produce the rays direction by direction |
| `Board.BoardState.RaySquares` | chess_board.py:376-388 | one ray's loop collects the empty squares in order and stops at the edge, including an enemy piece and excluding a friendly one |
| `Board.BoardState.JumpingMoves` | chess_board.py:392-402 | the offset loop keeps the on-board targets that are empty or enemy |
| `Board.BoardState.PawnPushes` | chess_board.py:341-352 | one step onto an empty square, and two steps from the start row when both squares are empty |
| `Board.BoardState.PawnCaptures` | chess_board.py:354-360 | the two diagonal squares that hold an enemy |
| `Board.BoardState.GetPawnMoves` | chess_board.py:337-368 | pushes, then captures, then the en-passant capture |
| `Board.BoardState.GetPossibleMoves` | chess_board.py:305-324 | the generator for the piece on the square, or nothing |
| `Board.BoardState.MakeMove` | chess_board.py:444-508 | fails and changes nothing unless the target is a possible move of a piece of the side to move; on success the grid is `AfterMove`, the turn flips, the full-move number rises after black, the half-move clock resets on pawn moves and captures, the en-passant target is set only by a double push, and one history entry is added |
| `Board.BoardState.ExecuteMove` | chess_board.py:460-508 | the state change of a checked move, field by field |
| `Board.BoardState.MovePieces` | chess_board.py:460-482 | the grid becomes `AfterMove`, the moved piece is marked as moved, the captured square is the old destination, and no other field changes |
| `Board.BoardState.RecordMove` | chess_board.py:470-506 | the en-passant target is the passed-over square of a pawn double step and none otherwise, the clocks and turn advance, one history entry is added, and the grid is unchanged |
| `Board.DoubleStepTarget` | chess_board.py:471-484 | a target exactly after a pawn's two-row step, namely the midpoint square, and it is on the board |
| `PawnStructure.MeasuresBounded` | chess_board_backup.py:532-688 | isolated, backward and passed counts never exceed the pawn count |
| `PawnStructure.DoubledIsPawnsMinusFiles` | chess_board_backup.py:628-644 | the doubled count is the number of pawns minus the number of files holding a pawn |
| `PawnStructure.InitialPawns` | chess_board_backup.py:516-524 | in the starting grid the pawns of a colour are exactly its pawn row |
| `PawnStructure.InitialPawnStructure` | chess_board_backup.py:516-644 | the starting grid has 8 pawns per side, none isolated and none doubled |
| `PawnStructure.FullPawnRow` | chess_board_backup.py:516-644 | any grid whose pawns of a colour fill exactly one row has 8 pawns, none isolated, none doubled |
| `PawnStructure.DiagonalAheadDefends` | chess_board_backup.py:546-559 | as written, a pawn diagonally ahead counts as a defender: with white pawns on e4 and d5 and a black pawn on f6, e4 is not counted as backward and the white backward count is 0, while the intended test counts e4 |
| `PawnStructure.IntendedDefendersAreBehind` | chess_board_backup.py:546-576 | with the diagonal test looking one row behind, a pawn can be defended exactly when a pawn of its colour stands behind it on a neighbouring file |
| `PawnStructure.BackwardUndercounted` | chess_board_backup.py:546-596 | the backward count as written never exceeds the intended count |
| `Session.PosToSquare` | chess_board_backup.py:146-150 | an on-board (row, col) maps to a square index in 0..63 |
| `Session.SquareToPos` | chess_board_backup.py:153-159 | the coordinates are on the board iff the index is in 0..63 |
| `Session.PosSquarePos` | chess_board_backup.py:146-159 | `_square_to_pos(_pos_to_square(r, c)) == (r, c)` on the board |
| `Session.SquarePosSquare` | chess_board_backup.py:146-159 | `_pos_to_square(_square_to_pos(s)) == s` for every index |
| `Session.PieceOn` | chess_board_backup.py:273-283 | a piece is reported iff the square is on the board and the library has a piece there, with its kind and colour |
| `Session.ViewOf` | chess_board_backup.py:203-212 | the grid view holds on every square what `get_piece` answers |
| `Session.Restore` | chess_board_backup.py:980-984 | restoring a snapshot makes it current and leaves both stacks alone |
| `Session.Undo` | chess_board_backup.py:970-989 | succeeds iff the undo stack is non-empty; on failure nothing changes; on success the undo stack shrinks by one and the redo stack grows by one |
| `Session.Redo` | chess_board_backup.py:991-1010 | succeeds iff the redo stack is non-empty; on failure nothing changes; on success the redo stack shrinks by one and the undo stack grows by one |
| `Session.RedoAfterUndo` | chess_board_backup.py:970-1010 | undo then redo restores the whole game, stacks included |
| `Session.UndoAfterRedo` | chess_board_backup.py:970-1010 | redo then undo restores the whole game, stacks included |
| `Session.Reset` | chess_board_backup.py:264-271 | the initial position, empty history, no last move, both stacks empty |
| `Session.CopyOf` | chess_board_backup.py:706-718 | the copy keeps position, history and last move, and can neither undo nor redo |
| `Session.FirstAccepted` | chess_board_backup.py:810-821 | the index of the first legal move the request accepts, or the list's length |
| `Session.Select` | chess_board_backup.py:810-821 | the chosen move is a legal move the request accepts; `None` only when no legal move is accepted |
| `Session.MakeMoveTakesOnlyQueenPromotion` | chess_board_backup.py:810-818 | `make_move` accepts a promotion only to a queen |
| `Session.PromotionMatchesRequest` | chess_board_backup.py:866-877 | `make_move_with_promotion` accepts only the requested promotion |
| `Session.PlainMoveAlwaysFound` | chess_board_backup.py:810-821 | a legal non-promotion move is accepted whatever promotion was requested |
| `Session.Play` | chess_board_backup.py:795-907 | fails and changes nothing iff the origin is empty, the piece is the wrong colour, or no legal move matches |
| `Session.PlaySucceeds` | chess_board_backup.py:825-846 | on success the chosen move is pushed, one snapshot is saved, the redo stack is emptied, the last move is set and one history entry is appended |
| `Session.UndoAfterPlay` | chess_board_backup.py:825-846 | undoing a successful move restores the position before it |
| `Session.MoveTargetsMembers` | chess_board_backup.py:775-793 | the targets are exactly the destinations of the legal moves from the square |
| `Session.BoardState.constructor` | chess_board_backup.py:116-142 | a new session is the reset state and its status flags are the library's |
| `Session.BoardState.UpdateGameStatus` | chess_board_backup.py:947-951 | the status flags are re-read and the game is unchanged |
| `Session.BoardState.SaveStateForUndo` | chess_board_backup.py:961-968 | pushes the current snapshot and clears the redo stack |
| `Session.BoardState.FindLegalMove` | chess_board_backup.py:810-821 | the loop over legal moves with its early break finds `Select` |
| `Session.BoardState.PlayRequest` | chess_board_backup.py:795-907 | the shared body of both move methods is `Play` |
| `Session.BoardState.CommitMove` | chess_board_backup.py:826-846 | the undo stack gets the old state, the position becomes the engine's next position, the last move is recorded and exactly one history entry is appended |
| `Session.BoardState.MakeMove` | chess_board_backup.py:795-848 | `Play` with a queen as the only promotion accepted, no promotion recorded |
| `Session.BoardState.MakeMoveWithPromotion` | chess_board_backup.py:850-907 | `Play` with the requested promotion, recorded in the history |
| `Session.BoardState.CurrentTurn` | chess_board_backup.py:214-217 | the side to move is the turn the rules library reports for the current position |
| `Session.BoardState.CanUndo` | chess_board_backup.py:953-955 | true exactly when the undo stack is non-empty, which is exactly when `Undo` succeeds |
| `Session.BoardState.CanRedo` | chess_board_backup.py:957-959 | true exactly when the redo stack is non-empty, which is exactly when `Redo` succeeds |
| `Session.BoardState.UndoMove` | chess_board_backup.py:970-989 | the new state is `Undo` of the old |
| `Session.BoardState.RedoMove` | chess_board_backup.py:991-1010 | the new state is `Redo` of the old |
| `Session.BoardState.ResetToInitialPosition` | chess_board_backup.py:264-271 | the new state is `Reset` |
| `Session.BoardState.Copy` | chess_board_backup.py:706-718 | a fresh session whose state is `CopyOf` the original |
| `Session.BoardState.GetPossibleMoves` | chess_board_backup.py:775-793 | the destinations of the legal moves from a square of the side to move |
| `Session.BoardState.IsPawnPromotion` | chess_board_backup.py:909-921 | true iff a white pawn moves to row 0 or a black pawn to row 7 |
| `Session.BoardState.GetHangingPieces` | chess_board_backup.py:352-363 | lists exactly the squares with pieces of the colour that are hanging, in row-major order |
| `Session.BoardState.HangingRow` | chess_board_backup.py:356-361 | one row of the scan extends the row-major hanging list by that row's hanging squares |
| `Session.HangingListMembers` | chess_board_backup.py:352-363 | a square is in the hanging list iff it is on the board and holds a hanging piece of the colour |
| `Session.BoardState.HangingOfColor` | chess_board_backup.py:356-362 | the per-square test of the hanging scan |
| `Session.BoardState.IsPieceHangingSimple` | chess_board_backup.py:365-381 | a piece is hanging iff the enemy attacks its square and its own side does not |
| `Session.BoardState.PawnOfColor` | chess_board_backup.py:516-524 | the per-square pawn test |
| `Session.BoardState.CountPawns` | chess_board_backup.py:516-524 | counts the colour's pawns |
| `Session.BoardState.GetPawnCounts` | chess_board_backup.py:526-530 | white and black pawn counts |
| `Session.BoardState.PawnOnFileScan` | chess_board_backup.py:608-622 | the file scan with early break finds whether the file holds a friendly pawn |
| `Session.BoardState.IsIsolatedPawn` | chess_board_backup.py:603-625 | a pawn is isolated iff neither adjacent file holds a friendly pawn |
| `Session.BoardState.CountIsolatedPawns` | chess_board_backup.py:598-626 | counts the isolated pawns |
| `Session.BoardState.CountDoubledPawns` | chess_board_backup.py:628-644 | sums, over files, the pawns beyond the first |
| `Session.BoardState.PawnBehindScan` | chess_board_backup.py:564-576 | finds a friendly pawn on a file behind the given row |
| `Session.BoardState.CanBeDefendedScan` | chess_board_backup.py:544-576 | a friendly pawn on a neighbouring file one row in the pawn's direction of travel (one row ahead of it), or a friendly pawn behind on a neighbouring file |
| `Session.BoardState.DiagonalDefenderScan` | chess_board_backup.py:547-559 | finds a pawn of the colour on a neighbouring file at `row + pawn_direction`, one row ahead of the pawn |
| `Session.BoardState.RearDefenderScan` | chess_board_backup.py:561-576 | finds a friendly pawn behind on an adjacent file |
| `Session.BoardState.AdvanceGuardedScan` | chess_board_backup.py:578-590 | an enemy pawn guards the square in front |
| `Session.BoardState.IsBackwardPawn` | chess_board_backup.py:539-594 | backward iff it cannot be defended and cannot safely advance |
| `Session.BoardState.CountBackwardPawns` | chess_board_backup.py:532-596 | counts the backward pawns |
| `Session.BoardState.EnemyPawnAheadScan` | chess_board_backup.py:674-680 | finds an enemy pawn ahead on a file |
| `Session.BoardState.IsPassedPawn` | chess_board_backup.py:663-686 | a pawn off its last rank is passed iff no enemy pawn lies ahead on its own or an adjacent file |
| `Session.BoardState.CountPassedPawns` | chess_board_backup.py:646-688 | counts the passed pawns |
| `Session.BoardState.GetPawnStatistics` | chess_board_backup.py:690-704 | the four counters for each colour, in the order backward, isolated, doubled, passed |
| `PgnGames.Lookup` | pgn_manager.py:25-27 | `None` iff no tag has the key; otherwise the stored pair |
| `PgnGames.SetTagIn` | pgn_manager.py:21-23 | the key then maps to the value; every other key keeps its value |
| `PgnGames.SetTagKeys` | pgn_manager.py:21-23 | a new key is appended to the insertion order; an existing key keeps its place |
| `PgnGames.TagValue` | pgn_manager.py:25-27 | the stored value, or the default when the key is absent |
| `PgnGames.RequiredLines` | pgn_manager.py:38-41 | the seven roster lines |
| `PgnGames.ExtraLines` | pgn_manager.py:43-46 | at most one line per stored tag |
| `PgnGames.WrapKeepsWords` | pgn_manager.py:70-90 | wrapping keeps the word sequence exactly; every line is non-empty, has no space at either end, and is at most `width` long or a single word |
| `PgnGames.WrapStepKeeps` | pgn_manager.py:76-85 | one loop step keeps the invariant: the finished lines and the current line spell the words read so far, and every line is non-empty, trimmed and within the width or a single word |
| `PgnGames.WrapAvoids` | pgn_manager.py:70-90 | wrapping introduces no character other than spaces |
| `PgnGames.MovesTextWords` | pgn_manager.py:50-59 | the move text's words are the moves with "n." before each white move |
| `PgnGames.MoveTextWords` | pgn_manager.py:50-61 | the result token comes last |
| `PgnGames.PgnGame.constructor` | pgn_manager.py:16-19 | no tags, no moves, result "*" |
| `PgnGames.PgnGame.SetTag` | pgn_manager.py:21-23 | the tags become `SetTagIn` of the old tags; moves and result unchanged |
| `PgnGames.PgnGame.GetTag` | pgn_manager.py:25-27 | the stored value, or the default |
| `PgnGames.PgnGame.AddMove` | pgn_manager.py:29-31 | appends one move; tags and result unchanged |
| `PgnGames.PgnGame.ToPgn` | pgn_manager.py:33-68 | the writer's loops produce `PgnText` of the record |
| `PgnGames.PgnGame.MoveTextLoop` | pgn_manager.py:52-58 | the numbered move text |
| `PgnGames.PgnGame.WrapText` | pgn_manager.py:70-90 | the greedy wrapping loop produces `Wrap` |
| `PgnParser.RemoveSpans` | pgn_manager.py:152-153 | removing `{…}` or `(…)` spans never lengthens the text or adds characters, and leaves no opener followed by its closer |
| `PgnParser.DigitRun` | pgn_manager.py:171 | the length of the leading run of digits |
| `PgnParser.StripAnnotations` | pgn_manager.py:179 | removes exactly the trailing run of `?!+#` |
| `PgnParser.Classify` | pgn_manager.py:160-181 | a token stops parsing only with a result token; a kept move is non-empty, has no trailing annotation and does not start with a move number |
| `PgnParser.ParseTokens` | pgn_manager.py:156-183 | the result is always a result token, and "*" when no token is one |
| `PgnParser.KeptMovesClean` | pgn_manager.py:160-181 | every kept move is clean |
| `PgnParser.StopsAtResult` | pgn_manager.py:166-168 | parsing stops at the first result token; later tokens are ignored |
| `PgnParser.WordRun` | pgn_manager.py:128 | the leading run of `\w` characters |
| `PgnParser.SpaceRun` | pgn_manager.py:128 | the leading run of `\s` characters |
| `PgnParser.LastQuoteClose` | pgn_manager.py:128 | the last `"]` at or after a position, as the greedy `(.*)` finds it |
| `PgnParser.MatchTag` | pgn_manager.py:128-131 | a matched key is a non-empty word and the value holds no line break |
| `PgnParser.QuotedValue` | pgn_manager.py:128-131 | the quoted tag value holds no line break |
| `PgnParser.ScanLinesAppend` | pgn_manager.py:105-137 | scanning lines is a left fold: scanning `a + b` is scanning `b` after `a` |
| `PgnParser.BlankClosesGame` | pgn_manager.py:108-120 | once move text has begun, a blank line appends the open game with its parsed moves and result and resets the game, the flag and the move text |
| `PgnParser.BlankKeepsTags` | pgn_manager.py:108-120 | before any move text a blank line changes nothing, so the tags read so far carry over into the next game |
| `PgnParser.TagsOnlyYieldNothing` | pgn_manager.py:105-145 | text made only of tag lines and blank lines yields no game |
| `PgnParser.ScanLinesAfter` | pgn_manager.py:105-137 | the games already finished take no part in reading the remaining lines |
| `PgnParser.BlankLineSeparates` | pgn_manager.py:105-146 | after a game whose move text has begun, a blank line separates it: the whole text yields that game followed by what the rest yields on its own |
| `PgnParser.ReadToken` | pgn_manager.py:160-181 | the token step of the loop is `Classify` |
| `PgnParser.ParseMoves` | pgn_manager.py:149-183 | the token loop with its early break is `ParseMovesSpec` |
| `PgnParser.CloseGame` | pgn_manager.py:111-115 | the game gets its moves and result and is appended |
| `PgnParser.ReadTag` | pgn_manager.py:128-131 | a matching tag line sets the tag; any other line is ignored |
| `PgnParser.ParsePgn` | pgn_manager.py:96-146 | the line loop is `ParsePgnSpec`, games closing at blank lines and at the end |
| `PgnRoundTrip.SplitPgnText` | pgn_manager.py:99 | splitting the stripped text written at pgn_manager.py:68 at line breaks gives back the written lines |
| `PgnRoundTrip.ScanTagLines` | pgn_manager.py:122-131 | tag lines open a game and add no move text |
| `PgnRoundTrip.ScanMoveLines` | pgn_manager.py:132-137 | move lines are appended to the move text, each after a space |
| `PgnRoundTrip.MoveNumberIsSkipped` | pgn_manager.py:171-172 | a written move number "n." is skipped by the reader |
| `PgnRoundTrip.PlainMoveIsKept` | pgn_manager.py:178-181 | a clean move token is kept unchanged |
| `PgnRoundTrip.ResultStops` | pgn_manager.py:166-168 | a result token ends the move list and becomes the result |
| `PgnRoundTrip.ParseMoveTokens` | pgn_manager.py:160-183 | reading the move tokens and result written at pgn_manager.py:53-61 gives back the moves and the result |
| `PgnRoundTrip.ParseMoveLines` | pgn_manager.py:149-183 | the same through the lines wrapped at pgn_manager.py:64 |
| `PgnRoundTrip.RoundTrip` | pgn_manager.py:33-146 | for a game whose moves are plain move tokens, whose result is a result token and whose tags hold no line break, reading the written text yields exactly one game with the same moves and result |
| `PgnRoundTrip.TwoGames` | pgn_manager.py:96-146 | two written games joined by a blank line read back as the records each text gives alone, so no tag of the first reaches the second |
| `PgnRoundTrip.TwoGamesRoundTrip` | pgn_manager.py:33-146 | two such games read back as exactly two records with their own moves and results |
| `PgnRoundTrip.SplitTwoJoined` | pgn_manager.py:99 | two joined line lists with a blank line between split back into the first list, a blank line and the second list |
| `PgnManager.FileChar` | pgn_manager.py:256 | a column 0..7 becomes a lower-case letter at offset col from 'a' |
| `PgnManager.SquareName` | pgn_manager.py:256-257 | an on-board square's name is a file letter a–h and a rank digit 1–8 |
| `PgnManager.SquareNameRoundTrip` | pgn_manager.py:256-257 | decoding a square's name gives back the square |
| `PgnManager.ParseSquareRoundTrip` | pgn_manager.py:327-330 | encoding a decoded name gives back the name |
| `PgnManager.ConvertAllSpec` | pgn_manager.py:246-277 | one token per history entry, each the entry's conversion, when the conversion succeeds; a failure only when some entry cannot be converted |
| `PgnManager.ConvertMovesToAlgebraic` | pgn_manager.py:246-277 | the conversion loop is `ConvertAll` |
| `PgnManager.CastleRequest` | pgn_manager.py:462-481 | castling moves the king from e1 or e8 to the g or c file of the same rank |
| `PgnManager.CastleSquareNames` | pgn_manager.py:462-481 | in square names: e1→g1, e1→c1, e8→g8, e8→c8 |
| `PgnManager.PromotionKind` | pgn_manager.py:335-342 | the kind read from a letter is the one written with that letter |
| `PgnManager.ConvertedMoveRoundTrip` | pgn_manager.py:256-273 | a converted move reads back (pgn_manager.py:324-342) as the same squares and promotion |
| `PgnManager.RemoveChar` | pgn_manager.py:395 | no capture mark `x` is left and the text gets no longer |
| `PgnManager.RemoveCharMembers` | pgn_manager.py:395 | every character other than the removed `x` is kept |
| `PgnManager.DestAtEnd` | pgn_manager.py:398-404 | a destination found at the end is on the board |
| `PgnManager.SanParse` | pgn_manager.py:358-407 | a parsed SAN token has an on-board destination and a hint without 'x' |
| `PgnManager.SanRoundTrip` | pgn_manager.py:358-407 | a SAN token built from a kind, hint, capture mark, destination, promotion and check mark parses back to those parts |
| `PgnManager.SanCoreRoundTrip` | pgn_manager.py:358-407 | a piece letter, hint, capture mark and any two-character square name followed by promotion and check marks parse back to those parts |
| `PgnManager.SanParseOf` | pgn_manager.py:358-375 | stripping the check mark and the promotion suffix leaves the core token and the promotion piece |
| `PgnManager.FirstMatching` | pgn_manager.py:433-440 | the first candidate fitting the hint, as `next(...)` finds it |
| `PgnManager.HintFilter` | pgn_manager.py:430-440 | a hint is usable unless it is two characters whose second is not a digit |
| `PgnManager.Disambiguate` | pgn_manager.py:426-446 | the first fitting candidate, else the first candidate |
| `PgnManager.CandidatesExactly` | pgn_manager.py:410-420 | a square is a candidate iff it holds a piece of the side to move and kind whose moves reach the destination |
| `PgnManager.PickCandidate` | pgn_manager.py:422-451 | the chosen origin is one of the candidates |
| `PgnManager.SanResolution` | pgn_manager.py:409-451 | no candidate fails; a single candidate is used whatever the hint says; several use the hint's filter with fallback to the first in row-major order |
| `PgnManager.ConvertedMoveResolves` | pgn_manager.py:296-353 | a move converted at pgn_manager.py:256-273 is resolved to the same request |
| `PgnManager.ApplyToken` | pgn_manager.py:296-318 | a token that cannot be played changes nothing |
| `PgnManager.StopsAtFirstFailure` | pgn_manager.py:286-291 | applying stops at the first failing token; earlier moves stay applied |
| `PgnManager.AppliedMovesAreRecorded` | pgn_manager.py:286-291 | when every token plays, the history grows by one entry per token |
| `PgnManager.ApplyRequestTo` | pgn_manager.py:345-350 | a request is played with `make_move` or `make_move_with_promotion` |
| `PgnManager.ApplyCastling` | pgn_manager.py:462-481 | castling plays the king move of the side to move |
| `PgnManager.ApplyCoordinateMove` | pgn_manager.py:321-353 | an unreadable token fails and changes nothing; otherwise its request is played |
| `PgnManager.IsCandidate` | pgn_manager.py:415-420 | the per-square candidate test |
| `PgnManager.FindCandidates` | pgn_manager.py:411-420 | the double loop collects `Candidates` |
| `PgnManager.ReadSan` | pgn_manager.py:358-407 | the token-cleaning steps compute `SanParse` |
| `PgnManager.ResolveSan` | pgn_manager.py:356-451 | the resolver computes `SanRequest` |
| `PgnManager.ChooseCandidate` | pgn_manager.py:426-446 | the disambiguation step computes `PickCandidate` |
| `PgnManager.ApplyStandardAlgebraicMove` | pgn_manager.py:356-459 | an unresolvable token fails and changes nothing; otherwise its request is played |
| `PgnManager.ApplyAlgebraicMove` | pgn_manager.py:296-318 | strips the token and dispatches castling, coordinate and SAN tokens |
| `PgnManager.ApplyPgnGameToBoard` | pgn_manager.py:280-293 | resets the board, then applies the moves up to the first failure |
| `DisplayStatistics.LibraryOrder` | display.py:437 | `chess.SQUARES` as coordinates: index i holds `_square_to_pos(i)` |
| `DisplayStatistics.GetPawnPieces` | display.py:435-442 | the scan lists the colour's pawns in library order |
| `DisplayStatistics.PawnPiecesExactly` | display.py:435-442 | a square is listed iff it holds a pawn of the colour |
| `DisplayStatistics.PawnPiecesCount` | display.py:435-442 | the number listed equals `count_pawns` (chess_board_backup.py:516-524) on the same board |
| `DisplayStatistics.FindPawnOnFile` | display.py:494-505 | the file scan with early break finds whether the file holds a friendly pawn |
| `DisplayStatistics.HasAdjacentPawn` | display.py:492-507 | a friendly pawn exists on an adjacent file |
| `DisplayStatistics.GetIsolatedPawnPieces` | display.py:488-511 | the scan lists the isolated pawns |
| `DisplayStatistics.IsolatedPawnPiecesExactly` | display.py:488-511 | a square is listed iff it holds a pawn of the colour with no friendly pawn on either adjacent file, at any rank |
| `DisplayStatistics.IsolatedPawnPiecesCount` | display.py:488-511 | the number listed equals `count_isolated_pawns` (chess_board_backup.py:598-626) |
| `DisplayStatistics.CheckDefended` | display.py:455-466 | a friendly pawn on an adjacent file one rank behind |
| `DisplayStatistics.CheckSafeAdvance` | display.py:468-481 | the advance is safe iff no enemy pawn stands on an adjacent file two ranks ahead |
| `DisplayStatistics.GetBackwardPawnPieces` | display.py:444-486 | the scan lists the backward pawns |
| `DisplayStatistics.BackwardPawnPiecesExactly` | display.py:444-486 | listed iff no friendly pawn on an adjacent file at rank − dir and an enemy pawn on an adjacent file at rank + 2·dir |
| `DisplayStatistics.ScanAhead` | display.py:560-570 | finds an enemy pawn strictly ahead on one file |
| `DisplayStatistics.CheckPassed` | display.py:556-571 | no enemy pawn strictly ahead on the file or its neighbours |
| `DisplayStatistics.GetPassedPawnPieces` | display.py:531-575 | the scan lists the highlighted passed pawns |
| `DisplayStatistics.PassedPawnPiecesExactly` | display.py:531-575 | listed iff on a rank the filter admits (white rank index ≤ 1, black ≥ 6) and no enemy pawn lies ahead |
| `DisplayStatistics.PassedHighlightMissesE4` | display.py:538-551 | a lone white pawn on e4 is counted as passed by chess_board_backup.py:665 but not highlighted |
| `DisplayStatistics.IntendedPassedMatchesCount` | display.py:531-575 | with the rank filter that `count_passed_pawns` (chess_board_backup.py:646-688) uses, the number highlighted equals the count |
| `DisplayStatistics.GetDoubledPawnPieces` | display.py:513-529 | the per-file scan lists every pawn but the lowest-rank one |
| `DisplayStatistics.DoubledPawnPiecesExactly` | display.py:513-529 | listed iff a pawn of the colour with another friendly pawn below it on its file |
| `DisplayStatistics.DoubledPawnPiecesCount` | display.py:513-529 | the number listed equals `count_doubled_pawns` (chess_board_backup.py:628-644), the sum over files of max(0, n − 1) |
| `DisplayStatistics.FindRooks` | display.py:403-408 | collects the squares of the colour's rooks |
| `DisplayStatistics.CheckRooksConnected` | display.py:410-424 | connected iff exactly two rooks, both on the home rank, with only empty squares between |
| `DisplayStatistics.CollectOffHome` | display.py:391-396 | one kind's pieces off the home rank |
| `DisplayStatistics.IsOffHome` | display.py:393-395 | the square holds a piece of the kind and colour off its home rank |
| `DisplayStatistics.CollectMinors` | display.py:390-396 | knights, then bishops, then queens off the home rank |
| `DisplayStatistics.AppendRooks` | display.py:426-431 | appends each rook off the home rank, or every rook when connected |
| `DisplayStatistics.GetDevelopedPieces` | display.py:379-433 | the whole helper; `None` when the side has no king |
| `DisplayStatistics.KingSquareSpec` | display.py:399 | `board.king` is the highest square holding a king of the colour, or `None` iff there is none |
| `DisplayStatistics.DevelopedNeedsKing` | display.py:398-401 | the helper has an answer iff the side has a king |
| `DisplayStatistics.DevelopedPiecesExactly` | display.py:379-433 | listed iff a knight, bishop or queen off the home rank, the king away from e1/e8, or a rook off the home rank or connected |
| `Display.MakeLayout` | display.py:33-34 | `square_size = board_size // 8`: eight squares fit and leave fewer than 8 pixels over |
| `Display.Flip` | display.py:1200-1201 | flipping keeps a square on the board and is its own inverse |
| `Display.SquareDisplayPosition` | display.py:1197-1206 | the drawn square lies inside the board, at the displayed square's offset |
| `Display.SquareFromMouse` | display.py:1208-1222 | a selected square is on the board and the mouse lies inside it |
| `Display.MouseOnBoard` | display.py:1208-1222 | a square is selected iff the mouse lies within the eight drawn squares in both directions |
| `Display.ClickSelectsDrawnSquare` | display.py:1197-1222 | every pixel of a drawn square selects that square once the flip is undone |
| `Display.ToggleFlips` | display.py:640-647 | toggling a present key flips what the lookup answers for it |
| `Display.ToggleKeepsOthers` | display.py:640-647 | toggling leaves the lookup of every other key unchanged |
| `Display.ToggleTwice` | display.py:640-647 | toggling twice restores the options |
| `Display.ToggleKeepsOptions` | display.py:640-647 | toggling keeps every option's name and key |
| `Display.NoMatch` | display.py:640-654 | with an unknown key, toggling changes nothing and the lookup is false |
| `Display.LoadKeepsKeys` | display.py:1477-1491 | loading settings keeps every option's name and key |
| `Display.DefaultsAndSavedFlip` | display.py:1477-1491 | with no saved settings (display.py:75-80) every option is off; a saved `flip_board` flag is what the lookup answers |
| `Display.HelpPanel.constructor` | display.py:75-80 | the three default options, then the saved settings |
| `Display.HelpPanel.LoadSettings` | display.py:1477-1491 | each option whose key is saved takes the saved flag |
| `Display.HelpPanel.ToggleHelpOption` | display.py:640-647 | flips the first option with the key and answers its new flag; an unknown key answers false and changes nothing |
| `Display.HelpPanel.IsHelpOptionEnabled` | display.py:649-654 | the flag of the first option with the key; false for an unknown key |

## Left out

- The python-chess library. Legal-move generation, `push`, check, checkmate and stalemate, attacks, the turn and the move counters are the fields of an `Oracle`, constrained by nothing.
- Activity scoring and the attacker/defender sets (`calculate_activity`, `_get_activity_squares`, `_compute_attackers_defenders`). They temporarily change the library's turn and pieces.
- File I/O: `load_pgn_file`, `save_pgn_file` and the settings file. `_save_settings` is not modelled. `_load_settings` receives the decoded map of flags as a parameter, so a non-boolean JSON value is not modelled.
- `create_game_from_board_state`, because it depends on `datetime.now()`.
- `_convert_moves_to_algebraic` slices `move[:4]` on `Move` objects, which would raise. It is modelled over `(from_row, from_col, to_row, to_col, promotion)` tuples.
- `display.py` imports `coords_from_square` from the engine module, which does not define it. It is modelled as `_square_to_pos`.
- Character classes (`\w`, `\d`, `isdigit`, `isupper`, `islower`, `isalpha`) are modelled on ASCII only; whitespace (`isspace`, and with it `strip()`, `split()` and `\s`) is Python's full `str.isspace()` set. Unicode digits in `int()`, and `chr` of values outside the ASCII range, are not modelled.
- Rendering, fonts, images, sounds, the pygame event loop, the promotion dialog and the float-percentage window layout. The board size and margins are parameters of `Display.Layout`.
- `Display.SquareFromMouse` requires a positive square size. For a board narrower than 8 pixels the source divides by zero.
- `Board.BoardState.MakeMove` tracks `has_moved` only as the piece's flag. The engine's castling-rights updates are absent because `make_move` in the source does not update them.
- `Session.PieceOn` reports `has_moved` as false, as the source does. The library's promoted-piece mask does not influence the model.
- PgnRoundTrip.RoundTrip: the tags are not shown to read back, and games whose moves contain spaces, brackets, annotation marks or a leading move number are excluded, because the reader would change them.
- `chess_board_backup.py`'s `setup_initial_position`, `set_piece`, `get_king_position`, `can_castle`, `is_checkmate`, `is_stalemate` and `get_fen_position` forward to the library and are left to the `Oracle`.

## Findings

| source | as written | input that shows it | evidently intended | confidence | as-written member | corrected member |
|---|---|---|---|---|---|---|
| chess_board_backup.py:547 | `count_backward_pawns` looks for a defending pawn at `row + pawn_direction`, one row ahead of the pawn, though the comment above it says diagonally behind; `_get_backward_pawn_pieces` (display.py:457) looks one rank behind | white pawns on e4 and d5 and a black pawn on f6: e4 has no pawn behind it on d or f and its step to e5 is guarded by f6, yet the d5 pawn ahead of it makes the backward count 0 | a defender one row behind, `row - pawn_direction`; that square is already covered by the scan of the files behind, so a pawn is defended exactly when a friendly pawn stands behind it on a neighbouring file | not executed | `PawnStructure.DiagonalAheadDefends` | `PawnStructure.IntendedDefendersAreBehind` |
| display.py:538-551 | `_get_passed_pawn_pieces` only considers white pawns with rank index ≤ 1 and black pawns with rank index ≥ 6, the pawns furthest from promotion | a lone white pawn on e4 is passed and `count_passed_pawns` counts it, but it is not highlighted | the filter of `count_passed_pawns` (chess_board_backup.py:665): white rank index ≥ 1, black ≤ 6, so the highlight matches the count shown beside it | not executed | `DisplayStatistics.PassedHighlightMissesE4` | `DisplayStatistics.IntendedPassedMatchesCount` |
