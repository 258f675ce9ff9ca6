/** `PGNManager` of `pgn_manager.py`: the conversion of a move history to
    coordinate moves, and the resolver that applies the move tokens of a
    game to a session board (castling tokens, coordinate tokens such as
    `e2e4` or `e7e8=Q`, and SAN-like tokens such as `Nbd7`, `exd5+` or
    `e8=Q`). The board is the session object of the rules-library layer,
    which is the one that offers `reset_to_initial_position` and
    `make_move_with_promotion`. */
module PgnManager {
  import opened Types
  import opened Text
  import opened Session
  import opened PgnGames

  // ---------------------------------------------------------------------
  // Square names

  /** `chr(ord('a') + col)`, which fails for a code point Python cannot
      form. */
  function FileChar(col: int): (c: Option<char>)
    ensures 0 <= col < 8 ==> c.Some? && IsLower(c.value) && c.value as int - 'a' as int == col
  {
    var code := 'a' as int + col;
    if 0 <= code < 0xD800 || 0xE000 <= code < 0x11_0000 then Some(code as char) else None
  }

  /** `str(i)` for any integer. */
  function IntToString(i: int): string {
    if i < 0 then "-" + NatToString(-i) else NatToString(i)
  }

  /** `chr(ord('a') + col) + str(8 - row)`: the name of a square. */
  function SquareName(row: int, col: int): (name: Option<string>)
    ensures OnBoard(row, col) ==>
      name.Some? && |name.value| == 2 && 'a' <= name.value[0] <= 'h' && '1' <= name.value[1] <= '8'
  {
    match FileChar(col)
    case None => None
    case Some(f) => Some([f] + IntToString(8 - row))
  }

  /** The square a two-character coordinate names: column `f - 'a'`, row
      `8 - rank`. */
  function ParseSquare(s: string): Pos
    requires |s| >= 2 && IsDigit(s[1])
  {
    (8 - DigitValue(s[1]), s[0] as int - 'a' as int)
  }

  /** Decoding a square name gives back the square. */
  lemma {:induction false} SquareNameRoundTrip(row: int, col: int)
    requires OnBoard(row, col)
    ensures ParseSquare(SquareName(row, col).value) == (row, col)
  {
    var name := SquareName(row, col).value;
    var digits := NatToString(8 - row);
    assert name == [FileChar(col).value] + digits;
    assert digits == [DigitChar(8 - row)];
    assert name[1] == DigitChar(8 - row);
  }

  /** Encoding a decoded square name gives back the name. */
  lemma {:induction false} ParseSquareRoundTrip(s: string)
    requires |s| == 2 && 'a' <= s[0] <= 'h' && '1' <= s[1] <= '8'
    ensures OnBoard(ParseSquare(s).0, ParseSquare(s).1)
    ensures SquareName(ParseSquare(s).0, ParseSquare(s).1) == Some(s)
  {
    var p := ParseSquare(s);
    var d := DigitValue(s[1]);
    assert 8 - p.0 == d;
    assert IntToString(8 - p.0) == [DigitChar(d)];
    assert DigitChar(d) == s[1];
    var f := FileChar(p.1).value;
    assert f as int == s[0] as int;
    assert f == s[0];
    assert SquareName(p.0, p.1) == Some([f] + [DigitChar(d)]);
    assert [s[0]] + [s[1]] == s;
  }

  // ---------------------------------------------------------------------
  // Converting a move history

  /** An entry of the move history as a tuple: from, to, and an optional
      promotion kind. */
  datatype MoveTuple = MoveTuple(fromRow: int, fromCol: int, toRow: int, toCol: int, promotion: Option<Kind>)

  /** The letter of a kind in `piece_symbols`: the four promotion kinds. */
  function PromotionLetter(k: Kind): Option<char> {
    match k
    case Queen => Some('Q')
    case Rook => Some('R')
    case Bishop => Some('B')
    case Knight => Some('N')
    case _ => None
  }

  /** The promotion suffix `=X`, when the promotion kind has a letter. */
  function PromotionSuffix(promotion: Option<Kind>): string {
    if promotion.Some? && PromotionLetter(promotion.value).Some? then ['=', PromotionLetter(promotion.value).value] else []
  }

  /** One history entry in coordinate notation, e.g. `e2e4` or `e7e8=Q`;
      `None` when a column makes `chr` fail. */
  function ConvertMove(m: MoveTuple): Option<string> {
    var from := SquareName(m.fromRow, m.fromCol);
    var to := SquareName(m.toRow, m.toCol);
    if from.None? || to.None? then None else Some(from.value + to.value + PromotionSuffix(m.promotion))
  }

  /** The list `_convert_moves_to_algebraic` builds, or `None` when it
      raises. */
  function ConvertAll(history: seq<MoveTuple>): Option<seq<string>> {
    MapAll(history, ConvertMove)
  }

  /** The conversion succeeds with one token per entry, each that entry's
      conversion, exactly when every entry converts. */
  lemma {:induction false} ConvertAllSpec(history: seq<MoveTuple>)
    ensures ConvertAll(history).Some? ==>
      |ConvertAll(history).value| == |history| &&
      forall i :: 0 <= i < |history| ==> ConvertMove(history[i]) == Some(ConvertAll(history).value[i])
    ensures ConvertAll(history).None? ==> exists i :: 0 <= i < |history| && ConvertMove(history[i]).None?
  {
    MapAllSpec(history, ConvertMove);
  }

  /** `_convert_moves_to_algebraic`. */
  method ConvertMovesToAlgebraic(history: seq<MoveTuple>) returns (moves: Option<seq<string>>)
    ensures moves == ConvertAll(history)
  {
    var list: seq<string> := [];
    for i := 0 to |history|
      invariant ConvertAll(history[..i]) == Some(list)
    {
      assert history[..i + 1][..i] == history[..i];
      var m := history[i];
      var from := SquareName(m.fromRow, m.fromCol);
      var to := SquareName(m.toRow, m.toCol);
      if from.None? || to.None? {
        assert ConvertMove(history[i]).None?;
        ConvertAllSpec(history);
        return None;
      }
      list := list + [from.value + to.value + PromotionSuffix(m.promotion)];
    }
    assert history[..|history|] == history;
    moves := Some(list);
  }

  // ---------------------------------------------------------------------
  // What a token asks the board to do

  /** A call of `make_move` (no promotion) or `make_move_with_promotion`. */
  datatype Request = Request(from: Pos, to: Pos, promotion: Option<Kind>)

  /** `_apply_castling`: the king's move from the e-file to the g-file
      (kingside) or the c-file (queenside) of the mover's back rank. */
  function CastleRequest(turn: Color, kingside: bool): (r: Request)
    ensures r.from == (if turn == White then 7 else 0, 4) && r.to.0 == r.from.0
    ensures r.to.1 == (if kingside then 6 else 2) && r.promotion.None?
  {
    var row := if turn == White then 7 else 0;
    Request((row, 4), (row, if kingside then 6 else 2), None)
  }

  /** In square names: e1-g1, e1-c1, e8-g8 and e8-c8. */
  lemma {:induction false} CastleSquareNames(turn: Color, kingside: bool)
    ensures var r := CastleRequest(turn, kingside);
      SquareName(r.from.0, r.from.1) == Some(if turn == White then "e1" else "e8") &&
      SquareName(r.to.0, r.to.1) == Some((if kingside then "g" else "c") + (if turn == White then "1" else "8"))
  {
    var r := CastleRequest(turn, kingside);
    var rank := if turn == White then '1' else '8';
    assert IntToString(8 - r.from.0) == [rank] by {
      assert DigitChar(1) == '1' && DigitChar(8) == '8';
    }
    var file := if kingside then 'g' else 'c';
    assert FileChar(r.from.1) == Some('e') && FileChar(r.to.1) == Some(file);
    assert SquareName(r.from.0, r.from.1) == Some(['e'] + [rank]);
    assert SquareName(r.to.0, r.to.1) == Some([file] + [rank]);
    assert ['e'] + [rank] == ['e', rank] && [file] + [rank] == [file, rank];
  }

  /** The promotion map of the resolver. */
  function PromotionKind(c: char): (k: Option<Kind>)
    ensures k.Some? ==> PromotionLetter(k.value) == Some(c)
  {
    if c == 'Q' then Some(Queen)
    else if c == 'R' then Some(Rook)
    else if c == 'B' then Some(Bishop)
    else if c == 'N' then Some(Knight)
    else None
  }

  /** `c.upper()` on the letters that matter here. */
  function Upper(c: char): char {
    if IsLower(c) then (c as int - 32) as char else c
  }

  /** `_apply_coordinate_move`: the squares from the first four characters
      and an optional `=X` promotion. `None` is an `IndexError` or a
      `ValueError` (too short, a rank that is not a digit, `=` with nothing
      after it), which the method turns into `False`. */
  function CoordinateRequest(move: string): (r: Option<Request>)
    ensures r.Some? ==> |move| >= 4
  {
    if |move| < 4 || !IsDigit(move[1]) || !IsDigit(move[3]) then None
    else if |move| > 4 && move[4] == '=' && |move| == 5 then None
    else
      var promotion := if |move| > 4 && move[4] == '=' then PromotionKind(Upper(move[5])) else None;
      Some(Request(ParseSquare(move[..2]), ParseSquare(move[2..4]), promotion))
  }

  /** A history entry on the board, converted and read back as a coordinate
      token, asks for the same move (a promotion kind without a letter is
      not written, so it comes back as none). */
  lemma {:induction false} ConvertedMoveRoundTrip(m: MoveTuple)
    requires OnBoard(m.fromRow, m.fromCol) && OnBoard(m.toRow, m.toCol)
    ensures var token := ConvertMove(m).value;
      CoordinateRequest(token) ==
        Some(Request((m.fromRow, m.fromCol), (m.toRow, m.toCol), if PromotionSuffix(m.promotion) != [] then m.promotion else None))
  {
    var from := SquareName(m.fromRow, m.fromCol).value;
    var to := SquareName(m.toRow, m.toCol).value;
    var suffix := PromotionSuffix(m.promotion);
    var token := from + to + suffix;
    assert token[..2] == from && token[2..4] == to;
    SquareNameRoundTrip(m.fromRow, m.fromCol);
    SquareNameRoundTrip(m.toRow, m.toCol);
    if suffix != [] {
      assert token[4] == '=' && token[5] == PromotionLetter(m.promotion.value).value;
      assert |token| == 6;
    } else {
      assert |token| == 4;
    }
  }

  // ---------------------------------------------------------------------
  // SAN-like tokens

  /** Where a pattern anchored with `$` may end: before a final line break,
      or at the very end. */
  function LineEnd(s: string): (e: nat)
    ensures e <= |s| && (e < |s| ==> e == |s| - 1 && s[e] == '\n')
  {
    if s != [] && s[|s| - 1] == '\n' then |s| - 1 else |s|
  }

  /** `re.sub(r'[+#]$', '', s)`. */
  function DropCheck(s: string): string {
    var e := LineEnd(s);
    if e >= 1 && (s[e - 1] == '+' || s[e - 1] == '#') then s[..e - 1] + s[e..] else s
  }

  /** The kind of `re.search(r'=([QRBN])$', s)`. */
  function PromotionAtEnd(s: string): Option<Kind> {
    var e := LineEnd(s);
    if e >= 2 && s[e - 2] == '=' then PromotionKind(s[e - 1]) else None
  }

  /** `re.sub(r'=[QRBN]$', '', s)`. */
  function DropPromotion(s: string): string {
    var e := LineEnd(s);
    if e >= 2 && s[e - 2] == '=' && PromotionKind(s[e - 1]).Some? then s[..e - 2] + s[e..] else s
  }

  /** `piece_map.get(c, PieceType.PAWN)`. */
  function PieceLetterKind(c: char): Kind {
    if c == 'K' then King
    else if c == 'Q' then Queen
    else if c == 'R' then Rook
    else if c == 'B' then Bishop
    else if c == 'N' then Knight
    else Pawn
  }

  /** The test `d != c`, shared by every statement about `RemoveChar`. */
  function NotChar(c: char): char -> bool
  {
    d => d != c
  }

  /** `s.replace(c, '')`. */
  function RemoveChar(s: string, c: char): (r: string)
    ensures c !in r && |r| <= |s|
  {
    FilterMembers(s, NotChar(c), c);
    Filter(s, NotChar(c))
  }

  /** Every character other than `c` is kept. */
  lemma {:induction false} RemoveCharMembers(s: string, c: char)
    ensures forall d :: d != c ==> (d in RemoveChar(s, c) <==> d in s)
  {
    forall d | d != c
      ensures d in RemoveChar(s, c) <==> d in s
    {
      FilterMembers(s, NotChar(c), d);
    }
  }

  /** `re.search(r'([a-h][1-8])$', s)`: the destination square. */
  function DestAtEnd(s: string): (d: Option<Pos>)
    ensures d.Some? ==> LineEnd(s) >= 2 && OnBoard(d.value.0, d.value.1)
  {
    var e := LineEnd(s);
    if e >= 2 && 'a' <= s[e - 2] <= 'h' && '1' <= s[e - 1] <= '8' then Some(ParseSquare(s[e - 2..e])) else None
  }

  /** A SAN-like token taken apart: the kind of the moving piece, the
      destination, what stands before the destination (the disambiguation
      hint) and the promotion. */
  datatype San = San(kind: Kind, dest: Pos, hint: string, promotion: Option<Kind>)

  /** The text processing of `_apply_standard_algebraic_move`. `None` when
      nothing is left after the suffixes (the `IndexError` on `move[0]`)
      or no destination square ends the token. */
  function SanParse(token: string): (r: Option<San>)
    ensures r.Some? ==> OnBoard(r.value.dest.0, r.value.dest.1) && 'x' !in r.value.hint
  {
    var move := DropCheck(Strip(token));
    var promotion := PromotionAtEnd(move);
    var move := DropPromotion(move);
    if move == [] then None else SanPiece(move, promotion)
  }

  /** The piece letter, then the destination. */
  function SanPiece(move: string, promotion: Option<Kind>): (r: Option<San>)
    requires move != []
    ensures r.Some? ==> OnBoard(r.value.dest.0, r.value.dest.1) && 'x' !in r.value.hint
  {
    var kind := if IsUpper(move[0]) then PieceLetterKind(move[0]) else Pawn;
    var body := if IsUpper(move[0]) then move[1..] else move;
    SanDest(kind, RemoveChar(body, 'x'), promotion)
  }

  /** The destination square at the end, and the hint before it. */
  function SanDest(kind: Kind, move: string, promotion: Option<Kind>): (r: Option<San>)
    requires 'x' !in move
    ensures r.Some? ==> OnBoard(r.value.dest.0, r.value.dest.1) && 'x' !in r.value.hint
  {
    match DestAtEnd(move)
    case None => None
    case Some(dest) =>
      assert forall c :: c in move[..LineEnd(move) - 2] ==> c in move;
      Some(San(kind, dest, move[..LineEnd(move) - 2], promotion))
  }

  /** The letter written for a piece kind in SAN: none for a pawn. */
  function KindLetter(k: Kind): string {
    match k
    case Pawn => ""
    case King => "K"
    case Queen => "Q"
    case Rook => "R"
    case Bishop => "B"
    case Knight => "N"
  }

  /** A disambiguation hint as SAN writes one: file letters and rank
      digits. */
  predicate HintChars(hint: string) {
    forall i :: 0 <= i < |hint| ==> 'a' <= hint[i] <= 'h' || '1' <= hint[i] <= '8'
  }

  /** A SAN token: piece letter, hint, capture mark, destination, optional
      promotion, optional check or mate sign. */
  function SanText(kind: Kind, hint: string, capture: bool, dest: Pos, promotion: Option<Kind>, check: string): string
    requires OnBoard(dest.0, dest.1)
  {
    KindLetter(kind) + hint + (if capture then "x" else "") + SquareName(dest.0, dest.1).value + PromotionSuffix(promotion) + check
  }

  /** A SAN token written from its parts is read back as those parts. */
  lemma {:induction false} SanRoundTrip(kind: Kind, hint: string, capture: bool, dest: Pos, promotion: Option<Kind>, check: string)
    requires OnBoard(dest.0, dest.1) && HintChars(hint) && |hint| <= 2
    requires promotion.None? || PromotionLetter(promotion.value).Some?
    requires check == "" || check == "+" || check == "#"
    ensures SanParse(SanText(kind, hint, capture, dest, promotion, check)) == Some(San(kind, dest, hint, promotion))
  {
    var name := SquareName(dest.0, dest.1).value;
    var cap := if capture then "x" else "";
    assert SanText(kind, hint, capture, dest, promotion, check) ==
      KindLetter(kind) + hint + cap + name + PromotionSuffix(promotion) + check;
    SanCoreRoundTrip(kind, hint, cap, name, promotion, check);
    SquareNameRoundTrip(dest.0, dest.1);
  }

  /** The same for any destination name: the parts come back, the name
      decoded by `ParseSquare`. */
  lemma {:induction false} SanCoreRoundTrip(kind: Kind, hint: string, cap: string, name: string, promotion: Option<Kind>, check: string)
    requires HintChars(hint) && (cap == "" || cap == "x") && |name| == 2 && 'a' <= name[0] <= 'h' && '1' <= name[1] <= '8'
    requires promotion.None? || PromotionLetter(promotion.value).Some?
    requires check == "" || check == "+" || check == "#"
    ensures SanParse(KindLetter(kind) + hint + cap + name + PromotionSuffix(promotion) + check) ==
      Some(San(kind, ParseSquare(name), hint, promotion))
  {
    var rest := hint + cap + name;
    var core := KindLetter(kind) + hint + cap + name;
    assert core == KindLetter(kind) + rest && core[|core| - 1] == name[1];
    LowerStart(hint, cap, name);
    assert !IsSpace(core[0]) by {
      if kind == Pawn {
        assert core == rest;
      } else {
        assert core[0] == KindLetter(kind)[0];
      }
    }
    SanDestOf(kind, hint, name, promotion);
    calc {
      SanParse(core + PromotionSuffix(promotion) + check);
      { SanParseOf(core, promotion, check); }
      SanPiece(core, promotion);
      { SanPieceOf(kind, hint, cap, name, promotion); }
      SanDest(kind, hint + name, promotion);
    }
  }

  /** Reading a token back strips it, drops the check mark and the
      promotion suffix, and leaves the move core. */
  lemma {:induction false} SanParseOf(core: string, promotion: Option<Kind>, check: string)
    requires |core| >= 2 && !IsSpace(core[0]) && '1' <= core[|core| - 1] <= '8'
    requires promotion.None? || PromotionLetter(promotion.value).Some?
    requires check == "" || check == "+" || check == "#"
    ensures SanParse(core + PromotionSuffix(promotion) + check) == SanPiece(core, promotion)
  {
    var suffix := PromotionSuffix(promotion);
    var body := core + suffix;
    assert body[|body| - 1] == if suffix == [] then core[|core| - 1] else suffix[1];
    SanTextStripped(core, suffix, check);
    DropCheckOf(body, check);
    PromotionOf(core, promotion);
  }

  lemma {:induction false} SanTextStripped(core: string, suffix: string, check: string)
    requires core != [] && !IsSpace(core[0]) && !IsSpace(core[|core| - 1])
    requires suffix == [] || (|suffix| == 2 && !IsSpace(suffix[1]))
    requires check == "" || check == "+" || check == "#"
    ensures Strip(core + suffix + check) == core + suffix + check
  {
    var token := core + suffix + check;
    assert token[0] == core[0];
    if check != "" {
      assert token[|token| - 1] == check[0];
    } else if suffix != [] {
      assert token[|token| - 1] == suffix[1];
    } else {
      assert token[|token| - 1] == core[|core| - 1];
    }
    StripUnchanged(token);
  }

  lemma {:induction false} DropCheckOf(body: string, check: string)
    requires body != [] && body[|body| - 1] != '\n' && body[|body| - 1] != '+' && body[|body| - 1] != '#'
    requires check == "" || check == "+" || check == "#"
    ensures DropCheck(body + check) == body
  {
    var s := body + check;
    assert s[|s| - 1] != '\n';
    if check != "" {
      assert s[..|s| - 1] == body && s[|s|..] == [];
    } else {
      assert s == body;
    }
  }

  lemma {:induction false} PromotionOf(core: string, promotion: Option<Kind>)
    requires |core| >= 2 && '1' <= core[|core| - 1] <= '8'
    requires promotion.None? || PromotionLetter(promotion.value).Some?
    ensures PromotionAtEnd(core + PromotionSuffix(promotion)) == promotion
    ensures DropPromotion(core + PromotionSuffix(promotion)) == core
  {
    var s := core + PromotionSuffix(promotion);
    if promotion.Some? {
      var letter := PromotionLetter(promotion.value).value;
      assert s == core + ['=', letter];
      assert LineEnd(s) == |s|;
      assert s[|s| - 2] == '=' && s[|s| - 1] == letter;
      assert s[..|s| - 2] == core && s[|s|..] == [];
    } else {
      assert s == core;
      assert LineEnd(s) == |s|;
    }
  }

  lemma {:induction false} SanPieceOf(kind: Kind, hint: string, cap: string, name: string, promotion: Option<Kind>)
    requires HintChars(hint) && (cap == "" || cap == "x") && |name| == 2 && 'a' <= name[0] <= 'h' && '1' <= name[1] <= '8'
    ensures var core := KindLetter(kind) + hint + cap + name;
      core != [] && SanPiece(core, promotion) == SanDest(kind, hint + name, promotion)
  {
    var rest := hint + cap + name;
    var core := KindLetter(kind) + hint + cap + name;
    LowerStart(hint, cap, name);
    RemoveCharKeeps(hint, cap, name);
    calc {
      SanPiece(core, promotion);
      { assert core == KindLetter(kind) + rest; }
      SanPiece(KindLetter(kind) + rest, promotion);
      { SanPieceSplit(kind, rest, promotion); }
      SanDest(kind, RemoveChar(rest, 'x'), promotion);
      SanDest(kind, hint + name, promotion);
    }
  }

  /** What follows the piece letter does not start with a capital. */
  lemma {:induction false} LowerStart(hint: string, cap: string, name: string)
    requires HintChars(hint) && (cap == "" || cap == "x") && |name| == 2 && 'a' <= name[0] <= 'h' && '1' <= name[1] <= '8'
    ensures hint + cap + name != [] && !IsUpper((hint + cap + name)[0]) && !IsSpace((hint + cap + name)[0])
  {
    var rest := hint + cap + name;
    if hint != [] {
      assert rest[0] == hint[0];
    } else if cap != "" {
      assert rest[0] == 'x';
    } else {
      assert rest[0] == name[0];
    }
  }

  /** The piece letter is read off the front of the token. */
  lemma {:induction false} SanPieceSplit(kind: Kind, rest: string, promotion: Option<Kind>)
    requires rest != [] && !IsUpper(rest[0])
    ensures SanPiece(KindLetter(kind) + rest, promotion) == SanDest(kind, RemoveChar(rest, 'x'), promotion)
  {
    var core := KindLetter(kind) + rest;
    if kind == Pawn {
      assert core == rest;
    } else {
      assert |KindLetter(kind)| == 1;
      assert core[0] == KindLetter(kind)[0];
      assert IsUpper(core[0]) && PieceLetterKind(core[0]) == kind;
      assert core[1..] == rest;
    }
    var letter := if IsUpper(core[0]) then PieceLetterKind(core[0]) else Pawn;
    var body := if IsUpper(core[0]) then core[1..] else core;
    assert letter == kind && body == rest;
  }

  lemma {:induction false} SanDestOf(kind: Kind, hint: string, name: string, promotion: Option<Kind>)
    requires HintChars(hint) && |name| == 2 && 'a' <= name[0] <= 'h' && '1' <= name[1] <= '8'
    ensures 'x' !in hint + name
    ensures SanDest(kind, hint + name, promotion) == Some(San(kind, ParseSquare(name), hint, promotion))
  {
    var move := hint + name;
    assert move[|move| - 1] == name[1];
    assert LineEnd(move) == |move|;
    assert move[|move| - 2..] == name && move[..|move| - 2] == hint;
  }

  lemma {:induction false} RemoveCharAppend(a: string, b: string, c: char)
    ensures RemoveChar(a + b, c) == RemoveChar(a, c) + RemoveChar(b, c)
  {
    FilterAppend(a, b, NotChar(c));
  }

  lemma {:induction false} RemoveCharNone(s: string, c: char)
    requires c !in s
    ensures RemoveChar(s, c) == s
  {
    FilterAll(s, NotChar(c));
  }

  lemma {:induction false} RemoveCharKeeps(hint: string, cap: string, name: string)
    requires HintChars(hint) && (cap == "" || cap == "x") && |name| == 2 && 'a' <= name[0] <= 'h' && '1' <= name[1] <= '8'
    ensures RemoveChar(hint + cap + name, 'x') == hint + name
  {
    assert forall i :: 0 <= i < |hint| ==> hint[i] != 'x';
    assert name[0] != 'x' && name[1] != 'x';
    calc {
      RemoveChar(hint + cap + name, 'x');
      { RemoveCharAppend(hint + cap, name, 'x'); }
      RemoveChar(hint + cap, 'x') + RemoveChar(name, 'x');
      { RemoveCharAppend(hint, cap, 'x'); }
      RemoveChar(hint, 'x') + RemoveChar(cap, 'x') + RemoveChar(name, 'x');
      { RemoveCharNone(hint, 'x'); RemoveCharNone(name, 'x'); }
      hint + RemoveChar(cap, 'x') + name;
      { assert RemoveChar(cap, 'x') == []; }
      hint + name;
    }
  }

  /** The position of the first square in `cands` on row `row` (when
      given) and column `col` (when given); `|cands|` when there is none: the
      generator `next(...)` of the resolver. */
  function FirstMatching(cands: seq<Pos>, row: Option<int>, col: Option<int>): (i: nat)
    ensures i <= |cands|
    ensures i < |cands| ==> Fits(cands[i], row, col)
    ensures forall j :: 0 <= j < i ==> !Fits(cands[j], row, col)
  {
    if cands == [] then 0
    else if Fits(cands[0], row, col) then 0
    else 1 + FirstMatching(cands[1..], row, col)
  }

  predicate Fits(p: Pos, row: Option<int>, col: Option<int>) {
    (row.None? || p.0 == row.value) && (col.None? || p.1 == col.value)
  }

  /** The row and column a hint names: a string of digits names a rank, a
      single letter a file, two characters a file and a rank. `None` when
      the hint is two characters whose second is not a digit (the
      `ValueError` of `int`). */
  function HintFilter(hint: string): (f: Option<(Option<int>, Option<int>)>)
    ensures f.None? <==> |hint| == 2 && !IsDigit(hint[1])
  {
    if hint == [] then Some((None, None))
    else if AllDigits(hint) then Some((Some(8 - DigitsValue(hint)), None))
    else if |hint| == 1 && IsAlpha(hint[0]) then Some((None, Some(hint[0] as int - 'a' as int)))
    else if |hint| == 2 then
      if IsDigit(hint[1]) then Some((Some(8 - DigitValue(hint[1])), Some(hint[0] as int - 'a' as int))) else None
    else Some((None, None))
  }

  /** The disambiguation of several candidates: the first fitting the hint,
      or else the first of all. */
  function Disambiguate(cands: seq<Pos>, hint: string): (r: Option<Pos>)
    requires cands != []
    ensures r.None? <==> HintFilter(hint).None?
    ensures r.Some? ==> r.value in cands
    ensures r.Some? ==> var f := HintFilter(hint).value;
      var i := FirstMatching(cands, f.0, f.1);
      r.value == (if i < |cands| then cands[i] else cands[0])
  {
    match HintFilter(hint)
    case None => None
    case Some(f) =>
      var i := FirstMatching(cands, f.0, f.1);
      Some(if i < |cands| then cands[i] else cands[0])
  }

  /** Whether the square holds a piece of the side to move, of the named
      kind, with the destination among its possible moves. */
  function CandidateTest<P>(o: Oracle<P>, p: P, kind: Kind, dest: Pos): Pos -> bool {
    (q: Pos) => PieceOn(o, p, q.0, q.1).Some? && PieceOn(o, p, q.0, q.1).value.color == o.turn(p) &&
                PieceOn(o, p, q.0, q.1).value.kind == kind && dest in PossibleMovesOf(o, p, q.0, q.1)
  }

  /** `possible_pieces`, in the row-major order of the scan. */
  function Candidates<P>(o: Oracle<P>, p: P, kind: Kind, dest: Pos): seq<Pos> {
    Filter(RowMajor(), CandidateTest(o, p, kind, dest))
  }

  /** The candidates are exactly the pieces that fit the token. */
  lemma {:induction false} CandidatesExactly<P>(o: Oracle<P>, p: P, kind: Kind, dest: Pos, q: Pos)
    ensures q in Candidates(o, p, kind, dest) <==> OnBoard(q.0, q.1) && CandidateTest(o, p, kind, dest)(q)
  {
    RowMajorMembers(CandidateTest(o, p, kind, dest), q);
  }

  /** The move a SAN-like token asks for on position `p`. */
  function SanRequest<P>(o: Oracle<P>, p: P, token: string): Option<Request> {
    match SanParse(token)
    case None => None
    case Some(san) =>
      var cands := Candidates(o, p, san.kind, san.dest);
      if cands == [] then None
      else
        var from := PickCandidate(cands, san.hint);
        if from.None? then None else Some(Request(from.value, san.dest, san.promotion))
  }

  /** A single candidate is taken as it is; several are disambiguated. */
  function PickCandidate(cands: seq<Pos>, hint: string): (r: Option<Pos>)
    requires cands != []
    ensures r.Some? ==> r.value in cands
  {
    if |cands| == 1 then Some(cands[0]) else Disambiguate(cands, hint)
  }

  /** What the resolver does with SAN-like tokens: no candidate is a
      failure; a single candidate is used whatever the hint says; among
      several, the first in row-major order fitting the hint, or else the
      first of all, unless the hint is malformed. Whatever is chosen is a
      piece of the side to move and of the named kind that can reach the
      destination. */
  lemma {:induction false} SanResolution<P>(o: Oracle<P>, p: P, token: string)
    requires SanParse(token).Some?
    ensures var san := SanParse(token).value;
      var cands := Candidates(o, p, san.kind, san.dest);
      var r := SanRequest(o, p, token);
      (cands == [] ==> r.None?) &&
      (|cands| == 1 ==> r == Some(Request(cands[0], san.dest, san.promotion))) &&
      (|cands| > 1 && HintFilter(san.hint).Some? ==>
        var f := HintFilter(san.hint).value;
        var i := FirstMatching(cands, f.0, f.1);
        r == Some(Request(if i < |cands| then cands[i] else cands[0], san.dest, san.promotion))) &&
      (|cands| > 1 && HintFilter(san.hint).None? ==> r.None?) &&
      (r.Some? ==>
        r.value.to == san.dest && OnBoard(r.value.from.0, r.value.from.1) && CandidateTest(o, p, san.kind, san.dest)(r.value.from))
  {
    var san := SanParse(token).value;
    var cands := Candidates(o, p, san.kind, san.dest);
    var r := SanRequest(o, p, token);
    if cands != [] {
      PickCandidateCases(cands, san.hint);
      var from := PickCandidate(cands, san.hint);
      assert r == (if from.None? then None else Some(Request(from.value, san.dest, san.promotion)));
      if from.Some? {
        CandidatesExactly(o, p, san.kind, san.dest, from.value);
      }
    }
  }

  /** The choice among one or several candidates. */
  lemma {:induction false} PickCandidateCases(cands: seq<Pos>, hint: string)
    requires cands != []
    ensures var r := PickCandidate(cands, hint);
      (|cands| == 1 ==> r == Some(cands[0])) &&
      (|cands| > 1 && HintFilter(hint).Some? ==>
        var f := HintFilter(hint).value;
        var i := FirstMatching(cands, f.0, f.1);
        r == Some(if i < |cands| then cands[i] else cands[0])) &&
      (|cands| > 1 && HintFilter(hint).None? ==> r.None?)
  {
  }

  // ---------------------------------------------------------------------
  // Tokens

  predicate IsCoordinateToken(move: string) {
    |move| >= 4 && IsLower(move[0]) && IsDigit(move[1]) && IsLower(move[2]) && IsDigit(move[3])
  }

  /** `_apply_algebraic_move`: the move a token asks for, `None` when the
      resolver returns `False` before touching the board. */
  function Resolve<P>(o: Oracle<P>, p: P, token: string): Option<Request> {
    var move := Strip(token);
    if move == [] then None
    else if move == "O-O" || move == "0-0" then Some(CastleRequest(o.turn(p), true))
    else if move == "O-O-O" || move == "0-0-0" then Some(CastleRequest(o.turn(p), false))
    else if IsCoordinateToken(move) then CoordinateRequest(move)
    else SanRequest(o, p, move)
  }

  /** A converted history entry is resolved as the same move. */
  lemma {:induction false} ConvertedMoveResolves<P>(o: Oracle<P>, p: P, m: MoveTuple)
    requires OnBoard(m.fromRow, m.fromCol) && OnBoard(m.toRow, m.toCol)
    ensures Resolve(o, p, ConvertMove(m).value) ==
      Some(Request((m.fromRow, m.fromCol), (m.toRow, m.toCol), if PromotionSuffix(m.promotion) != [] then m.promotion else None))
  {
    var token := ConvertMove(m).value;
    var from := SquareName(m.fromRow, m.fromCol).value;
    var to := SquareName(m.toRow, m.toCol).value;
    assert token == from + to + PromotionSuffix(m.promotion);
    assert token[0] == from[0] && token[1] == from[1] && token[2] == to[0] && token[3] == to[1];
    assert !IsSpace(token[0]) && !IsSpace(token[|token| - 1]);
    StripUnchanged(token);
    assert token[0] != 'O' && token[0] != '0';
    ConvertedMoveRoundTrip(m);
  }

  /** A call of `make_move` or `make_move_with_promotion` for the request. */
  function ApplyRequest<P>(o: Oracle<P>, g: Game<P>, r: Request): (bool, Game<P>) {
    if r.promotion.Some? then MakeMoveWithPromotionStep(o, g, r.from.0, r.from.1, r.to.0, r.to.1, r.promotion)
    else MakeMoveStep(o, g, r.from.0, r.from.1, r.to.0, r.to.1)
  }

  /** `_apply_algebraic_move` on a game. */
  function ApplyToken<P>(o: Oracle<P>, g: Game<P>, token: string): (r: (bool, Game<P>))
    ensures !r.0 ==> r.1 == g
  {
    match Resolve(o, g.position, token)
    case None => (false, g)
    case Some(req) => ApplyRequest(o, g, req)
  }

  /** The loop of `apply_pgn_game_to_board` from game `g`: every token in
      turn, up to the first that fails. */
  function ApplyMoves<P>(o: Oracle<P>, g: Game<P>, moves: seq<string>): (bool, Game<P>)
    decreases |moves|
  {
    if moves == [] then (true, g)
    else
      var step := ApplyToken(o, g, moves[0]);
      if !step.0 then (false, step.1) else ApplyMoves(o, step.1, moves[1..])
  }

  /** `apply_pgn_game_to_board`: from the starting position. */
  function ApplyGame<P>(o: Oracle<P>, moves: seq<string>): (bool, Game<P>) {
    ApplyMoves(o, Reset(o), moves)
  }

  /** Applying tokens one list after another. */
  lemma {:induction false} ApplyMovesAppend<P>(o: Oracle<P>, g: Game<P>, a: seq<string>, b: seq<string>)
    ensures var first := ApplyMoves(o, g, a);
      ApplyMoves(o, g, a + b) == if first.0 then ApplyMoves(o, first.1, b) else first
    decreases |a|
  {
    if a == [] {
      assert a + b == b;
    } else {
      assert (a + b)[0] == a[0] && (a + b)[1..] == a[1..] + b;
      var step := ApplyToken(o, g, a[0]);
      if step.0 {
        ApplyMovesAppend(o, step.1, a[1..], b);
      }
    }
  }

  /** The first token that fails ends the application: the moves before it
      stay applied and the ones after it are not tried. */
  lemma {:induction false} StopsAtFirstFailure<P>(o: Oracle<P>, g: Game<P>, a: seq<string>, t: string, b: seq<string>)
    requires ApplyMoves(o, g, a).0
    requires !ApplyToken(o, ApplyMoves(o, g, a).1, t).0
    ensures ApplyMoves(o, g, a + [t] + b) == (false, ApplyMoves(o, g, a).1)
  {
    assert a + [t] + b == a + ([t] + b);
    ApplyMovesAppend(o, g, a, [t] + b);
    assert ([t] + b)[0] == t;
  }

  /** Each applied token adds exactly one history entry. */
  lemma {:induction false} AppliedMovesAreRecorded<P>(o: Oracle<P>, g: Game<P>, moves: seq<string>)
    requires ApplyMoves(o, g, moves).0
    ensures |ApplyMoves(o, g, moves).1.history| == |g.history| + |moves|
    decreases |moves|
  {
    if moves != [] {
      var step := ApplyToken(o, g, moves[0]);
      var req := Resolve(o, g.position, moves[0]).value;
      if req.promotion.Some? {
        PlaySucceeds(o, g, req.from.0, req.from.1, req.to.0, req.to.1, req.promotion, true);
      } else {
        PlaySucceeds(o, g, req.from.0, req.from.1, req.to.0, req.to.1, Some(Queen), false);
      }
      AppliedMovesAreRecorded(o, step.1, moves[1..]);
    }
  }

  // ---------------------------------------------------------------------
  // The resolver's methods on a session board

  /** Calls `make_move` or `make_move_with_promotion`. */
  method ApplyRequestTo<P>(board: BoardState<P>, r: Request) returns (ok: bool)
    requires board.Valid()
    modifies board
    ensures board.Valid()
    ensures (ok, board.State()) == ApplyRequest(board.oracle, old(board.State()), r)
  {
    if r.promotion.Some? {
      ok := board.MakeMoveWithPromotion(r.from.0, r.from.1, r.to.0, r.to.1, r.promotion);
    } else {
      ok := board.MakeMove(r.from.0, r.from.1, r.to.0, r.to.1);
    }
  }

  /** `_apply_castling`. */
  method ApplyCastling<P>(board: BoardState<P>, kingside: bool) returns (ok: bool)
    requires board.Valid()
    modifies board
    ensures board.Valid()
    ensures (ok, board.State()) == ApplyRequest(board.oracle, old(board.State()), CastleRequest(old(board.CurrentTurn()), kingside))
  {
    if board.CurrentTurn() == White {
      if kingside {
        ok := board.MakeMove(7, 4, 7, 6);
      } else {
        ok := board.MakeMove(7, 4, 7, 2);
      }
    } else {
      if kingside {
        ok := board.MakeMove(0, 4, 0, 6);
      } else {
        ok := board.MakeMove(0, 4, 0, 2);
      }
    }
  }

  /** `_apply_coordinate_move`. */
  method ApplyCoordinateMove<P>(board: BoardState<P>, move: string) returns (ok: bool)
    requires board.Valid()
    modifies board
    ensures board.Valid()
    ensures (ok, board.State()) ==
      match CoordinateRequest(move) case None => (false, old(board.State())) case Some(r) => ApplyRequest(board.oracle, old(board.State()), r)
  {
    if |move| < 4 || !IsDigit(move[1]) || !IsDigit(move[3]) {
      return false;
    }
    var fromPos := ParseSquare(move[..2]);
    var toPos := ParseSquare(move[2..4]);
    var promotion: Option<Kind> := None;
    if |move| > 4 && move[4] == '=' {
      if |move| == 5 {
        return false;
      }
      promotion := PromotionKind(Upper(move[5]));
    }
    ok := ApplyRequestTo(board, Request(fromPos, toPos, promotion));
  }

  /** Whether the square holds a candidate for the SAN move. */
  method IsCandidate<P>(board: BoardState<P>, row: int, col: int, kind: Kind, dest: Pos) returns (b: bool)
    ensures b == CandidateTest(board.oracle, board.position, kind, dest)((row, col))
  {
    var piece := board.GetPiece(row, col);
    b := false;
    if piece.Some? && piece.value.color == board.CurrentTurn() && piece.value.kind == kind {
      var legal := board.GetPossibleMoves(row, col);
      b := dest in legal;
    }
  }

  /** The scan of `_apply_standard_algebraic_move` that builds
      `possible_pieces`. */
  method FindCandidates<P>(board: BoardState<P>, kind: Kind, dest: Pos) returns (cands: seq<Pos>)
    ensures cands == Candidates(board.oracle, board.position, kind, dest)
  {
    cands := [];
    ghost var test := CandidateTest(board.oracle, board.position, kind, dest);
    for row := 0 to 8
      invariant cands == Filter(RowMajor()[..8 * row], test)
    {
      for col := 0 to 8
        invariant cands == Filter(RowMajor()[..8 * row + col], test)
      {
        RowMajorStep(row, col);
        FilterSnoc(RowMajor()[..8 * row + col], (row, col), test);
        var fits := IsCandidate(board, row, col, kind, dest);
        if fits {
          cands := cands + [(row, col)];
        }
      }
    }
    RowMajorWhole();
  }

  /** The text processing of `_apply_standard_algebraic_move`, step by
      step. */
  method ReadSan(token: string) returns (san: Option<San>)
    ensures san == SanParse(token)
  {
    var move := Strip(token);
    move := DropCheck(move);
    var promotion := PromotionAtEnd(move);
    if promotion.Some? {
      move := DropPromotion(move);
    }
    if move == [] {
      return None;
    }
    var kind := Pawn;
    if IsUpper(move[0]) {
      kind := PieceLetterKind(move[0]);
      move := move[1..];
    }
    move := RemoveChar(move, 'x');
    var dest := DestAtEnd(move);
    if dest.None? {
      return None;
    }
    san := Some(San(kind, dest.value, move[..LineEnd(move) - 2], promotion));
  }

  /** The choice of the moving piece in `_apply_standard_algebraic_move`:
      the request, or `None` when the method returns `False`. */
  method ResolveSan<P>(board: BoardState<P>, move: string) returns (request: Option<Request>)
    ensures request == SanRequest(board.oracle, board.position, move)
  {
    var parsed := ReadSan(move);
    if parsed.None? {
      return None;
    }
    var san := parsed.value;
    var cands := FindCandidates(board, san.kind, san.dest);
    if cands == [] {
      return None;
    }
    var from := ChooseCandidate(cands, san.hint);
    if from.None? {
      return None;
    }
    request := Some(Request(from.value, san.dest, san.promotion));
  }

  /** The narrowing of `possible_pieces` to one square. */
  method ChooseCandidate(possible: seq<Pos>, hint: string) returns (from: Option<Pos>)
    requires possible != []
    ensures from == PickCandidate(possible, hint)
  {
    var cands := possible;
    if |cands| > 1 {
      var filter := HintFilter(hint);
      if filter.None? {
        return None;
      }
      var i := FirstMatching(cands, filter.value.0, filter.value.1);
      cands := if i < |cands| then [cands[i]] else cands[..1];
    }
    from := Some(cands[0]);
  }

  /** `_apply_standard_algebraic_move`. */
  method ApplyStandardAlgebraicMove<P>(board: BoardState<P>, move: string) returns (ok: bool)
    requires board.Valid()
    modifies board
    ensures board.Valid()
    ensures (ok, board.State()) ==
      match SanRequest(board.oracle, old(board.position), move)
      case None => (false, old(board.State()))
      case Some(r) => ApplyRequest(board.oracle, old(board.State()), r)
  {
    var request := ResolveSan(board, move);
    if request.None? {
      return false;
    }
    ok := ApplyRequestTo(board, request.value);
  }

  /** `_apply_algebraic_move`. */
  method ApplyAlgebraicMove<P>(board: BoardState<P>, token: string) returns (ok: bool)
    requires board.Valid()
    modifies board
    ensures board.Valid()
    ensures (ok, board.State()) == ApplyToken(board.oracle, old(board.State()), token)
  {
    var move := Strip(token);
    if move == [] {
      return false;
    }
    if move == "O-O" || move == "0-0" {
      ok := ApplyCastling(board, true);
    } else if move == "O-O-O" || move == "0-0-0" {
      ok := ApplyCastling(board, false);
    } else if IsCoordinateToken(move) {
      ok := ApplyCoordinateMove(board, move);
    } else {
      ok := ApplyStandardAlgebraicMove(board, move);
    }
  }

  /** `apply_pgn_game_to_board`. */
  method ApplyPgnGameToBoard<P>(board: BoardState<P>, game: PgnGame) returns (ok: bool)
    modifies board
    ensures board.Valid()
    ensures (ok, board.State()) == ApplyGame(board.oracle, game.moves)
  {
    board.ResetToInitialPosition();
    var moves := game.moves;
    for i := 0 to |moves|
      invariant board.Valid()
      invariant ApplyMoves(board.oracle, board.State(), moves[i..]) == ApplyGame(board.oracle, moves)
    {
      assert moves[i..][0] == moves[i] && moves[i..][1..] == moves[i + 1..];
      var applied := ApplyAlgebraicMove(board, moves[i]);
      if !applied {
        return false;
      }
    }
    ok := true;
  }
}
