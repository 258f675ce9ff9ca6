/** `PGNParser` of `pgn_manager.py`: the line scanner `parse_pgn` and the
    move-text reader `_parse_moves`. The regular expressions the parser
    uses are written out as functions on strings. */
module PgnParser {
  import opened Types
  import opened Text
  import opened PgnGames

  /** `re.sub(r'\{[^}]*\}', '', s)` for `open == '{'`, `close == '}'`, and
      `re.sub(r'\([^)]*\)', '', s)` for the parentheses: each span from an
      opening character to the next closing one is removed, scanning left to
      right; an opening character with no closing one after it stays. */
  function RemoveSpans(s: string, open: char, close: char): (r: string)
    ensures |r| <= |s|
    ensures open !in s ==> r == s
    ensures forall c :: c !in s ==> c !in r
    ensures forall i :: 0 <= i < |r| && r[i] == open ==> close !in r[i + 1..]
    decreases |s|
  {
    if s == [] then []
    else if s[0] == open && close in s[1..] then
      var rest := s[1..][IndexOf(s[1..], close) + 1..];
      RemoveSpans(rest, open, close)
    else
      var tail := RemoveSpans(s[1..], open, close);
      assert ([s[0]] + tail)[1..] == tail;
      [s[0]] + tail
  }

  /** Length of the leading run of decimal digits. */
  function DigitRun(s: string): (n: nat)
    ensures n <= |s| && AllDigits(s[..n]) && (n < |s| ==> !IsDigit(s[n]))
  {
    if s != [] && IsDigit(s[0]) then
      var n := 1 + DigitRun(s[1..]);
      assert s[..n] == [s[0]] + s[1..][..n - 1];
      n
    else 0
  }

  /** `re.match(r'\d+\.', t)`: the token starts with a move number. */
  predicate StartsWithMoveNumber(t: string) {
    var n := DigitRun(t);
    1 <= n < |t| && t[n] == '.'
  }

  predicate IsAnnotation(c: char) {
    c == '?' || c == '!' || c == '+' || c == '#'
  }

  /** `re.sub(r'[?!+#]+$', '', t)`: the trailing run of annotation symbols
      removed. */
  function StripAnnotations(t: string): (r: string)
    ensures |r| <= |t| && r == t[..|r|]
    ensures r == [] || !IsAnnotation(r[|r| - 1])
    ensures forall i :: |r| <= i < |t| ==> IsAnnotation(t[i])
  {
    if t != [] && IsAnnotation(t[|t| - 1]) then StripAnnotations(t[..|t| - 1]) else t
  }

  /** The four game-termination markers of section 8.2.6 of the PGN
      Standard. */
  predicate IsResultToken(t: string) {
    t == "1-0" || t == "0-1" || t == "1/2-1/2" || t == "*"
  }

  /** A move as `_parse_moves` keeps it: non-empty, not a move number, no
      trailing annotation symbol. */
  predicate CleanMove(m: string) {
    m != [] && !StartsWithMoveNumber(m) && !IsAnnotation(m[|m| - 1])
  }

  /** What one iteration of the token loop of `_parse_moves` does with a
      token: skip it, stop with it as the result, or keep a move. */
  datatype TokenAction = Skip | Stop(result: string) | Keep(move: string)

  function Classify(token: string): (a: TokenAction)
    ensures a.Stop? ==> IsResultToken(a.result)
    ensures a.Keep? ==> CleanMove(a.move)
  {
    var t := Strip(token);
    if t == [] then Skip
    else if IsResultToken(t) then Stop(t)
    else if StartsWithMoveNumber(t) || t == "..." then Skip
    else
      var move := StripAnnotations(t);
      if move != [] && !StartsWithMoveNumber(move) then Keep(move) else Skip
  }

  /** The token loop of `_parse_moves`: the moves kept, in order, and the
      result, which is `*` unless a result token stopped the loop. */
  function ParseTokens(tokens: seq<string>): (r: (seq<string>, string))
    ensures IsResultToken(r.1)
    ensures (forall i :: 0 <= i < |tokens| ==> !Classify(tokens[i]).Stop?) ==> r.1 == "*"
  {
    if tokens == [] then ([], "*")
    else
      var rest := ParseTokens(tokens[1..]);
      assert forall j :: 0 <= j < |tokens| - 1 ==> tokens[1..][j] == tokens[j + 1];
      match Classify(tokens[0])
      case Skip => rest
      case Stop(result) => ([], result)
      case Keep(move) => ([move] + rest.0, rest.1)
  }

  /** Every move kept is non-empty, is not a move number and carries no
      trailing annotation symbol. */
  lemma {:induction false} KeptMovesClean(tokens: seq<string>)
    ensures forall i :: 0 <= i < |ParseTokens(tokens).0| ==> CleanMove(ParseTokens(tokens).0[i])
  {
    if tokens != [] {
      KeptMovesClean(tokens[1..]);
      var rest := ParseTokens(tokens[1..]).0;
      match Classify(tokens[0])
      case Skip =>
        assert ParseTokens(tokens).0 == rest;
      case Stop(_) =>
        assert ParseTokens(tokens).0 == [];
      case Keep(move) =>
        assert ParseTokens(tokens).0 == [move] + rest;
        CleanCons(move, rest);
    }
  }

  lemma {:induction false} CleanCons(move: string, rest: seq<string>)
    requires CleanMove(move) && forall j :: 0 <= j < |rest| ==> CleanMove(rest[j])
    ensures forall j :: 0 <= j < |[move] + rest| ==> CleanMove(([move] + rest)[j])
  {
    var kept := [move] + rest;
    forall j | 0 <= j < |kept|
      ensures CleanMove(kept[j])
    {
      if j > 0 {
        assert kept[j] == rest[j - 1];
      }
    }
  }

  /** `_parse_moves(move_text)`. */
  function ParseMovesSpec(moveText: string): (seq<string>, string) {
    ParseTokens(Words(RemoveSpans(RemoveSpans(moveText, '{', '}'), '(', ')')))
  }

  /** Tokens before a result token add their moves, and the result and the
      later moves are those of the rest. */
  lemma {:induction false} ParseTokensAppend(a: seq<string>, b: seq<string>)
    requires forall i :: 0 <= i < |a| ==> !Classify(a[i]).Stop?
    ensures ParseTokens(a + b) == (ParseTokens(a).0 + ParseTokens(b).0, ParseTokens(b).1)
    decreases |a|
  {
    if a == [] {
      assert a + b == b;
      assert ParseTokens(a).0 + ParseTokens(b).0 == ParseTokens(b).0;
    } else {
      assert (a + b)[0] == a[0] && (a + b)[1..] == a[1..] + b;
      ParseTokensAppend(a[1..], b);
      match Classify(a[0])
      case Skip =>
      case Keep(m) =>
        assert [m] + (ParseTokens(a[1..]).0 + ParseTokens(b).0) == ([m] + ParseTokens(a[1..]).0) + ParseTokens(b).0;
    }
  }

  /** Reading stops at the first result token: what follows it is ignored. */
  lemma {:induction false} StopsAtResult(a: seq<string>, t: string, b: seq<string>)
    requires forall i :: 0 <= i < |a| ==> !Classify(a[i]).Stop?
    requires Classify(t).Stop?
    ensures ParseTokens(a + [t] + b) == (ParseTokens(a).0, Classify(t).result)
  {
    assert a + [t] + b == a + ([t] + b);
    ParseTokensAppend(a, [t] + b);
    assert ([t] + b)[0] == t;
    assert ParseTokens([t] + b) == ([], Classify(t).result);
    assert ParseTokens(a).0 + [] == ParseTokens(a).0;
  }

  /** A word-character run (`\w`, on ASCII letters, digits and `_`). */
  function WordRun(s: string): (n: nat)
    ensures n <= |s| && (forall i :: 0 <= i < n ==> IsWordChar(s[i])) && (n < |s| ==> !IsWordChar(s[n]))
  {
    if s != [] && IsWordChar(s[0]) then 1 + WordRun(s[1..]) else 0
  }

  /** A whitespace run (`\s`). */
  function SpaceRun(s: string): (n: nat)
    ensures n <= |s| && (forall i :: 0 <= i < n ==> IsSpace(s[i])) && (n < |s| ==> !IsSpace(s[n]))
  {
    if s != [] && IsSpace(s[0]) then 1 + SpaceRun(s[1..]) else 0
  }

  /** The last position `j >= lo` where `"]` starts in `s`. */
  function LastQuoteClose(s: string, lo: nat): (j: Option<nat>)
    ensures j.Some? ==> lo <= j.value && j.value + 1 < |s| && s[j.value] == '"' && s[j.value + 1] == ']'
    ensures j.Some? ==> forall k :: j.value < k < |s| - 1 ==> !(s[k] == '"' && s[k + 1] == ']')
    ensures j.None? ==> forall k :: lo <= k < |s| - 1 ==> !(s[k] == '"' && s[k + 1] == ']')
    decreases |s|
  {
    if |s| < lo + 2 then None
    else if s[|s| - 2] == '"' && s[|s| - 1] == ']' then Some(|s| - 2)
    else LastQuoteClose(s[..|s| - 1], lo)
  }

  /** `re.match(r'\[(\w+)\s+"(.*)"\]', line)` and its two groups: a word
      after the bracket, whitespace, a quote, then the longest value (on one
      line) that a quote and a closing bracket follow. */
  function MatchTag(line: string): (m: Option<(string, string)>)
    ensures m.Some? ==> m.value.0 != [] && forall i :: 0 <= i < |m.value.0| ==> IsWordChar(m.value.0[i])
    ensures m.Some? ==> '\n' !in m.value.1
  {
    if line == [] || line[0] != '[' then None
    else
      var n := WordRun(line[1..]);
      assert line[1..1 + n] == line[1..][..n];
      var sp := SpaceRun(line[1 + n..]);
      var q := 1 + n + sp;
      if n == 0 || sp == 0 || q >= |line| || line[q] != '"' then None
      else
        match QuotedValue(line, q + 1)
        case None => None
        case Some(v) => Some((line[1..1 + n], v))
  }

  /** The value part of a tag line: from `lo` up to the last `"]` before
      the first line break (`.` does not cross one). */
  function QuotedValue(line: string, lo: nat): (v: Option<string>)
    requires lo <= |line|
    ensures v.Some? ==> '\n' !in v.value
  {
    var region := if '\n' in line[lo..] then line[..lo + IndexOf(line[lo..], '\n')] else line;
    match LastQuoteClose(region, lo)
    case None => None
    case Some(j) =>
      assert region[lo..j] == line[lo..j];
      assert '\n' !in region[lo..];
      assert region[lo..j] == region[lo..][..j - lo];
      Some(line[lo..j])
  }

  /** The scanner's variables: the games finished so far, the game being
      read, whether its move text has started, and that move text. */
  datatype ScanState = ScanState(games: seq<GameRecord>, current: Option<GameRecord>, inMoves: bool, moveText: string)

  const Start := ScanState([], None, false, "")

  /** A game with no tags, no moves and the result `*`, as `PGNGame()`. */
  const NewGame := GameRecord([], [], "*")

  /** The current game closed with the moves and result of its move text. */
  function Closed(game: GameRecord, moveText: string): GameRecord {
    var moves := ParseMovesSpec(moveText);
    game.(moves := moves.0, result := moves.1)
  }

  /** One iteration of the line loop of `parse_pgn`. */
  function ScanLine(st: ScanState, raw: string): ScanState {
    var line := Strip(raw);
    if line == [] then
      if st.inMoves && Strip(st.moveText) != [] then
        ScanState(if st.current.Some? then st.games + [Closed(st.current.value, st.moveText)] else st.games,
                  None, false, "")
      else st
    else if line[0] == '[' && line[|line| - 1] == ']' then
      var game := if st.current.Some? then st.current.value else NewGame;
      var inMoves := if st.current.Some? then st.inMoves else false;
      var tagged := match MatchTag(line)
                    case Some(kv) => game.(tags := SetTagIn(game.tags, kv.0, kv.1))
                    case None => game;
      ScanState(st.games, Some(tagged), inMoves, st.moveText)
    else
      ScanState(st.games, Some(if st.current.Some? then st.current.value else NewGame), true,
                st.moveText + " " + line)
  }

  /** The line loop of `parse_pgn` over `lines`. */
  function ScanLines(st: ScanState, lines: seq<string>): ScanState
    decreases |lines|
  {
    if lines == [] then st else ScanLines(ScanLine(st, lines[0]), lines[1..])
  }

  /** After the loop: a game whose move text is still open is kept. */
  function Finish(st: ScanState): seq<GameRecord> {
    if st.current.Some? && st.inMoves && Strip(st.moveText) != [] then
      st.games + [Closed(st.current.value, st.moveText)]
    else st.games
  }

  /** `parse_pgn(pgn_text)`. */
  function ParsePgnSpec(pgnText: string): seq<GameRecord> {
    Finish(ScanLines(Start, SplitOn(Strip(pgnText), '\n')))
  }

  lemma {:induction false} ScanLinesAppend(st: ScanState, a: seq<string>, b: seq<string>)
    ensures ScanLines(st, a + b) == ScanLines(ScanLines(st, a), b)
    decreases |a|
  {
    if a == [] {
      assert a + b == b;
    } else {
      assert (a + b)[0] == a[0] && (a + b)[1..] == a[1..] + b;
      ScanLinesAppend(ScanLine(st, a[0]), a[1..], b);
    }
  }

  /** A blank line closes the open game once its move text has begun: the
      game, with the moves and result read from its move text, is appended
      and the scanner starts afresh. */
  lemma {:induction false} BlankClosesGame(st: ScanState, raw: string)
    requires Strip(raw) == [] && st.inMoves && Strip(st.moveText) != [] && st.current.Some?
    ensures ScanLine(st, raw) == ScanState(st.games + [Closed(st.current.value, st.moveText)], None, false, "")
  {
  }

  /** Before any move text a blank line changes nothing: the tags read so
      far stay with the open game and end up in the next game's record. */
  lemma {:induction false} BlankKeepsTags(st: ScanState, raw: string)
    requires Strip(raw) == [] && !st.inMoves
    ensures ScanLine(st, raw) == st
  {
  }

  /** A line the scanner reads as blank or as a tag line. */
  predicate BlankOrBracketed(raw: string) {
    var l := Strip(raw);
    l == [] || (l[0] == '[' && l[|l| - 1] == ']')
  }

  /** Blank and tag lines finish no game and start no move text. */
  lemma {:induction false} TagsOnlyScan(st: ScanState, ls: seq<string>)
    requires !st.inMoves
    requires forall i :: 0 <= i < |ls| ==> BlankOrBracketed(ls[i])
    ensures var r := ScanLines(st, ls); r.games == st.games && !r.inMoves && r.moveText == st.moveText
    decreases |ls|
  {
    if ls != [] {
      assert BlankOrBracketed(ls[0]);
      var next := ScanLine(st, ls[0]);
      assert next.games == st.games && !next.inMoves && next.moveText == st.moveText;
      forall i | 0 <= i < |ls[1..]| ensures BlankOrBracketed(ls[1..][i]) {
        assert ls[1..][i] == ls[i + 1];
      }
      TagsOnlyScan(next, ls[1..]);
    }
  }

  /** Text of tag lines and blank lines only yields no game. */
  lemma {:induction false} TagsOnlyYieldNothing(ls: seq<string>)
    requires forall i :: 0 <= i < |ls| ==> BlankOrBracketed(ls[i])
    ensures Finish(ScanLines(Start, ls)) == []
  {
    TagsOnlyScan(Start, ls);
  }

  /** The games already finished take no part in reading a line. */
  lemma {:induction false} ScanLineAfter(done: seq<GameRecord>, st: ScanState, raw: string)
    ensures ScanLine(st.(games := done + st.games), raw) == ScanLine(st, raw).(games := done + ScanLine(st, raw).games)
  {
    var line := Strip(raw);
    if line == [] && st.inMoves && Strip(st.moveText) != [] && st.current.Some? {
      var g := Closed(st.current.value, st.moveText);
      assert (done + st.games) + [g] == done + (st.games + [g]);
    }
  }

  /** The games already finished take no part in the rest of the scan. */
  lemma {:induction false} ScanLinesAfter(done: seq<GameRecord>, st: ScanState, ls: seq<string>)
    ensures ScanLines(st.(games := done + st.games), ls) == ScanLines(st, ls).(games := done + ScanLines(st, ls).games)
    decreases |ls|
  {
    if ls != [] {
      var next := ScanLine(st, ls[0]);
      ScanLineAfter(done, st, ls[0]);
      ScanLinesAfter(done, next, ls[1..]);
    }
  }

  lemma {:induction false} FinishAfter(done: seq<GameRecord>, st: ScanState)
    ensures Finish(st.(games := done + st.games)) == done + Finish(st)
  {
    if st.current.Some? && st.inMoves && Strip(st.moveText) != [] {
      var g := Closed(st.current.value, st.moveText);
      assert (done + st.games) + [g] == done + (st.games + [g]);
    }
  }

  /** Once a game's move text has begun, a blank line separates it from what
      follows: the lines after it are read as if they stood alone. */
  lemma {:induction false} BlankLineSeparates(a: seq<string>, b: seq<string>)
    requires var r := ScanLines(Start, a);
      r.games == [] && r.current.Some? && r.inMoves && Strip(r.moveText) != []
    ensures Finish(ScanLines(Start, a + [""] + b)) == Finish(ScanLines(Start, a)) + Finish(ScanLines(Start, b))
  {
    var r := ScanLines(Start, a);
    var first := [Closed(r.current.value, r.moveText)];
    assert Finish(r) == first;
    ScanLinesAppend(Start, a + [""], b);
    ScanLinesAppend(Start, a, [""]);
    BlankClosesGame(r, "");
    assert ScanLines(r, [""]) == Start.(games := first + Start.games);
    ScanLinesAfter(first, Start, b);
    FinishAfter(first, ScanLines(Start, b));
  }

  /** The records of a list of game objects. */
  function Records(gs: seq<PgnGame>): (rs: seq<GameRecord>)
    reads set g | g in gs
    ensures |rs| == |gs|
  {
    if gs == [] then [] else Records(gs[..|gs| - 1]) + [gs[|gs| - 1].Record()]
  }

  /** One iteration of the token loop of `_parse_moves`: strip the token,
      skip it when empty, a move number or an ellipsis, stop on a result
      token, otherwise keep it without its annotation symbols unless nothing
      (or a move number) is left. */
  method ReadToken(raw: string) returns (action: TokenAction)
    ensures action == Classify(raw)
  {
    var token := Strip(raw);
    if token == [] {
      return Skip;
    }
    if IsResultToken(token) {
      return Stop(token);
    }
    if StartsWithMoveNumber(token) || token == "..." {
      return Skip;
    }
    var move := StripAnnotations(token);
    if move != [] && !StartsWithMoveNumber(move) {
      return Keep(move);
    }
    return Skip;
  }

  /** `_parse_moves`. */
  method ParseMoves(moveText: string) returns (moves: seq<string>, result: string)
    ensures (moves, result) == ParseMovesSpec(moveText)
  {
    var text := RemoveSpans(moveText, '{', '}');
    text := RemoveSpans(text, '(', ')');
    var tokens := Words(text);
    moves := [];
    result := "*";
    var k := 0;
    assert tokens[k..] == tokens && moves + ParseTokens(tokens).0 == ParseTokens(tokens).0;
    while k < |tokens|
      invariant 0 <= k <= |tokens| && result == "*"
      invariant ParseTokens(tokens) == (moves + ParseTokens(tokens[k..]).0, ParseTokens(tokens[k..]).1)
    {
      assert tokens[k..][0] == tokens[k] && tokens[k..][1..] == tokens[k + 1..];
      ghost var rest := ParseTokens(tokens[k + 1..]);
      var action := ReadToken(tokens[k]);
      match action {
        case Stop(token) =>
          result := token;
          assert moves + [] == moves;
          break;
        case Keep(move) =>
          assert (moves + [move]) + rest.0 == moves + ([move] + rest.0);
          moves := moves + [move];
        case Skip =>
      }
      k := k + 1;
    }
    if k == |tokens| {
      assert tokens[k..] == [] && moves + [] == moves;
    }
  }

  /** The blank-line branch of `parse_pgn` after move text: the game gets
      the moves and result of its move text and joins the finished games. */
  method CloseGame(games: seq<PgnGame>, game: PgnGame, moveText: string) returns (closed: seq<PgnGame>)
    requires game !in games
    modifies game
    ensures closed == games + [game]
    ensures Records(closed) == old(Records(games)) + [Closed(old(game.Record()), moveText)]
  {
    var moves, result := ParseMoves(moveText);
    game.moves := moves;
    game.result := result;
    closed := games + [game];
    assert closed[..|games|] == games;
  }

  /** The tag-line branch of `parse_pgn`: a line the tag pattern matches
      sets that tag; any other tag line is ignored. */
  method ReadTag(games: seq<PgnGame>, game: PgnGame, line: string)
    requires game !in games
    modifies game
    ensures Records(games) == old(Records(games))
    ensures game.Record() == match MatchTag(line)
                             case Some(kv) => old(game.Record()).(tags := SetTagIn(old(game.tags), kv.0, kv.1))
                             case None => old(game.Record())
  {
    var tagMatch := MatchTag(line);
    if tagMatch.Some? {
      game.SetTag(tagMatch.value.0, tagMatch.value.1);
    }
  }

  /** The parse state a game object in progress stands for. */
  function Current(game: PgnGame?): Option<GameRecord>
    reads game
  {
    if game == null then None else Some(game.Record())
  }

  /** The body of the line loop of `parse_pgn`: one line read into the
      games so far, the game in progress and the move text. */
  method ReadLine(games: seq<PgnGame>, currentGame: PgnGame?, inMoves: bool, moveText: string, raw: string)
    returns (games': seq<PgnGame>, currentGame': PgnGame?, inMoves': bool, moveText': string)
    requires currentGame != null ==> currentGame !in games
    modifies currentGame
    ensures currentGame' != null ==> currentGame' !in games' && (currentGame' == currentGame || fresh(currentGame'))
    ensures ScanState(Records(games'), Current(currentGame'), inMoves', moveText') ==
      ScanLine(ScanState(old(Records(games)), old(Current(currentGame)), inMoves, moveText), raw)
  {
    games', currentGame', inMoves', moveText' := games, currentGame, inMoves, moveText;
    var line := Strip(raw);
    if line == [] {
      if inMoves && Strip(moveText) != [] {
        if currentGame != null {
          games' := CloseGame(games, currentGame, moveText);
        }
        currentGame' := null;
        inMoves' := false;
        moveText' := "";
      }
    } else if line[0] == '[' && line[|line| - 1] == ']' {
      if currentGame == null {
        currentGame' := new PgnGame();
        inMoves' := false;
      }
      ReadTag(games, currentGame', line);
    } else {
      if currentGame == null {
        currentGame' := new PgnGame();
      }
      inMoves' := true;
      moveText' := moveText + " " + line;
    }
  }

  /** `parse_pgn`: the games of the text, as game objects. */
  method ParsePgn(pgnText: string) returns (games: seq<PgnGame>)
    ensures Records(games) == ParsePgnSpec(pgnText)
  {
    games := [];
    var lines := SplitOn(Strip(pgnText), '\n');
    var currentGame: PgnGame? := null;
    var inMoves := false;
    var moveText := "";
    var k := 0;
    while k < |lines|
      invariant 0 <= k <= |lines|
      invariant currentGame != null ==> fresh(currentGame) && currentGame !in games
      invariant ScanLines(ScanState(Records(games), Current(currentGame), inMoves, moveText), lines[k..]) ==
                ScanLines(Start, lines)
    {
      assert lines[k..][0] == lines[k] && lines[k..][1..] == lines[k + 1..];
      games, currentGame, inMoves, moveText := ReadLine(games, currentGame, inMoves, moveText, lines[k]);
      k := k + 1;
    }
    if currentGame != null && inMoves && Strip(moveText) != [] {
      games := CloseGame(games, currentGame, moveText);
    }
  }
}
