/** Writing a game with `to_pgn` and reading the text back with
    `parse_pgn` gives back its moves and its result, for every game whose
    moves are plain tokens. */
module PgnRoundTrip {
  import opened Types
  import opened Text
  import opened PgnGames
  import opened PgnParser

  /** A move token the writer and the parser agree on: one non-empty
      whitespace-free token with no bracket, brace or parenthesis, that is
      neither a result token, nor an ellipsis, nor starts with a move
      number, and does not end in an annotation symbol. */
  predicate PlainMove(m: string) {
    m != [] && NoSpace(m) && '[' !in m && '{' !in m && '(' !in m &&
    !IsResultToken(m) && m != "..." && !StartsWithMoveNumber(m) && !IsAnnotation(m[|m| - 1])
  }

  /** A game the round trip applies to: plain moves, a result token, and no
      line break in a tag name or value. */
  predicate Writable(g: GameRecord) {
    (forall i :: 0 <= i < |g.tags| ==> '\n' !in g.tags[i].0 && '\n' !in g.tags[i].1) &&
    IsResultToken(g.result) &&
    forall i :: 0 <= i < |g.moves| ==> PlainMove(g.moves[i])
  }

  /** A non-empty line with no whitespace at either end: `strip` leaves
      it alone. */
  predicate Trimmed(line: string) {
    line != [] && !IsSpace(line[0]) && !IsSpace(line[|line| - 1])
  }

  /** A line the scanner treats as a tag line. */
  predicate TagShaped(line: string) {
    Trimmed(line) && line[0] == '[' && line[|line| - 1] == ']'
  }

  /** A line the scanner treats as move text. */
  predicate MoveShaped(line: string) {
    Trimmed(line) && '[' !in line
  }

  /** The move text the scanner accumulates from the lines `ls`. */
  function SpacedText(ls: seq<string>): string
    decreases |ls|
  {
    if ls == [] then [] else " " + ls[0] + SpacedText(ls[1..])
  }

  /** A result token is one word with no bracket, brace, parenthesis or
      line break. */
  lemma {:induction false} ResultTokenShape(t: string)
    requires IsResultToken(t)
    ensures t != [] && NoSpace(t) && MoveShaped(t)
    ensures '[' !in t && '{' !in t && '(' !in t && '\n' !in t
  {
    if t == "1-0" {
      assert t == ['1', '-', '0'];
    } else if t == "0-1" {
      assert t == ['0', '-', '1'];
    } else if t == "1/2-1/2" {
      assert t == ['1', '/', '2', '-', '1', '/', '2'];
    } else {
      assert t == ['*'];
    }
  }

  // ---------------------------------------------------------------------
  // Shape of the written lines

  lemma {:induction false} TagLineShape(tag: string, value: string)
    requires '\n' !in tag && '\n' !in value
    ensures TagShaped(TagLine(tag, value)) && '\n' !in TagLine(tag, value)
  {
  }

  lemma {:induction false} TagValueAvoid(tags: Tags, key: string, default: string, c: char)
    requires c !in default && forall i :: 0 <= i < |tags| ==> c !in tags[i].1
    ensures c !in TagValue(tags, key, default)
  {
    var v := Lookup(tags, key);
    if v.Some? {
      var j :| 0 <= j < |tags| && tags[j] == (key, v.value);
    }
  }

  lemma {:induction false} RequiredLinesShape(tags: Tags)
    requires forall i :: 0 <= i < |tags| ==> '\n' !in tags[i].0 && '\n' !in tags[i].1
    ensures forall i :: 0 <= i < 7 ==> TagShaped(RequiredLines(tags)[i]) && '\n' !in RequiredLines(tags)[i]
  {
    forall i | 0 <= i < 7
      ensures TagShaped(RequiredLines(tags)[i]) && '\n' !in RequiredLines(tags)[i]
    {
      var key := RequiredTags[i];
      TagValueAvoid(tags, key, DefaultValue(key), '\n');
      assert '\n' !in key;
      TagLineShape(key, TagValue(tags, key, DefaultValue(key)));
    }
  }

  lemma {:induction false} ExtraLinesShape(tags: Tags)
    requires forall i :: 0 <= i < |tags| ==> '\n' !in tags[i].0 && '\n' !in tags[i].1
    ensures forall i :: 0 <= i < |ExtraLines(tags)| ==> TagShaped(ExtraLines(tags)[i]) && '\n' !in ExtraLines(tags)[i]
  {
    if tags != [] {
      var last := tags[|tags| - 1];
      ExtraLinesShape(tags[..|tags| - 1]);
      TagLineShape(last.0, last.1);
    }
  }

  /** A move number holds only digits and a dot. */
  lemma {:induction false} MoveNumberChars(n: nat, c: char)
    requires !IsDigit(c) && c != '.'
    ensures c !in MoveNumber(n)
  {
  }

  lemma {:induction false} MoveTokensAvoid(moves: seq<string>, n: nat, c: char)
    requires !IsDigit(c) && c != '.'
    requires forall i :: 0 <= i < |moves| ==> c !in moves[i]
    ensures forall i :: 0 <= i < |MoveTokens(moves, n)| ==> c !in MoveTokens(moves, n)[i]
    decreases |moves|
  {
    if moves != [] {
      MoveNumberChars(n, c);
      MoveTokensAvoid(moves[1..], n + 1, c);
    }
  }

  lemma {:induction false} MoveTokensAreWords(moves: seq<string>, n: nat)
    requires IsWords(moves)
    ensures IsWords(MoveTokens(moves, n))
    decreases |moves|
  {
    if moves != [] {
      var digits := NatToString(n / 2 + 1);
      DigitsNoSpace(digits);
      MoveTokensAreWords(moves[1..], n + 1);
    }
  }

  lemma {:induction false} NoSpaceAvoid(s: string, c: char)
    requires NoSpace(s) && IsSpace(c)
    ensures c !in s
  {
  }

  /** A character that no move, no move number and the result contain is in
      no word of the written move text. */
  lemma {:induction false} MoveWordsAvoid(g: GameRecord, c: char)
    requires Writable(g) && g.moves != []
    requires c == '[' || c == '{' || c == '(' || c == '\n'
    ensures var ws := Words(MovesText(g.moves) + g.result);
      forall i :: 0 <= i < |ws| ==> c !in ws[i]
  {
    var ws := Words(MovesText(g.moves) + g.result);
    assert IsWords(g.moves);
    ResultTokenShape(g.result);
    MoveTextWords(g.moves, g.result);
    var toks := MoveTokens(g.moves, 0);
    assert ws == toks + [g.result];
    forall i | 0 <= i < |g.moves| ensures c !in g.moves[i] {
      if c == '\n' {
        NoSpaceAvoid(g.moves[i], c);
      }
    }
    MoveTokensAvoid(g.moves, 0, c);
    forall i | 0 <= i < |ws| ensures c !in ws[i] {
      if i < |toks| {
        assert ws[i] == toks[i];
      } else {
        assert ws[i] == g.result;
      }
    }
  }

  /** The lines written for the moves and the result. */
  function MoveLines(g: GameRecord): seq<string> {
    if g.moves != [] then Wrap(MovesText(g.moves) + g.result, 80) else [g.result]
  }

  /** The wrapped move lines are well-formed move text whose words are the
      intended move tokens. */
  lemma {:induction false} WrappedLinesShape(g: GameRecord)
    requires Writable(g) && g.moves != []
    ensures var ls := Wrap(MovesText(g.moves) + g.result, 80);
      LineWords(ls) == MoveTokens(g.moves, 0) + [g.result] &&
      forall i :: 0 <= i < |ls| ==> MoveShaped(ls[i]) && '\n' !in ls[i] && '{' !in ls[i] && '(' !in ls[i]
  {
    var text := MovesText(g.moves) + g.result;
    var ls := Wrap(text, 80);
    assert IsWords(g.moves);
    ResultTokenShape(g.result);
    MoveTextWords(g.moves, g.result);
    WrapKeepsWords(text, 80);
    MoveWordsAvoid(g, '[');
    MoveWordsAvoid(g, '{');
    MoveWordsAvoid(g, '(');
    MoveWordsAvoid(g, '\n');
    WrapAvoids(text, 80, '[');
    WrapAvoids(text, 80, '{');
    WrapAvoids(text, 80, '(');
    WrapAvoids(text, 80, '\n');
    assert forall i :: 0 <= i < |ls| ==> GoodLine(ls[i], 80);
  }

  /** The move lines are well-formed move text whose words are the intended
      move tokens. */
  lemma {:induction false} MoveLinesShape(g: GameRecord)
    requires Writable(g)
    ensures var ls := MoveLines(g);
      ls != [] && LineWords(ls) == MoveTokens(g.moves, 0) + [g.result] &&
      forall i :: 0 <= i < |ls| ==> MoveShaped(ls[i]) && '\n' !in ls[i] && '{' !in ls[i] && '(' !in ls[i]
  {
    if g.moves != [] {
      WrappedLinesShape(g);
    } else {
      var ls := MoveLines(g);
      assert ls == [g.result];
      ResultTokenShape(g.result);
      WordsOfWord(g.result);
      assert LineWords(ls) == LineWords([]) + Words(g.result);
      assert MoveTokens(g.moves, 0) == [];
    }
  }

  // ---------------------------------------------------------------------
  // The text is split back into the written lines

  lemma {:induction false} JoinFirst(ls: seq<string>, sep: string)
    requires ls != [] && ls[0] != []
    ensures Join(ls, sep) != [] && Join(ls, sep)[0] == ls[0][0]
  {
  }

  lemma {:induction false} JoinLast(ls: seq<string>, sep: string)
    requires ls != [] && ls[|ls| - 1] != []
    ensures var j := Join(ls, sep); j != [] && j[|j| - 1] == ls[|ls| - 1][|ls[|ls| - 1]| - 1]
    decreases |ls|
  {
    if |ls| > 1 {
      JoinLast(ls[1..], sep);
    }
  }

  /** The tag lines: the roster, then the other tags. */
  function HeadLines(g: GameRecord): seq<string> {
    RequiredLines(g.tags) + ExtraLines(g.tags)
  }

  lemma {:induction false} HeadLinesShape(g: GameRecord)
    requires Writable(g)
    ensures var h := HeadLines(g);
      |h| >= 7 && forall i :: 0 <= i < |h| ==> TagShaped(h[i]) && '\n' !in h[i]
  {
    var h := HeadLines(g);
    RequiredLinesShape(g.tags);
    ExtraLinesShape(g.tags);
    forall i | 0 <= i < |h| ensures TagShaped(h[i]) && '\n' !in h[i] {
      if i < 7 {
        assert h[i] == RequiredLines(g.tags)[i];
      } else {
        assert h[i] == ExtraLines(g.tags)[i - 7];
      }
    }
  }

  /** Lines without a line break, the first starting with a bracket and the
      last ending in a non-space, split back out of their join. */
  lemma {:induction false} SplitJoined(ls: seq<string>)
    requires |ls| >= 1 && ls[0] != [] && ls[0][0] == '[' && Trimmed(ls[|ls| - 1])
    requires forall i :: 0 <= i < |ls| ==> '\n' !in ls[i]
    ensures SplitOn(Strip(Join(ls, "\n")), '\n') == ls
  {
    var text := Join(ls, "\n");
    JoinFirst(ls, "\n");
    JoinLast(ls, "\n");
    assert text[0] == '[' && !IsSpace(text[|text| - 1]);
    StripUnchanged(text);
    assert [ '\n' ] == "\n";
    SplitOnJoin(ls, '\n');
  }

  /** The written lines hold no line break, the first opens a tag and the
      last is a trimmed move line. */
  lemma {:induction false} PgnLinesShape(g: GameRecord)
    requires Writable(g)
    ensures Splittable(PgnLines(g))
  {
    var ls := PgnLines(g);
    var h := HeadLines(g);
    var ml := MoveLines(g);
    assert ls == h + [""] + ml;
    HeadLinesShape(g);
    MoveLinesShape(g);
    forall i | 0 <= i < |ls| ensures '\n' !in ls[i] {
      if i < |h| {
        assert ls[i] == h[i];
      } else if i > |h| {
        assert ls[i] == ml[i - |h| - 1];
      }
    }
    assert ls[|ls| - 1] == ml[|ml| - 1];
    assert ls[0] == h[0];
  }

  /** `to_pgn` emits exactly its lines: splitting the stripped text at line
      breaks gives them back. */
  lemma {:induction false} SplitPgnText(g: GameRecord)
    requires Writable(g)
    ensures SplitOn(Strip(PgnText(g)), '\n') == PgnLines(g)
  {
    PgnLinesShape(g);
    SplitJoined(PgnLines(g));
  }

  /** Lines that split back out of their join: no line break in any, the
      first opening a tag, the last trimmed. */
  predicate Splittable(ls: seq<string>) {
    |ls| >= 1 && ls[0] != [] && ls[0][0] == '[' && Trimmed(ls[|ls| - 1]) &&
    forall i :: 0 <= i < |ls| ==> '\n' !in ls[i]
  }

  /** Two joined texts with a blank line between split into the first's
      lines, a blank line and the second's. */
  lemma {:induction false} SplitTwoJoined(l1: seq<string>, l2: seq<string>)
    requires Splittable(l1) && Splittable(l2)
    ensures SplitOn(Strip(Join(l1, "\n") + "\n\n" + Join(l2, "\n")), '\n') == l1 + [""] + l2
  {
    var ls := l1 + [""] + l2;
    assert ls == l1 + ([""] + l2);
    JoinAppend(l1, [""] + l2, "\n");
    JoinStep("", l2, "\n");
    assert Join(ls, "\n") == Join(l1, "\n") + "\n\n" + Join(l2, "\n");
    forall i | 0 <= i < |ls| ensures '\n' !in ls[i] {
      if i < |l1| {
        assert ls[i] == l1[i];
      } else if i > |l1| {
        assert ls[i] == l2[i - |l1| - 1];
      }
    }
    assert ls[0] == l1[0];
    assert ls[|ls| - 1] == l2[|l2| - 1];
    SplitJoined(ls);
  }

  // ---------------------------------------------------------------------
  // The scanner over the written lines

  lemma {:induction false} ScanTagLine(st: ScanState, line: string)
    requires !st.inMoves && TagShaped(line)
    ensures var r := ScanLine(st, line);
      r.games == st.games && !r.inMoves && r.moveText == st.moveText && r.current.Some?
  {
    StripUnchanged(line);
  }

  lemma {:induction false} ScanMoveLine(st: ScanState, line: string)
    requires MoveShaped(line)
    ensures var r := ScanLine(st, line);
      r.games == st.games && r.inMoves && r.moveText == st.moveText + " " + line && r.current.Some?
  {
    StripUnchanged(line);
  }

  lemma {:induction false} ScanBlankLine(st: ScanState)
    requires !st.inMoves
    ensures ScanLine(st, "") == st
  {
  }

  lemma {:induction false} ScanTagLines(st: ScanState, ls: seq<string>)
    requires !st.inMoves
    requires forall i :: 0 <= i < |ls| ==> TagShaped(ls[i])
    ensures var r := ScanLines(st, ls);
      r.games == st.games && !r.inMoves && r.moveText == st.moveText &&
      (ls != [] || st.current.Some? ==> r.current.Some?)
    decreases |ls|
  {
    if ls != [] {
      ScanTagLine(st, ls[0]);
      ScanTagLines(ScanLine(st, ls[0]), ls[1..]);
    }
  }

  lemma {:induction false} ScanMoveLines(st: ScanState, ls: seq<string>)
    requires forall i :: 0 <= i < |ls| ==> MoveShaped(ls[i])
    ensures var r := ScanLines(st, ls);
      r.games == st.games && r.moveText == st.moveText + SpacedText(ls) &&
      (ls != [] || st.current.Some? ==> r.current.Some?) &&
      (ls != [] ==> r.inMoves) && (ls == [] ==> r == st)
    decreases |ls|
  {
    if ls != [] {
      var line, rest := ls[0], ls[1..];
      var next := ScanLine(st, line);
      ScanMoveLine(st, line);
      forall j | 0 <= j < |rest|
        ensures MoveShaped(rest[j])
      {
        assert rest[j] == ls[j + 1];
      }
      ScanMoveLines(next, rest);
      assert SpacedText(ls) == " " + line + SpacedText(rest);
      AppendThree(st.moveText, " " + line, SpacedText(rest));
    }
  }

  lemma {:induction false} SpacedTextAvoid(ls: seq<string>, c: char)
    requires c != ' ' && forall i :: 0 <= i < |ls| ==> c !in ls[i]
    ensures c !in SpacedText(ls)
    decreases |ls|
  {
    if ls != [] {
      SpacedTextAvoid(ls[1..], c);
    }
  }

  lemma {:induction false} LineWordsCons(line: string, ls: seq<string>)
    ensures LineWords([line] + ls) == Words(line) + LineWords(ls)
    decreases |ls|
  {
    if ls == [] {
      assert [line] + ls == [line];
      assert LineWords([line]) == LineWords([]) + Words(line);
    } else {
      var pre := ls[..|ls| - 1];
      assert ([line] + ls)[..|ls|] == [line] + pre;
      LineWordsCons(line, pre);
    }
  }

  /** Reading the accumulated move text splits it into the words of the
      lines. */
  lemma {:induction false} SpacedTextWords(ls: seq<string>)
    ensures Words(SpacedText(ls)) == LineWords(ls)
    decreases |ls|
  {
    if ls != [] {
      var first := " " + ls[0];
      var rest := SpacedText(ls[1..]);
      assert SpacedText(ls) == first + rest;
      assert rest == [] || rest[0] == ' ';
      SpacedTextWords(ls[1..]);
      WordsConcatBeforeSpace(first, rest);
      assert first[0] == ' ' && first[1..] == ls[0];
      assert Words(first) == Words(ls[0]);
      LineWordsCons(ls[0], ls[1..]);
      assert [ls[0]] + ls[1..] == ls;
    }
  }

  // ---------------------------------------------------------------------
  // The token loop over the written tokens

  /** The digit run of a move number is its digits. */
  lemma {:induction false} MoveNumberDigits(n: nat)
    ensures var d := NatToString(n / 2 + 1); DigitRun(MoveNumber(n)) == |d|
  {
    var digits := NatToString(n / 2 + 1);
    var num := MoveNumber(n);
    var k := DigitRun(num);
    assert num == digits + ".";
    assert num[|digits|] == '.';
  }

  lemma {:induction false} MoveNumberIsSkipped(n: nat)
    ensures Classify(MoveNumber(n)) == Skip
  {
    var digits := NatToString(n / 2 + 1);
    var num := MoveNumber(n);
    assert num == digits + ".";
    assert num[0] == digits[0] && num[|num| - 1] == '.';
    StripUnchanged(num);
    MoveNumberDigits(n);
    assert StartsWithMoveNumber(num);
    assert !IsResultToken(num);
  }

  lemma {:induction false} PlainMoveIsKept(m: string)
    requires PlainMove(m)
    ensures Classify(m) == Keep(m)
  {
    StripUnchanged(m);
  }

  lemma {:induction false} ResultStops(t: string)
    requires IsResultToken(t)
    ensures Classify(t) == Stop(t)
  {
    StripUnchanged(t);
  }

  lemma {:induction false} ParseSkip(t: string, tail: seq<string>)
    requires Classify(t) == Skip
    ensures ParseTokens([t] + tail) == ParseTokens(tail)
  {
    assert ([t] + tail)[0] == t && ([t] + tail)[1..] == tail;
  }

  lemma {:induction false} ParseKeep(m: string, tail: seq<string>)
    requires Classify(m) == Keep(m)
    ensures ParseTokens([m] + tail) == ([m] + ParseTokens(tail).0, ParseTokens(tail).1)
  {
    assert ([m] + tail)[0] == m && ([m] + tail)[1..] == tail;
  }

  /** The tokens written for one move number and move. */
  function MoveHead(n: nat, m: string): seq<string> {
    (if n % 2 == 0 then [MoveNumber(n)] else []) + [m]
  }

  lemma {:induction false} MoveTokensHead(moves: seq<string>, n: nat, result: string)
    requires moves != []
    ensures MoveTokens(moves, n) + [result] == MoveHead(n, moves[0]) + (MoveTokens(moves[1..], n + 1) + [result])
  {
  }

  lemma {:induction false} ParseOneMove(n: nat, m: string, tail: seq<string>)
    requires PlainMove(m)
    ensures ParseTokens(MoveHead(n, m) + tail) == ([m] + ParseTokens(tail).0, ParseTokens(tail).1)
  {
    PlainMoveIsKept(m);
    ParseKeep(m, tail);
    if n % 2 == 0 {
      MoveNumberIsSkipped(n);
      assert MoveHead(n, m) + tail == [MoveNumber(n)] + ([m] + tail);
      ParseSkip(MoveNumber(n), [m] + tail);
    } else {
      assert MoveHead(n, m) + tail == [m] + tail;
    }
  }

  /** The tokens written for plain moves and a result read back as those
      moves and that result. */
  lemma {:induction false} ParseMoveTokens(moves: seq<string>, n: nat, result: string)
    requires forall i :: 0 <= i < |moves| ==> PlainMove(moves[i])
    requires IsResultToken(result)
    ensures ParseTokens(MoveTokens(moves, n) + [result]) == (moves, result)
    decreases |moves|
  {
    if moves == [] {
      ResultStops(result);
      assert MoveTokens(moves, n) + [result] == [result];
      assert ParseTokens([result]) == ([], result);
    } else {
      var tail := MoveTokens(moves[1..], n + 1) + [result];
      assert PlainMove(moves[0]);
      assert forall i :: 0 <= i < |moves[1..]| ==> PlainMove(moves[1..][i]) by {
        forall i | 0 <= i < |moves[1..]| ensures PlainMove(moves[1..][i]) {
          assert moves[1..][i] == moves[i + 1];
        }
      }
      calc {
        ParseTokens(MoveTokens(moves, n) + [result]);
        { MoveTokensHead(moves, n, result); }
        ParseTokens(MoveHead(n, moves[0]) + tail);
        { ParseOneMove(n, moves[0], tail); }
        ([moves[0]] + ParseTokens(tail).0, ParseTokens(tail).1);
        { ParseMoveTokens(moves[1..], n + 1, result); }
        ([moves[0]] + moves[1..], result);
        { assert [moves[0]] + moves[1..] == moves; }
        (moves, result);
      }
    }
  }

  /** The move text the scanner gathers from the written move lines is
      non-blank and reads back as the game's moves and result. */
  lemma {:induction false} ParseMoveLines(g: GameRecord)
    requires Writable(g)
    ensures var text := SpacedText(MoveLines(g));
      Strip(text) != [] && ParseMovesSpec(text) == (g.moves, g.result)
  {
    var ml := MoveLines(g);
    var text := SpacedText(ml);
    MoveLinesShape(g);
    SpacedTextAvoid(ml, '{');
    SpacedTextAvoid(ml, '(');
    assert text == " " + ml[0] + SpacedText(ml[1..]);
    assert text[1] == ml[0][0];
    StripEmpty(text);
    SpacedTextWords(ml);
    assert RemoveSpans(RemoveSpans(text, '{', '}'), '(', ')') == text;
    ParseMoveTokens(g.moves, 0, g.result);
  }

  // ---------------------------------------------------------------------
  // The round trip

  /** Scanning the written lines of a game leaves it open with its move
      text begun and no game finished. */
  lemma {:induction false} ScanWritten(g: GameRecord)
    requires Writable(g)
    ensures var r := ScanLines(Start, PgnLines(g));
      r.games == [] && r.current.Some? && r.inMoves && r.moveText == SpacedText(MoveLines(g))
  {
    var h := HeadLines(g);
    var ml := MoveLines(g);
    assert PgnLines(g) == h + [""] + ml;
    HeadLinesShape(g);
    MoveLinesShape(g);
    ScanLinesAppend(Start, h + [""], ml);
    ScanLinesAppend(Start, h, [""]);
    var afterHead := ScanLines(Start, h);
    ScanTagLines(Start, h);
    var afterBlank := ScanLines(afterHead, [""]);
    ScanBlankLine(afterHead);
    assert afterBlank == afterHead;
    ScanMoveLines(afterBlank, ml);
  }

  /** `parse_pgn(g.to_pgn())` returns one game, with g's moves and result. */
  lemma {:induction false} RoundTrip(g: GameRecord)
    requires Writable(g)
    ensures var games := ParsePgnSpec(PgnText(g));
      |games| == 1 && games[0].moves == g.moves && games[0].result == g.result
  {
    SplitPgnText(g);
    ScanWritten(g);
    ParseMoveLines(g);
  }

  /** Two games written back to back with a blank line between read back
      as the two records each text gives on its own: the first game is
      closed by the blank line, and its tags do not reach the second. */
  lemma {:induction false} TwoGames(g1: GameRecord, g2: GameRecord)
    requires Writable(g1) && Writable(g2)
    ensures ParsePgnSpec(PgnText(g1) + "\n\n" + PgnText(g2)) == ParsePgnSpec(PgnText(g1)) + ParsePgnSpec(PgnText(g2))
  {
    PgnLinesShape(g1);
    PgnLinesShape(g2);
    SplitTwoJoined(PgnLines(g1), PgnLines(g2));
    SplitPgnText(g1);
    SplitPgnText(g2);
    ScanWritten(g1);
    ParseMoveLines(g1);
    BlankLineSeparates(PgnLines(g1), PgnLines(g2));
  }

  /** The two games keep their own moves and results. */
  lemma {:induction false} TwoGamesRoundTrip(g1: GameRecord, g2: GameRecord)
    requires Writable(g1) && Writable(g2)
    ensures var games := ParsePgnSpec(PgnText(g1) + "\n\n" + PgnText(g2));
      |games| == 2 && games[0].moves == g1.moves && games[0].result == g1.result &&
      games[1].moves == g2.moves && games[1].result == g2.result
  {
    TwoGames(g1, g2);
    RoundTrip(g1);
    RoundTrip(g2);
  }
}
