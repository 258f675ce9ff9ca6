/** The `PGNGame` record of `pgn_manager.py` and its writer: the tag table,
    the list of move tokens, the result token, `to_pgn` and `_wrap_text`.
    The writer emits the Seven Tag Roster of section 8.1.1 of the PGN
    Standard in its fixed order, then the other tags, an empty line, and
    the numbered move text wrapped greedily at 80 columns. */
module PgnGames {
  import opened Types
  import opened Text

  /** A Python dict from tag names to values, in insertion order. */
  type Tags = seq<(string, string)>

  /** `tags.get(key)`: the value stored under the first entry with the key. */
  function Lookup(tags: Tags, key: string): (v: Option<string>)
    ensures v.None? <==> forall i :: 0 <= i < |tags| ==> tags[i].0 != key
    ensures v.Some? ==> (key, v.value) in tags
  {
    if tags == [] then None
    else if tags[0].0 == key then Some(tags[0].1)
    else Lookup(tags[1..], key)
  }

  /** The keys of a tag table, in insertion order. */
  function Keys(tags: Tags): (ks: seq<string>)
    ensures |ks| == |tags|
  {
    if tags == [] then [] else [tags[0].0] + Keys(tags[1..])
  }

  /** `tags[key] = value`: the key now holds the new value and every other
      key keeps its value. */
  function SetTagIn(tags: Tags, key: string, value: string): (r: Tags)
    ensures Lookup(r, key) == Some(value)
    ensures forall k :: k != key ==> Lookup(r, k) == Lookup(tags, k)
  {
    if tags == [] then [(key, value)]
    else if tags[0].0 == key then [(key, value)] + tags[1..]
    else [tags[0]] + SetTagIn(tags[1..], key, value)
  }

  /** An existing key keeps its place in the insertion order; a new key goes
      last. */
  lemma {:induction false} SetTagKeys(tags: Tags, key: string, value: string)
    ensures Keys(SetTagIn(tags, key, value)) == if key in Keys(tags) then Keys(tags) else Keys(tags) + [key]
  {
    if tags != [] && tags[0].0 != key {
      var rest := SetTagIn(tags[1..], key, value);
      var r := SetTagIn(tags, key, value);
      assert r == [tags[0]] + rest && r[1..] == rest;
      SetTagKeys(tags[1..], key, value);
      assert Keys(r) == [tags[0].0] + Keys(rest);
      assert Keys(tags) == [tags[0].0] + Keys(tags[1..]);
      assert key in Keys(tags) <==> key in Keys(tags[1..]);
      if key in Keys(tags[1..]) {
        assert Keys(r) == Keys(tags);
      } else {
        assert Keys(r) == [tags[0].0] + (Keys(tags[1..]) + [key]);
      }
    } else if tags != [] {
      var r := SetTagIn(tags, key, value);
      assert r[1..] == tags[1..];
      assert Keys(r) == [key] + Keys(tags[1..]);
    }
  }

  /** `tags.get(key, default)`. */
  function TagValue(tags: Tags, key: string, default: string): (v: string)
    ensures (forall i :: 0 <= i < |tags| ==> tags[i].0 != key) ==> v == default
    ensures (exists i :: 0 <= i < |tags| && tags[i].0 == key) ==> (key, v) in tags
  {
    match Lookup(tags, key)
    case Some(stored) => stored
    case None => default
  }

  /** A game: its tags, its move tokens and its result token. */
  datatype GameRecord = GameRecord(tags: Tags, moves: seq<string>, result: string)

  /** The Seven Tag Roster, in the order the writer emits it. */
  const RequiredTags: seq<string> := ["Event", "Site", "Date", "Round", "White", "Black", "Result"]

  /** The value written for a roster tag that was never set. */
  function DefaultValue(tag: string): string {
    if tag == "Result" then "*" else "?"
  }

  /** The tag line `[tag "value"]`. */
  function TagLine(tag: string, value: string): (line: string)
    ensures |line| == |tag| + |value| + 5
    ensures line[0] == '[' && line[|line| - 1] == ']'
    ensures line[1..|tag| + 1] == tag && line[|tag| + 1] == ' ' && line[|tag| + 2] == '"'
    ensures line[|tag| + 3..|line| - 2] == value && line[|line| - 2] == '"'
  {
    "[" + tag + " \"" + value + "\"]"
  }

  /** The seven roster lines: each roster tag with its value or its default. */
  function RequiredLines(tags: Tags): (lines: seq<string>)
    ensures |lines| == 7
  {
    seq(7, i requires 0 <= i < 7 => TagLine(RequiredTags[i], TagValue(tags, RequiredTags[i], DefaultValue(RequiredTags[i]))))
  }

  /** The lines of the tags outside the roster, in insertion order. */
  function ExtraLines(tags: Tags): (lines: seq<string>)
    ensures |lines| <= |tags|
  {
    if tags == [] then []
    else
      var last := tags[|tags| - 1];
      ExtraLines(tags[..|tags| - 1]) + (if last.0 !in RequiredTags then [TagLine(last.0, last.1)] else [])
  }

  /** The move-number token `"n."` written before the move with index `i`. */
  function MoveNumber(i: nat): string {
    NatToString(i / 2 + 1) + "."
  }

  /** The text written for the move with index `i`: white's moves carry
      their move number. */
  function MovePart(i: nat, move: string): string {
    if i % 2 == 0 then MoveNumber(i) + " " + move + " " else move + " "
  }

  /** The move text the writer accumulates for `moves`, before the result. */
  function MovesText(moves: seq<string>): string {
    if moves == [] then []
    else MovesText(moves[..|moves| - 1]) + MovePart(|moves| - 1, moves[|moves| - 1])
  }

  lemma {:induction false} RequiredLinesStep(tags: Tags, t: int)
    requires 0 <= t < 7
    ensures RequiredLines(tags)[..t + 1] ==
      RequiredLines(tags)[..t] + [TagLine(RequiredTags[t], TagValue(tags, RequiredTags[t], DefaultValue(RequiredTags[t])))]
  {
    var all := RequiredLines(tags);
    assert all[..t + 1] == all[..t] + [all[t]];
  }

  lemma {:induction false} ExtraLinesStep(tags: Tags, i: int)
    requires 0 <= i < |tags|
    ensures ExtraLines(tags[..i + 1]) ==
      ExtraLines(tags[..i]) + (if tags[i].0 !in RequiredTags then [TagLine(tags[i].0, tags[i].1)] else [])
  {
    assert tags[..i + 1][..i] == tags[..i];
  }

  lemma {:induction false} EvenPart(i: nat, move: string)
    requires i % 2 == 0
    ensures MovePart(i, move) == NatToString(i / 2 + 1) + ". " + move + " "
  {
    assert MoveNumber(i) + " " == NatToString(i / 2 + 1) + ". ";
  }

  lemma {:induction false} MovesTextStep(moves: seq<string>, i: int)
    requires 0 <= i < |moves|
    ensures MovesText(moves[..i + 1]) == MovesText(moves[..i]) + MovePart(i, moves[i])
  {
    assert moves[..i + 1][..i] == moves[..i];
  }

  /** The tokens the move text is meant to consist of, read from move `n`
      on: a move number before each white move, then the move itself. */
  function MoveTokens(moves: seq<string>, n: nat): seq<string>
    decreases |moves|
  {
    if moves == [] then []
    else (if n % 2 == 0 then [MoveNumber(n)] else []) + [moves[0]] + MoveTokens(moves[1..], n + 1)
  }

  /** The state of the word-wrap loop: finished lines and the line being
      filled. */
  datatype WrapState = WrapState(lines: seq<string>, current: string)

  /** One iteration of the word-wrap loop. */
  function WrapStep(st: WrapState, word: string, width: int): WrapState {
    if |st.current + word| + 1 <= width then
      WrapState(st.lines, if st.current != [] then st.current + " " + word else word)
    else
      WrapState(if st.current != [] then st.lines + [st.current] else st.lines, word)
  }

  /** The word-wrap loop run over `words`. */
  function WrapWords(words: seq<string>, width: int): WrapState {
    if words == [] then WrapState([], [])
    else WrapStep(WrapWords(words[..|words| - 1], width), words[|words| - 1], width)
  }

  /** `_wrap_text(text, width)`. */
  function Wrap(text: string, width: int): seq<string> {
    var st := WrapWords(Words(text), width);
    if st.current != [] then st.lines + [st.current] else st.lines
  }

  /** The lines `to_pgn` joins: roster, other tags, an empty line, then the
      wrapped move text, or the bare result when there are no moves. */
  function PgnLines(g: GameRecord): seq<string> {
    RequiredLines(g.tags) + ExtraLines(g.tags) + [""] +
    (if g.moves != [] then Wrap(MovesText(g.moves) + g.result, 80) else [g.result])
  }

  /** `to_pgn()`. */
  function PgnText(g: GameRecord): string {
    Join(PgnLines(g), "\n")
  }

  /** Every element is a non-empty run without whitespace: what `str.split()`
      returns. */
  predicate IsWords(ws: seq<string>) {
    forall i :: 0 <= i < |ws| ==> ws[i] != [] && NoSpace(ws[i])
  }

  /** The words of each line, one line after another. */
  function LineWords(lines: seq<string>): seq<string> {
    if lines == [] then [] else LineWords(lines[..|lines| - 1]) + Words(lines[|lines| - 1])
  }

  /** A line the wrapper may produce: non-empty, without whitespace at either
      end, and within `width` unless it is a single word. */
  predicate GoodLine(line: string, width: int) {
    line != [] && !IsSpace(line[0]) && !IsSpace(line[|line| - 1]) && (|line| <= width || NoSpace(line))
  }

  /** A single space before a word adds no word of its own. */
  lemma {:induction false} WordsAfterSpace(a: string, w: string)
    requires w != [] && NoSpace(w)
    ensures Words(a + " " + w) == Words(a) + [w]
  {
    assert a + " " + w == a + (" " + w);
    WordsConcatBeforeSpace(a, " " + w);
    assert (" " + w)[1..] == w;
    WordsOfWord(w);
  }

  lemma {:induction false} LineWordsSnoc(lines: seq<string>, line: string)
    ensures LineWords(lines + [line]) == LineWords(lines) + Words(line)
  {
    assert (lines + [line])[..|lines|] == lines;
  }

  /** What the wrap loop keeps: the finished lines and the current line hold
      the words `ws` read so far, in order, and every line is well formed. */
  predicate WrapKept(st: WrapState, ws: seq<string>, width: int) {
    LineWords(st.lines) + Words(st.current) == ws &&
    (forall i :: 0 <= i < |st.lines| ==> GoodLine(st.lines[i], width)) &&
    (st.current == [] || GoodLine(st.current, width))
  }

  lemma {:induction false} WrapWordsKeep(ws: seq<string>, width: int)
    requires IsWords(ws)
    ensures WrapKept(WrapWords(ws, width), ws, width)
    decreases |ws|
  {
    if ws != [] {
      var pre, w := ws[..|ws| - 1], ws[|ws| - 1];
      assert ws == pre + [w];
      assert IsWords(pre) by {
        forall i | 0 <= i < |pre| ensures pre[i] != [] && NoSpace(pre[i]) {
          assert pre[i] == ws[i];
        }
      }
      WrapWordsKeep(pre, width);
      WrapStepKeeps(WrapWords(pre, width), pre, w, width);
    }
  }

  /** One step of the wrap loop keeps `WrapKept`. */
  lemma {:induction false} WrapStepKeeps(st: WrapState, pre: seq<string>, w: string, width: int)
    requires WrapKept(st, pre, width) && w != [] && NoSpace(w)
    ensures WrapKept(WrapStep(st, w, width), pre + [w], width)
  {
    WordsOfWord(w);
    if |st.current + w| + 1 <= width {
      if st.current != [] {
        WordsAfterSpace(st.current, w);
        var line := st.current + " " + w;
        assert line[0] == st.current[0] && line[|line| - 1] == w[|w| - 1];
        assert LineWords(st.lines) + Words(line) == pre + [w];
      }
    } else if st.current != [] {
      LineWordsSnoc(st.lines, st.current);
      assert LineWords(st.lines + [st.current]) + Words(w) == pre + [w];
    }
  }

  /** `_wrap_text` keeps the words of the text exactly, in order, never
      emits an empty line, and every line fits the width unless it is a
      single word. */
  lemma {:induction false} WrapKeepsWords(text: string, width: int)
    ensures LineWords(Wrap(text, width)) == Words(text)
    ensures forall i :: 0 <= i < |Wrap(text, width)| ==> GoodLine(Wrap(text, width)[i], width)
  {
    var st := WrapWords(Words(text), width);
    WordsAreWords(text);
    WrapWordsKeep(Words(text), width);
    if st.current != [] {
      LineWordsSnoc(st.lines, st.current);
    }
  }

  /** The wrap loop puts no character in a line that is neither a space nor
      in one of the words. */
  lemma {:induction false} WrapWordsAvoid(ws: seq<string>, width: int, c: char)
    requires c != ' ' && forall i :: 0 <= i < |ws| ==> c !in ws[i]
    ensures var st := WrapWords(ws, width);
      (forall i :: 0 <= i < |st.lines| ==> c !in st.lines[i]) && c !in st.current
    decreases |ws|
  {
    if ws != [] {
      WrapWordsAvoid(ws[..|ws| - 1], width, c);
    }
  }

  lemma {:induction false} WrapAvoids(text: string, width: int, c: char)
    requires c != ' ' && forall i :: 0 <= i < |Words(text)| ==> c !in Words(text)[i]
    ensures forall i :: 0 <= i < |Wrap(text, width)| ==> c !in Wrap(text, width)[i]
  {
    WrapWordsAvoid(Words(text), width, c);
  }

  /** A digit string contains no whitespace. */
  lemma {:induction false} DigitsNoSpace(s: string)
    requires AllDigits(s)
    ensures NoSpace(s)
  {
  }

  lemma {:induction false} MoveTokensAppend(a: seq<string>, b: seq<string>, n: nat)
    ensures MoveTokens(a + b, n) == MoveTokens(a, n) + MoveTokens(b, n + |a|)
    decreases |a|
  {
    if a == [] {
      assert a + b == b;
    } else {
      assert (a + b)[0] == a[0] && (a + b)[1..] == a[1..] + b;
      MoveTokensAppend(a[1..], b, n + 1);
    }
  }

  /** The tokens of the last move follow those of the moves before it. */
  lemma {:induction false} MoveTokensSnoc(moves: seq<string>, n: nat)
    requires moves != []
    ensures MoveTokens(moves, n) == MoveTokens(moves[..|moves| - 1], n) + MoveTokens([moves[|moves| - 1]], n + |moves| - 1)
  {
    var pre, m := moves[..|moves| - 1], moves[|moves| - 1];
    assert pre + [m] == moves;
    MoveTokensAppend(pre, [m], n);
  }

  /** The same, counted from the first move. */
  lemma {:induction false} MoveTokensLast(moves: seq<string>)
    requires moves != []
    ensures MoveTokens(moves, 0) == MoveTokens(moves[..|moves| - 1], 0) + MoveTokens([moves[|moves| - 1]], |moves| - 1)
  {
    MoveTokensSnoc(moves, 0);
  }

  /** The words of the text written for one move. */
  lemma {:induction false} MovePartWords(i: nat, move: string)
    requires move != [] && NoSpace(move)
    ensures Words(MovePart(i, move)) == MoveTokens([move], i)
  {
    assert [move][1..] == [];
    WordsOfWord(move);
    WordsSpaceEnd(move, ' ');
    if i % 2 == 0 {
      var num := MoveNumber(i);
      DigitsNoSpace(NatToString(i / 2 + 1));
      WordsOfWord(num);
      assert MovePart(i, move) == (num + " ") + (move + " ");
      WordsConcatAfterSpace(num + " ", move + " ");
      WordsSpaceEnd(num, ' ');
    }
  }

  lemma {:induction false} MovePartEnd(i: nat, move: string)
    ensures var part := MovePart(i, move); part != [] && part[|part| - 1] == ' '
  {
  }

  /** The numbered move text splits into a move number before each white
      move followed by the move, in order. */
  lemma {:induction false} MovesTextWords(moves: seq<string>)
    requires IsWords(moves)
    ensures Words(MovesText(moves)) == MoveTokens(moves, 0)
    ensures MovesText(moves) == [] || MovesText(moves)[|MovesText(moves)| - 1] == ' '
  {
    if moves != [] {
      var pre, m := moves[..|moves| - 1], moves[|moves| - 1];
      assert IsWords(pre);
      MovesTextWords(pre);
      MovesTextWordsStep(moves);
      MoveTokensLast(moves);
    }
  }

  /** The last move adds its tokens to the words of the move text before it. */
  lemma {:induction false} MovesTextWordsStep(moves: seq<string>)
    requires moves != [] && moves[|moves| - 1] != [] && NoSpace(moves[|moves| - 1])
    requires var text := MovesText(moves[..|moves| - 1]); text == [] || text[|text| - 1] == ' '
    ensures Words(MovesText(moves)) ==
      Words(MovesText(moves[..|moves| - 1])) + MoveTokens([moves[|moves| - 1]], |moves| - 1)
    ensures MovesText(moves) != [] && MovesText(moves)[|MovesText(moves)| - 1] == ' '
  {
    var pre, m := moves[..|moves| - 1], moves[|moves| - 1];
    var text, part := MovesText(pre), MovePart(|pre|, m);
    assert MovesText(moves) == text + part;
    MovePartEnd(|pre|, m);
    WordsConcatAfterSpace(text, part);
    MovePartWords(|pre|, m);
  }

  /** The move text `to_pgn` wraps is the numbered moves followed by the
      result token. */
  lemma {:induction false} MoveTextWords(moves: seq<string>, result: string)
    requires IsWords(moves) && result != [] && NoSpace(result)
    ensures Words(MovesText(moves) + result) == MoveTokens(moves, 0) + [result]
  {
    MovesTextWords(moves);
    WordsConcatAfterSpace(MovesText(moves), result);
    WordsOfWord(result);
  }

  /** The `PGNGame` object. */
  class PgnGame {
    var tags: Tags
    var moves: seq<string>
    var result: string

    function Record(): GameRecord
      reads this
    {
      GameRecord(tags, moves, result)
    }

    /** A game with no tags, no moves and the unknown result `*`. */
    constructor()
      ensures Record() == GameRecord([], [], "*")
    {
      tags := [];
      moves := [];
      result := "*";
    }

    /** `set_tag`. */
    method SetTag(key: string, value: string)
      modifies this
      ensures Record() == old(Record()).(tags := SetTagIn(old(tags), key, value))
    {
      tags := SetTagIn(tags, key, value);
    }

    /** `get_tag`: the stored value, or the default for a key never set. */
    function GetTag(key: string, default: string): (v: string)
      reads this
      ensures (forall i :: 0 <= i < |tags| ==> tags[i].0 != key) ==> v == default
      ensures (exists i :: 0 <= i < |tags| && tags[i].0 == key) ==> (key, v) in tags
    {
      TagValue(tags, key, default)
    }

    /** `add_move`. */
    method AddMove(move: string)
      modifies this
      ensures Record() == old(Record()).(moves := old(moves) + [move])
    {
      moves := moves + [move];
    }

    /** `to_pgn`. */
    method ToPgn() returns (text: string)
      ensures text == PgnText(Record())
    {
      var lines := RosterLines();
      lines := AppendExtraLines(lines);
      lines := lines + [""];
      if moves != [] {
        var moveText := MoveTextLoop(moves);
        moveText := moveText + result;
        var wrapped := WrapText(moveText, 80);
        lines := lines + wrapped;
      } else {
        lines := lines + [result];
      }
      text := Join(lines, "\n");
    }

    /** The loop of `to_pgn` over the seven roster tags. */
    method RosterLines() returns (lines: seq<string>)
      ensures lines == RequiredLines(tags)
    {
      lines := [];
      for t := 0 to 7
        invariant lines == RequiredLines(tags)[..t]
      {
        var tag := RequiredTags[t];
        var value := GetTag(tag, if tag != "Result" then "?" else "*");
        assert value == TagValue(tags, tag, DefaultValue(tag));
        RequiredLinesStep(tags, t);
        lines := lines + [TagLine(tag, value)];
      }
    }

    /** The loop of `to_pgn` over the remaining tags, in insertion order. */
    method AppendExtraLines(lines0: seq<string>) returns (lines: seq<string>)
      ensures lines == lines0 + ExtraLines(tags)
    {
      lines := lines0;
      for i := 0 to |tags|
        invariant lines == lines0 + ExtraLines(tags[..i])
      {
        var (key, value) := tags[i];
        ExtraLinesStep(tags, i);
        if key !in RequiredTags {
          lines := lines + [TagLine(key, value)];
        }
      }
      assert tags[..|tags|] == tags;
    }

    /** The numbering loop of `to_pgn`. */
    static method MoveTextLoop(moves: seq<string>) returns (moveText: string)
      ensures moveText == MovesText(moves)
    {
      moveText := "";
      for i := 0 to |moves|
        invariant moveText == MovesText(moves[..i])
      {
        MovesTextStep(moves, i);
        if i % 2 == 0 {
          var moveNum := i / 2 + 1;
          var part := NatToString(moveNum) + ". " + moves[i] + " ";
          EvenPart(i, moves[i]);
          moveText := moveText + part;
        } else {
          moveText := moveText + (moves[i] + " ");
        }
      }
      assert moves[..|moves|] == moves;
    }

    /** `_wrap_text`. */
    static method WrapText(text: string, width: int) returns (lines: seq<string>)
      ensures lines == Wrap(text, width)
    {
      var words := Words(text);
      lines := [];
      var currentLine := "";
      for k := 0 to |words|
        invariant WrapState(lines, currentLine) == WrapWords(words[..k], width)
      {
        var word := words[k];
        if |currentLine + word| + 1 <= width {
          if currentLine != [] {
            currentLine := currentLine + " " + word;
          } else {
            currentLine := word;
          }
        } else {
          if currentLine != [] {
            lines := lines + [currentLine];
          }
          currentLine := word;
        }
        assert words[..k + 1][..k] == words[..k];
      }
      assert words[..|words|] == words;
      if currentLine != [] {
        lines := lines + [currentLine];
      }
    }
  }
}
