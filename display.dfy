/** The board geometry and the help-option panel of the `ChessDisplay`
    class: where a square is drawn, which square a mouse position selects,
    and the option flags the panel toggles. */
module Display {
  import opened Types

  // ---------------------------------------------------------------------
  // Board geometry

  /** The board's placement on the screen, fixed when the display is
      created: the margins, the board's side and the side of one square. */
  datatype Layout = Layout(marginX: int, marginY: int, boardSize: int, squareSize: int)

  /** `square_size = board_size // 8`, for a board side that is not
      negative; the side itself comes from the window size. */
  function MakeLayout(marginX: int, marginY: int, boardSize: nat): (l: Layout)
    ensures l.marginX == marginX && l.marginY == marginY && l.boardSize == boardSize
    ensures 8 * l.squareSize <= boardSize < 8 * l.squareSize + 8
  {
    Layout(marginX, marginY, boardSize, boardSize / 8)
  }

  /** A layout whose squares have a positive side and fit in the board. */
  predicate Usable(l: Layout) {
    0 < l.squareSize && 8 * l.squareSize <= l.boardSize
  }

  /** The flip applied for a flipped board: row and column mirrored. */
  function Flip(q: Pos): (f: Pos)
    ensures OnBoard(q.0, q.1) <==> OnBoard(f.0, f.1)
    ensures (7 - f.0, 7 - f.1) == q
  {
    (7 - q.0, 7 - q.1)
  }

  /** The row and column at which a board square is drawn. */
  function DisplayedSquare(row: int, col: int, flipped: bool): Pos {
    if flipped then Flip((row, col)) else (row, col)
  }

  /** `get_square_display_position`: the top-left pixel of the drawn
      square. */
  function SquareDisplayPosition(l: Layout, row: int, col: int, flipped: bool): (xy: (int, int))
    requires Usable(l) && OnBoard(row, col)
    ensures var d := DisplayedSquare(row, col, flipped);
      l.marginX <= xy.0 && xy.0 + l.squareSize <= l.marginX + l.boardSize &&
      l.marginY <= xy.1 && xy.1 + l.squareSize <= l.marginY + l.boardSize &&
      xy.0 - l.marginX == d.1 * l.squareSize && xy.1 - l.marginY == d.0 * l.squareSize
  {
    var d := DisplayedSquare(row, col, flipped);
    SquareFits(d.1, l.squareSize);
    SquareFits(d.0, l.squareSize);
    (l.marginX + d.1 * l.squareSize, l.marginY + d.0 * l.squareSize)
  }

  lemma {:induction false} SquareFits(d: int, size: int)
    requires 0 <= d < 8 && 0 < size
    ensures 0 <= d * size && d * size + size <= 8 * size
  {
    assert d * size + size == (d + 1) * size;
  }

  /** The mouse position lies on the board, edges included. */
  predicate InBoard(l: Layout, mouseX: int, mouseY: int) {
    l.marginX <= mouseX <= l.marginX + l.boardSize && l.marginY <= mouseY <= l.marginY + l.boardSize
  }

  /** `get_square_from_mouse`: the displayed `(row, col)` under the mouse,
      or `None` off the board. On the board the offsets are not negative,
      so Python's floor division is Dafny's `/`. */
  function SquareFromMouse(l: Layout, mouseX: int, mouseY: int): (r: Option<Pos>)
    requires l.squareSize > 0
    ensures r.Some? ==> OnBoard(r.value.0, r.value.1) && InBoard(l, mouseX, mouseY)
    ensures r.Some? ==>
      l.marginX + r.value.1 * l.squareSize <= mouseX < l.marginX + (r.value.1 + 1) * l.squareSize &&
      l.marginY + r.value.0 * l.squareSize <= mouseY < l.marginY + (r.value.0 + 1) * l.squareSize
  {
    if InBoard(l, mouseX, mouseY) then
      var col := (mouseX - l.marginX) / l.squareSize;
      var row := (mouseY - l.marginY) / l.squareSize;
      DivBounds(mouseX - l.marginX, l.squareSize);
      DivBounds(mouseY - l.marginY, l.squareSize);
      if 0 <= row < 8 && 0 <= col < 8 then Some((row, col)) else None
    else None
  }

  lemma {:induction false} DivBounds(t: int, size: int)
    requires 0 < size
    ensures (t / size) * size <= t < (t / size + 1) * size
  {
    assert t == (t / size) * size + t % size;
    assert (t / size + 1) * size == (t / size) * size + size;
  }

  lemma {:induction false} DivExact(t: int, size: int, d: int)
    requires 0 < size && d * size <= t < d * size + size
    ensures t / size == d
  {
    var q := t / size;
    DivBounds(t, size);
    if q < d {
      assert (q + 1) * size <= d * size by {
        MulMonotone(q + 1, d, size);
      }
    } else if q > d {
      assert (d + 1) * size <= q * size by {
        MulMonotone(d + 1, q, size);
      }
    }
  }

  lemma {:induction false} MulMonotone(a: int, b: int, size: int)
    requires a <= b && 0 < size
    ensures a * size <= b * size
  {
    assert b * size - a * size == (b - a) * size;
  }

  /** Along one axis, an offset selects one of the eight squares exactly
      when it lies within the eight drawn squares. */
  lemma {:induction false} AxisIndex(t: int, size: int)
    requires 0 < size
    ensures 0 <= t / size < 8 <==> 0 <= t < 8 * size
  {
    var q := t / size;
    DivBounds(t, size);
    if 0 <= q < 8 {
      MulMonotone(0, q, size);
      MulMonotone(q + 1, 8, size);
    }
    if q < 0 {
      MulMonotone(q + 1, 0, size);
    }
    if q >= 8 {
      MulMonotone(8, q, size);
    }
  }

  /** A pixel selects a square exactly when it lies in one of the drawn
      squares: inside the board and before its last, partial, pixels. */
  lemma {:induction false} MouseOnBoard(l: Layout, mouseX: int, mouseY: int)
    requires Usable(l)
    ensures SquareFromMouse(l, mouseX, mouseY).Some? <==>
      l.marginX <= mouseX < l.marginX + 8 * l.squareSize && l.marginY <= mouseY < l.marginY + 8 * l.squareSize
  {
    AxisIndex(mouseX - l.marginX, l.squareSize);
    AxisIndex(mouseY - l.marginY, l.squareSize);
  }

  /** The click round trip: every pixel of a drawn square selects that
      square, once the flip the game loop applies to a click on a flipped
      board is undone. */
  lemma {:induction false} ClickSelectsDrawnSquare(l: Layout, row: int, col: int, flipped: bool, dx: int, dy: int)
    requires Usable(l) && OnBoard(row, col)
    requires 0 <= dx < l.squareSize && 0 <= dy < l.squareSize
    ensures var xy := SquareDisplayPosition(l, row, col, flipped);
      var clicked := SquareFromMouse(l, xy.0 + dx, xy.1 + dy);
      clicked.Some? && DisplayedSquare(clicked.value.0, clicked.value.1, flipped) == (row, col)
  {
    var xy := SquareDisplayPosition(l, row, col, flipped);
    var d := DisplayedSquare(row, col, flipped);
    DivExact(xy.0 + dx - l.marginX, l.squareSize, d.1);
    DivExact(xy.1 + dy - l.marginY, l.squareSize, d.0);
    SquareFits(d.1, l.squareSize);
    SquareFits(d.0, l.squareSize);
    assert InBoard(l, xy.0 + dx, xy.1 + dy);
  }

  // ---------------------------------------------------------------------
  // Help options

  /** One entry of `help_options`. */
  datatype HelpOption = HelpOption(name: string, key: string, enabled: bool)

  /** The three options, all off, before the saved settings are read. */
  function DefaultHelpOptions(): seq<HelpOption> {
    [HelpOption("Hanging Pieces", "hanging_pieces", false),
     HelpOption("Exchange Evaluation", "exchange_evaluation", false),
     HelpOption("Flip Board", "flip_board", false)]
  }

  predicate HasKey(options: seq<HelpOption>, key: string) {
    exists i :: 0 <= i < |options| && options[i].key == key
  }

  /** The flag of the first option with `key`, or false. */
  function Enabled(options: seq<HelpOption>, key: string): bool {
    if options == [] then false
    else if options[0].key == key then options[0].enabled
    else Enabled(options[1..], key)
  }

  /** The options with the flag of the first one bearing `key` flipped. */
  function Toggled(options: seq<HelpOption>, key: string): seq<HelpOption> {
    if options == [] then []
    else if options[0].key == key then [options[0].(enabled := !options[0].enabled)] + options[1..]
    else [options[0]] + Toggled(options[1..], key)
  }

  /** The options after `_load_settings`: each option whose key the saved
      settings hold takes the saved flag. */
  function Loaded(options: seq<HelpOption>, saved: map<string, bool>): seq<HelpOption> {
    seq(|options|, i requires 0 <= i < |options| =>
      if options[i].key in saved then options[i].(enabled := saved[options[i].key]) else options[i])
  }

  /** The first option with `key` is at index `i`: toggling flips that
      entry alone, and the lookup reads it. */
  lemma {:induction false} FirstMatch(options: seq<HelpOption>, key: string, i: int)
    requires 0 <= i < |options| && options[i].key == key
    requires forall j :: 0 <= j < i ==> options[j].key != key
    ensures Toggled(options, key) == options[i := options[i].(enabled := !options[i].enabled)]
    ensures Enabled(options, key) == options[i].enabled
  {
    if i > 0 {
      FirstMatch(options[1..], key, i - 1);
      assert options[1..][i - 1 := options[i].(enabled := !options[i].enabled)] ==
        options[i := options[i].(enabled := !options[i].enabled)][1..];
    }
  }

  /** No option has `key`: toggling changes nothing and the lookup is
      false. */
  lemma {:induction false} NoMatch(options: seq<HelpOption>, key: string)
    requires forall j :: 0 <= j < |options| ==> options[j].key != key
    ensures Toggled(options, key) == options
    ensures !Enabled(options, key)
  {
    if options != [] {
      NoMatch(options[1..], key);
      assert [options[0]] + options[1..] == options;
    }
  }

  /** Toggling keeps every option's name and key. */
  lemma {:induction false} ToggleKeepsOptions(options: seq<HelpOption>, key: string)
    ensures |Toggled(options, key)| == |options|
    ensures forall i :: 0 <= i < |options| ==>
      Toggled(options, key)[i].name == options[i].name && Toggled(options, key)[i].key == options[i].key
  {
    if options != [] && options[0].key != key {
      ToggleKeepsOptions(options[1..], key);
      assert forall j :: 0 <= j < |options| - 1 ==> Toggled(options, key)[j + 1] == Toggled(options[1..], key)[j];
    }
  }

  /** Toggling a key that is present flips what the lookup answers for it. */
  lemma {:induction false} ToggleFlips(options: seq<HelpOption>, key: string)
    requires HasKey(options, key)
    ensures Enabled(Toggled(options, key), key) == !Enabled(options, key)
  {
    if options[0].key != key {
      var i :| 0 <= i < |options| && options[i].key == key;
      assert options[1..][i - 1].key == key;
      ToggleFlips(options[1..], key);
    }
  }

  /** Toggling one key leaves the lookup of every other key unchanged. */
  lemma {:induction false} ToggleKeepsOthers(options: seq<HelpOption>, key: string, other: string)
    requires other != key
    ensures Enabled(Toggled(options, key), other) == Enabled(options, other)
  {
    if options != [] && options[0].key != key {
      ToggleKeepsOthers(options[1..], key, other);
    }
  }

  /** Toggling the same key twice restores the options. */
  lemma {:induction false} ToggleTwice(options: seq<HelpOption>, key: string)
    ensures Toggled(Toggled(options, key), key) == options
  {
    if options != [] {
      if options[0].key == key {
        assert Toggled(options, key)[1..] == options[1..];
        assert [options[0]] + options[1..] == options;
      } else {
        ToggleTwice(options[1..], key);
        assert [options[0]] + options[1..] == options;
      }
    }
  }

  /** Reading the settings keeps every option's name and key. */
  lemma {:induction false} LoadKeepsKeys(options: seq<HelpOption>, saved: map<string, bool>)
    ensures |Loaded(options, saved)| == |options|
    ensures forall i :: 0 <= i < |options| ==>
      Loaded(options, saved)[i].name == options[i].name && Loaded(options, saved)[i].key == options[i].key
  {
  }

  /** Options that are all off answer false for every key. */
  lemma {:induction false} AllOff(options: seq<HelpOption>, key: string)
    requires forall i :: 0 <= i < |options| ==> !options[i].enabled
    ensures !Enabled(options, key)
  {
    if options != [] {
      AllOff(options[1..], key);
    }
  }

  /** With no saved settings every option is off; a saved flag for
      `flip_board` is what the lookup answers afterwards. */
  lemma {:induction false} DefaultsAndSavedFlip(saved: map<string, bool>)
    ensures forall key :: !Enabled(DefaultHelpOptions(), key)
    ensures Enabled(Loaded(DefaultHelpOptions(), saved), "flip_board") ==
      ("flip_board" in saved && saved["flip_board"])
  {
    var d := DefaultHelpOptions();
    forall key
      ensures !Enabled(d, key)
    {
      AllOff(d, key);
    }
    var l := Loaded(d, saved);
    assert l[0].key == "hanging_pieces" && l[1].key == "exchange_evaluation" && l[2].key == "flip_board";
    assert "hanging_pieces" != "flip_board" && "exchange_evaluation" != "flip_board";
    FirstMatch(l, "flip_board", 2);
  }

  /** The help panel of the display: its list of options. */
  class HelpPanel {
    var options: seq<HelpOption>

    /** The default options, then the saved settings; reading the settings
        file is outside the model, so its contents arrive as `saved`. */
    constructor (saved: map<string, bool>)
      ensures options == Loaded(DefaultHelpOptions(), saved)
    {
      options := DefaultHelpOptions();
      new;
      LoadSettings(saved);
    }

    /** `_load_settings` over an already decoded settings map. */
    method LoadSettings(saved: map<string, bool>)
      modifies this
      ensures options == Loaded(old(options), saved)
    {
      var i := 0;
      while i < |options|
        invariant 0 <= i <= |options| == |old(options)|
        invariant forall j :: 0 <= j < i ==> options[j] == Loaded(old(options), saved)[j]
        invariant forall j :: i <= j < |options| ==> options[j] == old(options)[j]
      {
        var key := options[i].key;
        if key in saved {
          options := options[i := options[i].(enabled := saved[key])];
        }
        i := i + 1;
      }
    }

    /** `toggle_help_option`: flips the first option with `key` and answers
        its new flag, or answers false when no option has it. Saving the
        settings is outside the model. */
    method ToggleHelpOption(key: string) returns (enabled: bool)
      modifies this
      ensures options == Toggled(old(options), key)
      ensures enabled == Enabled(options, key)
      ensures !HasKey(old(options), key) ==> !enabled && options == old(options)
    {
      var i := 0;
      while i < |options|
        invariant 0 <= i <= |options|
        invariant options == old(options)
        invariant forall j :: 0 <= j < i ==> options[j].key != key
      {
        if options[i].key == key {
          FirstMatch(options, key, i);
          options := options[i := options[i].(enabled := !options[i].enabled)];
          FirstMatch(options, key, i);
          return options[i].enabled;
        }
        i := i + 1;
      }
      NoMatch(options, key);
      return false;
    }

    /** `is_help_option_enabled`. */
    method IsHelpOptionEnabled(key: string) returns (enabled: bool)
      ensures enabled == Enabled(options, key)
      ensures !HasKey(options, key) ==> !enabled
    {
      var i := 0;
      while i < |options|
        invariant 0 <= i <= |options|
        invariant forall j :: 0 <= j < i ==> options[j].key != key
      {
        if options[i].key == key {
          FirstMatch(options, key, i);
          return options[i].enabled;
        }
        i := i + 1;
      }
      NoMatch(options, key);
      return false;
    }
  }
}
