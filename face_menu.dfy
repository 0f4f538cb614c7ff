/** The Alternative Menu Screen (Face) layout: the status window shows one
    face per party member on a grid of at most `Max Status Cols` columns and
    `Max Status Rows` visible rows, sized to fit that grid, and the menu's
    three windows are placed around it. */
module FaceMenu {

  function Min(a: int, b: int): (r: int)
    ensures r <= a && r <= b && (r == a || r == b)
  {
    if a < b then a else b
  }

  /** `Math.floor(a / b)`. */
  function FloorDiv(a: int, b: int): int
    requires b != 0
  {
    if b > 0 then a / b else (-a) / (-b)
  }

  /** `FloorDiv` is the floor of the exact quotient: `q` is the greatest
      integer with `q * b` not past `a` on `b`'s side. */
  lemma FloorDivIsFloor(a: int, b: int)
    requires b != 0
    ensures b > 0 ==> FloorDiv(a, b) * b <= a < (FloorDiv(a, b) + 1) * b
    ensures b < 0 ==> FloorDiv(a, b) * b >= a > (FloorDiv(a, b) + 1) * b
  {
    if b < 0 {
      var q := (-a) / (-b);
      assert q * (-b) <= -a < (q + 1) * (-b);
    }
  }

  /** The plugin parameters this layout reads, and the engine's face size
      and window paddings. */
  datatype Settings = Settings(facePadding: int, maxRows: int, maxCols: int,
                               commandCols: int, commandRows: int)
  datatype Metrics = Metrics(faceWidth: int, faceHeight: int, standardPadding: int, textPadding: int)

  /** `Window_MenuStatus.maxCols`: one column per member, at most the
      parameter. */
  function MaxCols(partySize: int, s: Settings): (r: int)
    ensures r <= partySize && r <= s.maxCols
    ensures r == partySize || r == s.maxCols
  {
    Min(partySize, s.maxCols)
  }

  /** `Window_MenuStatus.numVisibleRows`: the rows the members fill, at most
      the parameter. */
  function NumVisibleRows(partySize: int, cols: int, s: Settings): int
    requires cols != 0
  {
    Min(FloorDiv(partySize - 1, cols) + 1, s.maxRows)
  }

  /** The quotient is the one integer whose multiple lands within one
      divisor below the dividend. */
  lemma DivUnique(a: int, c: int, r: int)
    requires c > 0 && r * c <= a < r * c + c
    ensures a / c == r
  {
    var q := a / c;
    var d := q - r;
    assert d * c == q * c - r * c;
    assert -c < d * c < c;
  }

  /** For a non-empty party, the rows needed are `ceil(n / cols)`: enough
      rows to hold every member, and one fewer would not be.  The visible
      rows are these, capped at the parameter, and at least one when the
      parameter allows one. */
  lemma RowsCover(partySize: int, s: Settings)
    requires partySize >= 1 && s.maxCols >= 1
    ensures var cols := MaxCols(partySize, s);
            var rows := FloorDiv(partySize - 1, cols) + 1;
            rows * cols >= partySize && (rows - 1) * cols < partySize
            && rows == (partySize + cols - 1) / cols
            && NumVisibleRows(partySize, cols, s) == Min(rows, s.maxRows)
            && (s.maxRows >= 1 ==> NumVisibleRows(partySize, cols, s) >= 1)
  {
    var cols := MaxCols(partySize, s);
    FloorDivIsFloor(partySize - 1, cols);
    var q := FloorDiv(partySize - 1, cols);
    assert q * cols <= partySize - 1 < q * cols + cols;
    assert (q + 1) * cols == q * cols + cols;
    DivUnique(partySize + cols - 1, cols, q + 1);
  }

  /** `Window_MenuStatus.itemWidth` and `itemHeight`: a face and its
      padding. */
  function ItemWidth(s: Settings, m: Metrics): int {
    m.faceWidth + s.facePadding
  }

  function ItemHeight(s: Settings, m: Metrics): int {
    m.faceHeight + s.facePadding
  }

  /** `Window_MenuStatus.windowWidth`. */
  function StatusWindowWidth(partySize: int, s: Settings, m: Metrics): int {
    var l := Min(partySize, MaxCols(partySize, s));
    l * ItemWidth(s, m) + m.standardPadding * 2 + m.textPadding * l * 2 - m.textPadding * 2
  }

  /** `Window_MenuStatus.windowHeight`. */
  function StatusWindowHeight(partySize: int, s: Settings, m: Metrics): int
    requires MaxCols(partySize, s) != 0
  {
    ItemHeight(s, m) * NumVisibleRows(partySize, MaxCols(partySize, s), s) + m.standardPadding * 2
  }

  /** The status window is exactly as wide as `maxCols` items with a gap of
      twice the text padding between neighbours, plus the standard padding on
      each side. */
  lemma StatusWidthFitsColumns(partySize: int, s: Settings, m: Metrics)
    ensures var cols := MaxCols(partySize, s);
            StatusWindowWidth(partySize, s, m)
            == 2 * m.standardPadding + cols * ItemWidth(s, m) + (cols - 1) * 2 * m.textPadding
  {
    var cols := MaxCols(partySize, s);
    assert Min(partySize, cols) == cols;
  }

  /** The status window's inner area holds the whole party when the row cap
      does not bind: its columns times its rows of items is at least the
      party size. */
  lemma StatusWindowHoldsParty(partySize: int, s: Settings, m: Metrics)
    requires partySize >= 1 && s.maxCols >= 1
    requires FloorDiv(partySize - 1, MaxCols(partySize, s)) + 1 <= s.maxRows
    requires ItemWidth(s, m) + 2 * m.textPadding > 0 && ItemHeight(s, m) > 0
    ensures var cols := (StatusWindowWidth(partySize, s, m) - 2 * m.standardPadding + 2 * m.textPadding)
                        / (ItemWidth(s, m) + 2 * m.textPadding);
            var rows := (StatusWindowHeight(partySize, s, m) - 2 * m.standardPadding) / ItemHeight(s, m);
            cols * rows >= partySize
  {
    var c := MaxCols(partySize, s);
    var w := ItemWidth(s, m) + 2 * m.textPadding;
    var h := ItemHeight(s, m);
    StatusWidthFitsColumns(partySize, s, m);
    RowsCover(partySize, s);
    var r := NumVisibleRows(partySize, c, s);
    assert r == FloorDiv(partySize - 1, c) + 1;
    assert StatusWindowWidth(partySize, s, m) - 2 * m.standardPadding + 2 * m.textPadding == c * w;
    assert StatusWindowHeight(partySize, s, m) - 2 * m.standardPadding == h * r;
    DivUnique(c * w, w, c);
    DivUnique(h * r, h, r);
  }

  /** `Window_MenuCommand`: the full screen width, and the command grid
      taken as the parameters give it. */
  datatype CommandLayout = CommandLayout(width: int, cols: int, rows: int)

  function CommandWindow(screenWidth: int, s: Settings): (r: CommandLayout)
    ensures r.width == screenWidth
    ensures r.cols == s.commandCols && r.rows == s.commandRows
  {
    CommandLayout(screenWidth, s.commandCols, s.commandRows)
  }

  /** A window's size, and where `Scene_Menu.create` puts it. */
  datatype Size = Size(width: real, height: real)
  datatype Spot = Spot(x: real, y: real)
  datatype Placement = Placement(gold: Spot, status: Spot, command: Spot)

  /** `Scene_Menu.create`'s placement of the gold, status and command
      windows on a screen of the given size. */
  function Place(screenWidth: real, screenHeight: real, gold: Size, status: Size, command: Size): (p: Placement)
    ensures p.gold.x - 0.0 == screenWidth - (p.gold.x + gold.width)
    ensures p.status.x - 0.0 == screenWidth - (p.status.x + status.width)
    ensures p.gold.y == 0.0 && p.status.y == p.gold.y + gold.height
    ensures p.command.x == 0.0 && p.command.y + command.height == screenHeight
  {
    Placement(Spot(screenWidth / 2.0 - gold.width / 2.0, 0.0),
              Spot(screenWidth / 2.0 - status.width / 2.0, gold.height),
              Spot(0.0, screenHeight - command.height))
  }
}
