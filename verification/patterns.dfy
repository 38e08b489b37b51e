/**
 * The calibration test patterns. The renderer draws on a 2D canvas of a
 * given pixel size; the model records the drawing calls it makes, in order,
 * as a list of operations (a stroked straight path is one `Line` or `Path`).
 */
module TestPatterns {
  import opened Types
  import opened Text

  datatype Op =
    | ClearRect(width: real, height: real)
    | SetStroke(style: string)
    | SetFill(style: string)
    | SetLineWidth(lineWidth: real)
    | SetAlpha(alpha: real)
    | Line(x0: real, y0: real, x1: real, y1: real)
    | Path(points: seq<(real, real)>)
    | Arc(cx: real, cy: real, radius: real, filled: bool)
    | FillRect(x: real, y: real, w: real, h: real)
    | StrokeRect(x: real, y: real, w: real, h: real)
    | FillGradient(x: real, y: real, w: real, h: real, from: (real, real), to: (real, real), stops: seq<(real, string)>)

  const DefaultColor := "#00ff88"
  const GridSize := 50
  const SquareSize := 50
  const Spacing := 60

  const PatternNames: set<string> := {"grid", "crosshair", "gradient", "checkerboard", "circles", "border"}

  // --------------------------------------------------------------- colours

  datatype Rgb = Rgb(r: nat, g: nat, b: nat)

  /** `[a-f\d]` under the case-insensitive flag. */
  predicate IsHexDigit(c: char) {
    '0' <= c <= '9' || 'a' <= c <= 'f' || 'A' <= c <= 'F'
  }

  predicate AllHex(s: string) {
    forall i :: 0 <= i < |s| ==> IsHexDigit(s[i])
  }

  function HexValue(c: char): (v: nat)
    requires IsHexDigit(c)
    ensures v < 16
  {
    if '0' <= c <= '9' then c as int - '0' as int
    else if 'a' <= c <= 'f' then c as int - 'a' as int + 10
    else c as int - 'A' as int + 10
  }

  /** `parseInt` of two hex digits. */
  function PairValue(hi: char, lo: char): (v: nat)
    requires IsHexDigit(hi) && IsHexDigit(lo)
    ensures v <= 255
  {
    16 * HexValue(hi) + HexValue(lo)
  }

  /** `hexToRgb`: an optional '#' and exactly six hex digits, read as three
      two-digit values; anything else gives None. */
  function HexToRgb(hex: string): (r: Option<Rgb>)
    ensures r.Some? <==> (|hex| == 7 && hex[0] == '#' && AllHex(hex[1..])) || (|hex| == 6 && AllHex(hex))
    ensures r.Some? ==> r.value.r <= 255 && r.value.g <= 255 && r.value.b <= 255
  {
    var body := if hex != [] && hex[0] == '#' then hex[1..] else hex;
    if |body| == 6 && AllHex(body) then
      Some(Rgb(PairValue(body[0], body[1]), PairValue(body[2], body[3]), PairValue(body[4], body[5])))
    else None
  }

  /** A lower-case hex digit. */
  function HexChar(d: nat): (c: char)
    requires d < 16
    ensures IsHexDigit(c) && HexValue(c) == d
  {
    if d < 10 then ('0' as int + d) as char else ('a' as int + d - 10) as char
  }

  /** A value in 0..255 as two lower-case hex digits. */
  function HexByte(n: nat): (s: string)
    requires n <= 255
    ensures |s| == 2 && AllHex(s) && PairValue(s[0], s[1]) == n
  {
    [HexChar(n / 16), HexChar(n % 16)]
  }

  /** Printing a colour as "#rrggbb" and parsing it back gives the colour. */
  lemma HexRoundTrip(c: Rgb)
    requires c.r <= 255 && c.g <= 255 && c.b <= 255
    ensures HexToRgb("#" + HexByte(c.r) + HexByte(c.g) + HexByte(c.b)) == Some(c)
    ensures HexToRgb(HexByte(c.r) + HexByte(c.g) + HexByte(c.b)) == Some(c)
  {
    var body := HexByte(c.r) + HexByte(c.g) + HexByte(c.b);
    assert ("#" + body)[1..] == body;
    assert body[0] != '#';
  }

  /** Parsing then printing gives the input's digits back, in lower case. */
  lemma HexParsePrint(hex: string)
    requires HexToRgb(hex).Some?
    ensures var c := HexToRgb(hex).value;
            var body := if hex[0] == '#' then hex[1..] else hex;
            var printed := HexByte(c.r) + HexByte(c.g) + HexByte(c.b);
            |printed| == 6 &&
            forall i :: 0 <= i < 6 ==> HexValue(printed[i]) == HexValue(body[i])
  {
    var c := HexToRgb(hex).value;
    var body := if hex[0] == '#' then hex[1..] else hex;
    DigitsOfPair(body[0], body[1]);
    DigitsOfPair(body[2], body[3]);
    DigitsOfPair(body[4], body[5]);
  }

  lemma DigitsOfPair(hi: char, lo: char)
    requires IsHexDigit(hi) && IsHexDigit(lo)
    ensures var s := HexByte(PairValue(hi, lo));
            HexValue(s[0]) == HexValue(hi) && HexValue(s[1]) == HexValue(lo)
  {
    var v := PairValue(hi, lo);
    assert v / 16 == HexValue(hi) && v % 16 == HexValue(lo);
  }

  /** `rgb(r, g, b)` */
  function RgbString(c: Rgb): string {
    "rgb(" + NatToString(c.r) + ", " + NatToString(c.g) + ", " + NatToString(c.b) + ")"
  }

  // ------------------------------------------------------- drawing, as data

  /** Vertical lines at x = 0, 50, ..., 50(n-1), full height. */
  function Verticals(h: nat, n: nat): seq<Op> {
    if n == 0 then [] else Verticals(h, n - 1) + [Line((GridSize * (n - 1)) as real, 0.0, (GridSize * (n - 1)) as real, h as real)]
  }

  /** Horizontal lines at y = 0, 50, ..., 50(n-1), full width. */
  function Horizontals(w: nat, n: nat): seq<Op> {
    if n == 0 then [] else Horizontals(w, n - 1) + [Line(0.0, (GridSize * (n - 1)) as real, w as real, (GridSize * (n - 1)) as real)]
  }

  /** The lines drawn at x <= w (or y <= h), stepping by 50 from 0. */
  function GridCount(extent: nat): nat {
    extent / GridSize + 1
  }

  function GridOps(color: string, w: nat, h: nat): seq<Op> {
    [SetStroke(color), SetLineWidth(1.0), SetAlpha(0.5)]
    + Verticals(h, GridCount(w)) + Horizontals(w, GridCount(h))
    + [SetLineWidth(2.0), SetAlpha(1.0),
       Line(w as real / 2.0, 0.0, w as real / 2.0, h as real),
       Line(0.0, h as real / 2.0, w as real, h as real / 2.0)]
  }

  /** A grid line sits at every multiple of 50 from 0 up to and including
      the canvas extent, and nowhere else. */
  lemma {:induction false} VerticalsAt(h: nat, n: nat, x: int)
    ensures Line(x as real, 0.0, x as real, h as real) in Verticals(h, n) <==> 0 <= x < GridSize * n && x % GridSize == 0
  {
    if n > 0 {
      VerticalsAt(h, n - 1, x);
    }
  }

  lemma GridVerticalLines(w: nat, h: nat, x: int)
    ensures Line(x as real, 0.0, x as real, h as real) in Verticals(h, GridCount(w)) <==> 0 <= x <= w && x % 50 == 0
  {
    VerticalsAt(h, GridCount(w), x);
  }

  lemma {:induction false} HorizontalsAt(w: nat, n: nat, y: int)
    ensures Line(0.0, y as real, w as real, y as real) in Horizontals(w, n) <==> 0 <= y < GridSize * n && y % GridSize == 0
  {
    if n > 0 {
      HorizontalsAt(w, n - 1, y);
    }
  }

  lemma GridHorizontalLines(w: nat, h: nat, y: int)
    ensures Line(0.0, y as real, w as real, y as real) in Horizontals(w, GridCount(h)) <==> 0 <= y <= h && y % 50 == 0
  {
    HorizontalsAt(w, GridCount(h), y);
  }

  /** The cells x = 0, 50, ..., 50(n-1) of the row at y that are filled. */
  function CheckerRow(y: nat, n: nat): seq<Op> {
    if n == 0 then []
    else
      var x := SquareSize * (n - 1);
      CheckerRow(y, n - 1)
      + if (x / SquareSize + y / SquareSize) % 2 == 0
        then [FillRect(x as real, y as real, SquareSize as real, SquareSize as real)] else []
  }

  /** The rows y = 0, 50, ..., 50(m-1), each of `cols` cells. */
  function CheckerRows(cols: nat, m: nat): seq<Op> {
    if m == 0 then [] else CheckerRows(cols, m - 1) + CheckerRow(SquareSize * (m - 1), cols)
  }

  /** Steps of 50 from 0 strictly below `extent`. */
  function CellCount(extent: nat): nat {
    (extent + SquareSize - 1) / SquareSize
  }

  function CheckerboardOps(color: string, w: nat, h: nat): seq<Op> {
    [SetFill(color)] + CheckerRows(CellCount(w), CellCount(h))
  }

  lemma {:induction false} CheckerRowAt(y: nat, n: nat, x: int, yy: int)
    ensures FillRect(x as real, yy as real, 50.0, 50.0) in CheckerRow(y, n) <==>
            yy == y && 0 <= x < 50 * n && x % 50 == 0 && (x / 50 + y / 50) % 2 == 0
  {
    if n > 0 {
      CheckerRowAt(y, n - 1, x, yy);
    }
  }

  lemma {:induction false} CheckerRowsAt(cols: nat, m: nat, x: int, y: int)
    ensures FillRect(x as real, y as real, 50.0, 50.0) in CheckerRows(cols, m) <==>
            0 <= x < 50 * cols && 0 <= y < 50 * m && x % 50 == 0 && y % 50 == 0 && (x / 50 + y / 50) % 2 == 0
  {
    if m > 0 {
      CheckerRowsAt(cols, m - 1, x, y);
      CheckerRowAt(50 * (m - 1), cols, x, y);
      LastRowStart(m, y);
    }
  }

  /** The multiples of 50 below 50m are those below 50(m - 1) and the start
      of row m - 1, whose row index is m - 1. */
  lemma LastRowStart(m: nat, y: int)
    requires m > 0
    ensures (50 * (m - 1)) / 50 == m - 1
    ensures (0 <= y < 50 * m && y % 50 == 0) <==> (0 <= y < 50 * (m - 1) && y % 50 == 0) || y == 50 * (m - 1)
  {
  }

  /** Cell c starts below the extent exactly when it is one of the
      CellCount(extent) cells. */
  lemma CellIndexBound(extent: nat, c: nat)
    ensures c < CellCount(extent) <==> SquareSize * c < extent
  {
  }

  lemma CellCountBound(extent: nat, v: int)
    ensures 0 <= v < 50 * CellCount(extent) && v % 50 == 0 <==> 0 <= v < extent && v % 50 == 0
  {
  }

  /** The checkerboard fills the 50x50 cell at (x, y) exactly when x and y
      are multiples of 50 inside the canvas and x/50 + y/50 is even. */
  lemma CheckerboardCells(color: string, w: nat, h: nat, x: int, y: int)
    ensures FillRect(x as real, y as real, 50.0, 50.0) in CheckerboardOps(color, w, h) <==>
            0 <= x < w && 0 <= y < h && x % 50 == 0 && y % 50 == 0 && (x / 50 + y / 50) % 2 == 0
  {
    CheckerRowsAt(CellCount(w), CellCount(h), x, y);
    CellCountBound(w, x);
    CellCountBound(h, y);
  }

  /** Circle centres x = 60, 120, ..., 60n of the row at y. */
  function CircleRow(y: nat, n: nat): seq<Op> {
    if n == 0 then [] else CircleRow(y, n - 1) + [Arc((Spacing * n) as real, y as real, 15.0, true)]
  }

  /** The rows y = 60, ..., 60m, each of `cols` circles. */
  function CircleRows(cols: nat, m: nat): seq<Op> {
    if m == 0 then [] else CircleRows(cols, m - 1) + CircleRow(Spacing * m, cols)
  }

  /** Steps of 60 from 60 strictly below `extent`. */
  function CircleCount(extent: nat): nat {
    if extent == 0 then 0 else (extent - 1) / Spacing
  }

  /** Circle c (centred at 60(c + 1)) lies below the extent exactly when it
      is one of the CircleCount(extent) circles. */
  lemma CircleIndexBound(extent: nat, c: nat)
    ensures c < CircleCount(extent) <==> Spacing * (c + 1) < extent
  {
  }

  function CirclesOps(color: string, w: nat, h: nat): seq<Op> {
    [SetFill(color)] + CircleRows(CircleCount(w), CircleCount(h))
  }

  lemma {:induction false} CircleRowAt(y: nat, n: nat, x: int, yy: int)
    ensures Arc(x as real, yy as real, 15.0, true) in CircleRow(y, n) <==>
            yy == y && 60 <= x <= 60 * n && x % 60 == 0
  {
    if n > 0 {
      CircleRowAt(y, n - 1, x, yy);
    }
  }

  lemma {:induction false} CircleRowsAt(cols: nat, m: nat, x: int, y: int)
    ensures Arc(x as real, y as real, 15.0, true) in CircleRows(cols, m) <==>
            60 <= x <= 60 * cols && 60 <= y <= 60 * m && x % 60 == 0 && y % 60 == 0
  {
    if m > 0 {
      CircleRowsAt(cols, m - 1, x, y);
      CircleRowAt(60 * m, cols, x, y);
      LastCircleRow(m, y);
    }
  }

  /** The multiples of 60 from 60 to 60m are those up to 60(m - 1) and 60m. */
  lemma LastCircleRow(m: nat, y: int)
    requires m > 0
    ensures (60 <= y <= 60 * m && y % 60 == 0) <==> (60 <= y <= 60 * (m - 1) && y % 60 == 0) || y == 60 * m
  {
  }

  /** Circles of radius 15 are centred at (60i, 60j), i, j >= 1, strictly
      inside the canvas, and nowhere else. */
  lemma CirclesCentres(color: string, w: nat, h: nat, x: int, y: int)
    ensures Arc(x as real, y as real, 15.0, true) in CirclesOps(color, w, h) <==>
            60 <= x < w && 60 <= y < h && x % 60 == 0 && y % 60 == 0
  {
    CircleRowsAt(CircleCount(w), CircleCount(h), x, y);
  }

  function CrosshairOps(color: string, w: nat, h: nat): seq<Op> {
    var W, H, m := w as real, h as real, 50.0;
    [SetStroke(color), SetLineWidth(2.0),
     Line(W / 2.0, 0.0, W / 2.0, H), Line(0.0, H / 2.0, W, H / 2.0),
     SetLineWidth(3.0),
     Path([(0.0, m), (0.0, 0.0), (m, 0.0)]),
     Path([(W - m, 0.0), (W, 0.0), (W, m)]),
     Path([(W, H - m), (W, H), (W - m, H)]),
     Path([(m, H), (0.0, H), (0.0, H - m)]),
     Arc(W / 2.0, H / 2.0, 20.0, false)]
  }

  /** Nothing when the colour does not parse; otherwise the upper half
      shades black to the colour to white left to right and the lower half
      the colour to black top to bottom. */
  function GradientOps(color: string, w: nat, h: nat): (r: seq<Op>)
    ensures r == [] <==> HexToRgb(color).None?
  {
    var rgb := HexToRgb(color);
    if rgb.None? then []
    else
      var W, H, c := w as real, h as real, RgbString(rgb.value);
      [FillGradient(0.0, 0.0, W, H / 2.0, (0.0, 0.0), (W, 0.0), [(0.0, "black"), (0.5, c), (1.0, "white")]),
       FillGradient(0.0, H / 2.0, W, H / 2.0, (0.0, H / 2.0), (0.0, H), [(0.0, c), (1.0, "black")])]
  }

  function BorderOps(color: string, w: nat, h: nat): seq<Op> {
    var W, H := w as real, h as real;
    [SetStroke(color), SetLineWidth(5.0), StrokeRect(0.0, 0.0, W, H),
     SetLineWidth(2.0), SetAlpha(0.3), Line(0.0, 0.0, W, H), Line(W, 0.0, 0.0, H)]
  }

  /** What `render` draws after clearing: nothing for an unknown pattern or
      for the gradient with a colour that does not parse. */
  function PatternOps(pattern: string, color: string, w: nat, h: nat): (r: seq<Op>)
    ensures r == [] <==> pattern !in PatternNames || (pattern == "gradient" && HexToRgb(color).None?)
  {
    if pattern == "grid" then GridOps(color, w, h)
    else if pattern == "crosshair" then CrosshairOps(color, w, h)
    else if pattern == "gradient" then GradientOps(color, w, h)
    else if pattern == "checkerboard" then CheckerboardOps(color, w, h)
    else if pattern == "circles" then CirclesOps(color, w, h)
    else if pattern == "border" then BorderOps(color, w, h)
    else []
  }

  // ------------------------------------------------------------ the renderer

  /** The renderer over a canvas of `width` x `height` pixels; `ops` is what
      has been drawn on it so far. */
  class TestPatternRenderer {
    const width: nat
    const height: nat
    var ops: seq<Op>

    constructor(width: nat, height: nat)
      ensures this.width == width && this.height == height && ops == []
    {
      this.width, this.height := width, height;
      ops := [];
    }

    /** `render(pattern, color = '#00ff88')`: clears, then draws the pattern. */
    method Render(pattern: string, color: Option<string>)
      modifies this
      ensures ops == old(ops) + [ClearRect(width as real, height as real)] + PatternOps(pattern, color.GetOr(DefaultColor), width, height)
    {
      var c := color.GetOr(DefaultColor);
      Clear();
      if pattern == "grid" {
        DrawGrid(c);
      } else if pattern == "crosshair" {
        ops := ops + CrosshairOps(c, width, height);
      } else if pattern == "gradient" {
        DrawGradient(c);
      } else if pattern == "checkerboard" {
        DrawCheckerboard(c);
      } else if pattern == "circles" {
        DrawCircles(c);
      } else if pattern == "border" {
        ops := ops + BorderOps(c, width, height);
      }
    }

    /** `clear()` */
    method Clear()
      modifies this
      ensures ops == old(ops) + [ClearRect(width as real, height as real)]
    {
      ops := ops + [ClearRect(width as real, height as real)];
    }

    method DrawGrid(color: string)
      modifies this
      ensures ops == old(ops) + GridOps(color, width, height)
    {
      var start := ops;
      ops := ops + [SetStroke(color), SetLineWidth(1.0), SetAlpha(0.5)];
      var head := ops;
      var x := 0;
      while x <= width
        invariant x % GridSize == 0 && x <= GridSize * GridCount(width)
        invariant ops == head + Verticals(height, x / GridSize)
      {
        ops := ops + [Line(x as real, 0.0, x as real, height as real)];
        x := x + GridSize;
      }
      assert x / GridSize == GridCount(width);
      head := ops;
      var y := 0;
      while y <= height
        invariant y % GridSize == 0 && y <= GridSize * GridCount(height)
        invariant ops == head + Horizontals(width, y / GridSize)
      {
        ops := ops + [Line(0.0, y as real, width as real, y as real)];
        y := y + GridSize;
      }
      assert y / GridSize == GridCount(height);
      ops := ops + [SetLineWidth(2.0), SetAlpha(1.0),
                    Line(width as real / 2.0, 0.0, width as real / 2.0, height as real),
                    Line(0.0, height as real / 2.0, width as real, height as real / 2.0)];
    }

    /** Returns at once when the colour does not parse. */
    method DrawGradient(color: string)
      modifies this
      ensures ops == old(ops) + GradientOps(color, width, height)
    {
      var rgb := HexToRgb(color);
      if rgb.None? {
        return;
      }
      ops := ops + GradientOps(color, width, height);
    }

    method DrawCheckerboard(color: string)
      modifies this
      ensures ops == old(ops) + CheckerboardOps(color, width, height)
    {
      ops := ops + [SetFill(color)];
      var head := ops;
      var y := 0;
      ghost var row := 0;
      while y < height
        invariant y == SquareSize * row && row <= CellCount(height)
        invariant ops == head + CheckerRows(CellCount(width), row)
      {
        CellIndexBound(height, row);
        DrawCheckerRow(y);
        y, row := y + SquareSize, row + 1;
      }
      CellIndexBound(height, row);
    }

    /** The inner loop of `drawCheckerboard`: one row of cells at y. */
    method DrawCheckerRow(y: nat)
      modifies this
      ensures ops == old(ops) + CheckerRow(y, CellCount(width))
    {
      var rowHead := ops;
      var x := 0;
      ghost var col := 0;
      while x < width
        invariant x == SquareSize * col && col <= CellCount(width)
        invariant ops == rowHead + CheckerRow(y, col)
      {
        CellIndexBound(width, col);
        if (x / SquareSize + y / SquareSize) % 2 == 0 {
          ops := ops + [FillRect(x as real, y as real, SquareSize as real, SquareSize as real)];
        }
        x, col := x + SquareSize, col + 1;
      }
      CellIndexBound(width, col);
    }

    method DrawCircles(color: string)
      modifies this
      ensures ops == old(ops) + CirclesOps(color, width, height)
    {
      ops := ops + [SetFill(color)];
      var head := ops;
      var y := Spacing;
      ghost var row := 0;
      while y < height
        invariant y == Spacing * (row + 1) && row <= CircleCount(height)
        invariant ops == head + CircleRows(CircleCount(width), row)
      {
        CircleIndexBound(height, row);
        DrawCircleRow(y);
        y, row := y + Spacing, row + 1;
      }
      CircleIndexBound(height, row);
    }

    /** The inner loop of `drawCircles`: one row of circles at y. */
    method DrawCircleRow(y: nat)
      modifies this
      ensures ops == old(ops) + CircleRow(y, CircleCount(width))
    {
      var rowHead := ops;
      var x := Spacing;
      ghost var col := 0;
      while x < width
        invariant x == Spacing * (col + 1) && col <= CircleCount(width)
        invariant ops == rowHead + CircleRow(y, col)
      {
        CircleIndexBound(width, col);
        ops := ops + [Arc(x as real, y as real, 15.0, true)];
        x, col := x + Spacing, col + 1;
      }
      CircleIndexBound(width, col);
    }
  }
}
