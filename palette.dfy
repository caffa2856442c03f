// gen_palette.py: the 32 x 32 colour-swatch atlas (1024 x 1024 pixels) used as a
// texture palette. Six rows of hand-picked material colours, twenty-two rows of
// an HSV spectrum, two rows of neutral grey ramp, one warm and one cool ramp.

module Palette {
  import opened Common

  const ImgSize: int := 1024
  const GridCols: int := 32
  const GridRows: int := 32
  const CellSize: int := ImgSize / GridCols

  /** An RGB triple as hex2rgb returns it (Python ints, so possibly outside 0..255). */
  datatype Rgb = Rgb(r: int, g: int, b: int)

  predicate InByteRange(c: Rgb)
  {
    0 <= c.r <= 255 && 0 <= c.g <= 255 && 0 <= c.b <= 255
  }

  // ---------------------------------------------------------------------------
  // hex2rgb (lines 17-20)

  function HexDigit(c: char): (d: Option<nat>)
    ensures d.Some? ==> d.value < 16
  {
    if '0' <= c <= '9' then Some(c as int - '0' as int)
    else if 'a' <= c <= 'f' then Some(c as int - 'a' as int + 10)
    else if 'A' <= c <= 'F' then Some(c as int - 'A' as int + 10)
    else None
  }

  /** ASCII whitespace, which int() ignores around its argument. */
  predicate IsSpace(c: char)
  {
    c == ' ' || c == '\t' || c == '\n' || c == '\r' || c as int == 11 || c as int == 12
  }

  function StripSpace(s: string): (t: string)
    ensures |t| <= |s|
    ensures |t| > 0 ==> !IsSpace(t[0]) && !IsSpace(t[|t| - 1])
    decreases |s|
  {
    if |s| > 0 && IsSpace(s[0]) then StripSpace(s[1..])
    else if |s| > 0 && IsSpace(s[|s| - 1]) then StripSpace(s[..|s| - 1])
    else s
  }

  /** The value of a non-empty string of hex digits; None if any character is not one. */
  function HexValue(s: string): (v: Option<nat>)
    ensures v.Some? ==> |s| > 0 && v.value < Pow16(|s|)
  {
    if |s| == 0 then None
    else
      var d := HexDigit(s[|s| - 1]);
      if d.None? then None
      else if |s| == 1 then d
      else
        match HexValue(s[..|s| - 1])
        case None => None
        case Some(high) => Some(high * 16 + d.value)
  }

  function Pow16(n: nat): (p: nat)
    ensures p >= 1
  {
    if n == 0 then 1 else 16 * Pow16(n - 1)
  }

  /**
   * Python's int(s, 16) for a string of at most two characters: surrounding
   * whitespace, an optional sign and at least one hex digit; None stands for
   * the ValueError it raises otherwise.
   */
  function ParseInt16(s: string): (v: Option<int>)
    requires |s| <= 2
    ensures v.Some? ==> -15 <= v.value <= 255
  {
    var t := StripSpace(s);
    if |t| > 0 && (t[0] == '+' || t[0] == '-') then
      match HexValue(t[1..])
      case None => None
      case Some(n) =>
        var signed: int := if t[0] == '-' then 0 - (n as int) else n as int;
        Some(signed)
    else
      HexValue(t)
  }

  /** str.lstrip('#'): drop every leading '#'. */
  function StripHashes(s: string): (t: string)
    ensures |t| <= |s|
    ensures |t| > 0 ==> t[0] != '#'
  {
    if |s| > 0 && s[0] == '#' then StripHashes(s[1..]) else s
  }

  /** Python's s[i:j] for 0 <= i <= j: indices past the end are clamped. */
  function Slice(s: string, i: nat, j: nat): (t: string)
    requires i <= j
    ensures |t| <= j - i
  {
    if i >= |s| then [] else s[i..if j <= |s| then j else |s|]
  }

  /**
   * hex2rgb: strip leading '#', then read characters 0-1, 2-3 and 4-5 as
   * base-16 integers; None when any of the three reads raises.
   */
  function Hex2Rgb(hex: string): (c: Option<Rgb>)
    ensures c.Some? ==> -15 <= c.value.r <= 255 && -15 <= c.value.g <= 255 && -15 <= c.value.b <= 255
  {
    var h := StripHashes(hex);
    var r := ParseInt16(Slice(h, 0, 2));
    var g := ParseInt16(Slice(h, 2, 4));
    var b := ParseInt16(Slice(h, 4, 6));
    if r.Some? && g.Some? && b.Some? then Some(Rgb(r.value, g.value, b.value)) else None
  }

  /** Fewer than five characters after the '#'s leave the blue field empty, which int() rejects. */
  lemma ShortCodesRejected(hex: string)
    requires |StripHashes(hex)| <= 4
    ensures Hex2Rgb(hex) == None
  {
    assert Slice(StripHashes(hex), 4, 6) == [];
    assert StripSpace([]) == [];
  }

  /** Two hex digits for a byte. */
  function ByteToHex(n: int): (s: string)
    requires 0 <= n <= 255
    ensures |s| == 2
  {
    var digits := "0123456789abcdef";
    [digits[n / 16], digits[n % 16]]
  }

  /** The value of two hex digits is their base-16 number. */
  lemma TwoDigits(a: char, b: char)
    requires HexDigit(a).Some? && HexDigit(b).Some?
    ensures ParseInt16([a, b]) == Some(HexDigit(a).value * 16 + HexDigit(b).value)
  {
    var s := [a, b];
    assert !IsSpace(a) && !IsSpace(b) && a != '+' && a != '-';
    assert StripSpace(s) == s;
    assert s[..1] == [a];
    assert HexValue([a]) == HexDigit(a);
    assert HexValue(s) == Some(HexDigit(a).value * 16 + HexDigit(b).value);
  }

  lemma ByteToHexValue(n: int)
    requires 0 <= n <= 255
    ensures ParseInt16(ByteToHex(n)) == Some(n)
  {
    var s := ByteToHex(n);
    assert HexDigit(s[0]) == Some(n / 16);
    assert HexDigit(s[1]) == Some(n % 16);
    TwoDigits(s[0], s[1]);
    assert s == [s[0], s[1]];
  }

  /** Writing a colour as "#rrggbb" and reading it back with hex2rgb gives the colour. */
  lemma HexRoundTrip(c: Rgb)
    requires InByteRange(c)
    ensures Hex2Rgb("#" + ByteToHex(c.r) + ByteToHex(c.g) + ByteToHex(c.b)) == Some(c)
  {
    var s := "#" + ByteToHex(c.r) + ByteToHex(c.g) + ByteToHex(c.b);
    assert [s[1], s[2]] == ByteToHex(c.r);
    assert [s[3], s[4]] == ByteToHex(c.g);
    assert [s[5], s[6]] == ByteToHex(c.b);
    ByteToHexValue(c.r);
    ByteToHexValue(c.g);
    ByteToHexValue(c.b);
    ReadPairs(s);
  }

  /** A seven-character code "#" + six characters is read as three two-character fields. */
  lemma ReadPairs(s: string)
    requires |s| == 7 && s[0] == '#' && s[1] != '#'
    ensures var r := ParseInt16([s[1], s[2]]);
      var g := ParseInt16([s[3], s[4]]);
      var b := ParseInt16([s[5], s[6]]);
      Hex2Rgb(s) == if r.Some? && g.Some? && b.Some? then Some(Rgb(r.value, g.value, b.value)) else None
  {
    var body := s[1..];
    assert StripHashes(body) == body;
    assert StripHashes(s) == body;
    assert Slice(body, 0, 2) == [s[1], s[2]];
    assert Slice(body, 2, 4) == [s[3], s[4]];
    assert Slice(body, 4, 6) == [s[5], s[6]];
  }

  /** A colour code "#" followed by six hex digits, as every custom material is written. */
  predicate IsHexCode(s: string)
  {
    |s| == 7 && s[0] == '#' && forall i :: 1 <= i < 7 ==> HexDigit(s[i]).Some?
  }

  /** A well-formed colour code always reads as a colour with every channel a byte. */
  lemma HexCodeParses(s: string)
    requires IsHexCode(s)
    ensures Hex2Rgb(s).Some? && InByteRange(Hex2Rgb(s).value)
  {
    assert HexDigit(s[1]).Some?;
    ReadPairs(s);
    TwoDigits(s[1], s[2]);
    TwoDigits(s[3], s[4]);
    TwoDigits(s[5], s[6]);
  }

  /** The colour of a well-formed code. */
  function CodeColour(s: string): (c: Rgb)
    requires IsHexCode(s)
    ensures Hex2Rgb(s) == Some(c) && InByteRange(c)
  {
    HexCodeParses(s);
    Hex2Rgb(s).value
  }

  // ---------------------------------------------------------------------------
  // draw_cell geometry (lines 22-28)

  /** The rectangle PIL fills for a cell: both corners inclusive, so it is CellSize + 1 pixels wide. */
  datatype Rect = Rect(x0: int, y0: int, x1: int, y1: int)

  function CellRect(col: int, row: int): (r: Rect)
    ensures r.x1 - r.x0 == CellSize && r.y1 - r.y0 == CellSize
  {
    Rect(col * CellSize, row * CellSize, col * CellSize + CellSize, row * CellSize + CellSize)
  }

  predicate Covers(r: Rect, x: int, y: int)
  {
    r.x0 <= x <= r.x1 && r.y0 <= y <= r.y1
  }

  /** Cell (row, col) is drawn after cell (row', col') in the script's order. */
  predicate DrawnAfter(row: int, col: int, row': int, col': int)
  {
    row > row' || (row == row' && col > col')
  }

  /**
   * Neighbouring rectangles share their border line, and later cells overwrite
   * it; every pixel of the image ends up with the colour of the cell
   * (y / CellSize, x / CellSize), the last drawn cell covering it.
   */
  lemma PixelOwner(x: int, y: int)
    requires 0 <= x < ImgSize && 0 <= y < ImgSize
    ensures 0 <= y / CellSize < GridRows && 0 <= x / CellSize < GridCols
    ensures Covers(CellRect(x / CellSize, y / CellSize), x, y)
    ensures forall row, col ::
              (0 <= row < GridRows && 0 <= col < GridCols && Covers(CellRect(col, row), x, y)
               && (row, col) != (y / CellSize, x / CellSize)) ==> DrawnAfter(y / CellSize, x / CellSize, row, col)
  {
    assert CellSize == 32;
    forall row, col | 0 <= row < GridRows && 0 <= col < GridCols && Covers(CellRect(col, row), x, y)
      ensures row <= y / 32 && col <= x / 32
    {
      assert row * 32 <= y && col * 32 <= x;
      DivBound(row, y);
      DivBound(col, x);
    }
  }

  lemma DivBound(k: int, v: int)
    requires 0 <= k && 0 <= v && k * 32 <= v
    ensures k <= v / 32
  {
  }

  // ---------------------------------------------------------------------------
  // The layout (main, lines 42-119)

  const CustomMaterials: seq<seq<string>> := [
    ["#3E2723", "#4E342E", "#5D4037", "#6D4C41", "#795548", "#8D6E63", "#A1887F", "#BCAAA4"],
    ["#263238", "#37474F", "#455A64", "#546E7A", "#607D8B", "#78909C", "#90A4AE", "#B0BEC5"],
    ["#B71C1C", "#C62828", "#D32F2F", "#E53935", "#F57F17", "#F9A825", "#FBC02D", "#FDD835"],
    ["#1B5E20", "#2E7D32", "#388E3C", "#43A047", "#01579B", "#0277BD", "#0288D1", "#039BE5"],
    ["#E1F5FE", "#B3E5FC", "#81D4FA", "#4FC3F7", "#FFF8E1", "#FFECB3", "#FFE082", "#FFD54F",
     "#4A148C", "#6A1B9A", "#7B1FA2", "#8E24AA"],
    ["#FAFAFA", "#F5F5F5", "#EEEEEE", "#E0E0E0", "#3E2723", "#4E342E", "#5D4037", "#6D4C41",
     "#FFF3E0", "#FFE0B2", "#FFCC80", "#FFB74D"]
  ]

  predicate AllHexCodes(row: seq<string>)
  {
    forall j :: 0 <= j < |row| ==> IsHexCode(row[j])
  }

  predicate WellFormedTable(table: seq<seq<string>>)
  {
    forall i :: 0 <= i < |table| ==> 0 < |table[i]| <= GridCols && AllHexCodes(table[i])
  }

  lemma CustomMaterialsWellFormed()
    ensures |CustomMaterials| == 6 && WellFormedTable(CustomMaterials)
  {
    forall k | 0 <= k < |CustomMaterials|
      ensures 0 < |CustomMaterials[k]| <= GridCols && AllHexCodes(CustomMaterials[k])
    {
      var row := CustomMaterials[k];
      forall j | 0 <= j < |row| ensures IsHexCode(row[j]) {
        var s := row[j];
        assert |s| == 7 && s[0] == '#';
        forall i | 1 <= i < 7 ensures HexDigit(s[i]).Some? {
          assert '0' <= s[i] <= '9' || 'A' <= s[i] <= 'F';
        }
      }
    }
  }

  /** The rows left for the spectrum once the custom rows and the four grey rows are set aside. */
  const SpectrumRows: int := GridRows - 6 - 4

  /** int((c / 31) * 255): column c of a 32-step ramp from 0 to 255. */
  function GrayValue(c: int): int
  {
    c * 255 / (GridCols - 1)
  }

  function Neutral(c: int): Rgb
  {
    Rgb(GrayValue(c), GrayValue(c), GrayValue(c))
  }

  function Warm(c: int): Rgb
  {
    var g := GrayValue(c);
    Rgb(if g + 20 < 255 then g + 20 else 255, if g + 15 < 255 then g + 15 else 255, g)
  }

  function Cool(c: int): Rgb
  {
    var g := GrayValue(c);
    Rgb(g, if g + 10 < 255 then g + 10 else 255, if g + 20 < 255 then g + 20 else 255)
  }

  /**
   * What a cell is painted with: a solid colour, or the HSV spectrum colour for
   * spectrum row r (value 0.2 + 0.75 * r / 22) and column c (hue c / 32,
   * saturation 0.85), which stays symbolic.
   */
  datatype Paint = Solid(colour: Rgb) | Spectrum(row: nat, col: nat)

  /** The paint of cell (row, col) in the finished atlas. */
  function CellPaint(row: int, col: int): Paint
    requires 0 <= row < GridRows && 0 <= col < GridCols
  {
    CustomMaterialsWellFormed();
    if row < |CustomMaterials| then
      var materials := CustomMaterials[row];
      Solid(CodeColour(materials[if col < |materials| then col else |materials| - 1]))
    else if row < |CustomMaterials| + SpectrumRows then Spectrum(row - |CustomMaterials|, col)
    else if row < GridRows - 2 then Solid(Neutral(col))
    else if row == GridRows - 2 then Solid(Warm(col))
    else Solid(Cool(col))
  }

  /** The regions fill the grid exactly: 6 custom rows, 22 spectrum rows, 4 grey rows. */
  lemma LayoutFillsGrid()
    ensures SpectrumRows == 22 && |CustomMaterials| + SpectrumRows + 4 == GridRows
  {
    CustomMaterialsWellFormed();
  }

  /** A custom row shorter than the grid is padded with its last colour. */
  lemma CustomRowPadding(row: int, col: int)
    requires 0 <= row < 6 && |CustomMaterials[row]| <= col < GridCols
    ensures CellPaint(row, col) == CellPaint(row, |CustomMaterials[row]| - 1)
  {
    CustomMaterialsWellFormed();
  }

  /** The grey ramp starts at black, ends at white and never decreases. */
  lemma {:induction false} GrayRamp(c: int, d: int)
    requires 0 <= c <= d < GridCols
    ensures GrayValue(0) == 0 && GrayValue(GridCols - 1) == 255
    ensures 0 <= GrayValue(c) <= GrayValue(d) <= 255
  {
    assert GridCols - 1 == 31;
    assert c * 255 <= d * 255 <= 31 * 255;
  }

  /** Every solid cell of the atlas is a valid 8-bit colour. */
  lemma SolidCellsAreBytes(row: int, col: int)
    requires 0 <= row < GridRows && 0 <= col < GridCols
    ensures CellPaint(row, col).Solid? ==> InByteRange(CellPaint(row, col).colour)
  {
    CustomMaterialsWellFormed();
    GrayRamp(col, col);
  }

  // ---------------------------------------------------------------------------
  // Drawing (main)

  /** draw_cell, at the resolution of cells. */
  method DrawCell(grid: array2<Paint>, col: int, row: int, paint: Paint)
    requires 0 <= row < grid.Length0 && 0 <= col < grid.Length1
    modifies grid
    ensures grid[row, col] == paint
    ensures forall r, c :: 0 <= r < grid.Length0 && 0 <= c < grid.Length1 && (r != row || c != col) ==>
              grid[r, c] == old(grid[r, c])
  {
    grid[row, col] := paint;
  }

  /** Rows 0..rows-1 of the grid are finished. */
  ghost predicate RowsDone(grid: array2<Paint>, rows: int)
    requires grid.Length0 == GridRows && grid.Length1 == GridCols
    reads grid
  {
    forall r, c :: 0 <= r < rows && r < GridRows && 0 <= c < GridCols ==> grid[r, c] == CellPaint(r, c)
  }

  /** Columns 0..cols-1 of row `row` are finished. */
  ghost predicate ColsDone(grid: array2<Paint>, row: int, cols: int)
    requires grid.Length0 == GridRows && grid.Length1 == GridCols
    requires 0 <= row < GridRows
    reads grid
  {
    forall c :: 0 <= c < cols && c < GridCols ==> grid[row, c] == CellPaint(row, c)
  }

  /** Custom row k: its materials left to right, then its last colour to the edge. */
  method DrawCustomRow(grid: array2<Paint>, k: int)
    requires grid.Length0 == GridRows && grid.Length1 == GridCols
    requires 0 <= k < |CustomMaterials| && RowsDone(grid, k)
    modifies grid
    ensures RowsDone(grid, k + 1)
  {
    CustomMaterialsWellFormed();
    var materialRow := CustomMaterials[k];
    for col := 0 to |materialRow|
      invariant RowsDone(grid, k)
      invariant ColsDone(grid, k, col)
    {
      if col < GridCols {
        DrawCell(grid, col, k, Solid(CodeColour(materialRow[col])));
      }
    }
    var lastColour := CodeColour(materialRow[|materialRow| - 1]);
    for col := |materialRow| to GridCols
      invariant RowsDone(grid, k)
      invariant ColsDone(grid, k, col)
    {
      DrawCell(grid, col, k, Solid(lastColour));
    }
  }

  /** The spectrum rows, starting at row `start`. */
  method DrawSpectrum(grid: array2<Paint>, start: int)
    requires grid.Length0 == GridRows && grid.Length1 == GridCols
    requires start == |CustomMaterials| && RowsDone(grid, start)
    modifies grid
    ensures RowsDone(grid, start + SpectrumRows)
  {
    var spectrumRows := GridRows - start - 4;
    for r := 0 to spectrumRows
      invariant RowsDone(grid, start + r)
    {
      for c := 0 to GridCols
        invariant RowsDone(grid, start + r)
        invariant ColsDone(grid, start + r, c)
      {
        DrawCell(grid, c, start + r, Spectrum(r, c));
      }
    }
  }

  /** The two neutral rows, then the warm and the cool row, starting at row `start`. */
  method DrawRamps(grid: array2<Paint>, start: int)
    requires grid.Length0 == GridRows && grid.Length1 == GridCols
    requires start == GridRows - 4 && RowsDone(grid, start)
    modifies grid
    ensures RowsDone(grid, GridRows)
  {
    for r := 0 to 2
      invariant RowsDone(grid, start + r)
    {
      for c := 0 to GridCols
        invariant RowsDone(grid, start + r)
        invariant ColsDone(grid, start + r, c)
      {
        DrawCell(grid, c, start + r, Solid(Neutral(c)));
      }
    }
    for c := 0 to GridCols
      invariant RowsDone(grid, start + 2)
      invariant ColsDone(grid, start + 2, c)
    {
      DrawCell(grid, c, start + 2, Solid(Warm(c)));
    }
    for c := 0 to GridCols
      invariant RowsDone(grid, start + 3)
      invariant ColsDone(grid, start + 3, c)
    {
      DrawCell(grid, c, start + 3, Solid(Cool(c)));
    }
  }

  /** main: paint every cell of the atlas, region by region, top to bottom. */
  method DrawPalette(grid: array2<Paint>)
    requires grid.Length0 == GridRows && grid.Length1 == GridCols
    modifies grid
    ensures forall r, c :: 0 <= r < GridRows && 0 <= c < GridCols ==> grid[r, c] == CellPaint(r, c)
  {
    LayoutFillsGrid();
    var currentRow := 0;
    for k := 0 to |CustomMaterials|
      invariant currentRow == k
      invariant RowsDone(grid, currentRow)
    {
      DrawCustomRow(grid, k);
      currentRow := currentRow + 1;
    }
    DrawSpectrum(grid, currentRow);
    currentRow := currentRow + SpectrumRows;
    DrawRamps(grid, currentRow);
    assert RowsDone(grid, GridRows);
  }
}
