/** The integer side of the host's drawing code (main.cpp:73-235): decoding a
    2bpp tile row into palette shades, the two tile-data addressing modes,
    the offsets into the 32x32 tile maps, and the test that decides whether
    a sprite is drawn on the current line. Putting pixels into the RGB frame
    buffer is not modelled. */
module Graphics {
  import opened Bits
  import opened Bus

  /** The two-bit colour number of pixel `col` of a tile row: bit `7 - col`
      of the low byte, plus twice the same bit of the high byte
      (main.cpp:82-89). */
  function ColourIndex(lo: bv8, hi: bv8, col: bv8): (idx: bv8)
    requires col < 8
    ensures idx < 4
    ensures IsSet(idx, 0) == IsSet(lo, 7 - col) && IsSet(idx, 1) == IsSet(hi, 7 - col)
  {
    var lowBit := (lo >> (7 - col)) & 1;
    var highBit := (hi >> (7 - col)) & 1;
    lowBit + highBit * 2
  }

  /** The grey level for a colour number: the BGP entry for it, scaled so
      that entry 0 is white (0xFF) and entry 3 black (main.cpp:92-95). */
  function Shade(bgp: bv8, idx: bv8): (s: bv8)
    requires idx < 4
    ensures s == 0xFF || s == 0xAA || s == 0x55 || s == 0x00
  {
    var shadeIndex := (bgp >> (idx * 2)) & 3;
    0xFF - shadeIndex * 85
  }

  /** The palette entry a grey level stands for. */
  function PaletteEntry(s: bv8): bv8
  {
    (0xFF - s) / 85
  }

  /** A shade determines its palette entry: the four grey levels are
      distinct, so nothing of BGP's entry is lost. */
  lemma ShadeKeepsPaletteEntry(bgp: bv8, idx: bv8)
    requires idx < 4
    ensures PaletteEntry(Shade(bgp, idx)) == (bgp >> (idx * 2)) & 3
  {
  }

  /** The grey level of column `x % 8` of row `y % 8` of the tile whose data
      starts at `loc` (drawPixelOfTile, main.cpp:73-97). The two row bytes
      are read at `loc + 2 * (y % 8)` and the byte after it. */
  function TilePixel(m: Mem, loc: bv16, x: nat, y: nat): (s: bv8)
    ensures s == 0xFF || s == 0xAA || s == 0x55 || s == 0x00
  {
    var row := ((y % 8) * 2) as bv16;
    var lo := Read(m, loc + row);
    var hi := Read(m, loc + row + 1);
    Shade(Read(m, BGP), ColourIndex(lo, hi, (x % 8) as bv8))
  }

  /** Which bytes a tile pixel comes from: its palette entry is the BGP entry
      numbered by bit `7 - x % 8` of the row byte at `loc + 2 * (y % 8)`
      (the low bit of the colour number) and the same bit of the byte after
      it (the high bit). */
  lemma TilePixelReadsRow(m: Mem, loc: bv16, x: nat, y: nat)
    ensures var lo := Read(m, loc + ((y % 8) * 2) as bv16);
      var hi := Read(m, loc + ((y % 8) * 2) as bv16 + 1);
      var col := (x % 8) as bv8;
      var idx: bv8 := (if IsSet(hi, 7 - col) then 2 else 0) + (if IsSet(lo, 7 - col) then 1 else 0);
      PaletteEntry(TilePixel(m, loc, x, y)) == (Read(m, BGP) >> (idx * 2)) & 3
  {
    var lo := Read(m, loc + ((y % 8) * 2) as bv16);
    var hi := Read(m, loc + ((y % 8) * 2) as bv16 + 1);
    var col := (x % 8) as bv8;
    var idx := ColourIndex(lo, hi, col);
    assert idx == (if IsSet(hi, 7 - col) then 2 else 0) + (if IsSet(lo, 7 - col) then 1 else 0);
    ShadeKeepsPaletteEntry(Read(m, BGP), idx);
  }

  /** The eight grey levels of row `y % 8` of the sprite tile at `loc`, left
      to right (drawPixelOfSprite, main.cpp:100-119): both row bytes are read
      once and each column takes its two bits from them. */
  function SpriteRow(m: Mem, loc: bv16, y: nat): (r: seq<bv8>)
    ensures |r| == 8
    ensures forall i :: 0 <= i < 8 ==> r[i] == 0xFF || r[i] == 0xAA || r[i] == 0x55 || r[i] == 0x00
  {
    var row := ((y % 8) * 2) as bv16;
    var lo := Read(m, loc + row);
    var hi := Read(m, loc + row + 1);
    seq(8, i requires 0 <= i < 8 => LoopPixel(Read(m, BGP), lo, hi, i as bv8))
  }

  /** One pass of drawPixelOfSprite's loop, for column `i`. */
  function LoopPixel(bgp: bv8, lo: bv8, hi: bv8, i: bv8): bv8
    requires i < 8
  {
    var lowBit := (lo >> (7 - i)) & 1;
    var highBit := (hi >> (7 - i)) & 1;
    Shade(bgp, lowBit + highBit * 2)
  }

  /** A sprite row shows the same pixels as drawing the tile row pixel by
      pixel. */
  lemma SpriteRowIsTileRow(m: Mem, loc: bv16, y: nat)
    ensures forall i :: 0 <= i < 8 ==> SpriteRow(m, loc, y)[i] == TilePixel(m, loc, i, y)
  {
  }

  /** The start of a tile's data (main.cpp:164-169 and 198-203): with LCDC
      bit 4 set tile numbers count unsigned from 0x8000; with it clear they
      count signed from 0x9000. Each tile takes 16 bytes. */
  function TileStart(lcdc: bv8, n: bv8): (a: bv16)
    ensures a & 0xF == 0
    ensures IsSet(lcdc, 4) ==> 0x8000 <= a <= 0x8FF0
    ensures !IsSet(lcdc, 4) ==> 0x8800 <= a <= 0x97F0
  {
    if IsSet(lcdc, 4) then 0x8000 + n as bv16 * 16
    else 0x9000 + SignExtend(n) * 16
  }

  /** Different tile numbers name different tiles in either mode. */
  lemma TileStartInjective(lcdc: bv8, n1: bv8, n2: bv8)
    requires TileStart(lcdc, n1) == TileStart(lcdc, n2)
    ensures n1 == n2
  {
  }

  /** Tiles 0x80-0xFF are the same 2 KiB block in both modes, 0x8800-0x8FFF. */
  lemma ModesShareHighTiles(unsignedMode: bv8, signedMode: bv8, n: bv8)
    requires IsSet(unsignedMode, 4) && !IsSet(signedMode, 4) && n >= 0x80
    ensures TileStart(unsignedMode, n) == TileStart(signedMode, n)
  {
  }

  /** The tile-map offset for screen column `x` on line `ly` of the
      background (main.cpp:145-159): the map position is the screen position
      plus the scroll, wrapped at 256 pixels in each direction, as 32 tiles
      per map row. The third branch tests a condition that the first branch
      has already taken, so it is never used. */
  function BackgroundMapOffset(ly: bv8, scy: bv8, scx: bv8, x: int): (o: int)
    requires 0 <= x < 160
    ensures 0 <= o < 1024
  {
    var px := x + scx as int;
    var py := ly as int + scy as int;
    OffsetBranchesWrap(px, py);
    TileUnderBound(px, py);
    OffsetBranches(px, py)
  }

  /** The map entry under map pixel (`mx`, `my`): 32 tiles of 8 pixels per
      row, the column taken modulo 32. */
  function MapIndex(mx: int, my: int): int
  {
    (mx / 8) % 32 + (my / 8) * 32
  }

  /** The tile under map pixel (`px`, `py`) once both coordinates are
      wrapped modulo 256: bits 3-7 of each give the column and the row. */
  function TileUnder(px: int, py: int): int
  {
    (px % 256) / 8 + ((py % 256) / 8) * 32
  }

  /** Every wrapped pixel lies on one of the map's 1024 tiles. */
  lemma TileUnderBound(px: int, py: int)
    ensures 0 <= TileUnder(px, py) < 1024
  {
    var cx := (px % 256) / 8;
    var cy := (py % 256) / 8;
    assert 0 <= cx < 32 && 0 <= cy < 32;
  }

  /** For a coordinate below 512, the tile column modulo 32 is the tile
      column of the coordinate modulo 256. */
  lemma TileColumnWraps(v: int)
    requires 0 <= v < 512
    ensures (v / 8) % 32 == (v % 256) / 8
  {
    if v >= 256 {
      assert v / 8 == (v - 256) / 8 + 32;
      assert v % 256 == v - 256;
    }
  }

  /** The branches of the background offset on map pixel (`px`, `py`),
      before either is wrapped. */
  function OffsetBranches(px: int, py: int): int
  {
    if py >= 256 then MapIndex(px, py - 256)
    else if px >= 256 then MapIndex(px - 256, py)
    else if px >= 256 && py >= 256 then MapIndex(px - 256, py - 256)
    else MapIndex(px, py)
  }

  /** The branches wrap each coordinate modulo 256. */
  lemma OffsetBranchesWrap(px: int, py: int)
    requires 0 <= px < 512 && 0 <= py < 512
    ensures OffsetBranches(px, py) == TileUnder(px, py)
  {
    TileColumnWraps(px);
    if py >= 256 {
      assert py % 256 == py - 256;
    } else {
      assert py % 256 == py;
      if px >= 256 {
        TileColumnWraps(px - 256);
      }
    }
  }

  /** The offset is the tile under the scrolled position, both coordinates
      taken modulo 256. */
  lemma BackgroundMapOffsetWraps(ly: bv8, scy: bv8, scx: bv8, x: int)
    requires 0 <= x < 160
    ensures BackgroundMapOffset(ly, scy, scx, x) == TileUnder(x + scx as int, ly as int + scy as int)
  {
    OffsetBranchesWrap(x + scx as int, ly as int + scy as int);
  }

  /** The tile-map offset for screen column `x` on line `ly` of the window
      (main.cpp:186-194): the window's x is WX - 7 as a byte, and its y is
      added to LY without wrapping, so the row can run past the 32 rows of a
      map. */
  function WindowMapOffset(ly: bv8, wy: bv8, wx: bv8, x: int): (o: int)
    requires 0 <= x < 160
    ensures 0 <= o < 2048 && o % 32 == ((x + (wx - 7) as int) / 8) % 32
  {
    var winX := wx - 7;
    MapIndex(x + winX as int, ly as int + wy as int)
  }

  /** The window offset stays inside the 1 KiB map exactly when LY plus WY
      is below 256. */
  lemma WindowOffsetInMapIff(ly: bv8, wy: bv8, wx: bv8, x: int)
    requires 0 <= x < 160
    ensures WindowMapOffset(ly, wy, wx, x) < 1024 <==> ly as int + wy as int < 256
  {
    var winX := wx - 7;
    var mx := x + winX as int;
    var my := ly as int + wy as int;
    assert WindowMapOffset(ly, wy, wx, x) == MapIndex(mx, my);
    RowPastMapIff(mx, my);
  }

  /** A map index stays below 1024 exactly when its pixel row is below
      256. */
  lemma RowPastMapIff(mx: int, my: int)
    requires 0 <= my
    ensures MapIndex(mx, my) < 1024 <==> my < 256
  {
    assert 0 <= (mx / 8) % 32 < 32;
    if my < 256 {
      assert my / 8 <= 31;
    } else {
      assert my / 8 >= 32;
    }
  }

  /** The map holding the background (LCDC bit 3) or the window (LCDC bit
      6): 0x9C00 when the bit is set, else 0x9800. */
  function MapBase(lcdc: bv8, bit: bv8): (base: bv16)
    requires bit < 8
    ensures base == 0x9800 || base == 0x9C00
    ensures base == 0x9C00 <==> IsSet(lcdc, bit)
  {
    if IsSet(lcdc, bit) then 0x9C00 else 0x9800
  }

  /** The grey level of background pixel `x` on the current line
      (drawBackground, main.cpp:122-178): the tile number is read from the
      background map at the wrapped offset, and its row and column within
      the tile are LY % 8 and x % 8. */
  function BackgroundPixel(m: Mem, x: int): (s: bv8)
    requires 0 <= x < 160
    ensures s == 0xFF || s == 0xAA || s == 0x55 || s == 0x00
  {
    var lcdc := Read(m, LCDC);
    var o := BackgroundMapOffset(Read(m, LY), Read(m, SCROLLY), Read(m, SCROLLX), x);
    var tileNum := Read(m, MapBase(lcdc, 3) + o as bv16);
    TilePixel(m, TileStart(lcdc, tileNum), x, Read(m, LY) as nat)
  }

  /** The tile number of a background pixel is always read from inside the
      selected 1 KiB map. */
  lemma BackgroundReadsInsideMap(m: Mem, x: int)
    requires 0 <= x < 160
    ensures var base := MapBase(Read(m, LCDC), 3);
      var o := BackgroundMapOffset(Read(m, LY), Read(m, SCROLLY), Read(m, SCROLLX), x);
      base <= base + o as bv16 <= base + 0x3FF
  {
  }

  /** The grey level of window pixel `x` on the current line (drawWindow,
      main.cpp:181-207), read from the map LCDC bit 6 selects. */
  function WindowPixel(m: Mem, x: int): (s: bv8)
    requires 0 <= x < 160
    ensures s == 0xFF || s == 0xAA || s == 0x55 || s == 0x00
  {
    var lcdc := Read(m, LCDC);
    var o := WindowMapOffset(Read(m, LY), Read(m, WINY), Read(m, WINX), x);
    var tileNum := Read(m, MapBase(lcdc, 6) + o as bv16);
    TilePixel(m, TileStart(lcdc, tileNum), x, Read(m, LY) as nat)
  }

  /** The four OAM bytes of sprite `i`: y + 16, x + 8, tile number, flags. */
  function OamByte(m: Mem, i: int, k: int): bv8
    requires 0 <= i < 40 && 0 <= k < 4
  {
    m[0xFE00 + 4 * i + k]
  }

  /** The sprite's screen y and x: its OAM bytes less 16 and 8, as bytes. */
  function SpriteY(m: Mem, i: int): bv8
    requires 0 <= i < 40
  {
    OamByte(m, i, 0) - 16
  }

  function SpriteX(m: Mem, i: int): bv8
    requires 0 <= i < 40
  {
    OamByte(m, i, 1) - 8
  }

  /** Whether drawSprites draws sprite `i` on line `ly` (main.cpp:218-230):
      the line is within the sprite's eight lines, its y and x are strictly
      inside the screen, and flag bit 7 is set. */
  predicate SpriteDrawn(m: Mem, i: int, ly: bv8)
    requires 0 <= i < 40
    ensures SpriteDrawn(m, i, ly) ==> 1 <= ly <= 150 && ly - SpriteY(m, i) < 8
  {
    var y := SpriteY(m, i);
    if ly as int <= y as int + 7 && ly >= y then
      if y < 144 && y > 0 then
        var x := SpriteX(m, i);
        if x < 160 && x > 0 then IsSet(OamByte(m, i, 3), 7) else false
      else false
    else false
  }

  /** A sprite whose position and flags let it be drawn at all. */
  predicate SpriteShown(m: Mem, i: int)
    requires 0 <= i < 40
  {
    0 < SpriteY(m, i) < 144 && 0 < SpriteX(m, i) < 160 && IsSet(OamByte(m, i, 3), 7)
  }

  /** A sprite is drawn on exactly the eight lines from its y down, and only
      when it is shown. */
  lemma SpriteDrawnIff(m: Mem, i: int, ly: bv8)
    requires 0 <= i < 40
    ensures SpriteDrawn(m, i, ly) <==>
      SpriteShown(m, i) && SpriteY(m, i) <= ly && ly as int <= SpriteY(m, i) as int + 7
  {
  }

  /** The tile row drawSprites shows for sprite `i` on line `ly`, as
      written: the sprite's tile is always addressed from 0x8000 and the row
      passed on is LY, of which drawPixelOfSprite takes LY % 8. */
  function SpriteRowAsWritten(m: Mem, i: int, ly: bv8): (r: seq<bv8>)
    requires 0 <= i < 40
    ensures |r| == 8
  {
    SpriteRow(m, 0x8000 + OamByte(m, i, 2) as bv16 * 16, ly as nat)
  }

  /** The row of the sprite's tile that belongs on line `ly`: the line's
      distance from the sprite's top. */
  function SpriteLine(m: Mem, i: int, ly: bv8): (r: seq<bv8>)
    requires 0 <= i < 40 && SpriteDrawn(m, i, ly)
    ensures |r| == 8
    ensures SpriteY(m, i) == ly ==> r == SpriteRow(m, 0x8000 + OamByte(m, i, 2) as bv16 * 16, 0)
  {
    SpriteDrawnIff(m, i, ly);
    SpriteRow(m, 0x8000 + OamByte(m, i, 2) as bv16 * 16, (ly - SpriteY(m, i)) as nat)
  }

  /** The row index SpriteLine uses runs 0 to 7 down the sprite's eight
      lines: row `k` on line y + k. */
  lemma SpriteLineRows(m: Mem, i: int, k: bv8)
    requires 0 <= i < 40 && SpriteShown(m, i) && k < 8
    ensures SpriteDrawn(m, i, SpriteY(m, i) + k)
    ensures SpriteLine(m, i, SpriteY(m, i) + k)
      == SpriteRow(m, 0x8000 + OamByte(m, i, 2) as bv16 * 16, k as nat)
  {
    SpriteDrawnIff(m, i, SpriteY(m, i) + k);
  }

  /** As written, a sprite at y = 1 shows its row 1 on its first line, where
      its row 0 belongs. */
  lemma SpriteRowMisaligned(m: Mem, i: int)
    requires 0 <= i < 40 && SpriteShown(m, i) && SpriteY(m, i) == 1
    ensures SpriteRowAsWritten(m, i, 1)
      == SpriteRow(m, 0x8000 + OamByte(m, i, 2) as bv16 * 16, 1)
    ensures SpriteLine(m, i, 1)
      == SpriteRow(m, 0x8000 + OamByte(m, i, 2) as bv16 * 16, 0)
  {
    SpriteDrawnIff(m, i, 1);
  }

  /** Whenever y is not a multiple of 8, every line of the sprite asks for
      the wrong row of its tile: line y + k should show row k, and the row
      index taken as written, (y + k) % 8, is never k. */
  lemma MisalignedRowIndex(y: bv8, k: bv8)
    requires y % 8 != 0 && k < 8
    ensures (y + k) % 8 != k
  {
  }
}
