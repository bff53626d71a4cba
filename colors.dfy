/**
 * Terminal colours to GUI colours.  Named colours map to fixed GUI colours,
 * explicit RGB passes through, and the xterm 256-colour index is expanded:
 * 16 system colours, a 6x6x6 colour cube, then a 24-step grey ramp.  The
 * RGB value is packed into a 32-bit word (`0xRRGGBB`) and unpacked again.
 */
module Colors {
  /** Rust `u8` where the code does bit operations on it. */
  type byte = bv8

  datatype NamedColor =
    | Black | Red | Green | Yellow | Blue | Magenta | Cyan | White
    | BrightBlack | BrightRed | BrightGreen | BrightYellow | BrightBlue | BrightMagenta | BrightCyan | BrightWhite
    | Foreground | Background | Cursor
    | DimBlack | DimRed | DimGreen | DimYellow | DimBlue | DimMagenta | DimCyan | DimWhite
    | BrightForeground | DimForeground

  datatype Rgb = Rgb(r: byte, g: byte, b: byte)

  /** A terminal colour: explicit, named, or an index into the 256-colour palette. */
  datatype Color = Spec(rgb: Rgb) | Named(name: NamedColor) | Indexed(index: byte)

  /** A GUI colour: built from components, or one of the toolkit's named constants. */
  datatype Color32 =
    | FromRgb(r: byte, g: byte, b: byte)
    | BLACK | RED | GREEN | YELLOW | BLUE | WHITE
    | LIGHT_RED | LIGHT_GREEN | LIGHT_YELLOW | LIGHT_BLUE
    | DARK_RED | DARK_GREEN | DARK_BLUE | DARK_GRAY
    | GOLD | GRAY | TRANSPARENT

  const SYSTEM_COLOURS: seq<bv32> := [
    0x000000, 0xcd0000, 0x00cd00, 0xcdcd00, 0x0000ee, 0xcd00cd, 0x00cdcd, 0xe5e5e5, 0x7f7f7f,
    0xff0000, 0x00ff00, 0xffff00, 0x5c5cff, 0xff00ff, 0x00ffff, 0xffffff]

  /** The component levels of the colour cube. */
  const CUBE: seq<bv32> := [0, 95, 135, 175, 215, 255]

  /** The packed `0xRRGGBB` word of palette entry `i`. */
  function IndexedRgb(i: byte): bv32
  {
    if i < 16 then SYSTEM_COLOURS[i as int]
    else if i < 232 then
      var offset := (i - 16) as int;
      CubeRgb(offset / 36, offset / 6 % 6, offset % 6)
    else
      var offset := (i - 232) * 10 + 8;
      (offset as bv32) * 0x010101
  }

  /** The packed word of the cube entry with levels `red`, `green`, `blue`. */
  function CubeRgb(red: nat, green: nat, blue: nat): bv32
    requires red < 6 && green < 6 && blue < 6
  {
    (CUBE[red] << 16) | (CUBE[green] << 8) | CUBE[blue]
  }

  function Byte(w: bv32): byte
  {
    (w & 0xff) as byte
  }

  /** `Color32::from_rgb` of the three bytes of a packed word. */
  function Unpack(rgb: bv32): Color32
  {
    FromRgb(Byte(rgb >> 16), Byte(rgb >> 8), Byte(rgb))
  }

  function ColorToColor32(c: Color): Color32
  {
    match c
    case Spec(rgb) => FromRgb(rgb.r, rgb.g, rgb.b)
    case Named(n) => NamedToColor32(n)
    case Indexed(i) => Unpack(IndexedRgb(i))
  }

  function NamedToColor32(n: NamedColor): Color32
  {
    match n
    case Black => BLACK
    case Red => RED
    case Green => GREEN
    case Yellow => YELLOW
    case Blue => BLUE
    case Magenta => FromRgb(228, 0, 127)
    case Cyan => FromRgb(0, 255, 255)
    case White => WHITE
    case BrightBlack => BLACK
    case BrightRed => LIGHT_RED
    case BrightGreen => LIGHT_GREEN
    case BrightYellow => LIGHT_YELLOW
    case BrightBlue => LIGHT_BLUE
    case BrightMagenta => FromRgb(228, 0, 127)
    case BrightCyan => FromRgb(224, 255, 255)
    case BrightWhite => WHITE
    case Foreground => GOLD
    case Background => TRANSPARENT
    case Cursor => GRAY
    case DimBlack => BLACK
    case DimRed => DARK_RED
    case DimGreen => DARK_GREEN
    case DimYellow => FromRgb(173, 255, 47)
    case DimBlue => DARK_BLUE
    case DimMagenta => FromRgb(139, 0, 139)
    case DimCyan => FromRgb(0, 139, 139)
    case DimWhite => WHITE
    case BrightForeground => LIGHT_YELLOW
    case DimForeground => GRAY
  }

  /** The cube levels as plain numbers. */
  function Level(k: nat): byte
    requires k < 6
  {
    [0, 95, 135, 175, 215, 255][k]
  }

  /** The three bytes of a packed word sit in separate lanes. */
  lemma PackLanes(x: bv32, y: bv32, z: bv32)
    requires x < 256 && y < 256 && z < 256
    ensures var w := (x << 16) | (y << 8) | z;
      (w >> 16) & 0xff == x && (w >> 8) & 0xff == y && w & 0xff == z
  {
  }

  /** Packing three bytes and unpacking the word gives them back. */
  lemma PackUnpack(x: bv32, y: bv32, z: bv32)
    requires x < 256 && y < 256 && z < 256
    ensures Unpack((x << 16) | (y << 8) | z) == FromRgb(x as byte, y as byte, z as byte)
  {
    PackLanes(x, y, z);
  }

  lemma CubeIsLevels(k: nat)
    requires k < 6
    ensures CUBE[k] < 256 && CUBE[k] as byte == Level(k)
  {
  }

  /** An entry of the system table is the table's word, unpacked. */
  lemma SystemColour(i: byte)
    requires i < 16
    ensures ColorToColor32(Indexed(i)) == Unpack(SYSTEM_COLOURS[i as int])
  {
  }

  lemma CubeOffset(i: byte)
    requires 16 <= i < 232
    ensures 0 <= (i - 16) as int < 216
  {
  }

  /** Entries 16 to 231: offset `o = i - 16` picks levels `o / 36`, `o / 6 % 6`, `o % 6` of the
    * cube for red, green and blue. */
  lemma CubeColour(i: byte)
    requires 16 <= i < 232
    ensures var o := (i - 16) as int;
      ColorToColor32(Indexed(i)) == FromRgb(Level(o / 36), Level(o / 6 % 6), Level(o % 6))
  {
    CubeOffset(i);
    var o := (i - 16) as int;
    CubeLevels(o / 36, o / 6 % 6, o % 6);
  }

  /** Unpacking the word of three cube levels gives the levels. */
  lemma CubeLevels(red: nat, green: nat, blue: nat)
    requires red < 6 && green < 6 && blue < 6
    ensures Unpack(CubeRgb(red, green, blue)) == FromRgb(Level(red), Level(green), Level(blue))
  {
    CubeIsLevels(red);
    CubeIsLevels(green);
    CubeIsLevels(blue);
    PackUnpack(CUBE[red], CUBE[green], CUBE[blue]);
  }

  /** Multiplying a byte by `0x010101` copies it into all three lanes. */
  lemma GreyLanes(x: bv32)
    requires x < 256
    ensures x * 0x010101 == (x << 16) | (x << 8) | x
  {
  }

  /** Entries 232 to 255: a grey with every component `8 + 10 * (i - 232)`. */
  lemma GreyColour(i: byte)
    requires 232 <= i
    ensures var c := ColorToColor32(Indexed(i));
      && c.FromRgb? && c.r == c.g == c.b
      && c.r as int == 8 + 10 * (i as int - 232)
  {
    var v := (i - 232) * 10 + 8;
    var x := v as bv32;
    assert IndexedRgb(i) == x * 0x010101;
    GreyLanes(x);
    PackUnpack(x, x, x);
    GreyLevel(i);
  }

  lemma GreyLevel(i: byte)
    requires 232 <= i
    ensures ((i - 232) * 10 + 8) as int == 8 + 10 * (i as int - 232)
  {
  }

  /** The position of a cube level, the partner of `Level`. */
  function LevelIndex(c: byte): nat
  {
    if c == 0 then 0 else if c == 95 then 1 else if c == 135 then 2
    else if c == 175 then 3 else if c == 215 then 4 else 5
  }

  /** Reads the palette index back from a colour of the cube or the grey ramp. */
  function PaletteIndex(c: Color32): int
    requires c.FromRgb?
  {
    if c.r == c.g == c.b && c.r as int % 10 == 8 then 232 + (c.r as int - 8) / 10
    else 16 + 36 * LevelIndex(c.r) + 6 * LevelIndex(c.g) + LevelIndex(c.b)
  }

  lemma LevelIndexOfLevel(k: nat)
    requires k < 6
    ensures LevelIndex(Level(k)) == k && Level(k) as int % 10 != 8
  {
  }

  /** The offset into the cube is its three base-6 digits. */
  lemma CubeDigits(o: int)
    requires 0 <= o < 216
    ensures 0 <= o / 36 < 6 && o == 36 * (o / 36) + 6 * (o / 6 % 6) + o % 6
  {
    assert o / 6 == 6 * (o / 36) + o / 6 % 6;
  }

  lemma CubeIndexRoundTrip(i: byte)
    requires 16 <= i < 232
    ensures ColorToColor32(Indexed(i)).FromRgb?
    ensures PaletteIndex(ColorToColor32(Indexed(i))) == i as int
  {
    CubeColour(i);
    var o := (i - 16) as int;
    CubeDigits(o);
    LevelIndexOfLevel(o / 36);
    LevelIndexOfLevel(o / 6 % 6);
    LevelIndexOfLevel(o % 6);
  }

  /** The cube and the grey ramp give 240 different colours: every index from 16 on can be
    * read back from its colour. */
  lemma PaletteIndexRoundTrip(i: byte)
    requires 16 <= i
    ensures ColorToColor32(Indexed(i)).FromRgb?
    ensures PaletteIndex(ColorToColor32(Indexed(i))) == i as int
  {
    if i < 232 {
      CubeIndexRoundTrip(i);
    } else {
      GreyColour(i);
    }
  }
}
