// The 5x8 font of the driver: one bitmap per character code 0x20..0x7F.
// Each bitmap is five pixel columns; bit n of a column lights pixel row n
// (row 0 at the top).  The last row replaces DEL (0x7F) by a "UT" sign.
module Font {

  /** One glyph: the five column bytes of a `uint8_t[5]` row of the table. */
  datatype Bitmap = Bitmap(c0: bv8, c1: bv8, c2: bv8, c3: bv8, c4: bv8)
  {
    /** The columns left to right, in the order they are sent. */
    function Columns(): (cols: seq<bv8>)
      ensures |cols| == 5
    {
      [c0, c1, c2, c3, c4]
    }

    /** No column lights a pixel. */
    predicate IsBlank()
    {
      c0 == 0 && c1 == 0 && c2 == 0 && c3 == 0 && c4 == 0
    }
  }

  /** The first character code the table covers (the space). */
  const First: int := 0x20

  /** The last character code the table covers (0x7F, drawn as the UT sign). */
  const Last: int := 0x7F

  /** Number of rows in the font table. */
  const Rows: int := 96

  /** The font table, indexed by character code minus 0x20.  Only the
      space (row 0) lights no pixel. */
  function Ascii(index: int): (r: Bitmap)
    requires 0 <= index < Rows
    ensures r.IsBlank() <==> index == 0
  {
    match index
    case 0  => Bitmap(0x00, 0x00, 0x00, 0x00, 0x00)  // 0x20
    case 1  => Bitmap(0x00, 0x00, 0x5f, 0x00, 0x00)  // 0x21 !
    case 2  => Bitmap(0x00, 0x07, 0x00, 0x07, 0x00)  // 0x22 "
    case 3  => Bitmap(0x14, 0x7f, 0x14, 0x7f, 0x14)  // 0x23 #
    case 4  => Bitmap(0x24, 0x2a, 0x7f, 0x2a, 0x12)  // 0x24 $
    case 5  => Bitmap(0x23, 0x13, 0x08, 0x64, 0x62)  // 0x25 %
    case 6  => Bitmap(0x36, 0x49, 0x55, 0x22, 0x50)  // 0x26 &
    case 7  => Bitmap(0x00, 0x05, 0x03, 0x00, 0x00)  // 0x27 '
    case 8  => Bitmap(0x00, 0x1c, 0x22, 0x41, 0x00)  // 0x28 (
    case 9  => Bitmap(0x00, 0x41, 0x22, 0x1c, 0x00)  // 0x29 )
    case 10 => Bitmap(0x14, 0x08, 0x3e, 0x08, 0x14)  // 0x2a *
    case 11 => Bitmap(0x08, 0x08, 0x3e, 0x08, 0x08)  // 0x2b +
    case 12 => Bitmap(0x00, 0x50, 0x30, 0x00, 0x00)  // 0x2c ,
    case 13 => Bitmap(0x08, 0x08, 0x08, 0x08, 0x08)  // 0x2d -
    case 14 => Bitmap(0x00, 0x60, 0x60, 0x00, 0x00)  // 0x2e .
    case 15 => Bitmap(0x20, 0x10, 0x08, 0x04, 0x02)  // 0x2f /
    case 16 => Bitmap(0x3e, 0x51, 0x49, 0x45, 0x3e)  // 0x30 0
    case 17 => Bitmap(0x00, 0x42, 0x7f, 0x40, 0x00)  // 0x31 1
    case 18 => Bitmap(0x42, 0x61, 0x51, 0x49, 0x46)  // 0x32 2
    case 19 => Bitmap(0x21, 0x41, 0x45, 0x4b, 0x31)  // 0x33 3
    case 20 => Bitmap(0x18, 0x14, 0x12, 0x7f, 0x10)  // 0x34 4
    case 21 => Bitmap(0x27, 0x45, 0x45, 0x45, 0x39)  // 0x35 5
    case 22 => Bitmap(0x3c, 0x4a, 0x49, 0x49, 0x30)  // 0x36 6
    case 23 => Bitmap(0x01, 0x71, 0x09, 0x05, 0x03)  // 0x37 7
    case 24 => Bitmap(0x36, 0x49, 0x49, 0x49, 0x36)  // 0x38 8
    case 25 => Bitmap(0x06, 0x49, 0x49, 0x29, 0x1e)  // 0x39 9
    case 26 => Bitmap(0x00, 0x36, 0x36, 0x00, 0x00)  // 0x3a :
    case 27 => Bitmap(0x00, 0x56, 0x36, 0x00, 0x00)  // 0x3b ;
    case 28 => Bitmap(0x08, 0x14, 0x22, 0x41, 0x00)  // 0x3c <
    case 29 => Bitmap(0x14, 0x14, 0x14, 0x14, 0x14)  // 0x3d =
    case 30 => Bitmap(0x00, 0x41, 0x22, 0x14, 0x08)  // 0x3e >
    case 31 => Bitmap(0x02, 0x01, 0x51, 0x09, 0x06)  // 0x3f ?
    case 32 => Bitmap(0x32, 0x49, 0x79, 0x41, 0x3e)  // 0x40 @
    case 33 => Bitmap(0x7e, 0x11, 0x11, 0x11, 0x7e)  // 0x41 A
    case 34 => Bitmap(0x7f, 0x49, 0x49, 0x49, 0x36)  // 0x42 B
    case 35 => Bitmap(0x3e, 0x41, 0x41, 0x41, 0x22)  // 0x43 C
    case 36 => Bitmap(0x7f, 0x41, 0x41, 0x22, 0x1c)  // 0x44 D
    case 37 => Bitmap(0x7f, 0x49, 0x49, 0x49, 0x41)  // 0x45 E
    case 38 => Bitmap(0x7f, 0x09, 0x09, 0x09, 0x01)  // 0x46 F
    case 39 => Bitmap(0x3e, 0x41, 0x49, 0x49, 0x7a)  // 0x47 G
    case 40 => Bitmap(0x7f, 0x08, 0x08, 0x08, 0x7f)  // 0x48 H
    case 41 => Bitmap(0x00, 0x41, 0x7f, 0x41, 0x00)  // 0x49 I
    case 42 => Bitmap(0x20, 0x40, 0x41, 0x3f, 0x01)  // 0x4a J
    case 43 => Bitmap(0x7f, 0x08, 0x14, 0x22, 0x41)  // 0x4b K
    case 44 => Bitmap(0x7f, 0x40, 0x40, 0x40, 0x40)  // 0x4c L
    case 45 => Bitmap(0x7f, 0x02, 0x0c, 0x02, 0x7f)  // 0x4d M
    case 46 => Bitmap(0x7f, 0x04, 0x08, 0x10, 0x7f)  // 0x4e N
    case 47 => Bitmap(0x3e, 0x41, 0x41, 0x41, 0x3e)  // 0x4f O
    case 48 => Bitmap(0x7f, 0x09, 0x09, 0x09, 0x06)  // 0x50 P
    case 49 => Bitmap(0x3e, 0x41, 0x51, 0x21, 0x5e)  // 0x51 Q
    case 50 => Bitmap(0x7f, 0x09, 0x19, 0x29, 0x46)  // 0x52 R
    case 51 => Bitmap(0x46, 0x49, 0x49, 0x49, 0x31)  // 0x53 S
    case 52 => Bitmap(0x01, 0x01, 0x7f, 0x01, 0x01)  // 0x54 T
    case 53 => Bitmap(0x3f, 0x40, 0x40, 0x40, 0x3f)  // 0x55 U
    case 54 => Bitmap(0x1f, 0x20, 0x40, 0x20, 0x1f)  // 0x56 V
    case 55 => Bitmap(0x3f, 0x40, 0x38, 0x40, 0x3f)  // 0x57 W
    case 56 => Bitmap(0x63, 0x14, 0x08, 0x14, 0x63)  // 0x58 X
    case 57 => Bitmap(0x07, 0x08, 0x70, 0x08, 0x07)  // 0x59 Y
    case 58 => Bitmap(0x61, 0x51, 0x49, 0x45, 0x43)  // 0x5a Z
    case 59 => Bitmap(0x00, 0x7f, 0x41, 0x41, 0x00)  // 0x5b [
    case 60 => Bitmap(0x02, 0x04, 0x08, 0x10, 0x20)  // 0x5c '\'
    case 61 => Bitmap(0x00, 0x41, 0x41, 0x7f, 0x00)  // 0x5d ]
    case 62 => Bitmap(0x04, 0x02, 0x01, 0x02, 0x04)  // 0x5e ^
    case 63 => Bitmap(0x40, 0x40, 0x40, 0x40, 0x40)  // 0x5f _
    case 64 => Bitmap(0x00, 0x01, 0x02, 0x04, 0x00)  // 0x60 `
    case 65 => Bitmap(0x20, 0x54, 0x54, 0x54, 0x78)  // 0x61 a
    case 66 => Bitmap(0x7f, 0x48, 0x44, 0x44, 0x38)  // 0x62 b
    case 67 => Bitmap(0x38, 0x44, 0x44, 0x44, 0x20)  // 0x63 c
    case 68 => Bitmap(0x38, 0x44, 0x44, 0x48, 0x7f)  // 0x64 d
    case 69 => Bitmap(0x38, 0x54, 0x54, 0x54, 0x18)  // 0x65 e
    case 70 => Bitmap(0x08, 0x7e, 0x09, 0x01, 0x02)  // 0x66 f
    case 71 => Bitmap(0x0c, 0x52, 0x52, 0x52, 0x3e)  // 0x67 g
    case 72 => Bitmap(0x7f, 0x08, 0x04, 0x04, 0x78)  // 0x68 h
    case 73 => Bitmap(0x00, 0x44, 0x7d, 0x40, 0x00)  // 0x69 i
    case 74 => Bitmap(0x20, 0x40, 0x44, 0x3d, 0x00)  // 0x6a j
    case 75 => Bitmap(0x7f, 0x10, 0x28, 0x44, 0x00)  // 0x6b k
    case 76 => Bitmap(0x00, 0x41, 0x7f, 0x40, 0x00)  // 0x6c l
    case 77 => Bitmap(0x7c, 0x04, 0x18, 0x04, 0x78)  // 0x6d m
    case 78 => Bitmap(0x7c, 0x08, 0x04, 0x04, 0x78)  // 0x6e n
    case 79 => Bitmap(0x38, 0x44, 0x44, 0x44, 0x38)  // 0x6f o
    case 80 => Bitmap(0x7c, 0x14, 0x14, 0x14, 0x08)  // 0x70 p
    case 81 => Bitmap(0x08, 0x14, 0x14, 0x18, 0x7c)  // 0x71 q
    case 82 => Bitmap(0x7c, 0x08, 0x04, 0x04, 0x08)  // 0x72 r
    case 83 => Bitmap(0x48, 0x54, 0x54, 0x54, 0x20)  // 0x73 s
    case 84 => Bitmap(0x04, 0x3f, 0x44, 0x40, 0x20)  // 0x74 t
    case 85 => Bitmap(0x3c, 0x40, 0x40, 0x20, 0x7c)  // 0x75 u
    case 86 => Bitmap(0x1c, 0x20, 0x40, 0x20, 0x1c)  // 0x76 v
    case 87 => Bitmap(0x3c, 0x40, 0x30, 0x40, 0x3c)  // 0x77 w
    case 88 => Bitmap(0x44, 0x28, 0x10, 0x28, 0x44)  // 0x78 x
    case 89 => Bitmap(0x0c, 0x50, 0x50, 0x50, 0x3c)  // 0x79 y
    case 90 => Bitmap(0x44, 0x64, 0x54, 0x4c, 0x44)  // 0x7a z
    case 91 => Bitmap(0x00, 0x08, 0x36, 0x41, 0x00)  // 0x7b {
    case 92 => Bitmap(0x00, 0x00, 0x7f, 0x00, 0x00)  // 0x7c |
    case 93 => Bitmap(0x00, 0x41, 0x36, 0x08, 0x00)  // 0x7d }
    case 94 => Bitmap(0x10, 0x08, 0x08, 0x10, 0x08)  // 0x7e ~
    case _  => Bitmap(0x1f, 0x24, 0x7c, 0x24, 0x1f)  // 0x7f UT sign
  }

  /** The table lookup guards nothing: only these codes have a row. */
  predicate IsRenderable(c: char)
  {
    First <= c as int <= Last
  }

  /** The bitmap drawn for `c`: the space is the only renderable character
      that draws nothing. */
  function Glyph(c: char): (r: Bitmap)
    requires IsRenderable(c)
    ensures r.IsBlank() <==> c == ' '
  {
    Ascii(c as int - First)
  }
}
