// Properties of what the driver sends, stated on the specification
// functions the driver's methods are proved against.
module LcdProperties {
  import opened Font
  import opened Framing
  import opened Lcd

  /** The table has a row for every code 0x20..0x7F; the space is blank and
      the last row is the UT sign that replaces DEL. */
  lemma FontTable()
    ensures Rows == Last - First + 1
    ensures Glyph(' ') == Bitmap(0x00, 0x00, 0x00, 0x00, 0x00)
    ensures Glyph(0x7F as char) == Bitmap(0x1f, 0x24, 0x7c, 0x24, 0x1f)
    ensures Glyph('~') == Bitmap(0x10, 0x08, 0x08, 0x10, 0x08)
  {
  }

  /** The two address commands of an accepted position select pixel column
      7 * x, where a seven-column character fits in the 84-column display,
      and bank y, one of the six banks of the 48-row display. */
  lemma CursorAddressing(x: bv8, y: bv8)
    requires x <= LastColumn && y <= LastBank
    ensures Bytes(CursorFrames(x, y), Command) == [ColumnCommand(x), BankCommand(y)]
    ensures Bytes(CursorFrames(x, y), Data) == []
    ensures ColumnCommand(x) as int == 0x80 + 7 * x as int
    ensures Decode(ColumnCommand(x)) == SetColumn(7 * x as int)
    ensures Decode(BankCommand(y)) == SetBank(y as int)
    ensures 7 * x as int + 7 <= MaxX && y as int < MaxY / 8
  {
  }

  /** `LCD_init` pulses RESET low for 10 ms, then sends exactly the six
      commands, with a contrast inside the documented 0xA0..0xCF, and no
      pixel data. */
  lemma InitSequence()
    ensures InitTrace()[..3] == [ResetLine(false), Delay(10), ResetLine(true)]
    ensures Bytes(InitTrace(), Command) == [0x21, 0xAF, 0x04, 0x14, 0x20, 0x0C]
    ensures Bytes(InitTrace(), Data) == []
    ensures 0xA0 <= Contrast <= 0xCF
  {
    var pulse := [ResetLine(false), Delay(10), ResetLine(true)];
    BytesAppend(pulse, Frames(Command, InitCommands), Command);
    BytesAppend(pulse, Frames(Command, InitCommands), Data);
    FramesRoundTrip(Command, InitCommands);
  }

  /** A character is sent as seven DATA frames: a blank column, the five
      columns of its glyph in order, a blank column. */
  lemma CharFramesExact(c: char)
    requires IsRenderable(c)
    ensures var g := Glyph(c);
      CharFrames(c) == [Frame(Data, 0x00), Frame(Data, g.c0), Frame(Data, g.c1), Frame(Data, g.c2),
                        Frame(Data, g.c3), Frame(Data, g.c4), Frame(Data, 0x00)]
  {
    var g := Glyph(c);
    var run := Frames(Data, g.Columns());
    assert run == [Frame(Data, g.c0), Frame(Data, g.c1), Frame(Data, g.c2),
                   Frame(Data, g.c3), Frame(Data, g.c4)];
  }

  /** Read back, a character is its glyph between two blank columns, and it
      carries no command. */
  lemma CharBytes(c: char)
    requires IsRenderable(c)
    ensures Bytes(CharFrames(c), Data) == [0] + Glyph(c).Columns() + [0]
    ensures Bytes(CharFrames(c), Command) == []
  {
    PaddedBytes(Glyph(c).Columns());
  }

  /** `LCD_clear` sends 504 zero bytes of pixel data, then homes the cursor. */
  lemma ClearShape()
    ensures ScreenBytes == 504 && |ClearFrames()| == ScreenBytes + 2
    ensures forall i :: 0 <= i < ScreenBytes ==> ClearFrames()[i] == Frame(Data, 0)
    ensures ClearFrames()[ScreenBytes..] == [Frame(Command, 0x80), Frame(Command, 0x40)]
    ensures Bytes(ClearFrames(), Data) == Blank(ScreenBytes)
    ensures Bytes(ClearFrames(), Command) == [0x80, 0x40]
  {
    var zeros := Frames(Data, Blank(ScreenBytes));
    var home := CursorFrames(0, 0);
    BytesAppend(zeros, home, Data);
    BytesAppend(zeros, home, Command);
    FramesRoundTrip(Data, Blank(ScreenBytes));
    CursorAddressing(0, 0);
  }

  /** `LCD_draw_image` homes the cursor, then sends the first 504 bytes of
      the image as pixel data, unchanged and in order. */
  lemma ImageBytes(img: seq<bv8>)
    requires |img| >= ScreenBytes
    ensures |ImageFrames(img)| == ScreenBytes + 2
    ensures ImageFrames(img)[..2] == [Frame(Command, 0x80), Frame(Command, 0x40)]
    ensures forall i :: 0 <= i < ScreenBytes ==> ImageFrames(img)[i + 2] == Frame(Data, img[i])
    ensures Bytes(ImageFrames(img), Data) == img[..ScreenBytes]
    ensures Bytes(ImageFrames(img), Command) == [0x80, 0x40]
  {
    var home := CursorFrames(0, 0);
    var pixels := Frames(Data, img[..ScreenBytes]);
    BytesAppend(home, pixels, Data);
    BytesAppend(home, pixels, Command);
    FramesRoundTrip(Data, img[..ScreenBytes]);
    CursorAddressing(0, 0);
  }

  /** Rendering a concatenation renders each part in turn. */
  lemma {:induction false} StringFramesAppend(a: seq<char>, b: seq<char>)
    requires IsText(a) && IsText(b)
    ensures IsText(a + b)
    ensures StringFrames(a + b) == StringFrames(a) + StringFrames(b)
  {
    assert IsText(a + b) by {
      forall i | 0 <= i < |a + b| ensures IsRenderable((a + b)[i]) {
        if i < |a| { assert (a + b)[i] == a[i]; } else { assert (a + b)[i] == b[i - |a|]; }
      }
    }
    if a == [] {
      assert a + b == b;
    } else {
      assert (a + b)[0] == a[0] && (a + b)[1..] == a[1..] + b;
      StringFramesAppend(a[1..], b);
      ConcatAssoc([], CharFrames(a[0]), StringFrames(a[1..]), StringFrames(b));
    }
  }

  /** The i-th character of a string occupies frames 7i..7i+6 of its
      rendering: nothing is dropped or reordered. */
  lemma {:induction false} StringFramesAt(s: seq<char>, i: nat)
    requires IsText(s) && i < |s|
    ensures StringFrames(s)[7 * i..7 * i + 7] == CharFrames(s[i])
  {
    var r := StringFrames(s);
    if i == 0 {
      assert r[..7] == CharFrames(s[0]);
    } else {
      StringFramesAt(s[1..], i - 1);
      var rest := StringFrames(s[1..]);
      assert r == CharFrames(s[0]) + rest;
      assert r[7 * i..7 * i + 7]
          == rest[7 * (i - 1)..7 * (i - 1) + 7];
    }
  }

  /** A rendered string is pixel data only, seven bytes per character. */
  lemma {:induction false} StringBytes(s: seq<char>)
    requires IsText(s)
    ensures Bytes(StringFrames(s), Command) == []
    ensures |Bytes(StringFrames(s), Data)| == 7 * |s|
  {
    if s != [] {
      StringBytes(s[1..]);
      CharBytes(s[0]);
      BytesAppend(CharFrames(s[0]), StringFrames(s[1..]), Command);
      BytesAppend(CharFrames(s[0]), StringFrames(s[1..]), Data);
    }
  }
}
