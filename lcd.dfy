// The driver of a Nokia 5110 display (PCD8544 controller) on P9 and eUSCI_A3.
// The pins and the serial port are abstracted into the append-only trace
// of the Framing module: each operation is specified by the exact events
// it appends.
module Lcd {
  import opened Font
  import opened Framing

  /** Width of the display in pixels. */
  const MaxX: int := 84

  /** Height of the display in pixels. */
  const MaxY: int := 48

  /** Bytes of display memory: 6 banks of 8 pixel rows by 84 columns. */
  const ScreenBytes: int := MaxX * MaxY / 8

  /** The operating voltage (contrast) command sent during initialisation. */
  const Contrast: bv8 := 0xAF

  /** Largest character column and bank `SetCursor` accepts. */
  const LastColumn: bv8 := 11
  const LastBank: bv8 := 5

  // ---------------------------------------------------------------------
  // What each operation sends

  /** The column command for character column `x`, computed as the source
      does: `0x80 | (x * 7)` reduced to the `uint8_t` the frame carries. */
  function ColumnCommand(x: bv8): bv8
  {
    0x80 | (x * 7)
  }

  /** The bank command for bank `y`: `0x40 | y`. */
  function BankCommand(y: bv8): bv8
  {
    0x40 | y
  }

  /** What `LCD_set_cursor(x, y)` sends: nothing when the position is out of
      range, otherwise the column command then the bank command. */
  function CursorFrames(x: bv8, y: bv8): (r: seq<Event>)
    ensures x > LastColumn || y > LastBank ==> r == []
    ensures x <= LastColumn && y <= LastBank ==>
      r == [Frame(Command, 0x80 + 7 * x), Frame(Command, 0x40 + y)]
  {
    if x > LastColumn || y > LastBank then []
    else [Frame(Command, ColumnCommand(x)), Frame(Command, BankCommand(y))]
  }

  /** How the controller reads a command byte in its basic instruction set
      (the mode `LCD_init` leaves it in): bit 7 set addresses a pixel column
      0..127, the pattern 01000yyy addresses a bank. */
  datatype Instruction = SetColumn(column: int) | SetBank(bank: int) | OtherInstruction

  function Decode(b: bv8): Instruction
  {
    if b & 0x80 != 0 then SetColumn((b & 0x7F) as int)
    else if b & 0xF8 == 0x40 then SetBank((b & 0x07) as int)
    else OtherInstruction
  }

  /** The fixed command sequence of `LCD_init`. */
  const InitCommands: seq<bv8> := [0x21, Contrast, 0x04, 0x14, 0x20, 0x0C]

  /** What `LCD_init` emits: a reset pulse held for 10 ms, then the commands. */
  function InitTrace(): (r: seq<Event>)
    ensures |r| == 3 + |InitCommands|
    ensures r[..3] == [ResetLine(false), Delay(10), ResetLine(true)]
  {
    [ResetLine(false), Delay(10), ResetLine(true)] + Frames(Command, InitCommands)
  }

  /** What `LCD_output_char(c)` sends: a blank column, the five columns of
      the glyph of `c`, a blank column, all as pixel data. */
  function CharFrames(c: char): (r: seq<Event>)
    requires IsRenderable(c)
    ensures |r| == 7
  {
    [Frame(Data, 0)] + Frames(Data, Glyph(c).Columns()) + [Frame(Data, 0)]
  }

  /** Every character of `s` has a row in the font table. */
  predicate IsText(s: seq<char>)
  {
    forall i :: 0 <= i < |s| ==> IsRenderable(s[i])
  }

  /** What rendering `s` character by character sends. */
  function StringFrames(s: seq<char>): (r: seq<Event>)
    requires IsText(s)
    ensures |r| == 7 * |s|
  {
    if s == [] then [] else CharFrames(s[0]) + StringFrames(s[1..])
  }

  /** The position of the terminating NUL of a C string held in `s`. */
  function NulIndex(s: seq<char>): (n: nat)
    requires '\0' in s
    ensures n < |s| && s[n] == '\0'
    ensures forall j :: 0 <= j < n ==> s[j] != '\0'
  {
    if s[0] == '\0' then 0 else 1 + NulIndex(s[1..])
  }

  /** `n` zero bytes. */
  function Blank(n: nat): (r: seq<bv8>)
    ensures |r| == n
    ensures forall i :: 0 <= i < n ==> r[i] == 0
  {
    seq(n, _ => 0)
  }

  /** What `LCD_clear` sends: the whole display memory as zero bytes, then
      the cursor back to the top left corner. */
  function ClearFrames(): (r: seq<Event>)
    ensures |r| == ScreenBytes + 2
  {
    Frames(Data, Blank(ScreenBytes)) + CursorFrames(0, 0)
  }

  /** What `LCD_draw_image(img)` sends: the cursor to the top left corner,
      then the first `ScreenBytes` bytes of `img` as pixel data. */
  function ImageFrames(img: seq<bv8>): (r: seq<Event>)
    requires |img| >= ScreenBytes
    ensures |r| == ScreenBytes + 2
  {
    CursorFrames(0, 0) + Frames(Data, img[..ScreenBytes])
  }

  // ---------------------------------------------------------------------
  // The driver

  /** The host side of the display: everything the driver has sent. */
  class Driver {
    var trace: seq<Event>

    constructor ()
      ensures trace == []
    {
      trace := [];
    }

    /** `LCD_write`: one frame, tagged by the DC line, carrying `message`. */
    method Write(kind: Kind, message: bv8)
      modifies this
      ensures trace == old(trace) + [Frame(kind, message)]
    {
      trace := trace + [Frame(kind, message)];
    }

    /** `LCD_init`: RESET low, wait 10 ms, RESET high, then the six commands. */
    method Init()
      modifies this
      ensures trace == old(trace) + InitTrace()
      ensures trace == old(trace) + [ResetLine(false), Delay(10), ResetLine(true),
                                     Frame(Command, 0x21), Frame(Command, 0xAF),
                                     Frame(Command, 0x04), Frame(Command, 0x14),
                                     Frame(Command, 0x20), Frame(Command, 0x0C)]
    {
      trace := trace + [ResetLine(false)];
      trace := trace + [Delay(10)];
      trace := trace + [ResetLine(true)];
      Write(Command, 0x21);
      Write(Command, Contrast);
      Write(Command, 0x04);
      Write(Command, 0x14);
      Write(Command, 0x20);
      Write(Command, 0x0C);
    }

    /** `LCD_output_char`: the seven columns of `c`. */
    method OutputChar(c: char)
      requires IsRenderable(c)
      modifies this
      ensures trace == old(trace) + CharFrames(c)
    {
      ghost var cols := Glyph(c).Columns();
      Write(Data, 0x00);
      ghost var start := trace;
      for i := 0 to 5
        invariant trace == start + Frames(Data, cols[..i])
      {
        Write(Data, Ascii(c as int - First).Columns()[i]);
        FramesStep(start, Data, cols, i);
      }
      Write(Data, 0x00);
      PaddedFrames(old(trace), cols);
    }

    /** `LCD_set_cursor`: out-of-range positions are ignored. */
    method SetCursor(newX: bv8, newY: bv8)
      modifies this
      ensures trace == old(trace) + CursorFrames(newX, newY)
    {
      if newX > LastColumn || newY > LastBank {
        return;
      }
      Write(Command, 0x80 | (newX * 7));
      Write(Command, 0x40 | newY);
    }

    /** `LCD_clear`: zero the display memory, then home the cursor. */
    method Clear()
      modifies this
      ensures trace == old(trace) + ClearFrames()
    {
      ghost var start := trace;
      for i := 0 to ScreenBytes
        invariant trace == start + Frames(Data, Blank(ScreenBytes)[..i])
      {
        Write(Data, 0x00);
        FramesStep(start, Data, Blank(ScreenBytes), i);
      }
      SetCursor(0, 0);
    }

    /** `LCD_draw_image`: home the cursor, then send the image verbatim.  The
        image is only read. */
    method DrawImage(img: array<bv8>)
      requires img.Length >= ScreenBytes
      modifies this
      ensures trace == old(trace) + ImageFrames(img[..])
    {
      SetCursor(0, 0);
      ghost var start := trace;
      ghost var pixels := img[..];
      for i := 0 to ScreenBytes
        invariant trace == start + Frames(Data, pixels[..i])
      {
        Write(Data, img[i]);
        FramesStep(start, Data, pixels, i);
      }
    }

    /** `LCD_output_string`: every character before the terminating NUL. */
    method OutputString(s: array<char>)
      requires '\0' in s[..] && IsText(s[..NulIndex(s[..])])
      modifies this
      ensures trace == old(trace) + StringFrames(s[..NulIndex(s[..])])
    {
      ghost var text := s[..NulIndex(s[..])];
      ghost var start := trace;
      var i := 0;
      while s[i] != '\0'
        invariant i <= |text| && IsText(text[..i])
        invariant trace == start + StringFrames(text[..i])
        decreases |text| - i
      {
        assert s[i] == text[i];
        OutputChar(s[i]);
        StringFramesStep(start, text, i);
        i := i + 1;
      }
      assert text[..i] == text;
    }
  }

  /** Rendering the next character of `text` appends its seven columns. */
  lemma StringFramesStep(t: seq<Event>, text: seq<char>, i: nat)
    requires i < |text| && IsText(text)
    ensures IsText(text[..i + 1])
    ensures t + StringFrames(text[..i]) + CharFrames(text[i]) == t + StringFrames(text[..i + 1])
  {
    assert text[..i + 1] == text[..i] + [text[i]];
    StringFramesSnoc(text[..i], text[i]);
  }

  lemma TextSnoc(s: seq<char>, c: char)
    requires IsText(s) && IsRenderable(c)
    ensures IsText(s + [c])
  {
  }

  /** Rendering one more character appends its seven columns. */
  lemma {:induction false} StringFramesSnoc(s: seq<char>, c: char)
    requires IsText(s) && IsRenderable(c)
    ensures IsText(s + [c])
    ensures StringFrames(s + [c]) == StringFrames(s) + CharFrames(c)
  {
    TextSnoc(s, c);
    var t := s + [c];
    if s == [] {
      assert t[1..] == [];
    } else {
      assert t[0] == s[0] && t[1..] == s[1..] + [c];
      StringFramesSnoc(s[1..], c);
    }
  }
}
