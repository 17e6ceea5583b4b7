# Nokia 5110 display driver (PCD8544) — a Dafny model

This project models the display driver in `main.c` of a firmware for
the MSP432 LaunchPad. The driver talks to a Nokia 5110 display (PCD8544
controller, 84 x 48 pixels) over eUSCI_A3 in SPI mode. It also renders
fixed-width ASCII text with a 5 x 8 font.

The hardware is replaced by an append-only trace of events (module `Framing`):

- `Frame(kind, value)`: one byte shifted out while the DC line says COMMAND
  or DATA;
- `ResetLine(high)`: a level driven on the RESET pin;
- `Delay(ms)`: a blocking wait.

The driver is a class, `Lcd.Driver`, whose only state is that trace. Each
`LCD_*` function is a method. Each method's postcondition gives the exact
events it appends. Those events are a function of the arguments, which is the
*specification function*, for example `CharFrames` or `ClearFrames`. The
lemmas in `LcdProperties` then prove what the driver promises about those
functions:

- which bytes reach the device, and whether as commands or as pixel data;
- in what order they arrive;
- which pixel column and bank the cursor commands select, when decoded by
  the controller's basic instruction set.

Files:

- `font.dfy`: module `Font`, the 96-row glyph table `ASCII` and the lookup
  of a character's glyph.
- `framing.dfy`: module `Framing`, the event trace. It also holds `Bytes`,
  the bytes the device reads of one kind. `FramesRoundTrip` is the lemma
  that reading back a run of frames gives its bytes.
- `lcd.dfy`: module `Lcd`, the constants, the specification functions, the
  `Driver` class with `LCD_write` … `LCD_output_string`, and the lemmas
  used by the string loop.
- `lcd_properties.dfy`: module `LcdProperties`, properties of the
  specification functions.

The C arithmetic is kept as written. `0x80 | (newX*7)` is computed in `int`
and truncated to the `uint8_t` parameter of `LCD_write`. The model does this
in `bv8`, which wraps the same way. `CursorAddressing` proves that for every
accepted position the byte equals `0x80 + 7 * newX`, with no wrap-around.

The font table has 96 rows, for the codes 0x20..0x7F. Row 95 (code 0x7F)
is a "UT sign" in place of the commented-out DEL glyph, and row 94 is `~`.
The contrast byte `CON_TRAST = 0xAF` lies in the range 0xA0..0xCF that the
comment at main.c:28-30 documents.

## Model

| member | source | states |
|---|---|---|
| Font.Ascii | main.c:40-138 | the table `ASCII`: row `code - 0x20` for each code 0x20..0x7F, its rows copied from the source; its contract proves that the space (row 0) is the only row that lights no pixel |
| Font.Glyph | main.c:252 | the lookup `ASCII[data - 0x20]` for a renderable character; the space is the only renderable character that draws nothing |
| Lcd.InitTrace | main.c:226-242 | initialisation emits nine events, starting with RESET low, a 10 ms delay and RESET high (the commands are stated by `InitSequence`) |
| Lcd.ClearFrames | main.c:273-282 | clearing emits 504 + 2 frames (their contents are stated by `ClearShape`) |
| Lcd.ImageFrames | main.c:284-292 | drawing an image emits 2 + 504 frames (their contents are stated by `ImageBytes`) |
| Lcd.Driver.Write | main.c:205-224 | `LCD_write` appends exactly one frame, tagged COMMAND or DATA by the DC line, carrying `message` unchanged |
| Lcd.Driver.Init | main.c:226-242 | `LCD_init` appends RESET low, a 10 ms delay, RESET high, then the commands 0x21, 0xAF, 0x04, 0x14, 0x20, 0x0C in that order, and nothing else |
| Lcd.Driver.OutputChar | main.c:244-255 | `LCD_output_char` appends seven DATA frames: a blank column, the five columns of `ASCII[c - 0x20]` in order, a blank column |
| Lcd.Driver.SetCursor | main.c:259-269 | `LCD_set_cursor` appends nothing when `newX > 11` or `newY > 5`; otherwise it appends the column command `0x80 \| newX*7` and then the bank command `0x40 \| newY` |
| Lcd.Driver.Clear | main.c:273-282 | `LCD_clear` appends `MAX_X*MAX_Y/8` zero DATA frames, then the cursor commands for (0, 0) |
| Lcd.Driver.DrawImage | main.c:284-292 | `LCD_draw_image` homes the cursor, then appends the first `MAX_X*MAX_Y/8` bytes of the image as DATA frames, in order |
| Lcd.Driver.OutputString | main.c:294-299 | `LCD_output_string` renders every character before the first NUL, in order, and nothing after it |
| Lcd.CursorFrames | main.c:259-269 | an out-of-range position sends nothing; an accepted one sends the two commands, whose values are `0x80 + 7x` and `0x40 + y` |
| Lcd.CharFrames | main.c:244-255 | a character is rendered as exactly seven frames |
| Lcd.StringFrames | main.c:294-299 | a string of n characters is rendered as exactly 7n frames |
| Lcd.NulIndex | main.c:295 | the loop condition `*ptr` stops at the first NUL of the string: the index holds a NUL and no earlier position does |
| Lcd.StringFramesSnoc | main.c:294-299 | rendering one more character appends that character's seven frames; this is the loop step of `LCD_output_string` |
| Framing.FramesRoundTrip | main.c:213-220 | a run of frames of one kind reads back as exactly the bytes sent, and carries no byte of the other kind |
| Framing.BytesAppend | main.c:205-224 | the bytes the device reads from two traces in sequence are the bytes of the first followed by those of the second |
| LcdProperties.FontTable | main.c:40-138 | the table has one row per code 0x20..0x7F (96 rows); the space is blank, `~` is row 94 and the UT sign is row 95 (code 0x7F) |
| LcdProperties.CursorAddressing | main.c:259-269 | for an accepted (x, y), the device reads the two commands; the column byte is `0x80 + 7x` with no 8-bit wrap; the controller decodes them as pixel column 7x and bank y; a seven-column character at 7x fits in the 84 columns and bank y is one of the 6 banks of 48 rows |
| LcdProperties.InitSequence | main.c:226-242 | initialisation starts with the reset pulse; the device reads exactly the six commands 0x21, 0xAF, 0x04, 0x14, 0x20, 0x0C and no pixel data; the contrast lies in the documented range 0xA0..0xCF |
| LcdProperties.CharFramesExact | main.c:244-255 | the seven frames of a character are DATA 0x00, its five glyph columns in table order, then DATA 0x00 |
| LcdProperties.CharBytes | main.c:244-255 | read back, a character is its glyph between two zero columns, and it sends no command |
| LcdProperties.ClearShape | main.c:273-282 | clearing sends 504 frames, each DATA 0x00, then COMMAND 0x80 and COMMAND 0x40: the device reads 504 zero pixel bytes and the home position |
| LcdProperties.ImageBytes | main.c:284-292 | drawing sends COMMAND 0x80 and COMMAND 0x40, then for each i < 504 DATA `img[i]` at position i + 2: the device reads exactly the first 504 image bytes as pixels |
| LcdProperties.StringFramesAppend | main.c:294-299 | rendering a concatenation renders each part in turn |
| LcdProperties.StringFramesAt | main.c:294-299 | character i of the string occupies frames 7i..7i+6 of the rendering, so no character is dropped, repeated or reordered |
| LcdProperties.StringBytes | main.c:294-299 | a rendered string carries no command, and the device reads seven pixel bytes per character |

## Left out

- `SPI_init`, `timer_for_delay` and `main` are hardware or clock set-up
  and the demo program (`sprintf`, redraw loop). They are not part of this
  model.
- `wait_ms`: the timer busy-wait becomes the `Delay(10)` event.
- Lcd.Driver.Write: the chip-enable toggling, the busy-wait on the
  transmit-buffer flag and the discarded receive-buffer read are not
  modelled. A frame is an atomic (DC level, byte) pair: the model assumes the
  device reads each byte with the DC level set in its own call. It does not
  model when DC changes relative to the serial shift-out. `LCD_write` waits
  only for the transmit buffer to be empty (main.c:211) and then drives DC
  at once (main.c:213-218). So where the kind switches, for example from the
  last zero byte of `LCD_clear` to COMMAND 0x80, the previous byte may still
  be shifting out under the new DC level.
- Lcd.Driver.OutputChar: requires a character in 0x20..0x7F. The code does
  not check this bound and indexes outside `ASCII` for any other character.
  That is undefined behaviour in C, so the model leaves it out.
- Lcd.Driver.OutputString: requires a NUL in the buffer, with every
  character before it in 0x20..0x7F. The `(unsigned char)` cast is the
  identity on that range.
- Lcd.Driver.DrawImage: requires an image of at least 504 bytes. The code
  reads past the end of a shorter buffer.
- The device side is modelled only by `Lcd.Decode` for the two addressing
  commands. Its cursor auto-increment, row wrap-around and display memory
  are not modelled. Nor is where text beyond column 11 lands.
- That `LCD_init` ran before the other operations is not enforced. The
  code does not enforce it either.
- Repeating `LCD_clear` sends the same frames each time, because
  `ClearFrames()` does not depend on the previous trace. No separate
  idempotence lemma is stated.
