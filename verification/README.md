# I2cLcd: a verified model of the MicroPython HD44780-over-I2C driver

`liquidcrystal_i2c.py` drives a 16x2 or 20x4 character LCD. The display has an
HD44780 controller in 4-bit mode, reached through a PCF8574 I2C port expander.
Every public call of its `I2cLcd` class is a fixed sequence of single-byte bus
writes and millisecond sleeps. This project models the driver as a pure
encoder. A driver state and a call go in. The new state comes out, together
with the trace of `Write(byte)` and `Sleep(ms)` events the call performs.

The model has six modules:

- `Bus` (`bus.dfy`): events, the expander's pin layout
  `[D7 D6 D5 D4][BL][E][RW][RS]`, and facts about the bytes and sleeps of a
  trace.
- `Hd44780` (`hd44780.dfy`): an independent model of the receiving
  controller. It latches D7..D4 and RS on every falling edge of E, then pairs
  nibbles into `Transfer(rs, value)`, high nibble first. This is the
  reference that the driver's traces are checked against.
- `Bytes` (`bytes.dfy`): small facts about eight-bit values read as numbers.
- `LiquidCrystal` (`liquidcrystal.dfy`): the driver's state, constants,
  private helpers (`_write_byte`, `_toggle_enable`, `_write4bits`, `_send`,
  `_command`), public operations and constructor.
- `Session` (`session.dfy`): a sequence of public calls applied in order.
  The first failing call stops the sequence, just as a raised exception
  stops the caller.
- `Demo` (`demo.dfy`): the call sequence of `main.py`.

Python integers are unbounded, and `_send` splits whatever integer it is
given with the masks `data & 0xF0` and `(data << 4) & 0xF0`
(`liquidcrystal_i2c.py:66-67`). Only the low eight bits of the integer
survive those masks, so every byte handed to `bytes([...])` lies in
0..0xFD. The model takes the low byte first, with `LowByte` (two's
complement, so also for negative values), and then applies the masks to
that byte. `NibblesOfInteger` proves that the result equals the masks
applied to the integer itself, and `CursorNibbles` proves the same for the
address `set_cursor` builds. So a code point above 255, a negative column
or a column that runs past the DDRAM address range is modelled exactly as
the driver sends it.

`set_cursor` (`liquidcrystal_i2c.py:93-97`) behaves as follows, and the
model keeps every case:

- The row is clamped to `num_lines - 1` only when it is strictly greater
  than `num_lines`. A row equal to `num_lines` is used as given. Findings
  records this.
- The row then indexes a four-entry Python list, so an effective row
  outside `-4..3` raises `IndexError` before anything is written. The model
  returns this as `Err(RowIndexOutOfRange(row))`.
- A negative effective row reads the table from its end, as Python list
  indexing does. A negative row can come from the caller, or from the clamp
  when `num_lines` is 0 or less. `SetCursor`'s contract states exactly which
  rows succeed.

## Model

| member | source | states |
|---|---|---|
| `LiquidCrystal.LowByteOfValue` | liquidcrystal_i2c.py:78-79 | a character whose code point is a byte value is sent as exactly that byte |
| `LiquidCrystal.WriteByte` | liquidcrystal_i2c.py:55-56 | `_write_byte` performs exactly one bus write |
| `LiquidCrystal.WriteByteBits` | liquidcrystal_i2c.py:55-56 | the written byte keeps every bit of `data` other than the backlight bit, and has the backlight bit set whenever the backlight is on |
| `LiquidCrystal.ToggleEnable` | liquidcrystal_i2c.py:58-63 | the enable pulse is five events |
| `LiquidCrystal.ToggleEnableShape` | liquidcrystal_i2c.py:58-63 | the pulse is 1 ms sleep, a write with E high, 1 ms sleep, a write with E low, 1 ms sleep; both writes carry the other bits of `data` unchanged |
| `LiquidCrystal.Write4Bits` | liquidcrystal_i2c.py:71-73 | a nibble strobe is six events |
| `LiquidCrystal.Write4BitsShape` | liquidcrystal_i2c.py:71-73 | the six events of a strobe, in order, with the backlight bit OR'd into each byte; only the middle write has E set |
| `LiquidCrystal.Write4BitsLatches` | liquidcrystal_i2c.py:71-73 | a strobe makes the controller latch the nibble and RS exactly once, and leaves E low |
| `LiquidCrystal.Send` | liquidcrystal_i2c.py:65-69 | a full byte is sent as twelve events |
| `LiquidCrystal.TwoStrobes` | liquidcrystal_i2c.py:68-69 | two strobes in a row latch both nibbles in order and leave E low |
| `LiquidCrystal.SendWrites` | liquidcrystal_i2c.py:65-69 | the six bytes of a transfer: the strobe of the high nibble, then the strobe of the low nibble, each with the register bit |
| `LiquidCrystal.SendLatched` | liquidcrystal_i2c.py:65-69 | the controller latches `data & 0xF0` and then `(data << 4) & 0xF0`, each with the register bit |
| `LiquidCrystal.SendBits` | liquidcrystal_i2c.py:65-69 | every byte of a transfer has the state's backlight bit, RS set exactly for the data register, and RW low |
| `LiquidCrystal.SendNibbles` | liquidcrystal_i2c.py:66-67 | the data lines of the first and fourth bytes recombine into the payload, so the split loses nothing |
| `LiquidCrystal.SendReceived` | liquidcrystal_i2c.py:65-69 | the controller receives exactly the payload, in the chosen register, and is left between transfers |
| `LiquidCrystal.NibblesOfInteger` | liquidcrystal_i2c.py:66-67 | the nibbles of the low byte equal `n & 0xF0` and `(n << 4) & 0xF0` of the unbounded integer |
| `LiquidCrystal.Command` | liquidcrystal_i2c.py:75-76 | a command is one full transfer |
| `LiquidCrystal.CommandReceived` | liquidcrystal_i2c.py:75-76 | a command reaches the instruction register unchanged, with RS and RW low and the backlight bit of the state in every byte |
| `LiquidCrystal.WriteChar` | liquidcrystal_i2c.py:78-79 | writing a character leaves the state alone and takes twelve events |
| `LiquidCrystal.WriteCharReceived` | liquidcrystal_i2c.py:78-79 | the data register receives the low byte of the code point; RS is set in every write |
| `LiquidCrystal.WriteString` | liquidcrystal_i2c.py:81-83 | a string leaves the state alone and takes twelve events per character |
| `LiquidCrystal.WriteStringAppend` | liquidcrystal_i2c.py:81-83 | writing a concatenation is writing its parts one after the other |
| `LiquidCrystal.WriteStringReceived` | liquidcrystal_i2c.py:81-83 | the controller receives one data transfer per character, in order |
| `LiquidCrystal.WriteStringWrites` | liquidcrystal_i2c.py:81-83 | a string makes six bus writes per character, and a one-character string is exactly `write_char` |
| `LiquidCrystal.WriteStringBits` | liquidcrystal_i2c.py:81-83 | every byte of a string has RS set, RW clear and the state's backlight bit |
| `LiquidCrystal.SlowCommand` | liquidcrystal_i2c.py:85-87 | a command followed by a 2 ms sleep |
| `LiquidCrystal.SlowCommandReceived` | liquidcrystal_i2c.py:85-87 | the sleep adds no transfer: the controller receives the one instruction |
| `LiquidCrystal.Clear` | liquidcrystal_i2c.py:85-87 | `clear` leaves the state alone, delivers instruction 0x01 and ends with the 2 ms sleep |
| `LiquidCrystal.Home` | liquidcrystal_i2c.py:89-91 | `home` leaves the state alone, delivers instruction 0x02 and ends with the 2 ms sleep |
| `LiquidCrystal.SetCursor` | liquidcrystal_i2c.py:93-97 | `set_cursor` succeeds exactly when the clamped row indexes the 4-entry table (negative indices from the end); otherwise it fails with that row; on success the state is unchanged and one command is sent |
| `LiquidCrystal.SetCursorInRange` | liquidcrystal_i2c.py:93-97 | a row from 0 to the line count (and below 4) is used as given; the controller receives set-DDRAM for the column plus that row's offset |
| `LiquidCrystal.SetCursorClamped` | liquidcrystal_i2c.py:95-97 | on a display of one to four lines, a row strictly beyond the line count goes to the last line |
| `LiquidCrystal.SetCursorAddress` | liquidcrystal_i2c.py:94-97 | for an address below 0x80 the command byte is 0x80 plus column plus row offset; the column is never clamped |
| `LiquidCrystal.CursorNibbles` | liquidcrystal_i2c.py:66-67 | for the address `x = col + offset` that `set_cursor` passes to `_send`, the two nibbles sent are the masks `& 0xF0` and `(<< 4) & 0xF0` of the unbounded integer `0x80` OR `x`: bit 7 with bits 6..4 of `x`, then bits 3..0 of `x` |
| `LiquidCrystal.SetCursorBits` | liquidcrystal_i2c.py:93-97 | any successful cursor move keeps RS and RW low and carries the backlight bit |
| `LiquidCrystal.SetCursorReceived` | liquidcrystal_i2c.py:93-97 | any successful cursor move delivers exactly the set-DDRAM command for the effective row |
| `LiquidCrystal.SetCursorIntended` | liquidcrystal_i2c.py:95-96 | with the clamp at `row >= num_lines`, a non-negative row on a display of one to four lines never fails |
| `LiquidCrystal.SetCursorIntendedStaysOnDisplay` | liquidcrystal_i2c.py:93-97 | with the corrected clamp, the row used is the requested one when it exists and the last line otherwise |
| `LiquidCrystal.SetCursorIntendedAgrees` | liquidcrystal_i2c.py:95-96 | the corrected and the written clamp agree on every row except `row == num_lines` |
| `LiquidCrystal.SetCursorFourLineOverflow` | liquidcrystal_i2c.py:95-97 | as written, row 4 on a four-line display fails with an index error; corrected, it succeeds |
| `LiquidCrystal.SetCursorTwoLineOverflow` | liquidcrystal_i2c.py:94-97 | as written, column 0 of row 2 on a two-line display sends 0x94 (third-row DDRAM 0x14); corrected, it sends 0xC0 (second row) |
| `LiquidCrystal.BacklightOn` | liquidcrystal_i2c.py:99-101 | `backlight_on` sets the flag and writes the single byte 0x08 |
| `LiquidCrystal.BacklightOff` | liquidcrystal_i2c.py:103-105 | `backlight_off` clears the flag and writes the single byte 0x00 |
| `LiquidCrystal.BacklightWriteSilent` | liquidcrystal_i2c.py:99-105 | the backlight write does not toggle E, so the controller receives nothing from it |
| `LiquidCrystal.ResetSequence` | liquidcrystal_i2c.py:108-113 | the reset phase is twenty-one events |
| `LiquidCrystal.ResetLatched` | liquidcrystal_i2c.py:108-113 | the reset phase writes three strobes and latches the nibbles 0x3, 0x3, 0x2 with RS low, leaving E low |
| `LiquidCrystal.ResetDelay` | liquidcrystal_i2c.py:108-113 | the reset phase sleeps 65 ms in all |
| `LiquidCrystal.ConfigureSequence` | liquidcrystal_i2c.py:115-119 | the configure phase is forty-nine events |
| `LiquidCrystal.ConfigureWrites` | liquidcrystal_i2c.py:115-118 | the configure phase writes the bytes of commands 0x28, 0x0C, 0x01, 0x06, in that order |
| `LiquidCrystal.ConfigureLatched` | liquidcrystal_i2c.py:115-118 | the configure phase latches the eight nibbles of those commands and leaves E low |
| `LiquidCrystal.ConfigureReceived` | liquidcrystal_i2c.py:115-119 | the configure phase delivers function set (4-bit, two lines, 5x8), display on, clear and entry mode left, and nothing else |
| `LiquidCrystal.ConfigureDelay` | liquidcrystal_i2c.py:115-119 | the configure phase sleeps 26 ms in all |
| `LiquidCrystal.New` | liquidcrystal_i2c.py:46-53 | the constructor stores the address and geometry, turns the backlight on, and runs seventy events from the 50 ms wait to the final 2 ms wait |
| `LiquidCrystal.NewWrites` | liquidcrystal_i2c.py:107-119 | construction writes exactly 33 bytes, listed one by one |
| `LiquidCrystal.NewReceived` | liquidcrystal_i2c.py:107-119 | construction latches 0x3, 0x3, 0x2 and then the four set-up instructions, ends idle, and sleeps 91 ms |
| `LiquidCrystal.NewBits` | liquidcrystal_i2c.py:51-53 | the backlight is on before the first write, so every construction byte has bit 0x08 set; RS and RW stay low |
| `Session.Apply` | liquidcrystal_i2c.py:78-105 | only `set_cursor` can fail; for a non-negative row on a display of one to four lines it fails exactly for row 4 of four lines; the other calls leave the state alone, except the backlight calls, which set the flag |
| `Session.ApplyKeepsWrittenClamp` | liquidcrystal_i2c.py:95-97 | a call to `set_cursor` uses the clamp as written: column 0 of row 4 on four lines raises the index error, and column 0 of row 2 on two lines sends 0x94 |
| `Session.ApplyBits` | liquidcrystal_i2c.py:55-56 | every byte of a call carries the backlight flag as it stands after the call; RW is never set; the controller is left between transfers |
| `Session.Run` | main.py:10-14 | a call sequence keeps the address and geometry, and without backlight calls it leaves the state unchanged |
| `Session.RunCompletes` | main.py:10-14 | calls that each succeed on the starting state, none touching the backlight, run to completion |
| `Session.RunFramed` | liquidcrystal_i2c.py:65-73 | across any call sequence RW stays low and no transfer is left half sent |
| `Session.StaysLit` | liquidcrystal_i2c.py:55-56 | while the backlight is on and nothing turns it off, every byte has bit 0x08 set |
| `Session.StaysDark` | liquidcrystal_i2c.py:55-56 | while the backlight is off and nothing turns it on, every byte has bit 0x08 clear |
| `Session.BacklightOnPersists` | liquidcrystal_i2c.py:99-101 | after `backlight_on`, every byte has bit 0x08 set until `backlight_off` |
| `Session.BacklightOffPersists` | liquidcrystal_i2c.py:103-105 | after `backlight_off`, every byte has bit 0x08 clear until `backlight_on` |
| `Session.BacklightUntouched` | liquidcrystal_i2c.py:55-56 | calls that do not touch the backlight write the state's backlight bit in every byte and leave the state as it was |
| `Session.BacklightIdempotent` | liquidcrystal_i2c.py:99-105 | turning the backlight on (or off) twice gives the same state as once |
| `Session.ApplyReceived` | liquidcrystal_i2c.py:78-105 | each successful call delivers exactly its intended transfers: one data transfer per character, one instruction per command (for `set_cursor`, the DDRAM address of the row the `row > num_lines` clamp picks), none for the backlight |
| `Session.RunReceived` | liquidcrystal_i2c.py:78-105 | a call sequence that runs to completion delivers the intended transfers of all its calls, in order |
| `Demo.HelloBytes` | main.py:12 | "Hello" is sent as the ASCII codes 0x48 0x65 0x6C 0x6C 0x6F |
| `Demo.SecondLineBytes` | main.py:14 | "ESP32 + LCD" is sent as its eleven ASCII codes |
| `Demo.IntendedScript` | main.py:10-14 | on two lines, the script means clear, DDRAM 0x00, "Hello", DDRAM 0x40, "ESP32 + LCD" |
| `Demo.ScriptRuns` | main.py:10-14 | on any two-line state the script runs to completion, leaves the state alone, and delivers exactly those transfers, every byte with the state's backlight bit |
| `Demo.MainProgram` | main.py:8-14 | for any address and column count, the whole program latches the reset nibbles, then the four set-up instructions and the script's transfers, every byte with the backlight on |

## Left out

- The I2C transport (`i2c.writeto`) is not modelled as a device. Each call becomes a `Write(byte)` event, and the address is stored but never used.
- Transport failures (a missing device, a NACK) are left out. They come from the bus and would propagate unchanged; the driver adds no handling of its own.
- `sleep_ms` is not modelled as a clock. Each call becomes a `Sleep(ms)` event, and `Delay` adds the events up.
- The I2C handle itself is not part of the state. The driver only borrows it.
- `num_columns` is stored, as in the driver, but nothing reads it.
- The constants `LCD_SHIFT`, `LCD_SET_CGRAM`, `LCD_CURSOR_ON` and `LCD_BLINK_ON` are left out, because the driver defines them but never uses them.
- Arguments of the wrong Python type (a non-integer column, a string of length other than one for `write_char`) are left out. They raise `TypeError` in Python; the model's types exclude them.
- The receiver model assumes the pins start with E low. The controller's state before power-on is not modelled.
- The receiver model reads the three reset nibbles as nibbles. How an HD44780 that powered up in 8-bit mode interprets them is left out; `NewReceived` states what is latched, not what the controller does with it.
- `LiquidCrystal.WriteByte`: its own contract gives only that it is one write. The byte's bits are stated by `WriteByteBits`.
- `LiquidCrystal.ToggleEnable`: its own contract gives only the event count. The bytes and sleeps are stated by `ToggleEnableShape`.
- `LiquidCrystal.Write4Bits`: its own contract gives only the event count. The events and what they latch are stated by `Write4BitsShape` and `Write4BitsLatches`.
- `LiquidCrystal.Send`: its own contract gives only the event count. The bytes, bits, latched nibbles and the transfer are stated by `SendWrites`, `SendBits`, `SendLatched` and `SendReceived`.
- `LiquidCrystal.Command`: its own contract gives only the event count. The transfer and bits are stated by `CommandReceived`.
- `LiquidCrystal.SlowCommand`: its own contract gives only the trace shape. The transfer is stated by `SlowCommandReceived`.
- `LiquidCrystal.ResetSequence`: its own contract gives only the event count. What is latched and the total delay are stated by `ResetLatched` and `ResetDelay`.
- `LiquidCrystal.ConfigureSequence`: its own contract gives only the event count. The bytes, transfers and total delay are stated by `ConfigureWrites`, `ConfigureReceived` and `ConfigureDelay`.
- `LiquidCrystal.New`: its own contract gives only the state and the first and last sleeps. The full byte sequence and transfers are stated by `NewWrites` and `NewReceived`.
- `LiquidCrystal.New`: it takes the line and column counts as arguments. There is no separate form for the constructor's defaults `num_lines=2` and `num_columns=16` (`liquidcrystal_i2c.py:46`); a caller passes 2 and 16.
- `LiquidCrystal.WriteChar`: its own contract gives only the unchanged state and the trace length. What the controller receives is stated by `WriteCharReceived`.
- `LiquidCrystal.WriteString`: its own contract gives only the unchanged state and the trace length. What the controller receives is stated by `WriteStringReceived`.
- `Session.Run`: a failing `set_cursor` is recorded with an empty trace. In the driver the exception is raised before any bus write, so nothing is lost.

## Findings

| source | as written | input that shows it | evidently intended | confidence | as-written member | corrected member |
|---|---|---|---|---|---|---|
| liquidcrystal_i2c.py:95-97 | the clamp in `set_cursor` fires only when `row > num_lines` | `num_lines = 4`, `row = 4` raises `IndexError` on the 4-entry table; `num_lines = 2`, `row = 2` goes to DDRAM 0x14 (0x94), the third row, instead of the second | clamp when `row >= num_lines`, so every row at or beyond the line count goes to the last line | not executed | `LiquidCrystal.SetCursorFourLineOverflow` | `LiquidCrystal.SetCursorIntendedStaysOnDisplay` |

`LiquidCrystal.SetCursorTwoLineOverflow` shows the two-line case for both
clamps. `LiquidCrystal.SetCursorIntendedAgrees` proves that the two clamps
differ only when `row == num_lines`. `LiquidCrystal.SetCursor`, and with it
`Session` and `Demo`, keeps the clamp as written; the corrected clamp lives
only in `LiquidCrystal.SetCursorIntended` and the lemmas about it.
`main.py` only uses rows 0 and 1 on a two-line display, where the two
clamps agree.
