/** The I2cLcd driver of liquidcrystal_i2c.py as a pure encoder: driver state
    and a logical operation go in, the new state and the trace of bus events
    the operation performs come out. */
module LiquidCrystal {
  import opened Bus
  import opened Hd44780
  import opened Bytes

  // HD44780 instructions
  const CMD_CLEAR: bv8 := 0x01
  const CMD_HOME: bv8 := 0x02
  const CMD_ENTRY_MODE: bv8 := 0x04
  const CMD_DISPLAY_CONTROL: bv8 := 0x08
  const CMD_FUNCTION_SET: bv8 := 0x20
  const CMD_SET_DDRAM: bv8 := 0x80

  // Entry mode flags
  const ENTRY_LEFT: bv8 := 0x02
  const ENTRY_SHIFT_DECREMENT: bv8 := 0x00

  // Display control flags
  const DISPLAY_ON: bv8 := 0x04

  // Function set flags
  const FOUR_BIT_MODE: bv8 := 0x00
  const TWO_LINE: bv8 := 0x08
  const FONT_5X8: bv8 := 0x00

  /** DDRAM address of the first cell of each display row. */
  const ROW_OFFSETS: seq<int> := [0x00, 0x40, 0x14, 0x54]

  /** Which controller register a byte is sent to. */
  datatype Mode = Instruction | Data

  function ModeBit(m: Mode): bv8
  {
    if m == Data then RS else 0
  }

  /** The driver's state. The I2C handle is not modelled; the address and the
      column count are kept only because the driver stores them. */
  datatype State = State(address: int, numLines: int, numColumns: int, backlight: bool)

  /** The backlight bit OR'd into every byte the driver writes. */
  function BacklightBit(s: State): bv8
  {
    if s.backlight then BL else 0
  }

  /** The state after an operation and the events it performed. */
  datatype Step = Step(state: State, trace: seq<Event>)

  /** The one failure the driver raises itself: a row index outside the
      offset table. */
  datatype LcdError = RowIndexOutOfRange(row: int)

  datatype Result<T> = Ok(value: T) | Err(error: LcdError)

  /** The low eight bits of an integer, as two's complement gives them (so
      also for negative integers). */
  function LowByte(n: int): bv8
  {
    (n % 256) as bv8
  }

  /** The low byte, read back as a number, is the integer modulo 256. */
  lemma LowByteValue(n: int)
    ensures LowByte(n) as int == n % 256
  {
    ByteRoundTrip(n % 256);
  }

  /** A byte's own value is sent as that byte. */
  lemma LowByteOfValue(n: int, b: bv8)
    requires n == b as int
    ensures LowByte(n) == b
  {
    ValueRoundTrip(b);
    assert n % 256 == n;
  }


  /** Data transfers one per character, as the controller should receive them. */
  function CharTransfers(str: string): (ts: seq<Transfer>)
    ensures |ts| == |str|
  {
    seq(|str|, i requires 0 <= i < |str| => Transfer(true, LowByte(str[i] as int)))
  }

  // ---------------------------------------------------------------------
  // Bus primitives

  /** One byte onto the expander pins, with the current backlight bit OR'd in. */
  function WriteByte(s: State, data: bv8): (t: seq<Event>)
    ensures |t| == 1 && t[0].Write?
  {
    [Write(data | BacklightBit(s))]
  }

  /** The written byte passes every bit of `data` through and forces the
      backlight bit on while the backlight is on. */
  lemma WriteByteBits(s: State, data: bv8)
    ensures var b := WriteByte(s, data)[0].b;
      && b & !BL == data & !BL
      && (data & BL == 0 ==> b & BL == BacklightBit(s))
      && (s.backlight ==> b & BL == BL)
  {
  }

  /** Pulses E high then low around the byte already on the pins. */
  function ToggleEnable(s: State, data: bv8): (t: seq<Event>)
    ensures |t| == 5
  {
    [Sleep(1)] + WriteByte(s, data | EN) + [Sleep(1)] + WriteByte(s, data & !EN) + [Sleep(1)]
  }

  /** The pulse: 1 ms, E high, 1 ms, E low, 1 ms; the other bits are those of
      `data` (backlight aside). */
  lemma ToggleEnableShape(s: State, data: bv8)
    ensures var t := ToggleEnable(s, data);
      && t[0] == t[2] == t[4] == Sleep(1)
      && t[1].Write? && t[1].b & EN == EN && t[1].b & !(EN | BL) == data & !(EN | BL)
      && t[3].Write? && t[3].b & EN == 0 && t[3].b & !(EN | BL) == data & !(EN | BL)
  {
  }

  /** Puts one nibble (already in bits 7..4, control bits in 3..0) on the
      pins and strobes it in. */
  function Write4Bits(s: State, data: bv8): (t: seq<Event>)
    ensures |t| == 6
  {
    WriteByte(s, data) + ToggleEnable(s, data)
  }

  /** The six events of a nibble strobe: the byte, then E high, then E low,
      each write followed by a 1 ms sleep. Only the middle write has E set
      when `data` does not. */
  lemma Write4BitsShape(s: State, data: bv8)
    ensures Write4Bits(s, data)
         == [Write(data | BacklightBit(s)), Sleep(1),
             Write(data | EN | BacklightBit(s)), Sleep(1),
             Write((data & !EN) | BacklightBit(s)), Sleep(1)]
    ensures data & EN == 0 ==>
              var t := Write4Bits(s, data);
              t[0].b & EN == 0 && t[2].b & EN == EN && t[4].b & EN == 0
  {
  }

  /** The three bytes of one strobe of `data`. */
  function StrobeBytes(s: State, data: bv8): seq<bv8>
  {
    [data | BacklightBit(s), data | EN | BacklightBit(s), data | BacklightBit(s)]
  }

  /** A nibble strobe makes the controller latch `data` (its data lines and
      RS) exactly once, and leaves E low. */
  lemma Write4BitsLatches(s: State, data: bv8)
    requires data & EN == 0
    ensures Writes(Write4Bits(s, data)) == StrobeBytes(s, data)
    ensures Latched(Write4Bits(s, data)) == [data & (DATA_LINES | RS)]
    ensures EndsIdle(Write4Bits(s, data))
  {
    var t := Write4Bits(s, data);
    var d := data | BacklightBit(s);
    Write4BitsShape(s, data);
    assert data & !EN == data;
    StrobeWrites(t, d, data | EN | BacklightBit(s), d);
    LatchStrobe(d, data | EN | BacklightBit(s), d);
  }

  /** What the controller latches from the three bytes of one strobe. */
  lemma LatchStrobe(x: bv8, y: bv8, z: bv8)
    ensures Latch(0, [x, y, z]) == Edge(0, x) + Edge(x, y) + Edge(y, z)
  {
    LatchCons(y, z, []);
    assert [z] + [] == [z];
    LatchCons(x, y, [z]);
    assert [y] + [z] == [y, z];
    LatchCons(0, x, [y, z]);
    assert [x] + [y, z] == [x, y, z];
  }

  // ---------------------------------------------------------------------
  // Full bytes

  /** Bits 7..4 of a byte, on the data lines. */
  function High(data: bv8): bv8
  {
    data & 0xF0
  }

  /** Bits 3..0 of a byte, moved onto the data lines. */
  function Low(data: bv8): bv8
  {
    (data << 4) & 0xF0
  }

  /** Sends a full byte to the controller as two nibbles, high nibble first,
      with RS set for the data register. */
  function Send(s: State, data: bv8, mode: Mode): (t: seq<Event>)
    ensures |t| == 12
  {
    TwoNibbles(s, High(data) | ModeBit(mode), Low(data) | ModeBit(mode))
  }

  /** Two nibble strobes in a row. */
  function TwoNibbles(s: State, first: bv8, second: bv8): seq<Event>
  {
    Write4Bits(s, first) + Write4Bits(s, second)
  }

  /** Two nibble strobes in a row latch both nibbles, in order. */
  lemma TwoStrobes(s: State, first: bv8, second: bv8)
    requires first & !(DATA_LINES | RS) == 0 && second & !(DATA_LINES | RS) == 0
    ensures Writes(TwoNibbles(s, first, second)) == StrobeBytes(s, first) + StrobeBytes(s, second)
    ensures Latched(TwoNibbles(s, first, second)) == [first, second]
    ensures EndsIdle(TwoNibbles(s, first, second))
  {
    Write4BitsLatches(s, first);
    Write4BitsLatches(s, second);
    Follow(Write4Bits(s, first), Write4Bits(s, second));
  }

  /** The six bytes of a transfer. */
  lemma SendWrites(s: State, data: bv8, mode: Mode)
    ensures Writes(Send(s, data, mode))
         == StrobeBytes(s, High(data) | ModeBit(mode)) + StrobeBytes(s, Low(data) | ModeBit(mode))
  {
    TwoStrobes(s, High(data) | ModeBit(mode), Low(data) | ModeBit(mode));
  }

  /** The two nibbles the controller latches from a transfer; E is left low. */
  lemma SendLatched(s: State, data: bv8, mode: Mode)
    ensures Latched(Send(s, data, mode)) == [High(data) | ModeBit(mode), Low(data) | ModeBit(mode)]
    ensures EndsIdle(Send(s, data, mode))
  {
    TwoStrobes(s, High(data) | ModeBit(mode), Low(data) | ModeBit(mode));
  }

  /** Every byte of a transfer carries the backlight bit, RS for its register,
      and RW low. */
  lemma SendBits(s: State, data: bv8, mode: Mode)
    ensures Carries(Send(s, data, mode), BL, BacklightBit(s))
    ensures Carries(Send(s, data, mode), RS, ModeBit(mode))
    ensures Carries(Send(s, data, mode), RW, 0)
  {
    SendWrites(s, data, mode);
    var w := Writes(Send(s, data, mode));
    forall j | 0 <= j < 6
      ensures Has(w[j], BL, BacklightBit(s)) && Has(w[j], RS, ModeBit(mode)) && Has(w[j], RW, 0)
    {
    }
  }

  /** The data lines of the first and fourth bytes recombine into the payload. */
  lemma SendNibbles(s: State, data: bv8, mode: Mode)
    ensures var w := Writes(Send(s, data, mode));
      |w| == 6 && (w[0] & DATA_LINES) | (w[3] >> 4) == data
  {
    SendWrites(s, data, mode);
  }

  /** The controller receives exactly the payload, in the chosen register. */
  lemma SendReceived(s: State, data: bv8, mode: Mode)
    ensures Framed(Send(s, data, mode))
    ensures Received(Send(s, data, mode)) == [Transfer(mode == Data, data)]
  {
    SendLatched(s, data, mode);
    PairOfTwo(High(data) | ModeBit(mode), Low(data) | ModeBit(mode));
  }

  /** Two nibbles make one transfer. */
  lemma PairOfTwo(x: bv8, y: bv8)
    ensures Pair([x, y]) == [Transfer(x & RS != 0, (x & DATA_LINES) | (y >> 4))]
  {
    assert [x, y][2..] == [];
  }

  /** `High` and `Low` of the low byte are `data & 0xF0` and
      `(data << 4) & 0xF0` of the integer itself, read as two's complement. */
  lemma NibblesOfInteger(n: int)
    ensures High(LowByte(n)) as int == n % 256 - n % 16
    ensures Low(LowByte(n)) as int == (n % 16) * 16
  {
    var b := LowByte(n);
    LowByteValue(n);
    LowNibble(b);
    ModOfMod(n);
  }


  lemma LowNibble(b: bv8)
    ensures (b & 0x0F) as int == b as int % 16
    ensures High(b) as int == b as int - (b & 0x0F) as int
    ensures Low(b) as int == (b & 0x0F) as int * 16
  {
  }

  // ---------------------------------------------------------------------
  // Public operations

  /** A byte to the instruction register. */
  function Command(s: State, cmd: bv8): (t: seq<Event>)
    ensures |t| == 12
  {
    Send(s, cmd, Instruction)
  }

  /** A command reaches the instruction register unchanged, with RS and RW
      low and the backlight bit of the state in every byte. */
  lemma CommandReceived(s: State, cmd: bv8)
    ensures Framed(Command(s, cmd))
    ensures Received(Command(s, cmd)) == [Transfer(false, cmd)]
    ensures Carries(Command(s, cmd), RS, 0)
    ensures Carries(Command(s, cmd), RW, 0)
    ensures Carries(Command(s, cmd), BL, BacklightBit(s))
  {
    SendReceived(s, cmd, Instruction);
    SendBits(s, cmd, Instruction);
  }

  /** A character to the data register: its code point, of which only the
      low eight bits reach the bus. */
  function WriteChar(s: State, c: char): (r: Step)
    ensures r.state == s && |r.trace| == 12
  {
    Step(s, Send(s, LowByte(c as int), Data))
  }

  /** The data register receives the low byte of the code point; RS is set
      in all six writes and RW in none. */
  lemma WriteCharReceived(s: State, c: char)
    ensures Framed(WriteChar(s, c).trace)
    ensures Received(WriteChar(s, c).trace) == [Transfer(true, LowByte(c as int))]
    ensures Carries(WriteChar(s, c).trace, RS, RS)
    ensures Carries(WriteChar(s, c).trace, RW, 0)
    ensures Carries(WriteChar(s, c).trace, BL, BacklightBit(s))
  {
    SendReceived(s, LowByte(c as int), Data);
    SendBits(s, LowByte(c as int), Data);
  }

  /** Each character of `str` in turn. */
  function WriteString(s: State, str: string): (r: Step)
    ensures r.state == s
    ensures |r.trace| == 12 * |str|
    decreases |str|
  {
    if str == [] then Step(s, [])
    else Step(s, WriteChar(s, str[0]).trace + WriteString(s, str[1..]).trace)
  }

  /** Writing a concatenation is writing its parts one after the other. */
  lemma {:induction false} WriteStringAppend(s: State, a: string, b: string)
    ensures WriteString(s, a + b).trace == WriteString(s, a).trace + WriteString(s, b).trace
    decreases |a|
  {
    if a == [] {
      assert a + b == b;
    } else {
      assert (a + b)[0] == a[0];
      assert (a + b)[1..] == a[1..] + b;
      WriteStringAppend(s, a[1..], b);
    }
  }

  /** The controller receives the characters' low bytes in order, all in the
      data register. */
  lemma {:induction false} WriteStringReceived(s: State, str: string)
    ensures Framed(WriteString(s, str).trace)
    ensures Received(WriteString(s, str).trace) == CharTransfers(str)
    decreases |str|
  {
    if str != [] {
      var head := WriteChar(s, str[0]).trace;
      var rest := WriteString(s, str[1..]).trace;
      WriteCharReceived(s, str[0]);
      WriteStringReceived(s, str[1..]);
      ReceivedAppend(head, rest);
      assert CharTransfers(str) == [Transfer(true, LowByte(str[0] as int))] + CharTransfers(str[1..]);
    }
  }

  /** Every byte of a string has RS set, RW clear and the state's backlight bit. */
  lemma {:induction false} WriteStringBits(s: State, str: string)
    ensures Carries(WriteString(s, str).trace, RS, RS)
    ensures Carries(WriteString(s, str).trace, RW, 0)
    ensures Carries(WriteString(s, str).trace, BL, BacklightBit(s))
    decreases |str|
  {
    if str != [] {
      var head := WriteChar(s, str[0]).trace;
      var rest := WriteString(s, str[1..]).trace;
      WriteCharReceived(s, str[0]);
      WriteStringBits(s, str[1..]);
      CarriesAppend(head, rest, RS, RS);
      CarriesAppend(head, rest, RW, 0);
      CarriesAppend(head, rest, BL, BacklightBit(s));
    }
  }

  /** Six bus writes per character, and a one-character string is exactly
      `write_char`. */
  lemma {:induction false} WriteStringWrites(s: State, str: string)
    ensures |Writes(WriteString(s, str).trace)| == 6 * |str|
    ensures |str| == 1 ==> WriteString(s, str).trace == WriteChar(s, str[0]).trace
    decreases |str|
  {
    if str != [] {
      var head := WriteChar(s, str[0]).trace;
      var rest := WriteString(s, str[1..]).trace;
      SendWrites(s, LowByte(str[0] as int), Data);
      WriteStringWrites(s, str[1..]);
      WritesAppend(head, rest);
      if |str| == 1 {
        assert str[1..] == [];
        assert head + [] == head;
      }
    }
  }

  /** A command followed by the 2 ms the controller needs to execute it. */
  function SlowCommand(s: State, cmd: bv8): (t: seq<Event>)
    ensures |t| == 13 && t[12] == Sleep(2)
  {
    Command(s, cmd) + [Sleep(2)]
  }

  lemma SlowCommandReceived(s: State, cmd: bv8)
    ensures Framed(SlowCommand(s, cmd))
    ensures Received(SlowCommand(s, cmd)) == [Transfer(false, cmd)]
    ensures Carries(SlowCommand(s, cmd), RS, 0)
    ensures Carries(SlowCommand(s, cmd), RW, 0)
    ensures Carries(SlowCommand(s, cmd), BL, BacklightBit(s))
  {
    var pause: seq<Event> := [Sleep(2)];
    assert Writes(pause) == [] by {
      WritesCons(Sleep(2), []);
      assert [Sleep(2)] + [] == pause;
    }
    CommandReceived(s, cmd);
    ReceivedAppend(Command(s, cmd), pause);
    CarriesAppend(Command(s, cmd), pause, RS, 0);
    CarriesAppend(Command(s, cmd), pause, RW, 0);
    CarriesAppend(Command(s, cmd), pause, BL, BacklightBit(s));
  }

  /** Clears the display and returns the cursor to the origin. */
  function Clear(s: State): (r: Step)
    ensures r.state == s
    ensures Received(r.trace) == [Transfer(false, CMD_CLEAR)]
    ensures r.trace[|r.trace| - 1] == Sleep(2)
  {
    SlowCommandReceived(s, CMD_CLEAR);
    Step(s, SlowCommand(s, CMD_CLEAR))
  }

  /** Returns the cursor to the origin without erasing. */
  function Home(s: State): (r: Step)
    ensures r.state == s
    ensures Received(r.trace) == [Transfer(false, CMD_HOME)]
    ensures r.trace[|r.trace| - 1] == Sleep(2)
  {
    SlowCommandReceived(s, CMD_HOME);
    Step(s, SlowCommand(s, CMD_HOME))
  }

  /** The row actually used: a row strictly beyond the line count becomes
      the last line. */
  function EffectiveRow(numLines: int, row: int): int
  {
    if row > numLines then numLines - 1 else row
  }

  /** Whether a list index is accepted by the 4-entry offset table, counting
      negative indices from the end. */
  predicate ValidRow(r: int)
  {
    -|ROW_OFFSETS| <= r < |ROW_OFFSETS|
  }

  function RowOffset(r: int): int
    requires ValidRow(r)
  {
    if r < 0 then ROW_OFFSETS[r + |ROW_OFFSETS|] else ROW_OFFSETS[r]
  }

  /** The set-DDRAM-address command for a column and table row. */
  function CursorCommand(col: int, r: int): bv8
    requires ValidRow(r)
  {
    CMD_SET_DDRAM | LowByte(col + RowOffset(r))
  }

  /** Moves the cursor to `col` on `row`, or fails when the effective row
      falls outside the offset table. */
  function SetCursor(s: State, col: int, row: int): (r: Result<Step>)
    ensures r.Ok? <==> (if row > s.numLines then -3 <= s.numLines <= 4 else -4 <= row <= 3)
    ensures r.Err? ==> r.error == RowIndexOutOfRange(if row > s.numLines then s.numLines - 1 else row)
    ensures r.Ok? ==> r.value.state == s && |r.value.trace| == 12
  {
    var eff := EffectiveRow(s.numLines, row);
    if !ValidRow(eff) then Err(RowIndexOutOfRange(eff))
    else Ok(Step(s, Command(s, CursorCommand(col, eff))))
  }

  /** A row within the configured lines is used as given; the controller
      receives the set-DDRAM command for `col` plus that row's offset. */
  lemma SetCursorInRange(s: State, col: int, row: int)
    requires 0 <= row <= s.numLines && row < |ROW_OFFSETS|
    ensures SetCursor(s, col, row).Ok?
    ensures Framed(SetCursor(s, col, row).value.trace)
    ensures Received(SetCursor(s, col, row).value.trace)
         == [Transfer(false, CMD_SET_DDRAM | LowByte(col + ROW_OFFSETS[row]))]
  {
    SetCursorAt(s, col, row, row);
    CommandReceived(s, CursorCommand(col, row));
  }

  /** A row strictly beyond the line count is clamped to the last line. */
  lemma SetCursorClamped(s: State, col: int, row: int)
    requires row > s.numLines && 1 <= s.numLines <= |ROW_OFFSETS|
    ensures SetCursor(s, col, row).Ok?
    ensures Framed(SetCursor(s, col, row).value.trace)
    ensures Received(SetCursor(s, col, row).value.trace)
         == [Transfer(false, CMD_SET_DDRAM | LowByte(col + ROW_OFFSETS[s.numLines - 1]))]
  {
    var last := s.numLines - 1;
    SetCursorAt(s, col, row, last);
    CommandReceived(s, CursorCommand(col, last));
  }

  /** Unfolds a successful `SetCursor` whose effective row is a
      non-negative table index. */
  lemma SetCursorAt(s: State, col: int, row: int, eff: int)
    requires EffectiveRow(s.numLines, row) == eff && 0 <= eff < |ROW_OFFSETS|
    ensures SetCursor(s, col, row) == Ok(Step(s, Command(s, CursorCommand(col, eff))))
    ensures CursorCommand(col, eff) == CMD_SET_DDRAM | LowByte(col + ROW_OFFSETS[eff])
  {
  }

  /** With a non-negative address below 0x80 the command is 0x80 plus the
      address: the column is added to the row offset, never clamped. */
  lemma SetCursorAddress(s: State, col: int, row: int)
    requires 0 <= row <= s.numLines && row < |ROW_OFFSETS|
    requires 0 <= col + ROW_OFFSETS[row] < 0x80
    ensures SetCursor(s, col, row).Ok?
    ensures var ts := Received(SetCursor(s, col, row).value.trace);
      |ts| == 1 && ts[0].value as int == 0x80 + col + ROW_OFFSETS[row]
  {
    SetCursorInRange(s, col, row);
    DdramValue(col + ROW_OFFSETS[row]);
  }

  lemma DdramValue(x: int)
    requires 0 <= x < 0x80
    ensures (CMD_SET_DDRAM | LowByte(x)) as int == 0x80 + x
  {
    LowByteValue(x);
    DdramOf(LowByte(x), x);
  }

  lemma DdramOf(b: bv8, x: int)
    requires b as int == x < 0x80
    ensures (CMD_SET_DDRAM | b) as int == 0x80 + x
  {
    TopBitOr(b);
  }


  /** The two nibbles `_send` takes from the set-DDRAM command are
      `(0x80 | x) & 0xF0` and `((0x80 | x) << 4) & 0xF0` of the unbounded
      address `x = col + offset`, read as two's complement: bit 7 set with
      bits 6..4 of `x`, then bits 3..0 of `x`. */
  lemma CursorNibbles(col: int, r: int)
    requires ValidRow(r)
    ensures var x := col + RowOffset(r);
      && High(CursorCommand(col, r)) as int == 0x80 + x % 128 - x % 16
      && Low(CursorCommand(col, r)) as int == (x % 16) * 16
  {
    var x := col + RowOffset(r);
    var b := LowByte(x);
    TopBitNibbles(b);
    NibblesOfInteger(x);
    OrTopBit(High(b));
    MiddleBits(x);
  }

  /** Setting bit 7 sets it in the high nibble and leaves the low one. */
  lemma TopBitNibbles(b: bv8)
    ensures High(CMD_SET_DDRAM | b) == 0x80 | High(b)
    ensures Low(CMD_SET_DDRAM | b) == Low(b)
  {
  }

  /** Any successful cursor move keeps RS and RW low. */
  lemma SetCursorBits(s: State, col: int, row: int)
    requires SetCursor(s, col, row).Ok?
    ensures Framed(SetCursor(s, col, row).value.trace)
    ensures Carries(SetCursor(s, col, row).value.trace, RS, 0)
    ensures Carries(SetCursor(s, col, row).value.trace, RW, 0)
    ensures Carries(SetCursor(s, col, row).value.trace, BL, BacklightBit(s))
  {
    CommandReceived(s, CursorCommand(col, EffectiveRow(s.numLines, row)));
  }

  /** What any successful cursor move sends: the set-DDRAM command for the
      effective row. */
  lemma SetCursorReceived(s: State, col: int, row: int)
    requires SetCursor(s, col, row).Ok?
    ensures Received(SetCursor(s, col, row).value.trace)
         == [Transfer(false, CursorCommand(col, EffectiveRow(s.numLines, row)))]
  {
    CommandReceived(s, CursorCommand(col, EffectiveRow(s.numLines, row)));
  }

  /** The clamp as evidently intended: any row at or beyond the line count
      becomes the last line. */
  function SetCursorIntended(s: State, col: int, row: int): (r: Result<Step>)
    ensures 1 <= s.numLines <= |ROW_OFFSETS| && row >= 0 ==> r.Ok?
    ensures r.Ok? ==> r.value.state == s
  {
    var eff := IntendedRow(s.numLines, row);
    if !ValidRow(eff) then Err(RowIndexOutOfRange(eff))
    else Ok(Step(s, Command(s, CursorCommand(col, eff))))
  }

  /** The row the corrected clamp uses. */
  function IntendedRow(numLines: int, row: int): int
  {
    if row >= numLines then numLines - 1 else row
  }

  /** On a display of one to four lines, the intended clamp never leaves the
      configured lines: the row used is the requested one when it exists and
      the last line otherwise. */
  lemma SetCursorIntendedStaysOnDisplay(s: State, col: int, row: int)
    requires 1 <= s.numLines <= |ROW_OFFSETS| && row >= 0
    ensures var last := s.numLines - 1;
      var used := if row >= s.numLines then last else row;
      && SetCursorIntended(s, col, row).Ok?
      && Received(SetCursorIntended(s, col, row).value.trace)
         == [Transfer(false, CMD_SET_DDRAM | LowByte(col + ROW_OFFSETS[used]))]
  {
    var used := if row >= s.numLines then s.numLines - 1 else row;
    var cmd := CursorCommand(col, used);
    CursorCommandAt(col, used);
    assert SetCursorIntended(s, col, row) == Ok(Step(s, Command(s, cmd)));
    CommandReceived(s, cmd);
  }

  lemma CursorCommandAt(col: int, r: int)
    requires 0 <= r < |ROW_OFFSETS|
    ensures CursorCommand(col, r) == CMD_SET_DDRAM | LowByte(col + ROW_OFFSETS[r])
  {
  }

  /** The two clamps differ only when the row equals the line count. */
  lemma SetCursorIntendedAgrees(s: State, col: int, row: int)
    requires row != s.numLines
    ensures SetCursorIntended(s, col, row) == SetCursor(s, col, row)
  {
  }

  /** As written, a four-line display rejects row 4 with an index error
      instead of clamping it to row 3. */
  lemma SetCursorFourLineOverflow(s: State, col: int)
    requires s.numLines == 4
    ensures SetCursor(s, col, 4) == Err(RowIndexOutOfRange(4))
    ensures SetCursorIntended(s, col, 4).Ok?
  {
  }

  /** As written, row 2 on a two-line display is not clamped: column 0 goes
      to DDRAM 0x14, the third row's start, instead of 0x40. */
  lemma SetCursorTwoLineOverflow(s: State, col: int)
    requires s.numLines == 2 && col == 0
    ensures SetCursor(s, col, 2).Ok?
    ensures Received(SetCursor(s, col, 2).value.trace) == [Transfer(false, 0x94)]
    ensures Received(SetCursorIntended(s, col, 2).value.trace) == [Transfer(false, 0xC0)]
  {
    assert col + ROW_OFFSETS[2] == 0x14 && col + ROW_OFFSETS[1] == 0x40;
    assert CMD_SET_DDRAM | LowByte(0x14) == 0x94;
    assert CMD_SET_DDRAM | LowByte(0x40) == 0xC0;
    SetCursorInRange(s, col, 2);
    SetCursorIntendedStaysOnDisplay(s, col, 2);
  }

  /** Turns the backlight on, latching it at once with an all-zero byte. */
  function BacklightOn(s: State): (r: Step)
    ensures r.state == s.(backlight := true)
    ensures r.trace == [Write(BL)]
  {
    var s' := s.(backlight := true);
    Step(s', WriteByte(s', 0))
  }

  /** Turns the backlight off, latching it at once with an all-zero byte. */
  function BacklightOff(s: State): (r: Step)
    ensures r.state == s.(backlight := false)
    ensures r.trace == [Write(0)]
  {
    var s' := s.(backlight := false);
    Step(s', WriteByte(s', 0))
  }

  /** The backlight write touches neither E nor the data lines, so the
      controller receives nothing from it. */
  lemma BacklightWriteSilent(s: State)
    ensures Framed(BacklightOn(s).trace) && Received(BacklightOn(s).trace) == []
    ensures Framed(BacklightOff(s).trace) && Received(BacklightOff(s).trace) == []
  {
    QuietWrite(BL);
    QuietWrite(0);
  }

  /** A single byte with E low latches nothing. */
  lemma QuietWrite(b: bv8)
    requires b & EN == 0
    ensures Framed([Write(b)]) && Received([Write(b)]) == []
  {
    WritesCons(Write(b), []);
    assert [Write(b)] + [] == [Write(b)];
    LatchCons(0, b, []);
  }

  // ---------------------------------------------------------------------
  // Construction

  /** The first phase of the power-on handshake: wait for the supply, then
      two function-set-to-8-bit nibbles and the switch to 4-bit mode, each
      as a lone nibble strobe, with the datasheet's waits between them. */
  function ResetSequence(s: State): (t: seq<Event>)
    ensures |t| == 21
  {
    PausedNibble(s, 50, 0x30) + PausedNibble(s, 5, 0x30) + PausedNibble(s, 1, 0x20)
  }

  /** The second phase, in 4-bit mode: function set (two lines, 5x8 font),
      display on with cursor and blink off, clear, entry mode left-to-right
      without shift, then 2 ms to settle. */
  function ConfigureSequence(s: State): (t: seq<Event>)
    ensures |t| == 49
  {
    Command(s, CMD_FUNCTION_SET | TWO_LINE | FONT_5X8 | FOUR_BIT_MODE)
    + Command(s, CMD_DISPLAY_CONTROL | DISPLAY_ON)
    + Command(s, CMD_CLEAR)
    + Command(s, CMD_ENTRY_MODE | ENTRY_LEFT | ENTRY_SHIFT_DECREMENT)
    + [Sleep(2)]
  }

  /** Constructs the driver: backlight on, then the power-on handshake. */
  function New(address: int, numLines: int, numColumns: int): (r: Step)
    ensures r.state == State(address, numLines, numColumns, true)
    ensures |r.trace| == 70 && r.trace[0] == Sleep(50) && r.trace[69] == Sleep(2)
  {
    var s := State(address, numLines, numColumns, true);
    Step(s, ResetSequence(s) + ConfigureSequence(s))
  }

  /** The reset phase latches 0x3, 0x3, 0x2 on the data lines, RS low. */
  lemma ResetLatched(s: State)
    ensures Writes(ResetSequence(s)) == StrobeBytes(s, 0x30) + StrobeBytes(s, 0x30) + StrobeBytes(s, 0x20)
    ensures Latched(ResetSequence(s)) == [0x30, 0x30, 0x20]
    ensures EndsIdle(ResetSequence(s))
  {
    var p1, p2, p3 := PausedNibble(s, 50, 0x30), PausedNibble(s, 5, 0x30), PausedNibble(s, 1, 0x20);
    PausedNibbleLatches(s, 50, 0x30);
    PausedNibbleLatches(s, 5, 0x30);
    PausedNibbleLatches(s, 1, 0x20);
    Follow(p1, p2);
    Follow(p1 + p2, p3);
  }

  /** The reset phase waits 50 + 5 + 1 ms between nibbles and 1 ms after
      each of the three edges of every nibble. */
  lemma ResetDelay(s: State)
    ensures Delay(ResetSequence(s)) == 65
  {
    var p1, p2, p3 := PausedNibble(s, 50, 0x30), PausedNibble(s, 5, 0x30), PausedNibble(s, 1, 0x20);
    PausedNibbleDelay(s, 50, 0x30);
    PausedNibbleDelay(s, 5, 0x30);
    PausedNibbleDelay(s, 1, 0x20);
    DelayAppend(p1, p2);
    DelayAppend(p1 + p2, p3);
  }

  /** A wait followed by one nibble, the unit the reset phase is made of. */
  function PausedNibble(s: State, ms: nat, data: bv8): seq<Event>
  {
    [Sleep(ms)] + Write4Bits(s, data)
  }

  lemma PausedNibbleLatches(s: State, ms: nat, data: bv8)
    requires data & EN == 0
    ensures Writes(PausedNibble(s, ms, data)) == StrobeBytes(s, data)
    ensures Latched(PausedNibble(s, ms, data)) == [data & (DATA_LINES | RS)]
    ensures EndsIdle(PausedNibble(s, ms, data))
  {
    Write4BitsLatches(s, data);
    Pause(ms);
    Follow([Sleep(ms)], Write4Bits(s, data));
  }

  lemma PausedNibbleDelay(s: State, ms: nat, data: bv8)
    ensures Delay(PausedNibble(s, ms, data)) == ms + 3
  {
    NibbleDelay(s, data);
    Pause(ms);
    DelayAppend([Sleep(ms)], Write4Bits(s, data));
  }

  lemma NibbleDelay(s: State, data: bv8)
    ensures Delay(Write4Bits(s, data)) == 3
  {
    Write4BitsShape(s, data);
    var bl := BacklightBit(s);
    StrobeWrites(Write4Bits(s, data), data | bl, data | EN | bl, (data & !EN) | bl);
  }

  /** A full transfer spends 6 ms asleep. */
  lemma SendDelay(s: State, data: bv8, mode: Mode)
    ensures Delay(Send(s, data, mode)) == 6
  {
    var first, second := High(data) | ModeBit(mode), Low(data) | ModeBit(mode);
    NibbleDelay(s, first);
    NibbleDelay(s, second);
    DelayAppend(Write4Bits(s, first), Write4Bits(s, second));
  }

  /** The bytes of one command, as the instruction constants give them. */
  function CommandBytes(s: State, cmd: bv8): seq<bv8>
  {
    StrobeBytes(s, High(cmd)) + StrobeBytes(s, Low(cmd))
  }

  /** The configure phase writes the four commands' bytes in order. */
  lemma ConfigureWrites(s: State)
    ensures Writes(ConfigureSequence(s))
         == CommandBytes(s, 0x28) + CommandBytes(s, 0x0C) + CommandBytes(s, 0x01) + CommandBytes(s, 0x06)
  {
    CommandShape(s, 0x28);
    CommandShape(s, 0x0C);
    CommandShape(s, 0x01);
    CommandShape(s, 0x06);
    Pause(2);
    FollowFive(Command(s, 0x28), Command(s, 0x0C), Command(s, 0x01), Command(s, 0x06), [Sleep(2)]);
  }

  /** The configure phase latches the high and low nibble of each of its
      four commands, in order, and leaves E low. */
  lemma ConfigureLatched(s: State)
    ensures Latched(ConfigureSequence(s)) == [0x20, 0x80, 0x00, 0xC0, 0x00, 0x10, 0x00, 0x60]
    ensures EndsIdle(ConfigureSequence(s))
  {
    ConfigureNibbles(s);
    assert High(0x28) == 0x20 && Low(0x28) == 0x80;
    assert High(0x0C) == 0x00 && Low(0x0C) == 0xC0;
    assert High(0x01) == 0x00 && Low(0x01) == 0x10;
    assert High(0x06) == 0x00 && Low(0x06) == 0x60;
  }

  lemma ConfigureNibbles(s: State)
    ensures Latched(ConfigureSequence(s))
         == [High(0x28), Low(0x28), High(0x0C), Low(0x0C), High(0x01), Low(0x01), High(0x06), Low(0x06)]
    ensures EndsIdle(ConfigureSequence(s))
  {
    CommandShape(s, 0x28);
    CommandShape(s, 0x0C);
    CommandShape(s, 0x01);
    CommandShape(s, 0x06);
    Pause(2);
    FollowFive(Command(s, 0x28), Command(s, 0x0C), Command(s, 0x01), Command(s, 0x06), [Sleep(2)]);
  }

  /** The configure phase delivers its four instructions, and nothing else. */
  lemma ConfigureReceived(s: State)
    ensures Framed(ConfigureSequence(s))
    ensures Received(ConfigureSequence(s))
         == [Transfer(false, 0x28), Transfer(false, 0x0C), Transfer(false, CMD_CLEAR), Transfer(false, 0x06)]
  {
    CommandsReceived(s, 0x28, 0x0C, 0x01, 0x06);
  }

  lemma CommandsReceived(s: State, a: bv8, b: bv8, c: bv8, d: bv8)
    ensures var t := Command(s, a) + Command(s, b) + Command(s, c) + Command(s, d) + [Sleep(2)];
      Framed(t) && Received(t) == [Transfer(false, a), Transfer(false, b), Transfer(false, c), Transfer(false, d)]
  {
    CommandReceived(s, a);
    CommandReceived(s, b);
    CommandReceived(s, c);
    CommandReceived(s, d);
    Pause(2);
    FourThenPause(Command(s, a), Command(s, b), Command(s, c), Command(s, d), [Sleep(2)]);
  }

  /** The configure phase sleeps 6 ms per command and 2 ms at the end. */
  lemma ConfigureDelay(s: State)
    ensures Delay(ConfigureSequence(s)) == 26
  {
    var c1, c2, c3, c4 := Command(s, 0x28), Command(s, 0x0C), Command(s, 0x01), Command(s, 0x06);
    assert ConfigureSequence(s) == c1 + c2 + c3 + c4 + [Sleep(2)];
    SendDelay(s, 0x28, Instruction);
    SendDelay(s, 0x0C, Instruction);
    SendDelay(s, 0x01, Instruction);
    SendDelay(s, 0x06, Instruction);
    Pause(2);
    DelayAppend(c1, c2);
    DelayAppend(c1 + c2, c3);
    DelayAppend(c1 + c2 + c3, c4);
    DelayAppend(c1 + c2 + c3 + c4, [Sleep(2)]);
  }

  /** One command's bytes, nibbles and sleep time. */
  lemma CommandShape(s: State, cmd: bv8)
    ensures Writes(Command(s, cmd)) == CommandBytes(s, cmd)
    ensures Latched(Command(s, cmd)) == [High(cmd), Low(cmd)]
    ensures EndsIdle(Command(s, cmd))
    ensures Delay(Command(s, cmd)) == 6
  {
    SendWrites(s, cmd, Instruction);
    SendLatched(s, cmd, Instruction);
    SendDelay(s, cmd, Instruction);
  }

  /** Construction writes exactly these 33 bytes, all with the backlight on. */
  lemma NewWrites(address: int, numLines: int, numColumns: int)
    ensures Writes(New(address, numLines, numColumns).trace)
         == [0x38, 0x3C, 0x38, 0x38, 0x3C, 0x38, 0x28, 0x2C, 0x28,
             0x28, 0x2C, 0x28, 0x88, 0x8C, 0x88,
             0x08, 0x0C, 0x08, 0xC8, 0xCC, 0xC8,
             0x08, 0x0C, 0x08, 0x18, 0x1C, 0x18,
             0x08, 0x0C, 0x08, 0x68, 0x6C, 0x68]
  {
    var s := State(address, numLines, numColumns, true);
    ResetLatched(s);
    ConfigureWrites(s);
    WritesAppend(ResetSequence(s), ConfigureSequence(s));
  }

  /** The controller latches three lone nibbles (two 8-bit resets and the
      switch to 4-bit mode), then receives function set 0x28, display control
      0x0C, clear 0x01 and entry mode 0x06, all as instructions; construction
      sleeps 91 ms in all. */
  lemma NewReceived(address: int, numLines: int, numColumns: int)
    ensures var t := New(address, numLines, numColumns).trace;
      && |Latched(t)| == 11
      && Latched(t)[..3] == [0x30, 0x30, 0x20]
      && Pair(Latched(t)[3..])
         == [Transfer(false, 0x28), Transfer(false, 0x0C), Transfer(false, CMD_CLEAR), Transfer(false, 0x06)]
      && EndsIdle(t)
      && Delay(t) == 91
  {
    var s := State(address, numLines, numColumns, true);
    var r, c := ResetSequence(s), ConfigureSequence(s);
    ResetLatched(s);
    ResetDelay(s);
    ConfigureReceived(s);
    ConfigureLatched(s);
    ConfigureDelay(s);
    Follow(r, c);
    DelayAppend(r, c);
    assert Latched(r + c)[3..] == Latched(c);
  }

  /** Every byte of construction has the backlight on, RS low and RW low. */
  lemma NewBits(address: int, numLines: int, numColumns: int)
    ensures Carries(New(address, numLines, numColumns).trace, BL, BL)
    ensures Carries(New(address, numLines, numColumns).trace, RS, 0)
    ensures Carries(New(address, numLines, numColumns).trace, RW, 0)
  {
    NewWrites(address, numLines, numColumns);
  }
}
