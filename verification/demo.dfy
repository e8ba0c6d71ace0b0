/** The call sequence of main.py, the driver's demo script: a 16x2 display
    at address 0x27 is constructed and cleared, "Hello" is written at the
    start of the first line and "ESP32 + LCD" at the start of the second. */
module Demo {
  import opened Bus
  import opened Hd44780
  import LC = LiquidCrystal
  import opened Session

  /** The calls main.py makes after construction. */
  const SCRIPT: seq<Op> :=
    [Clear, SetCursor(0, 0), WriteString("Hello"), SetCursor(0, 1), WriteString("ESP32 + LCD")]

  /** Data-register transfers of the given bytes, in order. */
  function DataBytes(bs: seq<bv8>): (ts: seq<Transfer>)
    ensures |ts| == |bs|
  {
    seq(|bs|, i requires 0 <= i < |bs| => Transfer(true, bs[i]))
  }

  /** What the controller should receive from the script: clear, cursor to
      DDRAM 0x00, the five ASCII codes of "Hello", cursor to DDRAM 0x40,
      the eleven ASCII codes of "ESP32 + LCD". */
  const SCRIPT_TRANSFERS: seq<Transfer> :=
    [Transfer(false, 0x01), Transfer(false, 0x80)]
    + DataBytes([0x48, 0x65, 0x6C, 0x6C, 0x6F])
    + [Transfer(false, 0xC0)]
    + DataBytes([0x45, 0x53, 0x50, 0x33, 0x32, 0x20, 0x2B, 0x20, 0x4C, 0x43, 0x44])

  /** The instructions of the power-on handshake after the switch to 4-bit
      mode. */
  const INIT_TRANSFERS: seq<Transfer> :=
    [Transfer(false, 0x28), Transfer(false, 0x0C), Transfer(false, 0x01), Transfer(false, 0x06)]

  /** A string whose character codes are the given bytes sends those bytes. */
  lemma AsciiBytes(str: string, bs: seq<bv8>)
    requires |str| == |bs|
    requires forall i | 0 <= i < |str| :: str[i] as int == bs[i] as int
    ensures LC.CharTransfers(str) == DataBytes(bs)
  {
    forall i | 0 <= i < |str|
      ensures LC.CharTransfers(str)[i] == DataBytes(bs)[i]
    {
      LC.LowByteOfValue(str[i] as int, bs[i]);
    }
  }

  lemma HelloBytes()
    ensures LC.CharTransfers("Hello") == DataBytes([0x48, 0x65, 0x6C, 0x6C, 0x6F])
  {
    AsciiBytes("Hello", [0x48, 0x65, 0x6C, 0x6C, 0x6F]);
  }

  lemma SecondLineBytes()
    ensures LC.CharTransfers("ESP32 + LCD")
         == DataBytes([0x45, 0x53, 0x50, 0x33, 0x32, 0x20, 0x2B, 0x20, 0x4C, 0x43, 0x44])
  {
    AsciiBytes("ESP32 + LCD", [0x45, 0x53, 0x50, 0x33, 0x32, 0x20, 0x2B, 0x20, 0x4C, 0x43, 0x44]);
  }

  /** The script runs to completion on any two-line driver state, leaves the
      state as it was, delivers the expected transfers, and writes the
      backlight bit of the state in every byte. */
  lemma ScriptRuns(s: LC.State)
    requires s.numLines == 2
    ensures Run(s, SCRIPT).error.None?
    ensures Run(s, SCRIPT).state == s
    ensures Received(Run(s, SCRIPT).trace) == SCRIPT_TRANSFERS
    ensures Carries(Run(s, SCRIPT).trace, BL, LC.BacklightBit(s))
  {
    var ops := SCRIPT;
    forall i | 0 <= i < |ops|
      ensures KeepsBacklight(ops[i]) && Apply(s, ops[i]).Ok?
    {
      if ops[i].SetCursor? {
        assert ops[i].row == 0 || ops[i].row == 1;
      }
    }
    RunCompletes(s, ops);
    RunReceived(s, ops);
    BacklightUntouched(s, ops);
    IntendedScript(s.numLines);
  }

  lemma IntendedScript(numLines: int)
    requires numLines == 2
    ensures IntendedAll(numLines, SCRIPT) == SCRIPT_TRANSFERS
  {
    var ops := SCRIPT;
    HelloBytes();
    SecondLineBytes();
    assert LC.CursorCommand(0, 0) == 0x80 by {
      LC.CursorCommandAt(0, 0);
      assert LC.LowByte(0) == 0;
    }
    assert LC.CursorCommand(0, 1) == 0xC0 by {
      LC.CursorCommandAt(0, 1);
      assert LC.LowByte(0x40) == 0x40;
    }
    assert IntendedAll(numLines, ops[5..]) == [];
    assert IntendedAll(numLines, ops[4..]) == LC.CharTransfers("ESP32 + LCD");
    assert IntendedAll(numLines, ops[3..]) == [Transfer(false, 0xC0)] + IntendedAll(numLines, ops[4..]);
    assert IntendedAll(numLines, ops[2..]) == LC.CharTransfers("Hello") + IntendedAll(numLines, ops[3..]);
    assert IntendedAll(numLines, ops[1..]) == [Transfer(false, 0x80)] + IntendedAll(numLines, ops[2..]);
    assert IntendedAll(numLines, ops) == [Transfer(false, 0x01)] + IntendedAll(numLines, ops[1..]);
  }

  /** Nibbles latched after the three reset nibbles pair up on their own
      when what precedes them is a whole number of transfers. */
  lemma AfterReset(a: seq<bv8>, b: seq<bv8>)
    requires |a| >= 3 && (|a| - 3) % 2 == 0
    ensures (a + b)[..3] == a[..3]
    ensures Pair((a + b)[3..]) == Pair(a[3..]) + Pair(b)
  {
    assert (a + b)[3..] == a[3..] + b;
    PairAppend(a[3..], b);
  }

  /** The whole of main.py, for any address and column count: construction
      latches the three reset nibbles and then the four set-up instructions,
      the script follows with its own transfers, and every byte on the bus
      has the backlight bit set. */
  lemma MainProgram(address: int, columns: int)
    ensures var boot := LC.New(address, 2, columns);
      var run := Run(boot.state, SCRIPT);
      var nibbles := Latched(boot.trace + run.trace);
      && run.error.None?
      && |nibbles| >= 3
      && nibbles[..3] == [0x30, 0x30, 0x20]
      && Pair(nibbles[3..]) == INIT_TRANSFERS + SCRIPT_TRANSFERS
      && Carries(boot.trace + run.trace, BL, BL)
  {
    var boot := LC.New(address, 2, columns);
    var run := Run(boot.state, SCRIPT);
    LC.NewReceived(address, 2, columns);
    LC.NewBits(address, 2, columns);
    ScriptRuns(boot.state);
    RunFramed(boot.state, SCRIPT);
    LatchedAppend(boot.trace, run.trace);
    CarriesAppend(boot.trace, run.trace, BL, BL);
    AfterReset(Latched(boot.trace), Latched(run.trace));
  }
}
