/** A driver instance's life after construction: a sequence of public calls
    applied in order, each seeing the state the previous one left. */
module Session {
  import opened Bus
  import opened Hd44780
  import LC = LiquidCrystal

  /** The public operations of the driver. */
  datatype Op =
    | WriteChar(c: char)
    | WriteString(str: string)
    | Clear
    | Home
    | SetCursor(col: int, row: int)
    | BacklightOn
    | BacklightOff

  datatype Option<T> = None | Some(value: T)

  /** Where a sequence of calls ends: the last state, everything performed,
      and the error that stopped it, if one did. */
  datatype Outcome = Outcome(state: LC.State, trace: seq<Event>, error: Option<LC.LcdError>)

  /** Whether an operation leaves the backlight flag alone. */
  predicate KeepsBacklight(op: Op)
  {
    !op.BacklightOn? && !op.BacklightOff?
  }

  /** One public call. Only `set_cursor` can fail: with the clamp as
      written, a non-negative row fails on a display of one to four lines
      exactly when it is row 4 of four. */
  function Apply(s: LC.State, op: Op): (r: LC.Result<LC.Step>)
    ensures r.Err? ==> op.SetCursor?
    ensures op.SetCursor? && 1 <= s.numLines <= 4 && op.row >= 0 ==>
              (r.Ok? <==> !(op.row == s.numLines == 4))
    ensures r.Ok? && KeepsBacklight(op) ==> r.value.state == s
    ensures r.Ok? && op.BacklightOn? ==> r.value.state == s.(backlight := true)
    ensures r.Ok? && op.BacklightOff? ==> r.value.state == s.(backlight := false)
  {
    match op
    case WriteChar(c) => LC.Ok(LC.WriteChar(s, c))
    case WriteString(str) => LC.Ok(LC.WriteString(s, str))
    case Clear => LC.Ok(LC.Clear(s))
    case Home => LC.Ok(LC.Home(s))
    case SetCursor(col, row) => LC.SetCursor(s, col, row)
    case BacklightOn => LC.Ok(LC.BacklightOn(s))
    case BacklightOff => LC.Ok(LC.BacklightOff(s))
  }

  /** Calls go through the clamp as written: row 4 of four lines fails, and
      row 2 of two lines lands on the third row's DDRAM address 0x14. */
  lemma ApplyKeepsWrittenClamp(s: LC.State)
    ensures s.numLines == 4 ==> Apply(s, SetCursor(0, 4)) == LC.Err(LC.RowIndexOutOfRange(4))
    ensures s.numLines == 2 ==>
              && Apply(s, SetCursor(0, 2)).Ok?
              && Received(Apply(s, SetCursor(0, 2)).value.trace) == [Transfer(false, 0x94)]
  {
    if s.numLines == 2 {
      LC.SetCursorTwoLineOverflow(s, 0);
    }
  }

  /** Every byte of a call carries the backlight flag as it stands after the
      call (for every call but the backlight ones, the flag before it), RW
      is never set, and the call leaves the controller between transfers. */
  lemma ApplyBits(s: LC.State, op: Op)
    requires Apply(s, op).Ok?
    ensures Framed(Apply(s, op).value.trace)
    ensures Carries(Apply(s, op).value.trace, RW, 0)
    ensures Carries(Apply(s, op).value.trace, BL, LC.BacklightBit(Apply(s, op).value.state))
  {
    match op
    case WriteChar(c) => LC.WriteCharReceived(s, c);
    case WriteString(str) => LC.WriteStringReceived(s, str); LC.WriteStringBits(s, str);
    case Clear => LC.SlowCommandReceived(s, LC.CMD_CLEAR);
    case Home => LC.SlowCommandReceived(s, LC.CMD_HOME);
    case SetCursor(col, row) =>
      LC.SetCursorBits(s, col, row);
    case BacklightOn =>
      LC.BacklightWriteSilent(s);
      OneWrite(BL);
    case BacklightOff =>
      LC.BacklightWriteSilent(s);
      OneWrite(0);
  }

  lemma OneWrite(b: bv8)
    ensures Writes([Write(b)]) == [b]
  {
    WritesCons(Write(b), []);
    assert [Write(b)] + [] == [Write(b)];
  }

  /** Calls applied in order until one fails. */
  function Run(s: LC.State, ops: seq<Op>): (r: Outcome)
    ensures r.state.address == s.address
    ensures r.state.numLines == s.numLines
    ensures r.state.numColumns == s.numColumns
    ensures (forall i | 0 <= i < |ops| :: KeepsBacklight(ops[i])) ==> r.state == s
    decreases |ops|
  {
    if ops == [] then Outcome(s, [], None)
    else
      match Apply(s, ops[0])
      case Err(e) => Outcome(s, [], Some(e))
      case Ok(step) =>
        var rest := Run(step.state, ops[1..]);
        Outcome(rest.state, step.trace + rest.trace, rest.error)
  }

  /** Calls that each succeed on the starting state, none of them touching
      the backlight, run to completion. */
  lemma {:induction false} RunCompletes(s: LC.State, ops: seq<Op>)
    requires forall i | 0 <= i < |ops| :: KeepsBacklight(ops[i]) && Apply(s, ops[i]).Ok?
    ensures Run(s, ops).error.None?
    decreases |ops|
  {
    if ops != [] {
      RunCompletes(s, ops[1..]);
    }
  }

  /** RW stays low throughout and every call's transfers are complete. */
  lemma {:induction false} RunFramed(s: LC.State, ops: seq<Op>)
    ensures Framed(Run(s, ops).trace)
    ensures Carries(Run(s, ops).trace, RW, 0)
    decreases |ops|
  {
    if ops != [] && Apply(s, ops[0]).Ok? {
      var step := Apply(s, ops[0]).value;
      ApplyBits(s, ops[0]);
      RunFramed(step.state, ops[1..]);
      ReceivedAppend(step.trace, Run(step.state, ops[1..]).trace);
      CarriesAppend(step.trace, Run(step.state, ops[1..]).trace, RW, 0);
    }
  }

  /** While the backlight is on and nothing turns it off, every byte written
      has bit 0x08 set. */
  lemma {:induction false} StaysLit(s: LC.State, ops: seq<Op>)
    requires s.backlight
    requires forall i | 0 <= i < |ops| :: !ops[i].BacklightOff?
    ensures Run(s, ops).state.backlight
    ensures Carries(Run(s, ops).trace, BL, BL)
    decreases |ops|
  {
    if ops != [] && Apply(s, ops[0]).Ok? {
      var step := Apply(s, ops[0]).value;
      ApplyBits(s, ops[0]);
      StaysLit(step.state, ops[1..]);
      CarriesAppend(step.trace, Run(step.state, ops[1..]).trace, BL, BL);
    }
  }

  /** While the backlight is off and nothing turns it on, every byte written
      has bit 0x08 clear. */
  lemma {:induction false} StaysDark(s: LC.State, ops: seq<Op>)
    requires !s.backlight
    requires forall i | 0 <= i < |ops| :: !ops[i].BacklightOn?
    ensures !Run(s, ops).state.backlight
    ensures Carries(Run(s, ops).trace, BL, 0)
    decreases |ops|
  {
    if ops != [] && Apply(s, ops[0]).Ok? {
      var step := Apply(s, ops[0]).value;
      ApplyBits(s, ops[0]);
      StaysDark(step.state, ops[1..]);
      CarriesAppend(step.trace, Run(step.state, ops[1..]).trace, BL, 0);
    }
  }

  /** After `backlight_on`, every later byte has bit 0x08 set until
      `backlight_off`; the call's own byte is 0x08. */
  lemma BacklightOnPersists(s: LC.State, ops: seq<Op>)
    requires forall i | 0 <= i < |ops| :: !ops[i].BacklightOff?
    ensures Carries(Run(s, [BacklightOn] + ops).trace, BL, BL)
  {
    var all := [BacklightOn] + ops;
    assert all[0] == BacklightOn && all[1..] == ops;
    var step := Apply(s, BacklightOn).value;
    ApplyBits(s, BacklightOn);
    StaysLit(step.state, ops);
    CarriesAppend(step.trace, Run(step.state, ops).trace, BL, BL);
  }

  /** After `backlight_off`, every later byte has bit 0x08 clear until
      `backlight_on`; the call's own byte is 0x00. */
  lemma BacklightOffPersists(s: LC.State, ops: seq<Op>)
    requires forall i | 0 <= i < |ops| :: !ops[i].BacklightOn?
    ensures Carries(Run(s, [BacklightOff] + ops).trace, BL, 0)
  {
    var all := [BacklightOff] + ops;
    assert all[0] == BacklightOff && all[1..] == ops;
    var step := Apply(s, BacklightOff).value;
    ApplyBits(s, BacklightOff);
    StaysDark(step.state, ops);
    CarriesAppend(step.trace, Run(step.state, ops).trace, BL, 0);
  }

  /** Calls that do not touch the backlight write the state's backlight bit
      in every byte and leave the state as it was. */
  lemma {:induction false} BacklightUntouched(s: LC.State, ops: seq<Op>)
    requires forall i | 0 <= i < |ops| :: KeepsBacklight(ops[i])
    ensures Run(s, ops).state == s
    ensures Carries(Run(s, ops).trace, BL, LC.BacklightBit(s))
    decreases |ops|
  {
    if ops != [] && Apply(s, ops[0]).Ok? {
      var step := Apply(s, ops[0]).value;
      ApplyBits(s, ops[0]);
      BacklightUntouched(step.state, ops[1..]);
      CarriesAppend(step.trace, Run(step.state, ops[1..]).trace, BL, LC.BacklightBit(s));
    }
  }

  /** Turning the backlight on (or off) twice leaves the same state as once. */
  lemma BacklightIdempotent(s: LC.State)
    ensures Run(s, [BacklightOn, BacklightOn]).state == Run(s, [BacklightOn]).state
    ensures Run(s, [BacklightOff, BacklightOff]).state == Run(s, [BacklightOff]).state
  {
    assert [BacklightOn, BacklightOn][1..] == [BacklightOn];
    assert [BacklightOn][1..] == [];
    assert [BacklightOff, BacklightOff][1..] == [BacklightOff];
    assert [BacklightOff][1..] == [];
  }

  /** What the controller should receive from one call, stated per operation
      without reference to the bus: one data transfer per character, one
      instruction per command (for `set_cursor`, the DDRAM address of the
      row the driver's clamp picks), nothing for the backlight. */
  function Intended(numLines: int, op: Op): seq<Transfer>
  {
    match op
    case WriteChar(c) => [Transfer(true, LC.LowByte(c as int))]
    case WriteString(str) => LC.CharTransfers(str)
    case Clear => [Transfer(false, LC.CMD_CLEAR)]
    case Home => [Transfer(false, LC.CMD_HOME)]
    case SetCursor(col, row) =>
      var r := LC.EffectiveRow(numLines, row);
      if LC.ValidRow(r) then [Transfer(false, LC.CursorCommand(col, r))] else []
    case BacklightOn => []
    case BacklightOff => []
  }

  /** The transfers intended by a sequence of calls, in order. */
  function IntendedAll(numLines: int, ops: seq<Op>): seq<Transfer>
    decreases |ops|
  {
    if ops == [] then [] else Intended(numLines, ops[0]) + IntendedAll(numLines, ops[1..])
  }

  /** Each successful call delivers exactly its intended transfers. */
  lemma ApplyReceived(s: LC.State, op: Op)
    requires Apply(s, op).Ok?
    ensures Received(Apply(s, op).value.trace) == Intended(s.numLines, op)
  {
    match op
    case WriteChar(c) => LC.WriteCharReceived(s, c);
    case WriteString(str) => LC.WriteStringReceived(s, str);
    case Clear =>
    case Home =>
    case SetCursor(col, row) =>
      LC.SetCursorReceived(s, col, row);
    case BacklightOn => LC.BacklightWriteSilent(s);
    case BacklightOff => LC.BacklightWriteSilent(s);
  }

  /** A session that runs to completion delivers the intended transfers of
      all its calls, in order. */
  lemma {:induction false} RunReceived(s: LC.State, ops: seq<Op>)
    requires Run(s, ops).error.None?
    ensures Received(Run(s, ops).trace) == IntendedAll(s.numLines, ops)
    decreases |ops|
  {
    if ops != [] {
      var step := Apply(s, ops[0]).value;
      ApplyReceived(s, ops[0]);
      ApplyBits(s, ops[0]);
      RunReceived(step.state, ops[1..]);
      ReceivedAppend(step.trace, Run(step.state, ops[1..]).trace);
    }
  }
}
