/** What the driver does to the world outside it: single-byte writes to a
    PCF8574 I2C expander and blocking millisecond sleeps, recorded in order.
    Each written byte drives the expander's eight output pins, which are wired
    to an HD44780 controller as [D7 D6 D5 D4][BL][E][RW][RS]. */
module Bus {

  /** One observable step: a byte written to the expander, or a sleep. */
  datatype Event = Write(b: bv8) | Sleep(ms: nat)

  /** Register select: 0 selects the instruction register, 1 the data register. */
  const RS: bv8 := 0x01
  /** Read/write line: 0 is write. */
  const RW: bv8 := 0x02
  /** Enable strobe: the controller latches D7..D4 on its falling edge. */
  const EN: bv8 := 0x04
  /** Backlight transistor, not seen by the controller. */
  const BL: bv8 := 0x08
  /** The four data lines D7..D4. */
  const DATA_LINES: bv8 := 0xF0

  /** The bytes written in a trace, in order, with the sleeps dropped. */
  function Writes(t: seq<Event>): (bs: seq<bv8>)
    ensures |bs| <= |t|
  {
    if t == [] then []
    else (if t[0].Write? then [t[0].b] else []) + Writes(t[1..])
  }

  /** Total time a trace spends asleep, in milliseconds. */
  function Delay(t: seq<Event>): nat
  {
    if t == [] then 0
    else (if t[0].Sleep? then t[0].ms else 0) + Delay(t[1..])
  }

  /** Every byte written in `t` has the bits selected by `mask` equal to `value`. */
  predicate Carries(t: seq<Event>, mask: bv8, value: bv8)
  {
    AllHave(Writes(t), mask, value)
  }

  /** Every byte of `bs` has the bits selected by `mask` equal to `value`. */
  predicate AllHave(bs: seq<bv8>, mask: bv8, value: bv8)
  {
    forall j | 0 <= j < |bs| :: Has(bs[j], mask, value)
  }

  predicate Has(b: bv8, mask: bv8, value: bv8)
  {
    b & mask == value
  }

  lemma WritesCons(e: Event, t: seq<Event>)
    ensures Writes([e] + t) == (if e.Write? then [e.b] else []) + Writes(t)
  {
    assert ([e] + t)[1..] == t;
  }

  lemma DelayCons(e: Event, t: seq<Event>)
    ensures Delay([e] + t) == (if e.Sleep? then e.ms else 0) + Delay(t)
  {
    assert ([e] + t)[1..] == t;
  }

  /** A write followed by a sleep, the driver's unit of pacing. */
  lemma Paced(b: bv8, ms: nat, rest: seq<Event>)
    ensures Writes([Write(b), Sleep(ms)] + rest) == [b] + Writes(rest)
    ensures Delay([Write(b), Sleep(ms)] + rest) == ms + Delay(rest)
  {
    assert [Write(b), Sleep(ms)] + rest == [Write(b)] + ([Sleep(ms)] + rest);
    WritesCons(Write(b), [Sleep(ms)] + rest);
    WritesCons(Sleep(ms), rest);
    DelayCons(Write(b), [Sleep(ms)] + rest);
    DelayCons(Sleep(ms), rest);
  }

  /** The bytes and total delay of three paced writes, one strobe of E. */
  lemma StrobeWrites(t: seq<Event>, x: bv8, y: bv8, z: bv8)
    requires t == [Write(x), Sleep(1), Write(y), Sleep(1), Write(z), Sleep(1)]
    ensures Writes(t) == [x, y, z]
    ensures Delay(t) == 3
  {
    PacedThree(x, y, z, 1);
  }

  /** Three writes, each followed by the same pause. */
  lemma PacedThree(x: bv8, y: bv8, z: bv8, ms: nat)
    ensures Writes([Write(x), Sleep(ms), Write(y), Sleep(ms), Write(z), Sleep(ms)]) == [x, y, z]
    ensures Delay([Write(x), Sleep(ms), Write(y), Sleep(ms), Write(z), Sleep(ms)]) == 3 * ms
  {
    var t3: seq<Event> := [Write(z), Sleep(ms)] + [];
    var t2 := [Write(y), Sleep(ms)] + t3;
    assert [Write(x), Sleep(ms), Write(y), Sleep(ms), Write(z), Sleep(ms)] == [Write(x), Sleep(ms)] + t2;
    Paced(z, ms, []);
    Paced(y, ms, t3);
    Paced(x, ms, t2);
  }

  lemma {:induction false} WritesAppend(a: seq<Event>, b: seq<Event>)
    ensures Writes(a + b) == Writes(a) + Writes(b)
  {
    if a == [] {
      assert a + b == b;
    } else {
      var head: seq<bv8> := if a[0].Write? then [a[0].b] else [];
      assert a == [a[0]] + a[1..];
      assert a + b == [a[0]] + (a[1..] + b);
      WritesCons(a[0], a[1..] + b);
      WritesCons(a[0], a[1..]);
      WritesAppend(a[1..], b);
      calc {
        Writes(a + b);
        head + Writes(a[1..] + b);
        head + (Writes(a[1..]) + Writes(b));
        (head + Writes(a[1..])) + Writes(b);
        Writes(a) + Writes(b);
      }
    }
  }

  lemma {:induction false} DelayAppend(a: seq<Event>, b: seq<Event>)
    ensures Delay(a + b) == Delay(a) + Delay(b)
  {
    if a == [] {
      assert a + b == b;
    } else {
      assert (a + b)[1..] == a[1..] + b;
      DelayAppend(a[1..], b);
    }
  }

  lemma AllHaveAppend(x: seq<bv8>, y: seq<bv8>, mask: bv8, value: bv8)
    ensures AllHave(x + y, mask, value) <==> AllHave(x, mask, value) && AllHave(y, mask, value)
  {
    var xy := x + y;
    if AllHave(xy, mask, value) {
      forall j | 0 <= j < |x|
        ensures Has(x[j], mask, value)
      {
        assert xy[j] == x[j];
      }
      forall j | 0 <= j < |y|
        ensures Has(y[j], mask, value)
      {
        assert xy[|x| + j] == y[j];
      }
    }
    if AllHave(x, mask, value) && AllHave(y, mask, value) {
      forall j | 0 <= j < |xy|
        ensures Has(xy[j], mask, value)
      {
        if j >= |x| {
          assert xy[j] == y[j - |x|];
        }
      }
    }
  }

  lemma CarriesAppend(a: seq<Event>, b: seq<Event>, mask: bv8, value: bv8)
    ensures Carries(a + b, mask, value) <==> Carries(a, mask, value) && Carries(b, mask, value)
  {
    WritesAppend(a, b);
    AllHaveAppend(Writes(a), Writes(b), mask, value);
  }
}
