/** The receiving end of the bus: how an HD44780 controller in 4-bit mode
    reads the expander's pins. It is written independently of the driver and
    serves as the reference the driver's traces are checked against. */
module Hd44780 {
  import opened Bus

  /** One complete transfer into the controller: the register it selects
      (`rs` true for the data register) and the 8-bit payload. */
  datatype Transfer = Transfer(rs: bool, value: bv8)

  /** The nibbles latched from a run of bus bytes, given the byte that was on
      the pins before it. On every falling edge of E the controller samples
      D7..D4 and RS of the byte that was on the pins while E was high. */
  function Latch(prev: bv8, bs: seq<bv8>): (ns: seq<bv8>)
    ensures |ns| <= |bs|
    decreases |bs|
  {
    if bs == [] then [] else Edge(prev, bs[0]) + Latch(bs[0], bs[1..])
  }

  /** The nibble latched when the pins change from `prev` to `next`, if E fell. */
  function Edge(prev: bv8, next: bv8): seq<bv8>
  {
    if prev & EN != 0 && next & EN == 0 then [prev & (DATA_LINES | RS)] else []
  }

  /** Nibbles latched over a whole trace, from an idle bus (E low). */
  function Latched(t: seq<Event>): seq<bv8>
  {
    Latch(0, Writes(t))
  }

  /** Pairs consecutive nibbles into transfers, high nibble first; the
      register is the one selected while the high nibble was latched.
      An odd nibble left at the end is not yet a transfer. */
  function Pair(ns: seq<bv8>): (ts: seq<Transfer>)
    ensures |ts| == |ns| / 2
  {
    if |ns| < 2 then []
    else [Join(ns[0], ns[1])] + Pair(ns[2..])
  }

  /** The transfer made of a high and a low nibble. */
  function Join(high: bv8, low: bv8): Transfer
  {
    Transfer(high & RS != 0, (high & DATA_LINES) | (low >> 4))
  }

  /** Transfers the controller receives from a trace in 4-bit mode. */
  function Received(t: seq<Event>): seq<Transfer>
  {
    Pair(Latched(t))
  }

  /** The trace leaves E low, so nothing is pending on the next write. */
  predicate EndsIdle(t: seq<Event>)
  {
    var w := Writes(t);
    w == [] || w[|w| - 1] & EN == 0
  }

  /** A trace that ends idle after a whole number of transfers can be followed
      by any other without the two interfering. */
  predicate Framed(t: seq<Event>)
  {
    EndsIdle(t) && |Latched(t)| % 2 == 0
  }

  lemma LatchCons(prev: bv8, b: bv8, bs: seq<bv8>)
    ensures Latch(prev, [b] + bs) == Edge(prev, b) + Latch(b, bs)
  {
    assert ([b] + bs)[1..] == bs;
  }

  lemma {:induction false} LatchAppend(prev: bv8, a: seq<bv8>, b: seq<bv8>)
    ensures Latch(prev, a + b) == Latch(prev, a) + Latch(if a == [] then prev else a[|a| - 1], b)
    decreases |a|
  {
    if a == [] {
      assert a + b == b;
    } else {
      var t := a[1..];
      assert a + b == [a[0]] + (t + b);
      LatchCons(prev, a[0], t + b);
      LatchAppend(a[0], t, b);
      assert (if t == [] then a[0] else t[|t| - 1]) == a[|a| - 1];
    }
  }

  lemma {:induction false} PairAppend(a: seq<bv8>, b: seq<bv8>)
    requires |a| % 2 == 0
    ensures Pair(a + b) == Pair(a) + Pair(b)
    decreases |a|
  {
    if a == [] {
      assert a + b == b;
    } else {
      assert (a + b)[0] == a[0] && (a + b)[1] == a[1];
      assert (a + b)[2..] == a[2..] + b;
      PairAppend(a[2..], b);
      assert [Join(a[0], a[1])] + (Pair(a[2..]) + Pair(b)) == ([Join(a[0], a[1])] + Pair(a[2..])) + Pair(b);
    }
  }

  /** A trace that leaves E low does not change what the next one latches. */
  lemma LatchedAppend(a: seq<Event>, b: seq<Event>)
    requires EndsIdle(a)
    ensures Latched(a + b) == Latched(a) + Latched(b)
    ensures EndsIdle(b) ==> EndsIdle(a + b)
  {
    WritesAppend(a, b);
    var wa, wb := Writes(a), Writes(b);
    LatchAppend(0, wa, wb);
    var p: bv8 := if wa == [] then 0 else wa[|wa| - 1];
    assert p & EN == 0;
    IdleStart(p, wb);
    if wb != [] {
      assert (wa + wb)[|wa + wb| - 1] == wb[|wb| - 1];
    }
  }

  /** With E low on the pins, the first byte cannot complete a strobe, so
      what was there before does not matter. */
  lemma IdleStart(p: bv8, bs: seq<bv8>)
    requires p & EN == 0
    ensures Latch(p, bs) == Latch(0, bs)
  {
    if bs != [] {
      assert Edge(p, bs[0]) == [] == Edge(0, bs[0]);
    }
  }

  /** A sleep writes nothing and latches nothing. */
  lemma Pause(ms: nat)
    ensures Writes([Sleep(ms)]) == [] && Latched([Sleep(ms)]) == [] && EndsIdle([Sleep(ms)])
    ensures Delay([Sleep(ms)]) == ms
  {
    WritesCons(Sleep(ms), []);
    assert [Sleep(ms)] + [] == [Sleep(ms)];
    assert [Sleep(ms)][1..] == [];
  }

  /** Two traces that each leave E low, one after the other. */
  lemma Follow(a: seq<Event>, b: seq<Event>)
    requires EndsIdle(a) && EndsIdle(b)
    ensures Writes(a + b) == Writes(a) + Writes(b)
    ensures Latched(a + b) == Latched(a) + Latched(b)
    ensures EndsIdle(a + b)
  {
    LatchedAppend(a, b);
    WritesAppend(a, b);
  }

  /** What a framed trace delivers does not depend on what follows it. */
  lemma ReceivedAppend(a: seq<Event>, b: seq<Event>)
    requires Framed(a)
    ensures Received(a + b) == Received(a) + Received(b)
    ensures Framed(b) ==> Framed(a + b)
  {
    LatchedAppend(a, b);
    PairAppend(Latched(a), Latched(b));
  }

  /** Four single-transfer traces and a silent one, in order, deliver the
      four transfers in order. */
  lemma FourThenPause(t1: seq<Event>, t2: seq<Event>, t3: seq<Event>, t4: seq<Event>, t5: seq<Event>)
    requires Framed(t1) && Framed(t2) && Framed(t3) && Framed(t4) && Framed(t5)
    requires |Received(t1)| == |Received(t2)| == |Received(t3)| == |Received(t4)| == 1
    requires Received(t5) == []
    ensures Framed(t1 + t2 + t3 + t4 + t5)
    ensures Received(t1 + t2 + t3 + t4 + t5)
         == [Received(t1)[0], Received(t2)[0], Received(t3)[0], Received(t4)[0]]
  {
    ReceivedAppend(t1, t2);
    ReceivedAppend(t1 + t2, t3);
    ReceivedAppend(t1 + t2 + t3, t4);
    ReceivedAppend(t1 + t2 + t3 + t4, t5);
  }

  /** Five traces that each leave E low, one after the other: bytes and
      nibbles simply concatenate. */
  lemma FollowFive(t1: seq<Event>, t2: seq<Event>, t3: seq<Event>, t4: seq<Event>, t5: seq<Event>)
    requires EndsIdle(t1) && EndsIdle(t2) && EndsIdle(t3) && EndsIdle(t4) && EndsIdle(t5)
    ensures Writes(t1 + t2 + t3 + t4 + t5) == Writes(t1) + Writes(t2) + Writes(t3) + Writes(t4) + Writes(t5)
    ensures Latched(t1 + t2 + t3 + t4 + t5) == Latched(t1) + Latched(t2) + Latched(t3) + Latched(t4) + Latched(t5)
    ensures EndsIdle(t1 + t2 + t3 + t4 + t5)
  {
    Follow(t1, t2);
    Follow(t1 + t2, t3);
    Follow(t1 + t2 + t3, t4);
    Follow(t1 + t2 + t3 + t4, t5);
  }
}
