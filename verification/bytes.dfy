/** Facts about eight-bit values read as numbers, kept apart from the
    driver's definitions so that each is proved on its own. */
module Bytes {

  /** Converting a number below 256 to a byte and back gives the number. */
  lemma ByteRoundTrip(m: nat)
    requires m < 256
    ensures (m as bv8) as int == m
  {
  }

  /** Reducing modulo 256 first does not change the value modulo 16. */
  lemma ModOfMod(n: int)
    ensures (n % 256) % 16 == n % 16
  {
    var q := n / 256;
    assert n == 256 * q + n % 256;
    assert n % 256 == n - 16 * (16 * q);
  }

  /** Setting the top bit of a byte below 0x80 adds 0x80 to its value. */
  lemma TopBitOr(b: bv8)
    requires b as int < 0x80
    ensures (0x80 | b) as int == 0x80 + b as int
  {
  }

  /** Reading a byte as a number and converting it back gives the byte. */
  lemma ValueRoundTrip(b: bv8)
    ensures b as int < 256
    ensures (b as int) as bv8 == b
  {
  }

  /** Setting the top bit of any byte gives 0x80 plus its low seven bits. */
  lemma OrTopBit(b: bv8)
    ensures (0x80 | b) as int == 0x80 + b as int % 0x80
  {
    if b as int < 0x80 {
      TopBitOr(b);
    } else {
      assert 0x80 | b == b;
    }
  }

  /** Clearing the low four bits of `n % 256` and then dropping bit 7 leaves
      bits 6..4 of `n`. */
  lemma MiddleBits(n: int)
    ensures (n % 256 - n % 16) % 128 == n % 128 - n % 16
  {
    var m := n % 256;
    var r := m % 128;
    var j := r % 16;
    var k := r / 16;
    var p := m / 128;
    assert n == 256 * (n / 256) + m;
    assert m == 128 * p + r;
    assert r == 16 * k + j;
    assert n == 16 * (16 * (n / 256) + 8 * p + k) + j;
    ModUnique(n, 16, 16 * (n / 256) + 8 * p + k, j);
    ModUnique(m, 16, 8 * p + k, j);
    ModUnique(n, 128, 2 * (n / 256) + p, r);
    ModUnique(m - j, 128, p, 16 * k);
  }

  /** The remainder is the one `r` with `n == d * q + r` and `0 <= r < d`. */
  lemma ModUnique(n: int, d: int, q: int, r: int)
    requires d == 16 || d == 128
    requires n == d * q + r && 0 <= r < d
    ensures n % d == r
  {
    if d == 16 {
      assert 16 * (n / 16 - q) == r - n % 16;
    } else {
      assert 128 * (n / 128 - q) == r - n % 128;
    }
  }
}
