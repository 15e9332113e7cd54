/** Bytes, optional values and big-endian 16-bit numbers shared by the other modules. */
module Basics {
  datatype Option<+T> = None | Some(value: T)

  type byte = x: int | 0 <= x < 256

  const TWO_16 := 65536

  /** The two bytes `(byte)(n >> 8), (byte)(n & 0xff)` appended by the encoders; both truncate. */
  function PutU16(n: nat): seq<byte> { [n / 256 % 256, n % 256] }

  /** `((uint16)(buf[i]) << 8) | (uint16)(buf[i + 1])`. */
  function GetU16(buf: seq<byte>, i: nat): (n: nat)
    requires i + 2 <= |buf|
    ensures n < TWO_16 && PutU16(n) == buf[i..i + 2]
  {
    var hi: int, lo: int := buf[i], buf[i + 1];
    256 * hi + lo
  }

  /** Reading back what was put gives the number truncated to 16 bits. */
  lemma GetPutU16(n: nat, buf: seq<byte>, i: nat)
    requires i + 2 <= |buf| && buf[i..i + 2] == PutU16(n)
    ensures GetU16(buf, i) == n % TWO_16
  {
    assert buf[i] == buf[i..i + 2][0] && buf[i + 1] == buf[i..i + 2][1];
    TwoDigits(n);
  }

  lemma TwoDigits(n: nat)
    ensures 256 * (n / 256 % 256) + n % 256 == n % TWO_16
  {
    var q := n / 256;
    var m := q / 256;
    assert n == 256 * q + n % 256 && q == 256 * m + q % 256;
    assert n == TWO_16 * m + (256 * (q % 256) + n % 256);
  }
}
