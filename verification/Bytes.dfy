/** Bytes and big-endian numbers. */
module Bytes {
  newtype Byte = x: int | 0 <= x < 256

  function Pow256(n: nat): nat {
    if n == 0 then 1 else 256 * Pow256(n - 1)
  }

  /** The low `n` bytes of a number, most significant first. */
  function ToBytes(value: nat, n: nat): (bytes: seq<Byte>)
    ensures |bytes| == n
  {
    if n == 0 then [] else ToBytes(value / 256, n - 1) + [(value % 256) as Byte]
  }

  function FromBytes(bytes: seq<Byte>): nat {
    if bytes == [] then 0 else FromBytes(bytes[..|bytes| - 1]) * 256 + bytes[|bytes| - 1] as nat
  }

  lemma {:induction false} BytesRoundTrip(value: nat, n: nat)
    requires value < Pow256(n)
    ensures FromBytes(ToBytes(value, n)) == value
    decreases n
  {
    if n > 0 {
      BytesRoundTrip(value / 256, n - 1);
      var bytes := ToBytes(value, n);
      assert bytes[..|bytes| - 1] == ToBytes(value / 256, n - 1);
    }
  }

  /** Numbers that fit are told apart by their bytes. */
  lemma BytesInjective(a: nat, b: nat, n: nat)
    requires a < Pow256(n) && b < Pow256(n) && ToBytes(a, n) == ToBytes(b, n)
    ensures a == b
  {
    BytesRoundTrip(a, n);
    BytesRoundTrip(b, n);
  }

  lemma SmallPowers()
    ensures Pow256(2) == 0x1_0000 && Pow256(4) == 0x1_0000_0000 && Pow256(8) == 0x1_0000_0000_0000_0000
  {
    assert Pow256(1) == 256;
    assert Pow256(3) == 256 * Pow256(2);
    assert Pow256(5) == 256 * Pow256(4);
    assert Pow256(6) == 256 * Pow256(5);
    assert Pow256(7) == 256 * Pow256(6);
  }
}
