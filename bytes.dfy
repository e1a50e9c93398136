/** Fixed-width unsigned and signed integers and little-endian byte encoding. */
module Bytes {

  type u8 = x: int | 0 <= x < 0x100
  type u16 = x: int | 0 <= x < 0x1_0000
  type u32 = x: int | 0 <= x < 0x1_0000_0000
  type u64 = x: int | 0 <= x < 0x1_0000_0000_0000_0000
  type i32 = x: int | -0x8000_0000 <= x < 0x8000_0000

  /** 256 to the power n: the number of distinct values of n bytes. */
  function Pow256(n: nat): (r: nat)
    ensures r > 0
  {
    if n == 0 then 1 else 256 * Pow256(n - 1)
  }

  /** The unsigned integer whose little-endian bytes are b (b[0] least significant). */
  function FromLittleEndian(b: seq<u8>): (r: nat)
    ensures r < Pow256(|b|)
  {
    if |b| == 0 then 0 else b[0] + 256 * FromLittleEndian(b[1..])
  }

  /** The n least significant bytes of x, least significant first. */
  function ToLittleEndian(x: nat, n: nat): (r: seq<u8>)
    ensures |r| == n
  {
    if n == 0 then [] else [x % 256] + ToLittleEndian(x / 256, n - 1)
  }

  /** Reading back n written bytes gives x whenever x fits in n bytes. */
  lemma {:induction false} FromToLittleEndian(x: nat, n: nat)
    requires x < Pow256(n)
    ensures FromLittleEndian(ToLittleEndian(x, n)) == x
  {
    if n > 0 {
      var r := ToLittleEndian(x, n);
      assert r[1..] == ToLittleEndian(x / 256, n - 1);
      FromToLittleEndian(x / 256, n - 1);
    }
  }

  /** Writing back the value of some bytes gives those bytes. */
  lemma {:induction false} ToFromLittleEndian(b: seq<u8>)
    ensures ToLittleEndian(FromLittleEndian(b), |b|) == b
  {
    if |b| > 0 {
      var x := FromLittleEndian(b);
      assert x % 256 == b[0] && x / 256 == FromLittleEndian(b[1..]);
      ToFromLittleEndian(b[1..]);
    }
  }

  /** u32::from_le_bytes: the four bytes read as a 32-bit unsigned integer. */
  function U32FromLe(b: seq<u8>): (r: u32)
    requires |b| == 4
  {
    assert Pow256(4) == 0x1_0000_0000;
    FromLittleEndian(b)
  }

  /** put_u32_le / u32::to_le_bytes: the four bytes of x, least significant first. */
  function U32ToLe(x: u32): (r: seq<u8>)
    ensures |r| == 4
  {
    ToLittleEndian(x, 4)
  }

  /** The two directions of the 32-bit little-endian encoding are inverse to each other. */
  lemma U32LeRoundTrip(x: u32, b: seq<u8>)
    requires |b| == 4
    ensures U32FromLe(U32ToLe(x)) == x
    ensures U32ToLe(U32FromLe(b)) == b
  {
    assert Pow256(4) == 0x1_0000_0000;
    FromToLittleEndian(x, 4);
    ToFromLittleEndian(b);
  }
}
