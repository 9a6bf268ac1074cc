// SHA-1 as the Secure Hash Standard (FIPS 180-4) specifies it, for messages made of whole bytes.
// Nothing here mentions the packer: this is the reference that PackerSha1 is compared with.
module Fips180 {

  // The five working variables, also used for the five words of a hash value.
  datatype Hash = Hash(a: bv32, b: bv32, c: bv32, d: bv32, e: bv32)

  // Section 5.3.1.
  const INITIAL := Hash(0x67452301, 0xefcdab89, 0x98badcfe, 0x10325476, 0xc3d2e1f0)

  // Section 4.1.1: Ch, Parity and Maj, in the standard's exclusive-or form.
  function RoundFunction(t: nat, x: bv32, y: bv32, z: bv32): bv32 {
    if t < 20 then (x & y) ^ (!x & z)
    else if 40 <= t < 60 then (x & y) ^ (x & z) ^ (y & z)
    else x ^ y ^ z
  }

  // Section 4.2.1.
  function RoundConstant(t: nat): bv32 {
    if t < 20 then 0x5a827999
    else if t < 40 then 0x6ed9eba1
    else if t < 60 then 0x8f1bbcdc
    else 0xca62c1d6
  }

  // Section 3.2: the circular left shifts that SHA-1 uses.
  function Rotl1(x: bv32): bv32 { x.RotateLeft(1) }
  function Rotl5(x: bv32): bv32 { x.RotateLeft(5) }
  function Rotl30(x: bv32): bv32 { x.RotateLeft(30) }

  // Section 6.1.2, step 1: the message schedule of a 16-word block.
  function Schedule(block: seq<bv32>, t: nat): bv32
    requires |block| == 16
  {
    if t < 16 then block[t]
    else Rotl1(Schedule(block, t - 3) ^ Schedule(block, t - 8)
               ^ Schedule(block, t - 14) ^ Schedule(block, t - 16))
  }

  // Section 2.2.2: addition modulo 2^32, which is what addition of 32-bit vectors is.
  function Add(x: bv32, y: bv32): bv32 { x + y }

  // Section 6.1.2, step 3: one round on schedule word w.
  function Round(t: nat, h: Hash, w: bv32): Hash {
    Hash(Add(Add(Add(Add(Rotl5(h.a), RoundFunction(t, h.b, h.c, h.d)), h.e), RoundConstant(t)), w),
         h.a, Rotl30(h.b), h.c, h.d)
  }

  function Rounds(h: Hash, block: seq<bv32>, t: nat): Hash
    requires |block| == 16
  {
    if t == 0 then h else Round(t - 1, Rounds(h, block, t - 1), Schedule(block, t - 1))
  }

  // Section 6.1.2, steps 2 to 4: the next intermediate hash value.
  function Compress(h: Hash, block: seq<bv32>): Hash
    requires |block| == 16
  {
    var r := Rounds(h, block, 80);
    Hash(Add(h.a, r.a), Add(h.b, r.b), Add(h.c, r.c), Add(h.d, r.d), Add(h.e, r.e))
  }

  // The 64-bit binary representation of a number (the low 64 bits of it).
  function Binary64(n: nat): bv64 {
    if n == 0 then 0 else PushBit(Binary64(n / 2), n % 2 == 1)
  }

  function PushBit(x: bv64, bit: bool): bv64 {
    (x << 1) | (if bit then 1 else 0)
  }

  function LowByte(w: bv64): bv8 {
    (w & 0xFF) as bv8
  }

  function BigEndian64(w: bv64): (s: seq<bv8>)
    ensures |s| == 8
  {
    [LowByte(w >> 56), LowByte(w >> 48), LowByte(w >> 40), LowByte(w >> 32),
     LowByte(w >> 24), LowByte(w >> 16), LowByte(w >> 8), LowByte(w)]
  }

  function Zeros(n: nat): (s: seq<bv8>)
    ensures |s| == n && forall i :: 0 <= i < n ==> s[i] == 0
  {
    seq(n, i => 0)
  }

  // Section 5.1.1: the number of zero bytes after the 0x80 byte, the least that leaves 8 bytes of a block.
  function ZeroCount(length: nat): (k: nat)
    ensures k < 64 && (length + 1 + k) % 64 == 56
  {
    (119 - length % 64) % 64
  }

  // Section 5.1.1, with the bits of the length field left as a parameter.
  function PadWith(m: seq<bv8>, lengthField: seq<bv8>): (p: seq<bv8>)
    requires |lengthField| == 8
    ensures |p| % 64 == 0 && m <= p
  {
    m + [0x80] + Zeros(ZeroCount(|m|)) + lengthField
  }

  function Pad(m: seq<bv8>): seq<bv8> {
    PadWith(m, BigEndian64(Binary64(8 * |m|)))
  }

  function Word(b0: bv8, b1: bv8, b2: bv8, b3: bv8): bv32 {
    ((b0 as bv32) << 24) | ((b1 as bv32) << 16) | ((b2 as bv32) << 8) | (b3 as bv32)
  }

  // Section 5.2.1: 64 bytes parsed as 16 big-endian words.
  function Parse(bytes: seq<bv8>): (block: seq<bv32>)
    requires |bytes| == 64
    ensures |block| == 16
    ensures forall t :: 0 <= t < 16 ==>
                          block[t] == Word(bytes[4 * t], bytes[4 * t + 1], bytes[4 * t + 2], bytes[4 * t + 3])
  {
    seq(16, t requires 0 <= t < 16 => Word(bytes[4 * t], bytes[4 * t + 1], bytes[4 * t + 2], bytes[4 * t + 3]))
  }

  // Section 6.1.2: the intermediate hash value after n blocks of a padded message.
  function HashBlocks(p: seq<bv8>, n: nat): Hash
    requires 64 * n <= |p|
  {
    if n == 0 then INITIAL else Compress(HashBlocks(p, n - 1), Parse(p[64 * (n - 1)..64 * n]))
  }

  function BigEndian32(w: bv32): (s: seq<bv8>)
    ensures |s| == 4
  {
    [(w >> 24) as bv8, ((w >> 16) & 0xFF) as bv8, ((w >> 8) & 0xFF) as bv8, (w & 0xFF) as bv8]
  }

  function HashBytes(h: Hash): (s: seq<bv8>)
    ensures |s| == 20
  {
    BigEndian32(h.a) + BigEndian32(h.b) + BigEndian32(h.c) + BigEndian32(h.d) + BigEndian32(h.e)
  }

  // The message digest of a padded message, and of a message.
  function DigestOfPadded(p: seq<bv8>): seq<bv8>
    requires |p| % 64 == 0
  {
    HashBytes(HashBlocks(p, |p| / 64))
  }

  function Sha1(m: seq<bv8>): seq<bv8> {
    DigestOfPadded(Pad(m))
  }
}
