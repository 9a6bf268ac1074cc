// The packer's SHA-1 (packer.cpp), on arrays and in place as the program has it.
module PackerSha1 {
  import opened Fips180
  import opened Powers

  // ---- The compression step ----

  function Sha1Shift5(v: bv32): bv32 { (v << 5) | (v >> 27) }
  function Sha1Shift30(v: bv32): bv32 { (v << 30) | (v >> 2) }
  function Sha1Shift1(v: bv32): bv32 { (v << 1) | (v >> 31) }

  lemma ShiftsAreRotations(v: bv32)
    ensures Sha1Shift5(v) == Rotl5(v)
    ensures Sha1Shift30(v) == Rotl30(v)
    ensures Sha1Shift1(v) == Rotl1(v)
  {
  }

  // The program writes Ch and Maj with "or"; the standard writes them with "exclusive or".
  function ChOr(b: bv32, c: bv32, d: bv32): bv32 { (b & c) | (!b & d) }
  function Parity(b: bv32, c: bv32, d: bv32): bv32 { b ^ c ^ d }
  function MajOr(b: bv32, c: bv32, d: bv32): bv32 { (b & c) | (b & d) | (c & d) }

  lemma ChOrIsCh(b: bv32, c: bv32, d: bv32)
    ensures ChOr(b, c, d) == (b & c) ^ (!b & d)
  {
  }

  lemma MajOrIsMaj(b: bv32, c: bv32, d: bv32)
    ensures MajOr(b, c, d) == (b & c) ^ (b & d) ^ (c & d)
  {
  }

  lemma OrFormsAreRoundFunctions(t: nat, b: bv32, c: bv32, d: bv32)
    ensures RoundFunction(t, b, c, d) == if t < 20 then ChOr(b, c, d)
                                         else if 40 <= t < 60 then MajOr(b, c, d)
                                         else Parity(b, c, d)
  {
    if t < 20 {
      ChOrIsCh(b, c, d);
    } else if 40 <= t < 60 {
      MajOrIsMaj(b, c, d);
    }
  }

  ghost function HashOf(sha: seq<bv32>): Hash
    requires |sha| == 5
  {
    Hash(sha[0], sha[1], sha[2], sha[3], sha[4])
  }

  // What temp[] holds after `round` rounds: the schedule up to there, and what it held before.
  ghost predicate ScheduleUpTo(temp: seq<bv32>, block: seq<bv32>, round: nat)
    requires |block| == 16
  {
    |temp| == 80
    && (forall t :: 0 <= t < round && t < 80 ==> temp[t] == Schedule(block, t))
    && (forall t :: round <= t < 16 ==> temp[t] == block[t])
  }

  lemma ScheduleStart(block: seq<bv32>)
    requires |block| == 16
    ensures forall t :: 0 <= t < 16 ==> Schedule(block, t) == block[t]
  {
  }

  // One round of the macro _shiftswap, with f and v as the macro receives them.
  function ShiftSwap(h: Hash, f: bv32, v: bv32, w: bv32): Hash {
    Hash(Add(Add(Add(Add(Sha1Shift5(h.a), f), h.e), v), w), h.a, Sha1Shift30(h.b), h.c, h.d)
  }

  lemma ShiftSwapIsRound(t: nat, h: Hash, f: bv32, w: bv32)
    requires f == if t < 20 then ChOr(h.b, h.c, h.d)
                  else if 40 <= t < 60 then MajOr(h.b, h.c, h.d)
                  else Parity(h.b, h.c, h.d)
    ensures ShiftSwap(h, f, RoundConstant(t), w) == Round(t, h, w)
  {
    hide Add, ChOr, MajOr, Parity, RoundFunction, RoundConstant, Sha1Shift5, Sha1Shift30, Rotl5, Rotl30;
    OrFormsAreRoundFunctions(t, h.b, h.c, h.d);
    ShiftsAreRotations(h.a);
    ShiftsAreRotations(h.b);
  }

  // One pass of the macro _shiftshiftswap over temp[]: the word it stores is the schedule's next.
  method ExtendSchedule(temp: array<bv32>, round: nat, ghost block: seq<bv32>)
    requires temp.Length == 80 && 16 <= round < 80 && |block| == 16
    requires ScheduleUpTo(temp[..], block, round)
    modifies temp
    ensures ScheduleUpTo(temp[..], block, round + 1)
  {
    var x := temp[round - 3] ^ temp[round - 8] ^ temp[round - 14] ^ temp[round - 16];
    ShiftsAreRotations(x);
    temp[round] := Sha1Shift1(x);
    assert temp[..][round - 3] == temp[round - 3] && temp[..][round - 8] == temp[round - 8];
  }

  // One more round of the macro, on the word that temp[] holds for it.
  lemma OneMoreRound(h0: Hash, block: seq<bv32>, temp: seq<bv32>, t: nat, h: Hash, f: bv32)
    requires |block| == 16 && t < 80 && ScheduleUpTo(temp, block, t + 1) && h == Rounds(h0, block, t)
    requires f == if t < 20 then ChOr(h.b, h.c, h.d)
                  else if 40 <= t < 60 then MajOr(h.b, h.c, h.d)
                  else Parity(h.b, h.c, h.d)
    ensures |temp| == 80 && ShiftSwap(h, f, RoundConstant(t), temp[t]) == Rounds(h0, block, t + 1)
  {
    hide Round, Schedule, ShiftSwap, ChOr, MajOr, Parity, RoundConstant;
    ShiftSwapIsRound(t, h, f, temp[t]);
  }

  lemma WordOfBlock(temp: seq<bv32>, block: seq<bv32>, t: nat)
    requires |block| == 16 && t < 16 && ScheduleUpTo(temp, block, t)
    ensures ScheduleUpTo(temp, block, t + 1)
  {
    hide Schedule;
    ScheduleStart(block);
  }

  lemma NothingScheduled(temp: seq<bv32>, block: seq<bv32>)
    requires |temp| == 80 && block == temp[..16]
    ensures ScheduleUpTo(temp, block, 0)
  {
  }

  lemma NothingHashed(h0: Hash, block: seq<bv32>)
    requires |block| == 16
    ensures Rounds(h0, block, 0) == h0
  {
  }

  method Sha1PartHash(sha: array<bv32>, temp: array<bv32>)
    requires sha.Length == 5 && temp.Length == 80 && sha != temp
    modifies sha, temp
    ensures HashOf(sha[..]) == Compress(old(HashOf(sha[..])), old(temp[..16]))
  {
    hide Add, Rounds, Schedule, ScheduleUpTo, ShiftSwap, ChOr, MajOr, Parity;
    var h := Hash(sha[0], sha[1], sha[2], sha[3], sha[4]);
    ghost var h0, block := h, temp[..16];
    assert ScheduleUpTo(temp[..], block, 0) by { NothingScheduled(temp[..], block); }
    NothingHashed(h0, block);
    var round := 0;
    while round < 16
      invariant round <= 16 && ScheduleUpTo(temp[..], block, round)
      invariant sha[..] == old(sha[..]) && h == Rounds(h0, block, round)
    {
      WordOfBlock(temp[..], block, round);
      OneMoreRound(h0, block, temp[..], round, h, ChOr(h.b, h.c, h.d));
      h := ShiftSwap(h, ChOr(h.b, h.c, h.d), 0x5a827999, temp[round]);
      round := round + 1;
    }
    while round < 20
      invariant 16 <= round <= 20 && ScheduleUpTo(temp[..], block, round)
      invariant sha[..] == old(sha[..]) && h == Rounds(h0, block, round)
    {
      ExtendSchedule(temp, round, block);
      OneMoreRound(h0, block, temp[..], round, h, ChOr(h.b, h.c, h.d));
      h := ShiftSwap(h, ChOr(h.b, h.c, h.d), 0x5a827999, temp[round]);
      round := round + 1;
    }
    while round < 40
      invariant 20 <= round <= 40 && ScheduleUpTo(temp[..], block, round)
      invariant sha[..] == old(sha[..]) && h == Rounds(h0, block, round)
    {
      ExtendSchedule(temp, round, block);
      OneMoreRound(h0, block, temp[..], round, h, Parity(h.b, h.c, h.d));
      h := ShiftSwap(h, Parity(h.b, h.c, h.d), 0x6ed9eba1, temp[round]);
      round := round + 1;
    }
    while round < 60
      invariant 40 <= round <= 60 && ScheduleUpTo(temp[..], block, round)
      invariant sha[..] == old(sha[..]) && h == Rounds(h0, block, round)
    {
      ExtendSchedule(temp, round, block);
      OneMoreRound(h0, block, temp[..], round, h, MajOr(h.b, h.c, h.d));
      h := ShiftSwap(h, MajOr(h.b, h.c, h.d), 0x8f1bbcdc, temp[round]);
      round := round + 1;
    }
    while round < 80
      invariant 60 <= round <= 80 && ScheduleUpTo(temp[..], block, round)
      invariant sha[..] == old(sha[..]) && h == Rounds(h0, block, round)
    {
      ExtendSchedule(temp, round, block);
      OneMoreRound(h0, block, temp[..], round, h, Parity(h.b, h.c, h.d));
      h := ShiftSwap(h, Parity(h.b, h.c, h.d), 0xca62c1d6, temp[round]);
      round := round + 1;
    }
    sha[0] := Add(sha[0], h.a);
    sha[1] := Add(sha[1], h.b);
    sha[2] := Add(sha[2], h.c);
    sha[3] := Add(sha[3], h.d);
    sha[4] := Add(sha[4], h.e);
  }

  // ---- Filling a block ----

  // A byte moved to its place in a big-endian word: v << ((3 - (i & 3)) << 3).
  function PlaceByte(v: bv8, i: nat): bv32 {
    if i % 4 == 0 then (v as bv32) << 24
    else if i % 4 == 1 then (v as bv32) << 16
    else if i % 4 == 2 then (v as bv32) << 8
    else v as bv32
  }

  function Or(x: bv32, y: bv32): bv32 { x | y }

  lemma OrIntoByte0(b1: bv8, b2: bv8, b3: bv8, v: bv8)
    ensures Or(Word(0, b1, b2, b3), PlaceByte(v, 0)) == Word(v, b1, b2, b3)
  {
  }

  lemma OrIntoByte1(b0: bv8, b2: bv8, b3: bv8, v: bv8)
    ensures Or(Word(b0, 0, b2, b3), PlaceByte(v, 1)) == Word(b0, v, b2, b3)
  {
  }

  lemma OrIntoByte2(b0: bv8, b1: bv8, b3: bv8, v: bv8)
    ensures Or(Word(b0, b1, 0, b3), PlaceByte(v, 2)) == Word(b0, b1, v, b3)
  {
  }

  lemma OrIntoByte3(b0: bv8, b1: bv8, b2: bv8, v: bv8)
    ensures Or(Word(b0, b1, b2, 0), PlaceByte(v, 3)) == Word(b0, b1, b2, v)
  {
  }

  // Or-ing a byte into a place of the block that is still zero stores that byte there.
  lemma OrIntoBlock(bytes: seq<bv8>, i: nat, v: bv8)
    requires |bytes| == 64 && i < 64 && bytes[i] == 0
    ensures Parse(bytes)[i / 4 := Or(Parse(bytes)[i / 4], PlaceByte(v, i))] == Parse(bytes[i := v])
  {
    hide Or, Word, PlaceByte;
    var w := 4 * (i / 4);
    PlaceByteModulo(v, i);
    if i == w {
      OrIntoByte0(bytes[w + 1], bytes[w + 2], bytes[w + 3], v);
    } else if i == w + 1 {
      OrIntoByte1(bytes[w], bytes[w + 2], bytes[w + 3], v);
    } else if i == w + 2 {
      OrIntoByte2(bytes[w], bytes[w + 1], bytes[w + 3], v);
    } else {
      OrIntoByte3(bytes[w], bytes[w + 1], bytes[w + 2], v);
    }
    assert Or(Parse(bytes)[i / 4], PlaceByte(v, i)) == Parse(bytes[i := v])[i / 4];
  }

  lemma PlaceByteModulo(v: bv8, i: nat)
    ensures PlaceByte(v, i % 4) == PlaceByte(v, i)
  {
  }

  lemma ZeroBlock(words: seq<bv32>)
    requires |words| == 16 && forall t :: 0 <= t < 16 ==> words[t] == 0
    ensures words == Parse(Zeros(64))
  {
    assert Word(0, 0, 0, 0) == 0;
  }

  // memset(temp, 0, sizeof(uint32) * 16)
  method ClearBlock(temp: array<bv32>)
    requires temp.Length == 80
    modifies temp
    ensures temp[..16] == Parse(Zeros(64))
  {
    for i := 0 to 16
      invariant forall t :: 0 <= t < i ==> temp[t] == 0
    {
      temp[i] := 0;
    }
    ZeroBlock(temp[..16]);
  }

  method OrByte(temp: array<bv32>, i: nat, v: bv8, ghost bytes: seq<bv8>)
    requires temp.Length == 80 && |bytes| == 64 && i < 64 && bytes[i] == 0
    requires temp[..16] == Parse(bytes)
    modifies temp
    ensures temp[..16] == Parse(bytes[i := v])
  {
    hide Or, Word, PlaceByte;
    OrIntoBlock(bytes, i, v);
    assert temp[i / 4] == temp[..16][i / 4];
    temp[i / 4] := Or(temp[i / 4], PlaceByte(v, i));
    assert temp[..16] == Parse(bytes)[i / 4 := Or(Parse(bytes)[i / 4], PlaceByte(v, i))];
  }

  // ---- The length field ----

  // A number as the uint32 it is stored in.
  function Binary32(n: nat): bv32 {
    if n == 0 then 0 else PushBit32(Binary32(n / 2), n % 2 == 1)
  }

  function PushBit32(x: bv32, bit: bool): bv32 {
    (x << 1) | (if bit then 1 else 0)
  }

  // What the program appends: words 14 and 15, that is zero and len << 3 in 32 bits.
  function LengthField32(length: nat): (s: seq<bv8>)
    ensures |s| == 8
  {
    Zeros(4) + BigEndian32(Binary32(length) << 3)
  }

  function ProgramPad(m: seq<bv8>): (p: seq<bv8>)
    ensures |p| % 64 == 0 && m <= p
  {
    PadWith(m, LengthField32(|m|))
  }

  // The padding in whole blocks: everything before the last block(s) is message, and the rest is
  // one block when the tail is shorter than 56 bytes, else two.
  lemma ProgramPadBlocks(m: seq<bv8>)
    ensures |ProgramPad(m)| % 64 == 0
    ensures var n, tail := |m| / 64, m[|m| - |m| % 64..];
            var p, started := ProgramPad(m), tail + [0x80] + Zeros(63 - |tail|);
            if |tail| < 56 then
              |p| == 64 * (n + 1)
              && p[64 * n..] == started[..56] + LengthField32(|m|)
            else
              |p| == 64 * (n + 2)
              && p[64 * n..64 * (n + 1)] == started
              && p[64 * (n + 1)..] == Zeros(56) + LengthField32(|m|)
  {
    hide LengthField32, ZeroCount;
    var n, tail := |m| / 64, m[|m| - |m| % 64..];
    var p, k := ProgramPad(m), ZeroCount(|m|);
    assert p[64 * n..] == tail + [0x80] + Zeros(k) + LengthField32(|m|);
    if |tail| < 56 {
      assert k == 55 - |tail|;
    } else {
      assert k == 119 - |tail|;
      assert p[64 * (n + 1)..] == p[64 * n..][64..];
      assert p[64 * n..64 * (n + 1)] == p[64 * n..][..64];
    }
  }

  // So the hash of the padded message ends with one or two compressions of known blocks.
  lemma HashEndsWithTail(m: seq<bv8>)
    ensures |ProgramPad(m)| % 64 == 0
    ensures var n, tail := |m| / 64, m[|m| - |m| % 64..];
            var p, started := ProgramPad(m), tail + [0x80] + Zeros(63 - |tail|);
            var h := HashBlocks(p, n);
            HashBlocks(p, |p| / 64) ==
              if |tail| < 56 then Compress(h, Parse(started[..56] + LengthField32(|m|)))
              else Compress(Compress(h, Parse(started)), Parse(Zeros(56) + LengthField32(|m|)))
  {
    hide ProgramPad, Compress, Parse, LengthField32, Zeros;
    ProgramPadBlocks(m);
    var n, p := |m| / 64, ProgramPad(m);
    if |m| % 64 < 56 {
      assert p[64 * n..64 * (n + 1)] == p[64 * n..];
    } else {
      assert p[64 * (n + 1)..64 * (n + 2)] == p[64 * (n + 1)..];
    }
  }

  // Storing len << 3 in word 15 of a block whose last eight bytes are zero.
  lemma StoreLength(bytes: seq<bv8>, length: nat)
    requires |bytes| == 64 && bytes[56..] == Zeros(8)
    ensures Parse(bytes)[15 := Binary32(length) << 3] == Parse(bytes[..56] + LengthField32(length))
  {
    hide Parse, Binary32, Word, BigEndian32;
    var w := Binary32(length) << 3;
    var stored := bytes[..56] + LengthField32(length);
    WordOfBigEndian32(w);
    assert stored[60..] == BigEndian32(w);
    assert forall i :: 0 <= i < 4 ==> stored[60 + i] == stored[60..][i];
    assert forall i :: 56 <= i < 60 ==> bytes[i] == bytes[56..][i - 56];
    assert forall i :: 0 <= i < 60 ==> stored[i] == bytes[i];
  }

  lemma WordOfBigEndian32(w: bv32)
    ensures Word(BigEndian32(w)[0], BigEndian32(w)[1], BigEndian32(w)[2], BigEndian32(w)[3]) == w
  {
  }

  lemma OutputByteIsBigEndian(w: bv32, i: nat)
    ensures OutputByte(w, i) == BigEndian32(w)[i % 4]
  {
  }

  lemma HashByteAt(h: seq<bv32>, i: nat)
    requires |h| == 5 && i < 20
    ensures HashBytes(HashOf(h))[i] == BigEndian32(h[i / 4])[i % 4]
  {
    hide BigEndian32;
  }

  // (w >> (((3 - i) & 3) << 3)) & 0xFF: byte i of the big-endian form of w.
  function OutputByte(w: bv32, i: nat): bv8 {
    if i % 4 == 0 then (w >> 24) as bv8
    else if i % 4 == 1 then ((w >> 16) & 0xFF) as bv8
    else if i % 4 == 2 then ((w >> 8) & 0xFF) as bv8
    else (w & 0xFF) as bv8
  }

  // One pass of the streaming loop's inner loop: 64 bytes become the 16 words of a block.
  method ReadBlock(buf: array<bv8>, start: nat, temp: array<bv32>) returns (block: nat)
    requires start + 64 <= buf.Length && temp.Length == 80
    modifies temp
    ensures block == start + 64
    ensures temp[..16] == Parse(buf[start..start + 64])
  {
    hide Word;
    block := start;
    var end := block + 64;
    var i := 0;
    while block < end
      invariant start <= block <= end && block == start + 4 * i
      invariant forall t :: 0 <= t < i ==>
        temp[t] == Word(buf[start + 4 * t], buf[start + 4 * t + 1], buf[start + 4 * t + 2], buf[start + 4 * t + 3])
    {
      temp[i] := Word(buf[block], buf[block + 1], buf[block + 2], buf[block + 3]);
      i := i + 1;
      block := block + 4;
    }
    assert temp[..16] == Parse(buf[start..start + 64]);
  }

  // The bytes after the last whole block, then 0x80.
  method ReadTail(buf: array<bv8>, block: nat, len: nat, temp: array<bv32>)
    requires block <= len <= buf.Length && len < block + 64 && temp.Length == 80
    modifies temp
    ensures temp[..16] == Parse(buf[block..len] + [0x80] + Zeros(63 - (len - block)))
  {
    hide Or, Word, PlaceByte, Parse;
    ClearBlock(temp);
    ghost var bytes := Zeros(64);
    var last := 0;
    while last < len - block
      invariant 0 <= last <= len - block
      invariant bytes == buf[block..block + last] + Zeros(64 - last)
      invariant temp[..16] == Parse(bytes)
    {
      OrByte(temp, last, buf[last + block], bytes);
      bytes := bytes[last := buf[last + block]];
      last := last + 1;
    }
    OrByte(temp, last, 0x80, bytes);
    assert bytes[last := 0x80] == buf[block..len] + [0x80] + Zeros(63 - (len - block));
  }

  method WriteDigest(sha: array<bv32>, dest: array<bv8>)
    requires sha.Length == 5 && dest.Length >= 20
    modifies dest
    ensures dest[..20] == HashBytes(HashOf(sha[..]))
    ensures dest[20..] == old(dest[20..])
  {
    hide OutputByte, BigEndian32, HashBytes;
    ghost var digest := HashBytes(HashOf(sha[..]));
    var k := 19;
    while k >= 0
      invariant -1 <= k <= 19
      invariant forall j :: k < j < 20 ==> dest[j] == digest[j]
      invariant dest[20..] == old(dest[20..])
    {
      OutputByteIsBigEndian(sha[k / 4], k);
      HashByteAt(sha[..], k);
      dest[k] := OutputByte(sha[k / 4], k);
      k := k - 1;
    }
  }

  // The end of hashSha1's input: the tail, the padding and the length, in one block or in two.
  method HashTail(buf: array<bv8>, block: nat, len: nat, temp: array<bv32>, sha: array<bv32>)
    requires block <= len <= buf.Length && len < block + 64
    requires temp.Length == 80 && sha.Length == 5 && temp != sha
    modifies temp, sha
    ensures var started := old(buf[block..len]) + [0x80] + Zeros(63 - (len - block));
            HashOf(sha[..]) ==
              if len - block < 56 then
                Compress(old(HashOf(sha[..])), Parse(started[..56] + LengthField32(len)))
              else
                Compress(Compress(old(HashOf(sha[..])), Parse(started)), Parse(Zeros(56) + LengthField32(len)))
  {
    hide Compress, Parse, Binary32, LengthField32;
    ReadTail(buf, block, len, temp);
    ghost var bytes := buf[block..len] + [0x80] + Zeros(63 - (len - block));
    if len - block >= 56 {
      Sha1PartHash(sha, temp);
      ClearBlock(temp);
      bytes := Zeros(64);
      assert bytes[..56] == Zeros(56);
    }
    StoreLength(bytes, len);
    temp[15] := Binary32(len) << 3;
    assert temp[..16] == Parse(bytes)[15 := Binary32(len) << 3];
    Sha1PartHash(sha, temp);
  }

  // The streaming loop of hashSha1: every whole block of the input.
  method HashWholeBlocks(buf: array<bv8>, len: nat, temp: array<bv32>, sha: array<bv32>, ghost p: seq<bv8>)
    returns (block: nat)
    requires len <= buf.Length && temp.Length == 80 && sha.Length == 5 && temp != sha
    requires buf[..len] <= p
    requires HashOf(sha[..]) == INITIAL
    modifies temp, sha
    ensures block == len - len % 64
    ensures HashOf(sha[..]) == HashBlocks(p, block / 64)
  {
    hide Compress, Parse;
    block := 0;
    ghost var n := 0;
    while block + 64 <= len
      invariant block == 64 * n <= len && buf[..len] <= p
      invariant HashOf(sha[..]) == HashBlocks(p, n)
    {
      assert p[64 * n..64 * (n + 1)] == buf[64 * n..64 * (n + 1)];
      block := ReadBlock(buf, block, temp);
      Sha1PartHash(sha, temp);
      n := n + 1;
    }
  }

  method HashSha1(buf: array<bv8>, len: nat, dest: array<bv8>)
    requires len <= buf.Length && len < 0x1_0000_0000 - 64
    requires dest.Length >= 20
    modifies dest
    ensures dest[..20] == DigestOfPadded(ProgramPad(old(buf[..len])))
    ensures dest[20..] == old(dest[20..])
    ensures len < 0x2000_0000 ==> dest[..20] == Sha1(old(buf[..len]))
  {
    hide Compress, Parse, ProgramPad, HashBytes, LengthField32, Sha1;
    ghost var m, p := buf[..len], ProgramPad(buf[..len]);
    ProgramPadBlocks(m);
    HashEndsWithTail(m);
    var temp := new bv32[80];
    var sha := new bv32[5] [0x67452301, 0xefcdab89, 0x98badcfe, 0x10325476, 0xc3d2e1f0];
    var block := HashWholeBlocks(buf, len, temp, sha, p);
    assert buf[block..len] == m[|m| - |m| % 64..];
    HashTail(buf, block, len, temp, sha);
    assert HashOf(sha[..]) == HashBlocks(p, |p| / 64);
    WriteDigest(sha, dest);
    if len < 0x2000_0000 {
      ProgramDigestIsSha1(m);
    }
  }

  // ---- Where the 32-bit length field is the standard's 64-bit one ----

  // The number whose lowest k bits are set.
  function LowBits(k: nat): bv64 {
    if k == 0 then 0 else PushBit(LowBits(k - 1), true)
  }

  predicate Within(x: bv64, mask: bv64) {
    x & !mask == 0
  }

  lemma PowersAndMasks()
    ensures Pow2(32) == 0x1_0000_0000 && Pow2(40) == 0x100_0000_0000
    ensures LowBits(32) == 0xFFFF_FFFF && LowBits(39) == 0x7F_FFFF_FFFF
  {
    assert Pow2(8) == 0x100;
    assert Pow2(16) == 0x1_0000;
    assert Pow2(24) == 0x100_0000;
    assert LowBits(8) == 0xFF;
    assert LowBits(16) == 0xFFFF;
    assert LowBits(24) == 0xFF_FFFF;
  }

  lemma PushedBitIsMasked(x: bv64, m: bv64)
    ensures PushBit(x, true) & !PushBit(m, true) == (x & !m) << 1
    ensures PushBit(x, false) & !PushBit(m, true) == (x & !m) << 1
  {
  }

  lemma PushBitKeepsWithin(x: bv64, m: bv64, bit: bool)
    requires Within(x, m)
    ensures Within(PushBit(x, bit), PushBit(m, true))
  {
    hide PushBit;
    PushedBitIsMasked(x, m);
  }

  lemma PushBitReflectsWithin(x: bv64, m: bv64, bit: bool)
    requires Within(x, 0x7F_FFFF_FFFF) && !Within(x, m)
    ensures !Within(PushBit(x, bit), PushBit(m, true))
  {
  }

  // A number below 2^k occupies the lowest k bits, and a larger one (below 2^40) does not.
  lemma {:induction false} BelowPow2IsWithin(n: nat, k: nat)
    requires n < Pow2(k)
    ensures Within(Binary64(n), LowBits(k))
  {
    hide PushBit;
    if n == 0 {
      assert forall m: bv64 :: Within(0, m);
    } else {
      BelowPow2IsWithin(n / 2, k - 1);
      hide Within;
      PushBitKeepsWithin(Binary64(n / 2), LowBits(k - 1), n % 2 == 1);
    }
  }

  lemma {:induction false} AtLeastPow2IsNotWithin(n: nat, k: nat)
    requires Pow2(k) <= n < Pow2(40)
    ensures !Within(Binary64(n), LowBits(k))
  {
    hide PushBit, Within;
    if n == 1 {
      OneIsNotWithinZero();
    } else {
      PowersAndMasks();
      BelowPow2IsWithin(n / 2, 39);
      if k == 0 {
        AtLeastPow2IsNotWithin(n / 2, 0);
        NonZeroPushBit(Binary64(n / 2), n % 2 == 1);
      } else {
        AtLeastPow2IsNotWithin(n / 2, k - 1);
        assert LowBits(k) == PushBit(LowBits(k - 1), true);
        assert Binary64(n) == PushBit(Binary64(n / 2), n % 2 == 1);
        PushBitReflectsWithin(Binary64(n / 2), LowBits(k - 1), n % 2 == 1);
      }
    }
  }

  lemma OneIsNotWithinZero()
    ensures !Within(PushBit(0, true), 0)
  {
  }

  lemma NonZeroPushBit(x: bv64, bit: bool)
    requires Within(x, 0x7F_FFFF_FFFF) && !Within(x, 0)
    ensures !Within(PushBit(x, bit), 0)
  {
  }

  // ---- The two length fields ----

  function LowHalf(w: bv64): bv32 {
    (w & 0xFFFF_FFFF) as bv32
  }

  lemma LowHalfOfZero()
    ensures LowHalf(0) == 0
  {
  }

  lemma {:induction false} Binary32IsLowHalf(n: nat)
    ensures LowHalf(Binary64(n)) == Binary32(n)
  {
    hide PushBit, PushBit32, LowHalf;
    if n == 0 {
      LowHalfOfZero();
    } else {
      Binary32IsLowHalf(n / 2);
      LowHalfOfPushBit(Binary64(n / 2), n % 2 == 1);
    }
  }

  lemma LowHalfOfPushBit(x: bv64, bit: bool)
    ensures LowHalf(PushBit(x, bit)) == PushBit32(LowHalf(x), bit)
  {
  }

  lemma BinaryOfDouble(n: nat)
    ensures Binary64(2 * n) == PushBit(Binary64(n), false)
  {
    if n == 0 {
      assert PushBit(0, false) == 0;
    }
  }

  lemma HighBytesAreZero(w: bv64)
    ensures Within(w, 0xFFFF_FFFF)
       <==> LowByte(w >> 56) == 0 && LowByte(w >> 48) == 0 && LowByte(w >> 40) == 0 && LowByte(w >> 32) == 0
  {
  }

  lemma LowBytesAreLowHalf(w: bv64)
    ensures [LowByte(w >> 24), LowByte(w >> 16), LowByte(w >> 8), LowByte(w)] == BigEndian32(LowHalf(w))
  {
  }

  lemma BitLengthFitsLowHalf(length: nat)
    requires length < 0x1_0000_0000
    ensures Within(Binary64(8 * length), 0xFFFF_FFFF) <==> length < 0x2000_0000
  {
    PowersAndMasks();
    if length < 0x2000_0000 {
      BelowPow2IsWithin(8 * length, 32);
    } else {
      AtLeastPow2IsNotWithin(8 * length, 32);
    }
  }

  // The 64-bit field is four zero bytes and the 32-bit field exactly when the high half is zero.
  lemma FieldsAgree(w: bv64)
    ensures Zeros(4) + BigEndian32(LowHalf(w)) == BigEndian64(w) <==> Within(w, 0xFFFF_FFFF)
  {
    hide LowByte, LowHalf, Within, BigEndian32;
    LowBytesAreLowHalf(w);
    HighBytesAreZero(w);
    var high := [LowByte(w >> 56), LowByte(w >> 48), LowByte(w >> 40), LowByte(w >> 32)];
    assert BigEndian64(w) == high + BigEndian32(LowHalf(w));
    SameTail(Zeros(4), high, BigEndian32(LowHalf(w)));
    assert Zeros(4) == high <==> high[0] == 0 && high[1] == 0 && high[2] == 0 && high[3] == 0;
  }

  // The program's length field is the standard's exactly for messages below 2^29 bytes.
  lemma LengthFieldIsStandard(length: nat)
    requires length < 0x1_0000_0000
    ensures LengthField32(length) == BigEndian64(Binary64(8 * length)) <==> length < 0x2000_0000
  {
    hide LowHalf, Within, Binary64, Binary32, BigEndian32, BigEndian64;
    LowHalfOfEightfold(length);
    FieldsAgree(Binary64(8 * length));
    BitLengthFitsLowHalf(length);
  }

  lemma SameTail(s: seq<bv8>, t: seq<bv8>, tail: seq<bv8>)
    requires |s| == |t|
    ensures s + tail == t + tail <==> s == t
  {
    assert (s + tail)[..|s|] == s && (t + tail)[..|t|] == t;
  }

  lemma LowHalfOfEightfold(n: nat)
    ensures LowHalf(Binary64(8 * n)) == Binary32(n) << 3
  {
    hide Binary64, Binary32, PushBit, LowHalf;
    BinaryOfDouble(n);
    BinaryOfDouble(2 * n);
    BinaryOfDouble(4 * n);
    Binary32IsLowHalf(n);
    ThreePushes(Binary64(n));
  }

  lemma ThreePushes32(x: bv32)
    ensures PushBit32(PushBit32(PushBit32(x, false), false), false) == x << 3
  {
  }

  lemma ThreePushes(x: bv64)
    ensures LowHalf(PushBit(PushBit(PushBit(x, false), false), false)) == LowHalf(x) << 3
  {
    hide PushBit, PushBit32, LowHalf;
    ThreePushes32(LowHalf(x));
    LowHalfOfPushBit(x, false);
    LowHalfOfPushBit(PushBit(x, false), false);
    LowHalfOfPushBit(PushBit(PushBit(x, false), false), false);
  }

  // Hence the program pads a message as the standard does exactly when it is below 2^29 bytes.
  lemma ProgramPadIsStandard(m: seq<bv8>)
    requires |m| < 0x1_0000_0000
    ensures ProgramPad(m) == Pad(m) <==> |m| < 0x2000_0000
  {
    hide Binary64, LengthField32, BigEndian64;
    LengthFieldIsStandard(|m|);
    var p, q := ProgramPad(m), Pad(m);
    assert p[|p| - 8..] == LengthField32(|m|) && q[|q| - 8..] == BigEndian64(Binary64(8 * |m|));
  }

  // The digest that hashSha1 writes is the SHA-1 of the input, for inputs below 2^29 bytes.
  lemma ProgramDigestIsSha1(m: seq<bv8>)
    requires |m| < 0x2000_0000
    ensures DigestOfPadded(ProgramPad(m)) == Sha1(m)
  {
    ProgramPadIsStandard(m);
  }
}
