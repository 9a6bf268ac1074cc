// 64-bit words as their bits, least significant first.
module Words64 {
  import opened Powers

  const SIZE := 0x1_0000_0000_0000_0000

  type UInt64 = n: nat | n < SIZE

  type Bits = s: seq<bool> | |s| == 64 witness seq(64, i => false)

  function ToNat(s: seq<bool>): (n: nat)
    ensures n < Pow2(|s|)
  {
    if s == [] then 0 else (if s[0] then 1 else 0) + 2 * ToNat(s[1..])
  }

  function FromNat(n: nat, size: nat): (s: seq<bool>)
    ensures |s| == size
  {
    if size == 0 then [] else [n % 2 == 1] + FromNat(n / 2, size - 1)
  }

  lemma {:induction false} ToNatFromNat(n: nat, size: nat)
    requires n < Pow2(size)
    ensures ToNat(FromNat(n, size)) == n
  {
    if size > 0 {
      ToNatFromNat(n / 2, size - 1);
      assert FromNat(n, size)[1..] == FromNat(n / 2, size - 1);
    }
  }

  lemma {:induction false} FromNatToNat(s: seq<bool>)
    ensures FromNat(ToNat(s), |s|) == s
  {
    if s != [] {
      FromNatToNat(s[1..]);
    }
  }

  lemma SizeIsPow2()
    ensures Pow2(64) == SIZE
  {
    assert Pow2(8) == 0x100;
    assert Pow2(16) == 0x100 * Pow2(8);
    assert Pow2(24) == 0x100 * Pow2(16);
    assert Pow2(32) == 0x100 * Pow2(24);
    assert Pow2(40) == 0x100 * Pow2(32);
    assert Pow2(48) == 0x100 * Pow2(40);
    assert Pow2(56) == 0x100 * Pow2(48);
    assert Pow2(64) == 0x100 * Pow2(56);
  }

  function BitsOf(n: UInt64): Bits {
    FromNat(n, 64)
  }

  function Value(b: Bits): UInt64 {
    SizeIsPow2();
    ToNat(b)
  }

  lemma ValueOfBits(n: UInt64, b: Bits)
    ensures Value(BitsOf(n)) == n && BitsOf(Value(b)) == b
  {
    SizeIsPow2();
    ToNatFromNat(n, 64);
    FromNatToNat(b);
  }

  // ---- Bit operations ----

  function Xor(a: Bits, b: Bits): Bits {
    seq(64, i requires 0 <= i < 64 => a[i] != b[i])
  }

  function ShiftRight(a: Bits, k: nat): Bits {
    seq(64, i requires 0 <= i < 64 => i + k < 64 && a[i + k])
  }

  function ShiftLeft(a: Bits, k: nat): Bits {
    seq(64, i requires 0 <= i < 64 => i >= k && a[i - k])
  }

  // a ^ (a >> k) and a ^ (a << k)
  function XorRight(a: Bits, k: nat): Bits {
    Xor(a, ShiftRight(a, k))
  }

  function XorLeft(a: Bits, k: nat): Bits {
    Xor(a, ShiftLeft(a, k))
  }

  // The shifts are division and multiplication by powers of two, without what does not fit.
  lemma {:induction false} OneMoreBit(s: seq<bool>, bit: bool)
    ensures ToNat(s + [bit]) == ToNat(s) + if bit then Pow2(|s|) else 0
  {
    if s == [] {
      assert [] + [bit] == [bit] && [bit][1..] == [];
    } else {
      assert (s + [bit])[1..] == s[1..] + [bit];
      OneMoreBit(s[1..], bit);
    }
  }

  lemma OneShift(a: Bits)
    ensures ToNat(ShiftRight(a, 1)) == ToNat(a) / 2
    ensures ToNat(ShiftLeft(a, 1)) == 2 * ToNat(a) % SIZE
  {
    SizeIsPow2();
    assert ShiftRight(a, 1) == a[1..] + [false];
    OneMoreBit(a[1..], false);
    assert ShiftLeft(a, 1) == [false] + a[..63] && a == a[..63] + [a[63]];
    assert ([false] + a[..63])[1..] == a[..63];
    OneMoreBit(a[..63], a[63]);
    HighBitGoes(ToNat(a[..63]), a[63]);
    assert Pow2(64) == 2 * Pow2(63);
  }

  lemma HighBitGoes(low: nat, high: bool)
    requires low < 0x8000_0000_0000_0000
    ensures 2 * (low + if high then 0x8000_0000_0000_0000 else 0) % SIZE == 2 * low
  {
  }

  lemma {:induction false} ShiftsAreArithmetic(a: Bits, k: nat)
    ensures ToNat(ShiftRight(a, k)) == ToNat(a) / Pow2(k)
    ensures ToNat(ShiftLeft(a, k)) == ToNat(a) * Pow2(k) % SIZE
  {
    hide ToNat, ShiftRight, ShiftLeft;
    if k == 0 {
      NoShift(a);
    } else {
      ShiftsAreArithmetic(a, k - 1);
      OneMoreShift(a, k);
      OneShift(ShiftRight(a, k - 1));
      OneShift(ShiftLeft(a, k - 1));
      HalfAgain(ToNat(a), Pow2(k - 1));
      TwiceAgain(ToNat(a) * Pow2(k - 1));
      DoubledFactor(ToNat(a), Pow2(k - 1));
    }
  }

  lemma NoShift(a: Bits)
    ensures ShiftRight(a, 0) == a == ShiftLeft(a, 0)
    ensures ToNat(a) / 1 == ToNat(a) && ToNat(a) * 1 % SIZE == ToNat(a)
  {
    SizeIsPow2();
  }

  lemma OneMoreShift(a: Bits, k: nat)
    requires k > 0
    ensures ShiftRight(a, k) == ShiftRight(ShiftRight(a, k - 1), 1)
    ensures ShiftLeft(a, k) == ShiftLeft(ShiftLeft(a, k - 1), 1)
  {
  }

  lemma HalfAgain(n: nat, p: nat)
    requires p > 0
    ensures n / p / 2 == n / (2 * p)
  {
    var q := n / p;
    var h := q / 2;
    assert n == p * q + n % p && q == 2 * h + q % 2;
    Multiplied(p, q, h);
    Quotient(n, 2 * p, h);
  }

  lemma Multiplied(p: nat, q: nat, h: nat)
    requires q == 2 * h || q == 2 * h + 1
    ensures p * q == h * (2 * p) + (if q == 2 * h then 0 else p)
  {
  }

  lemma Quotient(n: nat, d: nat, h: nat)
    requires d > 0 && h * d <= n < h * d + d
    ensures n / d == h
  {
    var q := n / d;
    assert n == d * q + n % d && 0 <= n % d < d;
    assert d * q == q * d;
    if q > h {
      TimesMore(q, h, d);
    } else if q < h {
      TimesMore(h, q, d);
    }
  }

  lemma {:induction false} TimesMore(a: nat, b: nat, d: nat)
    requires a > b
    ensures a * d >= b * d + d
  {
    assert a * d == (a - 1) * d + d;
    if a > b + 1 {
      TimesMore(a - 1, b, d);
    }
  }

  lemma TwiceAgain(n: nat)
    ensures 2 * (n % SIZE) % SIZE == 2 * n % SIZE
  {
  }

  lemma DoubledFactor(n: nat, p: nat)
    ensures n * (2 * p) == 2 * (n * p)
  {
  }

  // Doing an xor-shift twice is the xor-shift by twice as much, and by 64 or more it does nothing.
  lemma XorRightTwice(a: Bits, k: nat)
    ensures XorRight(XorRight(a, k), k) == XorRight(a, 2 * k)
    ensures k >= 64 ==> XorRight(a, k) == a
  {
  }

  lemma XorLeftTwice(a: Bits, k: nat)
    ensures XorLeft(XorLeft(a, k), k) == XorLeft(a, 2 * k)
    ensures k >= 64 ==> XorLeft(a, k) == a
  {
  }

  lemma XorRightsCommute(a: Bits, j: nat, k: nat)
    ensures XorRight(XorRight(a, j), k) == XorRight(XorRight(a, k), j)
  {
  }
}

// The vector hash (api_hash.h, api_hash.cpp) that tells the server which version of a list is held.
module VectorHash {
  import opened Words64

  // The three xor-shift assignments of HashUpdate.
  function Mix(b: Bits): Bits {
    XorRight(XorLeft(XorRight(b, 21), 35), 4)
  }

  function UndoRight4(b: Bits): Bits {
    XorRight(XorRight(XorRight(XorRight(b, 4), 8), 16), 32)
  }

  function UndoRight21(b: Bits): Bits {
    XorRight(XorRight(b, 21), 42)
  }

  function Unmix(b: Bits): Bits {
    UndoRight21(XorLeft(UndoRight4(b), 35))
  }

  lemma UndoRight4BothWays(b: Bits)
    ensures UndoRight4(XorRight(b, 4)) == b && XorRight(UndoRight4(b), 4) == b
  {
    hide XorRight;
    XorRightTwice(b, 4);
    XorRightTwice(b, 8);
    XorRightTwice(b, 16);
    XorRightTwice(b, 32);
    XorRightTwice(b, 64);
    XorRightsCommute(XorRight(XorRight(XorRight(b, 4), 8), 16), 32, 4);
    XorRightsCommute(XorRight(XorRight(b, 4), 8), 16, 4);
    XorRightsCommute(XorRight(b, 4), 8, 4);
  }

  lemma UndoRight21BothWays(b: Bits)
    ensures UndoRight21(XorRight(b, 21)) == b && XorRight(UndoRight21(b), 21) == b
  {
    hide XorRight;
    XorRightTwice(b, 21);
    XorRightTwice(b, 42);
    XorRightTwice(b, 84);
    XorRightsCommute(XorRight(b, 21), 42, 21);
  }

  lemma UnmixUndoesMix(b: Bits)
    ensures Unmix(Mix(b)) == b && Mix(Unmix(b)) == b
  {
    hide XorRight, XorLeft, UndoRight4, UndoRight21;
    var y := XorRight(b, 21);
    UndoRight21BothWays(b);
    XorLeftTwice(y, 35);
    XorLeftTwice(y, 70);
    UndoRight4BothWays(XorLeft(y, 35));
    var z := UndoRight4(b);
    UndoRight4BothWays(b);
    XorLeftTwice(z, 35);
    XorLeftTwice(z, 70);
    UndoRight21BothWays(XorLeft(z, 35));
  }

  // ---- The hash ----

  // One HashUpdate on a 64-bit value.
  function Update(already: UInt64, value: UInt64): UInt64 {
    (Value(Mix(BitsOf(already))) + value) % SIZE
  }

  // The state before it, from the state after it.
  function Before(after: UInt64, value: UInt64): UInt64 {
    Value(Unmix(BitsOf((after - value) % SIZE)))
  }

  // The value it took to get from one state to another.
  function ValueBetween(already: UInt64, after: UInt64): UInt64 {
    (after - Value(Mix(BitsOf(already)))) % SIZE
  }

  // The state after the first assignment, after the second, and after the third, bit by bit.
  predicate First(b: Bits, j: nat)
    requires j < 64
  {
    b[j] != (j < 43 && b[j + 21])
  }

  predicate Second(b: Bits, j: nat)
    requires j < 64
  {
    First(b, j) != (j >= 35 && First(b, j - 35))
  }

  lemma MixedBit(b: Bits, j: nat)
    requires j < 64
    ensures Mix(b)[j] == (Second(b, j) != (j < 60 && Second(b, j + 4)))
  {
  }

  // The value is added to the mixed state, in 64 bits.
  lemma UpdateAddsValue(state: UInt64, value: UInt64)
    ensures Update(state, value) == (Update(state, 0) + value) % 0x1_0000_0000_0000_0000
    ensures BitsOf(Update(state, 0)) == Mix(BitsOf(state))
  {
    hide Mix, BitsOf, Value;
    ValueOfBits(state, Mix(BitsOf(state)));
  }

  // HashUpdate is a bijection of the state for each value, with Before as its inverse.
  lemma UpdateIsReversible(state: UInt64, value: UInt64)
    ensures Before(Update(state, value), value) == state
    ensures Update(Before(state, value), value) == state
  {
    hide Mix, Unmix, BitsOf, Value;
    UnmixUndoesMix(BitsOf(state));
    ValueOfBits(state, Mix(BitsOf(state)));
    var d: UInt64 := (state - value) % SIZE;
    UnmixUndoesMix(BitsOf(d));
    ValueOfBits(d, Unmix(BitsOf(d)));
  }

  // And of the value for each state.
  lemma UpdateReachesEveryState(already: UInt64, value: UInt64, after: UInt64)
    ensures Update(already, value) == after <==> value == ValueBetween(already, after)
  {
    hide Mix, BitsOf, Value;
  }

  // Integer arguments of the other overloads: sign- or zero-extended to 64 bits.
  function ToUInt64(v: int): UInt64 {
    v % SIZE
  }

  function HashFrom(already: UInt64, values: seq<UInt64>): UInt64
    decreases |values|
  {
    if values == [] then already else HashFrom(Update(already, values[0]), values[1..])
  }

  function Hash(values: seq<UInt64>): UInt64 {
    HashFrom(0, values)
  }

  lemma {:induction false} HashFromAppend(already: UInt64, s: seq<UInt64>, t: seq<UInt64>)
    ensures HashFrom(already, s + t) == HashFrom(HashFrom(already, s), t)
    decreases |s|
  {
    hide Update;
    if s == [] {
      assert s + t == t;
    } else {
      HashFromAppend(Update(already, s[0]), s[1..], t);
      assert (s + t)[1..] == s[1..] + t;
    }
  }

  // A common suffix neither merges nor separates two hashes.
  lemma {:induction false} SuffixKeepsDifference(h: UInt64, g: UInt64, suffix: seq<UInt64>)
    ensures HashFrom(h, suffix) == HashFrom(g, suffix) <==> h == g
    decreases |suffix|
  {
    hide Update, Before;
    if suffix != [] {
      SuffixKeepsDifference(Update(h, suffix[0]), Update(g, suffix[0]), suffix[1..]);
      UpdateIsReversible(h, suffix[0]);
      UpdateIsReversible(g, suffix[0]);
    }
  }

  lemma {:induction false} SuffixReachesEveryState(suffix: seq<UInt64>, target: UInt64) returns (h: UInt64)
    ensures HashFrom(h, suffix) == target
    decreases |suffix|
  {
    hide Update, Before;
    if suffix == [] {
      h := target;
    } else {
      var g := SuffixReachesEveryState(suffix[1..], target);
      UpdateIsReversible(g, suffix[0]);
      h := Before(g, suffix[0]);
    }
  }

  // Around any position, the hash is a bijection of the value there: every 64-bit result is reached by
  // exactly one value, so two lists that differ in exactly one position never have the same hash.
  lemma HashIsBijectiveAtEachPosition(prefix: seq<UInt64>, suffix: seq<UInt64>, target: UInt64)
    returns (value: UInt64)
    ensures forall v: UInt64 :: Hash(prefix + [v] + suffix) == target <==> v == value
  {
    hide Update, ValueBetween;
    var h := Hash(prefix);
    var g := SuffixReachesEveryState(suffix, target);
    value := ValueBetween(h, g);
    forall v: UInt64 ensures Hash(prefix + [v] + suffix) == target <==> v == value {
      HashFromAppend(0, prefix + [v], suffix);
      HashFromAppend(0, prefix, [v]);
      SuffixKeepsDifference(Hash(prefix + [v]), g, suffix);
      UpdateReachesEveryState(h, v, g);
    }
  }

  lemma OneEditChangesHash(s: seq<UInt64>, i: nat, v: UInt64)
    requires i < |s| && v != s[i]
    ensures Hash(s[i := v]) != Hash(s)
  {
    assert s == s[..i] + [s[i]] + s[i + 1..];
    assert s[i := v] == s[..i] + [v] + s[i + 1..];
    var w := HashIsBijectiveAtEachPosition(s[..i], s[i + 1..], Hash(s));
  }

  // ---- The counting functions ----

  // HashUpdate(uint64 &already, uint64 value)
  method HashUpdate(already: UInt64, value: UInt64) returns (r: UInt64)
    ensures r == Update(already, value)
  {
    var bits := BitsOf(already);
    bits := Xor(bits, ShiftRight(bits, 21));
    bits := Xor(bits, ShiftLeft(bits, 35));
    bits := Xor(bits, ShiftRight(bits, 4));
    r := (Value(bits) + value) % SIZE;
  }

  lemma HashOfOneMore(values: seq<UInt64>, value: UInt64)
    ensures Hash(values + [value]) == Update(Hash(values), value)
  {
    hide Update;
    HashFromAppend(0, values, [value]);
  }

  function ToUInt64s(range: seq<int>): seq<UInt64> {
    seq(|range|, i requires 0 <= i < |range| => ToUInt64(range[i]))
  }

  method CountHash(range: seq<int>) returns (result: UInt64)
    ensures result == Hash(ToUInt64s(range))
  {
    hide Update, Hash, ToUInt64;
    assert Hash([]) == 0 by {
      HashOfNothing();
    }
    ghost var values := ToUInt64s(range);
    result := 0;
    for k := 0 to |range|
      invariant result == Hash(values[..k])
    {
      HashOfOneMore(values[..k], values[k]);
      assert values[..k + 1] == values[..k] + [values[k]];
      result := HashUpdate(result, ToUInt64(range[k]));
    }
    assert values[..|range|] == values;
  }

  lemma HashOfNothing()
    ensures Hash([]) == 0
  {
  }

  datatype StickersSet = StickersSet(id: UInt64, hash: UInt64, special: bool, archived: bool, unread: bool)

  type StickersSets = map<UInt64, StickersSet>

  const DEFAULT_SET_ID: UInt64 := 0

  predicate IsDefault(sets: StickersSets, setId: UInt64) {
    setId in sets && sets[setId].id == DEFAULT_SET_ID
  }

  predicate IsCounted(sets: StickersSets, setId: UInt64) {
    setId in sets && sets[setId].id != DEFAULT_SET_ID && !sets[setId].special && !sets[setId].archived
  }

  // The hashes of the sets of an order that are known, ordinary and in use.
  function CountedHashes(sets: StickersSets, order: seq<UInt64>): seq<UInt64> {
    if order == [] then []
    else (if IsCounted(sets, order[0]) then [sets[order[0]].hash] else []) + CountedHashes(sets, order[1..])
  }

  lemma {:induction false} CountedHashesAppend(sets: StickersSets, s: seq<UInt64>, t: seq<UInt64>)
    ensures CountedHashes(sets, s + t) == CountedHashes(sets, s) + CountedHashes(sets, t)
  {
    hide CountedHashes;
    if s == [] {
      assert s + t == t;
      NothingCounted(sets);
    } else {
      CountedHashesAppend(sets, s[1..], t);
      assert s == [s[0]] + s[1..] && s + t == [s[0]] + (s[1..] + t);
      OneMoreCounted(sets, s[0], s[1..]);
      OneMoreCounted(sets, s[0], s[1..] + t);
    }
  }

  // A set counts, with its hash, when it is known, is neither the default set nor special nor archived.
  lemma SetCountsIff(sets: StickersSets, id: UInt64)
    ensures CountedHashes(sets, [id])
            == if id in sets && sets[id].id != 0 && !sets[id].special && !sets[id].archived then [sets[id].hash] else []
  {
    assert [id][1..] == [];
    NothingCounted(sets);
  }

  lemma NothingCounted(sets: StickersSets)
    ensures CountedHashes(sets, []) == []
  {
  }

  lemma OneMoreCounted(sets: StickersSets, id: UInt64, rest: seq<UInt64>)
    ensures CountedHashes(sets, [id] + rest)
            == (if IsCounted(sets, id) then [sets[id].hash] else []) + CountedHashes(sets, rest)
  {
    assert ([id] + rest)[1..] == rest;
  }

  method CountStickersOrderHash(sets: StickersSets, order: seq<UInt64>, checkOutdatedInfo: bool)
    returns (result: UInt64)
    ensures result == if checkOutdatedInfo && exists id :: id in order && id in sets && sets[id].id == 0 then 0
                      else Hash(CountedHashes(sets, order))
  {
    hide Update, Hash;
    HashOfNothing();
    result := 0;
    var foundOutdated := false;
    for i := 0 to |order|
      invariant result == Hash(CountedHashes(sets, order[..i]))
      invariant foundOutdated <==> exists id :: id in order[..i] && IsDefault(sets, id)
    {
      CountedHashesAppend(sets, order[..i], [order[i]]);
      assert order[..i + 1] == order[..i] + [order[i]];
      assert CountedHashes(sets, [order[i]]) == if IsCounted(sets, order[i]) then [sets[order[i]].hash] else [];
      assert CountedHashes(sets, order[..i]) + [] == CountedHashes(sets, order[..i]);
      assert forall id :: id in order[..i + 1] <==> id in order[..i] || id == order[i];
      assert order[i] in order[..i + 1];
      if order[i] in sets {
        var set_ := sets[order[i]];
        if set_.id == DEFAULT_SET_ID {
          foundOutdated := true;
        } else if !set_.special && !set_.archived {
          HashOfOneMore(CountedHashes(sets, order[..i]), set_.hash);
          result := HashUpdate(result, set_.hash);
        }
      }
    }
    assert order[..|order|] == order;
    if checkOutdatedInfo && foundOutdated {
      result := 0;
    }
  }

  lemma {:induction false} OtherHashesStay(sets: StickersSets, order: seq<UInt64>, id: UInt64, set_: StickersSet)
    requires id !in order
    ensures CountedHashes(sets[id := set_], order) == CountedHashes(sets, order)
  {
    if order != [] {
      OtherHashesStay(sets, order[1..], id, set_);
    }
  }

  lemma CountedAround(sets: StickersSets, before: seq<UInt64>, id: UInt64, after: seq<UInt64>)
    requires IsCounted(sets, id)
    ensures CountedHashes(sets, before + [id] + after)
            == CountedHashes(sets, before) + [sets[id].hash] + CountedHashes(sets, after)
  {
    hide CountedHashes;
    assert before + [id] + after == before + ([id] + after);
    CountedHashesAppend(sets, before, [id] + after);
    OneMoreCounted(sets, id, after);
  }

  // A new hash of one counted set, listed once, always shows in the hash of the order.
  lemma StickersHashShowsChange(sets: StickersSets, before: seq<UInt64>, id: UInt64, after: seq<UInt64>, hash: UInt64)
    requires id !in before + after && IsCounted(sets, id) && sets[id].hash != hash
    ensures var changed := sets[id := sets[id].(hash := hash)];
            Hash(CountedHashes(changed, before + [id] + after)) != Hash(CountedHashes(sets, before + [id] + after))
  {
    hide Hash, CountedHashes;
    var changed := sets[id := sets[id].(hash := hash)];
    var s, t := CountedHashes(sets, before), CountedHashes(sets, after);
    OtherHashesStay(sets, before, id, changed[id]);
    OtherHashesStay(sets, after, id, changed[id]);
    CountedAround(sets, before, id, after);
    CountedAround(changed, before, id, after);
    var w := HashIsBijectiveAtEachPosition(s, t, Hash(s + [hash] + t));
  }

  predicate IsUnread(sets: StickersSets, setId: UInt64) {
    setId in sets && sets[setId].unread
  }

  // Every featured set's id, followed by a 1 when the set is unread.
  function FeaturedValues(sets: StickersSets, order: seq<UInt64>): seq<UInt64> {
    if order == [] then []
    else [order[0]] + (if IsUnread(sets, order[0]) then [1] else []) + FeaturedValues(sets, order[1..])
  }

  lemma {:induction false} FeaturedValuesAppend(sets: StickersSets, s: seq<UInt64>, t: seq<UInt64>)
    ensures FeaturedValues(sets, s + t) == FeaturedValues(sets, s) + FeaturedValues(sets, t)
  {
    hide FeaturedValues, IsUnread;
    if s == [] {
      assert s + t == t;
      NothingFeatured(sets);
    } else {
      FeaturedValuesAppend(sets, s[1..], t);
      assert s == [s[0]] + s[1..] && s + t == [s[0]] + (s[1..] + t);
      OneMoreFeatured(sets, s[0], s[1..]);
      OneMoreFeatured(sets, s[0], s[1..] + t);
    }
  }

  lemma SetIsFeatured(sets: StickersSets, id: UInt64)
    ensures FeaturedValues(sets, [id]) == if id in sets && sets[id].unread then [id, 1] else [id]
  {
    assert [id][1..] == [];
    NothingFeatured(sets);
  }

  lemma NothingFeatured(sets: StickersSets)
    ensures FeaturedValues(sets, []) == []
  {
  }

  lemma OneMoreFeatured(sets: StickersSets, id: UInt64, rest: seq<UInt64>)
    ensures FeaturedValues(sets, [id] + rest)
            == ([id] + if IsUnread(sets, id) then [1] else []) + FeaturedValues(sets, rest)
  {
    hide IsUnread;
    assert ([id] + rest)[1..] == rest;
  }

  method CountFeaturedHash(sets: StickersSets, order: seq<UInt64>) returns (result: UInt64)
    ensures result == Hash(FeaturedValues(sets, order))
  {
    hide Update, Hash;
    HashOfNothing();
    result := 0;
    for i := 0 to |order|
      invariant result == Hash(FeaturedValues(sets, order[..i]))
    {
      ghost var values := FeaturedValues(sets, order[..i]);
      FeaturedValuesAppend(sets, order[..i], [order[i]]);
      assert order[..i + 1] == order[..i] + [order[i]];
      assert FeaturedValues(sets, [order[i]]) == [order[i]] + if IsUnread(sets, order[i]) then [1] else [];
      assert FeaturedValues(sets, order[..i + 1])
          == if IsUnread(sets, order[i]) then values + [order[i]] + [1] else values + [order[i]];
      HashOfOneMore(values, order[i]);
      result := HashUpdate(result, order[i]);
      if order[i] in sets && sets[order[i]].unread {
        HashOfOneMore(values + [order[i]], 1);
        result := HashUpdate(result, 1);
      }
    }
    assert order[..|order|] == order;
  }

  lemma FeaturedAround(sets: StickersSets, before: seq<UInt64>, id: UInt64, after: seq<UInt64>)
    ensures FeaturedValues(sets, before + [id] + after)
            == FeaturedValues(sets, before) + [id] + ((if IsUnread(sets, id) then [1] else []) + FeaturedValues(sets, after))
  {
    hide FeaturedValues, IsUnread;
    assert before + [id] + after == before + ([id] + after);
    FeaturedValuesAppend(sets, before, [id] + after);
    OneMoreFeatured(sets, id, after);
  }

  // Another set in the place of one featured set, equally read or unread, always shows.
  lemma FeaturedHashShowsReplacement(sets: StickersSets, before: seq<UInt64>, id: UInt64, other: UInt64, after: seq<UInt64>)
    requires id != other && IsUnread(sets, id) == IsUnread(sets, other)
    ensures Hash(FeaturedValues(sets, before + [id] + after)) != Hash(FeaturedValues(sets, before + [other] + after))
  {
    hide Hash, FeaturedValues, IsUnread;
    var s := FeaturedValues(sets, before);
    var t := (if IsUnread(sets, id) then [1] else []) + FeaturedValues(sets, after);
    FeaturedAround(sets, before, id, after);
    FeaturedAround(sets, before, other, after);
    var w := HashIsBijectiveAtEachPosition(s, t, Hash(s + [id] + t));
  }
}
