/** The packed bitfield of bitfield/bitfield.go, and the sequence of booleans it stands for. */
module Bitfields {
  import opened Types

  /** The bit of a byte that holds index `i` of the field: most significant first. */
  function Mask(i: nat): bv8
    requires i < 8
  {
    1 << (7 - i)
  }

  predicate BitAt(data: seq<bv8>, i: nat)
    requires i < 8 * |data|
  {
    data[i / 8] & Mask(i % 8) != 0
  }

  /** Every bit that the bytes hold, padding included. */
  function AllBits(data: seq<bv8>): (bits: seq<bool>)
    ensures |bits| == 8 * |data|
    ensures forall i :: 0 <= i < |bits| ==> bits[i] == BitAt(data, i)
  {
    seq(8 * |data|, i requires 0 <= i < 8 * |data| => BitAt(data, i))
  }

  function SetBit(data: seq<bv8>, i: nat, value: bool): (r: seq<bv8>)
    requires i < 8 * |data|
    ensures |r| == |data|
  {
    data[i / 8 := SetInByte(data[i / 8], i % 8, value)]
  }

  function SetInByte(b: bv8, i: nat, value: bool): bv8
    requires i < 8
  {
    if value then b | Mask(i) else b & !Mask(i)
  }

  function Blank(n: nat): (data: seq<bv8>)
    ensures |data| == n
  {
    seq(n, _ => 0)
  }

  /** The field's bytes as the network carries them, and back. */
  function ToWire(data: seq<bv8>): (r: seq<byte>)
    ensures |r| == |data|
  {
    seq(|data|, i requires 0 <= i < |data| => data[i] as byte)
  }

  function FromWire(bytes: seq<byte>): (r: seq<bv8>)
    ensures |r| == |bytes|
  {
    seq(|bytes|, i requires 0 <= i < |bytes| => bytes[i] as bv8)
  }

  function BytesFor(n: nat): (r: nat)
    ensures 8 * (r - 1) < n <= 8 * r
  {
    n / 8 + if n % 8 > 0 then 1 else 0
  }

  /** A field as it is held by value: its length and its bytes. */
  datatype Bits = Bits(length: nat, data: seq<bv8>) {
    /** `Get`: an error past the length, a panic when the bytes run out before it. */
    function Get(i: nat): Outcome<bool> {
      if i >= length then Err
      else if i >= 8 * |data| then Panic
      else Ok(BitAt(data, i))
    }
  }

  // ---------- Bits as numbers ----------

  /** What index `i` of a byte counts for in its value: index 0 for 128, index 7 for 1. */
  function Weight(i: nat): (w: int)
    requires i < 8
    ensures w > 0
  {
    [128, 64, 32, 16, 8, 4, 2, 1][i]
  }

  predicate IsOne(b: bv8, i: nat)
    requires i < 8
  {
    (b as int / Weight(i)) % 2 == 1
  }

  lemma Digit0(b: bv8)
    ensures (b as int / 128) % 2 == 1 <==> b & 128 != 0
  {
  }

  lemma Digit1(b: bv8)
    ensures (b as int / 64) % 2 == 1 <==> b & 64 != 0
  {
  }

  lemma Digit2(b: bv8)
    ensures (b as int / 32) % 2 == 1 <==> b & 32 != 0
  {
  }

  lemma Digit3(b: bv8)
    ensures (b as int / 16) % 2 == 1 <==> b & 16 != 0
  {
  }

  lemma Digit4(b: bv8)
    ensures (b as int / 8) % 2 == 1 <==> b & 8 != 0
  {
  }

  lemma Digit5(b: bv8)
    ensures (b as int / 4) % 2 == 1 <==> b & 4 != 0
  {
  }

  lemma Digit6(b: bv8)
    ensures (b as int / 2) % 2 == 1 <==> b & 2 != 0
  {
  }

  lemma Digit7(b: bv8)
    ensures (b as int / 1) % 2 == 1 <==> b & 1 != 0
  {
  }

  lemma MasksInNumbers()
    ensures Mask(0) == 128 && Mask(1) == 64 && Mask(2) == 32 && Mask(3) == 16
    ensures Mask(4) == 8 && Mask(5) == 4 && Mask(6) == 2 && Mask(7) == 1
  {
  }

  /** A mask picks out one binary digit of the byte. */
  lemma MaskPicksDigit(b: bv8, i: nat)
    requires i < 8
    ensures b & Mask(i) != 0 <==> IsOne(b, i)
  {
    MasksInNumbers();
    match i
    case 0 => Digit0(b);
    case 1 => Digit1(b);
    case 2 => Digit2(b);
    case 3 => Digit3(b);
    case 4 => Digit4(b);
    case 5 => Digit5(b);
    case 6 => Digit6(b);
    case 7 => Digit7(b);
  }

  /** Index `i` of a field is binary digit `7 - i % 8` of byte `i / 8`: the most significant comes first. */
  lemma BitInNumbers(data: seq<bv8>, i: nat)
    requires i < 8 * |data|
    ensures BitAt(data, i) <==> (data[i / 8] as int / Weight(i % 8)) % 2 == 1
  {
    MaskPicksDigit(data[i / 8], i % 8);
  }

  lemma OrAdds(b: bv8, m: bv8)
    requires b & m == 0
    ensures (b | m) as int == b as int + m as int
  {
  }

  lemma ClearSubtracts(b: bv8, m: bv8)
    requires b & m == m
    ensures (b & !m) as int == b as int - m as int
  {
  }

  lemma OrKeeps(b: bv8, m: bv8)
    requires b & m == m
    ensures b | m == b
  {
  }

  lemma ClearKeeps(b: bv8, m: bv8)
    requires b & m == 0
    ensures b & !m == b
  {
  }

  lemma MaskIsOneBit(b: bv8, i: nat)
    requires i < 8
    ensures Mask(i) as int == Weight(i)
    ensures b & Mask(i) != 0 ==> b & Mask(i) == Mask(i)
  {
    MasksInNumbers();
  }

  // ---------- Setting bits ----------

  lemma MaskFacts(b: bv8, i: nat, j: nat)
    requires i < 8 && j < 8
    ensures (b | Mask(i)) & Mask(i) != 0
    ensures (b & !Mask(i)) & Mask(i) == 0
    ensures i != j ==> (b | Mask(i)) & Mask(j) == b & Mask(j)
    ensures i != j ==> (b & !Mask(i)) & Mask(j) == b & Mask(j)
  {
  }

  lemma SetInByteFacts(b: bv8, i: nat, j: nat, value: bool)
    requires i < 8 && j < 8
    ensures (SetInByte(b, i, value) & Mask(j) != 0) == if i == j then value else b & Mask(j) != 0
  {
    MaskFacts(b, i, j);
  }

  /** Setting a digit adds its weight if it was clear, clearing it takes the weight away if it was set. */
  predicate ChangesDigit(b: bv8, after: bv8, i: nat, value: bool)
    requires i < 8
  {
    && IsOne(after, i) == value
    && after as int == b as int + (if value then Weight(i) else 0) - (if IsOne(b, i) then Weight(i) else 0)
  }

  lemma ValueAfterOr(b: bv8, m: bv8)
    requires b & m == 0 || b & m == m
    ensures (b | m) as int == b as int + if b & m == 0 then m as int else 0
  {
    if b & m == 0 {
      OrAdds(b, m);
    } else {
      OrKeeps(b, m);
    }
  }

  lemma ValueAfterClear(b: bv8, m: bv8)
    requires b & m == 0 || b & m == m
    ensures (b & !m) as int == b as int - if b & m == 0 then 0 else m as int
  {
    if b & m == 0 {
      ClearKeeps(b, m);
    } else {
      ClearSubtracts(b, m);
    }
  }

  lemma SettingInNumbers(b: bv8, i: nat, m: bv8)
    requires i < 8 && m == Mask(i)
    ensures IsOne(b | m, i)
    ensures (b | m) as int == b as int + Weight(i) - if IsOne(b, i) then Weight(i) else 0
  {
    MaskIsOneBit(b, i);
    MaskPicksDigit(b, i);
    ValueAfterOr(b, m);
    MaskFacts(b, i, i);
    MaskPicksDigit(b | m, i);
  }

  lemma ClearingInNumbers(b: bv8, i: nat, m: bv8)
    requires i < 8 && m == Mask(i)
    ensures !IsOne(b & !m, i)
    ensures (b & !m) as int == b as int - if IsOne(b, i) then Weight(i) else 0
  {
    MaskIsOneBit(b, i);
    MaskPicksDigit(b, i);
    ValueAfterClear(b, m);
    MaskFacts(b, i, i);
    MaskPicksDigit(b & !m, i);
  }

  lemma SetInNumbers(b: bv8, i: nat, value: bool)
    requires i < 8
    ensures ChangesDigit(b, SetInByte(b, i, value), i, value)
  {
    if value {
      SettingInNumbers(b, i, Mask(i));
    } else {
      ClearingInNumbers(b, i, Mask(i));
    }
  }

  /** Setting a bit changes that bit of the field and no other, padding included. */
  lemma SetBitSetsOneBit(data: seq<bv8>, i: nat, value: bool)
    requires i < 8 * |data|
    ensures AllBits(SetBit(data, i, value)) == AllBits(data)[i := value]
  {
    var r := SetBit(data, i, value);
    forall j | 0 <= j < 8 * |data|
      ensures BitAt(r, j) == AllBits(data)[i := value][j]
    {
      if i / 8 == j / 8 {
        SetInByteFacts(data[i / 8], i % 8, j % 8, value);
        assert i % 8 == j % 8 <==> i == j;
      } else {
        assert r[j / 8] == data[j / 8];
      }
    }
  }

  datatype Update = Update(index: nat, value: bool)

  function SetMany(data: seq<bv8>, updates: seq<Update>): (r: seq<bv8>)
    requires forall u :: u in updates ==> u.index < 8 * |data|
    ensures |r| == |data|
    decreases updates
  {
    if updates == [] then data
    else SetMany(SetBit(data, updates[0].index, updates[0].value), updates[1..])
  }

  function WriteMany(bits: seq<bool>, updates: seq<Update>): (r: seq<bool>)
    requires forall u :: u in updates ==> u.index < |bits|
    ensures |r| == |bits|
    decreases updates
  {
    if updates == [] then bits
    else WriteMany(bits[updates[0].index := updates[0].value], updates[1..])
  }

  /** Any run of `Set` calls on the packed bytes is the same run on a plain boolean sequence. */
  lemma {:induction false} SetManyRefinesWriteMany(data: seq<bv8>, updates: seq<Update>)
    requires forall u :: u in updates ==> u.index < 8 * |data|
    ensures AllBits(SetMany(data, updates)) == WriteMany(AllBits(data), updates)
    decreases updates
  {
    if updates != [] {
      var u := updates[0];
      SetBitSetsOneBit(data, u.index, u.value);
      SetManyRefinesWriteMany(SetBit(data, u.index, u.value), updates[1..]);
    }
  }

  // ---------- Full fields ----------

  lemma ByteFromBits(a: bv8, b: bv8)
    requires forall i: nat | i < 8 :: (a & Mask(i) != 0) == (b & Mask(i) != 0)
    ensures a == b
  {
    assert Mask(0) == 128 && Mask(1) == 64 && Mask(2) == 32 && Mask(3) == 16;
    assert Mask(4) == 8 && Mask(5) == 4 && Mask(6) == 2 && Mask(7) == 1;
  }

  lemma BitOfByte(data: seq<bv8>, k: nat, i: nat)
    requires k < |data| && i < 8
    ensures 8 * k + i < |AllBits(data)| && AllBits(data)[8 * k + i] == (data[k] & Mask(i) != 0)
  {
    assert (8 * k + i) / 8 == k && (8 * k + i) % 8 == i;
  }

  /** Bytes are determined by their bits. */
  lemma BytesFromBits(a: seq<bv8>, b: seq<bv8>)
    requires AllBits(a) == AllBits(b)
    ensures a == b
  {
    assert |AllBits(a)| == |AllBits(b)|;
    forall k | 0 <= k < |a|
      ensures a[k] == b[k]
    {
      forall i: nat | i < 8
        ensures (a[k] & Mask(i) != 0) == (b[k] & Mask(i) != 0)
      {
        BitOfByte(a, k, i);
        BitOfByte(b, k, i);
      }
      ByteFromBits(a[k], b[k]);
    }
  }

  function EveryIndex(n: nat): (us: seq<Update>)
    ensures |us| == n
    ensures forall i :: 0 <= i < n ==> us[i] == Update(i, true)
  {
    seq(n, i requires 0 <= i < n => Update(i, true))
  }

  /** The first `n` bits set, the padding clear. */
  predicate IsFull(data: seq<bv8>, n: nat) {
    forall i :: 0 <= i < 8 * |data| ==> BitAt(data, i) == (i < n)
  }

  lemma {:induction false} WriteEveryIndex(bits: seq<bool>, n: nat)
    requires n <= |bits|
    ensures WriteMany(bits, EveryIndex(n)) == seq(n, _ => true) + bits[n..]
  {
    if n > 0 {
      var us := EveryIndex(n);
      WriteEveryIndex(bits, n - 1);
      assert us == EveryIndex(n - 1) + [Update(n - 1, true)];
      WriteManyAppend(bits, EveryIndex(n - 1), Update(n - 1, true));
    }
  }

  lemma {:induction false} WriteManyAppend(bits: seq<bool>, updates: seq<Update>, last: Update)
    requires forall u :: u in updates ==> u.index < |bits|
    requires last.index < |bits|
    ensures WriteMany(bits, updates + [last]) == WriteMany(bits, updates)[last.index := last.value]
    decreases updates
  {
    if updates != [] {
      WriteManyAppend(bits[updates[0].index := updates[0].value], updates[1..], last);
      assert (updates + [last])[1..] == updates[1..] + [last];
    } else {
      assert (updates + [last])[1..] == [];
    }
  }

  lemma ZeroBits(n: nat)
    ensures AllBits(Blank(n)) == seq(8 * n, _ => false)
  {
    forall i | 0 <= i < 8 * n
      ensures !BitAt(Blank(n), i)
    {
      assert Blank(n)[i / 8] == 0;
    }
  }

  /** Setting every index of `New(n)` gives the bytes of `NewFull(n)`, with one extra zero
      byte exactly when 8 divides `n`. */
  lemma SetEveryIndexIsFull(full: seq<bv8>, n: nat)
    requires |full| == BytesFor(n) && IsFull(full, n)
    ensures SetMany(Blank(n / 8 + 1), EveryIndex(n)) == full + if n % 8 == 0 then [0] else []
  {
    var empty := Blank(n / 8 + 1);
    var all := SetMany(empty, EveryIndex(n));
    var padded := full + if n % 8 == 0 then [0] else [];
    SetManyRefinesWriteMany(empty, EveryIndex(n));
    ZeroBits(n / 8 + 1);
    WriteEveryIndex(AllBits(empty), n);
    forall i | 0 <= i < 8 * |padded|
      ensures BitAt(padded, i) == AllBits(all)[i]
    {
      if i < 8 * |full| {
        assert padded[i / 8] == full[i / 8];
        assert BitAt(full, i) == (i < n);
      } else {
        assert padded[i / 8] == 0;
      }
    }
    BytesFromBits(all, padded);
  }

  /** The receiver asks for `BytesFor(n)` bytes (client/peer.go:377-383). A field made by `New` has
      them exactly when 8 does not divide `n`. */
  lemma NewHasTheExpectedLengthIff(n: nat)
    ensures n / 8 + 1 == BytesFor(n) <==> n % 8 != 0
  {
  }

  /** 11100000, say, for three bits, and all ones for a whole byte. */
  predicate HasTrailingValue(b: bv8, left: nat)
    requires left < 8
  {
    b as int == if left == 0 then 255 else 256 - Weight(left - 1)
  }

  predicate IsTrailingByte(b: bv8, left: nat) {
    forall j: nat :: j < 8 ==> (b & Mask(j) != 0) == (left == 0 || j < left)
  }

  lemma TrailingInNumbers(b: bv8, left: nat)
    requires left < 8 && IsTrailingByte(b, left)
    ensures HasTrailingValue(b, left)
  {
    var full: bv8 := [255, 128, 192, 224, 240, 248, 252, 254][left];
    MasksInNumbers();
    assert IsTrailingByte(full, left) by {
      TrailingConstants(full, left);
    }
    forall i: nat | i < 8
      ensures (b & Mask(i) != 0) == (full & Mask(i) != 0)
    {
    }
    ByteFromBits(b, full);
  }

  lemma TrailingConstants(full: bv8, left: nat)
    requires left < 8 && full == [255, 128, 192, 224, 240, 248, 252, 254][left]
    ensures IsTrailingByte(full, left)
  {
    MasksInNumbers();
  }

  /** The bytes of a full field: ones, and then the value of the last byte. */
  lemma FullInNumbers(data: seq<bv8>, n: nat)
    requires n > 0 && |data| == BytesFor(n) && IsFull(data, n)
    ensures forall k :: 0 <= k < |data| - 1 ==> data[k] as int == 255
    ensures HasTrailingValue(data[|data| - 1], n % 8)
  {
    var last := |data| - 1;
    forall k | 0 <= k <= last
      ensures IsTrailingByte(data[k], if k < last then 0 else n % 8)
    {
      forall j: nat | j < 8
        ensures (data[k] & Mask(j) != 0) == (8 * k + j < n)
      {
        assert (8 * k + j) / 8 == k && (8 * k + j) % 8 == j;
        assert BitAt(data, 8 * k + j) == (8 * k + j < n);
      }
    }
    forall k | 0 <= k <= last
      ensures HasTrailingValue(data[k], if k < last then 0 else n % 8)
    {
      TrailingInNumbers(data[k], if k < last then 0 else n % 8);
    }
  }

  predicate IsLeading(b: bv8, n: nat) {
    forall j: nat :: j < 8 ==> (b & Mask(j) != 0) == (j < n)
  }

  lemma OneMore(b: bv8, i: nat)
    requires i < 8 && IsLeading(b, i)
    ensures IsLeading(b | (1 << (7 - i)), i + 1)
  {
    forall j: nat | j < 8
      ensures ((b | Mask(i)) & Mask(j) != 0) == (j < i + 1)
    {
      MaskFacts(b, i, j);
    }
  }

  /** The last byte of a full field: its padding bits stay zero. */
  method TrailingByte(left: nat) returns (result: bv8)
    requires left < 8
    ensures IsTrailingByte(result, left)
  {
    result := 0;
    if left == 0 {
      result := 255;
      AllOnes();
    } else {
      for i := 0 to left
        invariant IsLeading(result, i)
      {
        OneMore(result, i);
        result := result | (1 << (7 - i));
      }
    }
  }

  lemma AllOnes()
    ensures forall j: nat :: j < 8 ==> (255 as bv8) & Mask(j) != 0
  {
  }

  lemma FullFromBytes(data: seq<bv8>, n: nat)
    requires n > 0 && |data| == BytesFor(n)
    requires forall k :: 0 <= k < |data| - 1 ==> data[k] == 255
    requires IsTrailingByte(data[|data| - 1], n % 8)
    ensures IsFull(data, n)
  {
    AllOnes();
    var last := |data| - 1;
    assert n % 8 == 0 ==> n == 8 * last + 8;
    assert n % 8 != 0 ==> n == 8 * last + n % 8;
    forall i | 0 <= i < 8 * |data|
      ensures BitAt(data, i) == (i < n)
    {
      var k, j := i / 8, i % 8;
      if k < last {
        assert data[k] == 255;
      } else {
        assert k == last && i == 8 * last + j;
        assert (data[last] & Mask(j) != 0) == (n % 8 == 0 || j < n % 8);
      }
    }
  }

  /** The field in memory. Only the bytes change after construction. */
  class Bitfield {
    const Length: nat
    const data: array<bv8>

    predicate Valid() {
      Length <= 8 * data.Length
    }

    ghost function Value(): Bits
      reads data
    {
      Bits(Length, data[..])
    }

    /** The bits of the field itself, without the padding. */
    ghost function Field(): (bits: seq<bool>)
      requires Valid()
      reads data
      ensures |bits| == Length
    {
      AllBits(data[..])[..Length]
    }

    constructor New(length: nat)
      ensures Valid() && fresh(data) && Length == length
      ensures data[..] == Blank(length / 8 + 1)
    {
      Length := length;
      data := new bv8[length / 8 + 1](_ => 0);
    }

    /** The source indexes byte -1 when `length` is 0. */
    constructor NewFull(length: nat)
      requires length > 0
      ensures Valid() && fresh(data) && Length == length
      ensures data.Length == BytesFor(length) && IsFull(data[..], length)
      ensures HasTrailingValue(data[data.Length - 1], length % 8)
    {
      var lenBytes := length / 8;
      if length % 8 > 0 {
        lenBytes := lenBytes + 1;
      }
      var bytes := new bv8[lenBytes](_ => 0);
      for i := 0 to lenBytes - 1
        invariant forall k :: 0 <= k < i ==> bytes[k] == 255
      {
        bytes[i] := 255;
      }
      var result := TrailingByte(length % 8);
      bytes[lenBytes - 1] := result;
      FullFromBytes(bytes[..], length);
      FullInNumbers(bytes[..], length);
      Length := length;
      data := bytes;
    }

    /** The caller's bytes become the field's own. */
    constructor FromBytes(bytes: array<bv8>, length: nat)
      ensures Length == length && data == bytes
    {
      Length := length;
      data := bytes;
    }

    /** A snapshot in new memory: later changes to `other` do not reach it. */
    constructor Copy(other: Bitfield)
      requires other.Valid()
      ensures Valid() && fresh(data) && Value() == other.Value()
    {
      Length := other.Length;
      var copied := new bv8[other.data.Length](_ => 0);
      for i := 0 to copied.Length
        invariant copied[..i] == other.data[..i]
      {
        copied[i] := other.data[i];
      }
      data := copied;
    }

    method Bytes() returns (result: array<bv8>)
      ensures fresh(result) && result[..] == data[..]
    {
      result := new bv8[data.Length](_ => 0);
      for i := 0 to data.Length
        invariant result[..i] == data[..i]
      {
        result[i] := data[i];
      }
    }

    method Get(index: nat) returns (r: Outcome<bool>)
      requires Valid()
      ensures r == Value().Get(index)
      ensures r == if index < Length then Ok(Field()[index]) else Err
      ensures r.Ok? ==> (r.value <==> (data[index / 8] as int / Weight(index % 8)) % 2 == 1)
    {
      if index >= Length {
        return Err;
      }
      BitInNumbers(data[..], index);
      var value := data[index / 8] & (1 << (7 - index % 8));
      return Ok(value != 0);
    }

    method Set(index: nat, value: bool) returns (ok: bool)
      requires Valid()
      modifies data
      ensures ok == (index < Length)
      ensures AllBits(data[..]) == if ok then old(AllBits(data[..]))[index := value] else old(AllBits(data[..]))
      ensures Field() == if ok then old(Field())[index := value] else old(Field())
      ensures ok ==> ChangesDigit(old(data[index / 8]), data[index / 8], index % 8, value)
    {
      if index >= Length {
        return false;
      }
      var byteIndex := index / 8;
      var mask: bv8 := 1 << (7 - index % 8);
      SetBitSetsOneBit(data[..], index, value);
      SetInNumbers(data[index / 8], index % 8, value);
      if value {
        data[byteIndex] := data[byteIndex] | mask;
      } else {
        mask := !mask;
        data[byteIndex] := data[byteIndex] & mask;
      }
      assert data[..] == SetBit(old(data[..]), index, value);
      return true;
    }
  }

  lemma ByteSurvivesTheWire(b: bv8)
    ensures (b as byte) as bv8 == b
  {
  }

  /** BITFIELD exchange: what `Bytes` puts on the wire rebuilds the same field. */
  lemma FieldSurvivesTheWire(data: seq<bv8>)
    ensures FromWire(ToWire(data)) == data
  {
    forall i | 0 <= i < |data|
      ensures FromWire(ToWire(data))[i] == data[i]
    {
      ByteSurvivesTheWire(data[i]);
    }
  }

  /** A field with every bit set, as it is sent. */
  function FullWire(numPieces: nat): seq<byte> {
    seq(BytesFor(numPieces), _ => 255)
  }

  lemma {:induction false} FullWireHasAll(numPieces: nat, i: nat)
    requires i < numPieces
    ensures Bits(numPieces, FromWire(FullWire(numPieces))).Get(i) == Ok(true)
  {
    AllOnes();
    assert FromWire(FullWire(numPieces))[i / 8] == 255;
  }
}
