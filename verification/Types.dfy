/** The values that every part of the downloader shares: bytes, results of
    operations that may fail, and the records of types/types.go. */
module Types {

  newtype byte = x: int | 0 <= x < 256

  datatype Option<+T> = None | Some(value: T)

  /** `Err` is a returned Go error, `Panic` a run-time panic. */
  datatype Outcome<+T> = Ok(value: T) | Err | Panic

  type Digest = seq<byte>

  /** SHA-1 is left uninterpreted: every statement holds for any such function. */
  type HashFunction = seq<byte> -> Digest

  datatype PieceOrder = PieceOrder(index: nat, length: nat, hash: Digest)

  datatype Piece = Piece(index: nat, length: nat, data: seq<byte>, downloadedFrom: string)

  /** Pieces are all of one length (types/types.go:29-34), one hash each. */
  datatype Torrent = Torrent(name: seq<byte>, pieceHashes: seq<Digest>, pieceLength: nat, sha1: HashFunction) {
    function NumPieces(): nat {
      |pieceHashes|
    }

    /** Part files are named after the first 20 bytes; slicing a shorter name panics (client/client.go:313, 332,
        398). */
    predicate NamesParts() {
      |name| >= 20
    }
  }

  function Lengths(): Piece -> nat {
    (p: Piece) => p.length
  }

  const TWO_TO_THE_32: int := 0x1_0000_0000

  predicate FitsUint32(x: int) {
    0 <= x < TWO_TO_THE_32
  }

  function Min(x: int, y: int): int {
    if x < y then x else y
  }

  function Zeros(n: nat): (s: seq<byte>)
    ensures |s| == n
  {
    seq(n, _ => 0)
  }
}

/** encoding/binary's big-endian 32-bit fields, with the truncation of `uint32(x)`. */
module BigEndian {
  import opened Types

  /** The `k` low bytes of `x`, most significant first. */
  function PutBytes(x: int, k: nat): (s: seq<byte>)
    ensures |s| == k
    decreases k, x
  {
    if k == 0 then [] else PutBytes(x / 256, k - 1) + [(x % 256) as byte]
  }

  function GetBytes(s: seq<byte>): nat {
    if s == [] then 0 else GetBytes(s[..|s| - 1]) * 256 + s[|s| - 1] as int
  }

  function PutUint32(x: int): (s: seq<byte>)
    ensures |s| == 4
  {
    PutBytes(x, 4)
  }

  function Uint32(s: seq<byte>): nat
    requires |s| >= 4
  {
    GetBytes(s[..4])
  }

  lemma GetOfPut(x: int, k: nat)
    requires k > 0
    ensures GetBytes(PutBytes(x, k)) == GetBytes(PutBytes(x / 256, k - 1)) * 256 + x % 256
  {
    assert PutBytes(x, k)[..k - 1] == PutBytes(x / 256, k - 1);
  }

  lemma {:induction false} PutOfGet(s: seq<byte>)
    ensures PutBytes(GetBytes(s), |s|) == s
  {
    if s != [] {
      PutOfGet(s[..|s| - 1]);
      assert s == s[..|s| - 1] + [s[|s| - 1]];
    }
  }

  lemma SplitMod16(x: int)
    ensures x % 0x1_0000 == x / 256 % 256 * 256 + x % 256
  {
  }

  lemma SplitMod24(x: int)
    ensures x % 0x100_0000 == x / 256 % 0x1_0000 * 256 + x % 256
  {
  }

  lemma SplitMod32(x: int)
    ensures x % TWO_TO_THE_32 == x / 256 % 0x100_0000 * 256 + x % 256
  {
  }

  lemma GetOfPut4(x: int)
    ensures GetBytes(PutBytes(x, 4)) == x % TWO_TO_THE_32
  {
    var x1, x2, x3 := x / 256, x / 256 / 256, x / 256 / 256 / 256;
    GetOfPut(x, 4);
    GetOfPut(x1, 3);
    GetOfPut(x2, 2);
    GetOfPut(x3, 1);
    assert PutBytes(x3 / 256, 0) == [];
    SplitMod32(x);
    SplitMod24(x1);
    SplitMod16(x2);
  }

  lemma ModFixpoint(x: int, r: int)
    requires r == x % TWO_TO_THE_32
    ensures r == x <==> FitsUint32(x)
  {
  }

  /** A field reads back as the value modulo 2^32, so exactly the 32-bit values survive. */
  lemma PutThenGet(x: int)
    ensures Uint32(PutUint32(x)) == x % TWO_TO_THE_32
    ensures Uint32(PutUint32(x)) == x <==> FitsUint32(x)
  {
    GetOfPut4(x);
    assert PutUint32(x)[..4] == PutUint32(x);
    ModFixpoint(x, Uint32(PutUint32(x)));
  }

  lemma GetThenPut(s: seq<byte>)
    requires |s| == 4
    ensures FitsUint32(Uint32(s))
    ensures PutUint32(Uint32(s)) == s
  {
    assert s[..4] == s;
    PutOfGet(s);
    assert forall k :: 0 <= k < 4 ==> 0 <= s[k] as int < 256;
    Bounds(s);
  }

  lemma Bounds(s: seq<byte>)
    requires |s| == 4
    ensures GetBytes(s) < TWO_TO_THE_32
  {
    var a, b, c := s[..3], s[..2], s[..1];
    assert s[..3][..2] == b && b[..1] == c && c[..0] == [];
    assert GetBytes(c) < 256;
    assert GetBytes(b) < 0x1_0000;
    assert GetBytes(a) < 0x100_0000;
  }

  /** The most significant byte comes first. */
  lemma GetInNumbers(s: seq<byte>)
    requires |s| >= 4
    ensures Uint32(s) == s[0] as int * 0x100_0000 + s[1] as int * 0x1_0000 + s[2] as int * 0x100 + s[3] as int
  {
    var t := s[..4];
    assert t[..3][..2] == t[..2] && t[..2][..1] == t[..1] && t[..1][..0] == [];
    assert GetBytes(t[..1]) == s[0] as int;
    assert GetBytes(t[..2]) == s[0] as int * 0x100 + s[1] as int;
    assert GetBytes(t[..3]) == (s[0] as int * 0x100 + s[1] as int) * 0x100 + s[2] as int;
  }

  lemma PutInNumbers(x: int)
    ensures PutUint32(x)[0] as int == x / 0x100_0000 % 0x100
    ensures PutUint32(x)[1] as int == x / 0x1_0000 % 0x100
    ensures PutUint32(x)[2] as int == x / 0x100 % 0x100
    ensures PutUint32(x)[3] as int == x % 0x100
  {
    var x1, x2, x3 := x / 256, x / 256 / 256, x / 256 / 256 / 256;
    assert PutBytes(x, 4) == PutBytes(x1, 3) + [(x % 256) as byte];
    assert PutBytes(x1, 3) == PutBytes(x2, 2) + [(x1 % 256) as byte];
    assert PutBytes(x2, 2) == PutBytes(x3, 1) + [(x2 % 256) as byte];
    assert PutBytes(x3, 1) == PutBytes(x3 / 256, 0) + [(x3 % 256) as byte];
    assert x2 == x / 0x1_0000 && x3 == x / 0x100_0000;
  }

  /** Four bytes with a value, most significant first. */
  predicate HasValue(s: seq<byte>, x: int) {
    |s| == 4 && x == s[0] as int * 0x100_0000 + s[1] as int * 0x1_0000 + s[2] as int * 0x100 + s[3] as int
  }

  lemma {:induction false} FieldHasValue(s: seq<byte>, x: int)
    requires |s| == 4
    ensures Uint32(s) == x <==> HasValue(s, x)
    ensures FitsUint32(x) ==> (s == PutUint32(x) <==> HasValue(s, x))
  {
    GetInNumbers(s);
    GetThenPut(s);
    PutThenGet(x);
  }

  lemma {:induction false} PutValue(x: int, s: seq<byte>)
    requires HasValue(s, x)
    ensures PutUint32(x) == s
  {
    GetInNumbers(s);
    assert s[..4] == s;
    GetThenPut(s);
  }
}
