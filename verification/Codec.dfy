/** The cached vector format (internal/embed/cache.go): a little-endian 32-bit count, then one 32-bit word per float. */
module Codec {
  import opened Common

  newtype byte = x: int | 0 <= x < 256

  /** A float32 by its bit pattern. */
  newtype word = x: int | 0 <= x < 0x1_0000_0000

  function PutWord(w: word): (b: seq<byte>)
    ensures |b| == 4
  {
    [(w % 256) as byte, (w / 0x100 % 256) as byte, (w / 0x1_0000 % 256) as byte, (w / 0x100_0000) as byte]
  }

  function GetWord(b: seq<byte>): word
    requires |b| == 4
  {
    (b[0] as int + 0x100 * b[1] as int + 0x1_0000 * b[2] as int + 0x100_0000 * b[3] as int) as word
  }

  lemma {:induction false} WordRoundTrip(w: word)
    ensures GetWord(PutWord(w)) == w
  {
    var x := w as int;
    var (a, b, c) := (x / 0x100, x / 0x1_0000, x / 0x100_0000);
    assert x == x % 256 + 0x100 * a;
    assert a == a % 256 + 0x100 * b by { assert a / 0x100 == b; }
    assert b == b % 256 + 0x100 * c by { assert b / 0x100 == c; }
  }

  lemma {:induction false} BytesRoundTrip(b: seq<byte>)
    requires |b| == 4
    ensures PutWord(GetWord(b)) == b
  {
    var x := GetWord(b) as int;
    assert x / 0x100_0000 == b[3] as int;
    assert x / 0x1_0000 == b[2] as int + 0x100 * b[3] as int;
    assert x / 0x100 == b[1] as int + 0x100 * b[2] as int + 0x1_0000 * b[3] as int;
  }

  function PutAll(vec: seq<word>): (b: seq<byte>)
    ensures |b| == 4 * |vec|
  {
    if vec == [] then [] else PutWord(vec[0]) + PutAll(vec[1..])
  }

  function GetAll(b: seq<byte>): (vec: seq<word>)
    requires |b| % 4 == 0
    ensures 4 * |vec| == |b|
  {
    if b == [] then [] else [GetWord(b[..4])] + GetAll(b[4..])
  }

  lemma {:induction false} AllRoundTrip(vec: seq<word>)
    ensures GetAll(PutAll(vec)) == vec
  {
    if vec != [] {
      var b := PutAll(vec);
      assert b[..4] == PutWord(vec[0]) && b[4..] == PutAll(vec[1..]);
      WordRoundTrip(vec[0]);
      AllRoundTrip(vec[1..]);
    }
  }

  lemma {:induction false} AllBytesRoundTrip(b: seq<byte>)
    requires |b| % 4 == 0
    ensures PutAll(GetAll(b)) == b
  {
    if b != [] {
      BytesRoundTrip(b[..4]);
      AllBytesRoundTrip(b[4..]);
      assert GetAll(b)[1..] == GetAll(b[4..]);
      assert b == b[..4] + b[4..];
    }
  }

  /** encodeVector: None when the count does not fit the prefix. */
  function Encode(vec: seq<word>): Option<seq<byte>> {
    if |vec| > 0xFFFF_FFFF then None else Some(PutWord(|vec| as word) + PutAll(vec))
  }

  /** decodeVector: None unless the length is exactly what the prefix announces. */
  function Decode(raw: seq<byte>): Option<seq<word>> {
    if |raw| < 4 then None
    else if |raw| != GetWord(raw[..4]) as int * 4 + 4 then None
    else Some(GetAll(raw[4..]))
  }

  /** Every vector that can be encoded decodes to itself. */
  lemma {:induction false} EncodeThenDecode(vec: seq<word>)
    requires |vec| <= 0xFFFF_FFFF
    ensures Encode(vec).Some? && Decode(Encode(vec).value) == Some(vec)
  {
    var raw := Encode(vec).value;
    assert raw[..4] == PutWord(|vec| as word) && raw[4..] == PutAll(vec);
    WordRoundTrip(|vec| as word);
    AllRoundTrip(vec);
  }

  /** What decodes is what was encoded: an entry is accepted if and only if it is the encoding of some vector, so a
      truncated or extended entry is never read as a vector of another dimension. */
  lemma {:induction false} DecodesIffEncoding(raw: seq<byte>)
    ensures Decode(raw).Some? <==> exists vec :: Encode(vec) == Some(raw)
    ensures Decode(raw).Some? ==> Encode(Decode(raw).value) == Some(raw)
  {
    if Decode(raw).Some? {
      var vec := Decode(raw).value;
      AllBytesRoundTrip(raw[4..]);
      BytesRoundTrip(raw[..4]);
      assert raw == raw[..4] + raw[4..];
      assert Encode(vec) == Some(raw);
    } else if vec :| Encode(vec) == Some(raw) {
      EncodeThenDecode(vec);
    }
  }

  /** No proper prefix and no extension of an accepted entry is accepted. */
  lemma {:induction false} TruncationIsRejected(raw: seq<byte>, other: seq<byte>)
    requires Decode(raw).Some? && Decode(other).Some? && raw <= other
    ensures raw == other
  {
    assert raw[..4] == other[..4];
    assert other == raw + other[|raw|..];
  }
}
