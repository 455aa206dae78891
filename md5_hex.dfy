/** The hex encoding of the md5 sample function (MD5.bytesToHex): each
    byte of the digest becomes two lowercase hex digits, high nibble first.
    The digest itself is a library computation and is not modelled. */
module Md5Hex {

  /** Java's signed byte. */
  newtype JavaByte = x: int | -128 <= x < 128

  /** `b & 0xFF`: the byte is widened with its sign, then masked, so a
      negative byte lands in 128 .. 255. */
  function Unsigned(b: JavaByte): (v: int)
    ensures 0 <= v < 256
    ensures b >= 0 ==> v == b as int
    ensures b < 0 ==> v == b as int + 256 && v >= 128
  {
    (b as int) % 256
  }

  /** The `(byte)` narrowing of a value in 0 .. 255. */
  function Signed(v: int): (b: JavaByte)
    requires 0 <= v < 256
    ensures Unsigned(b) == v
  {
    if v < 128 then v as JavaByte else (v - 256) as JavaByte
  }

  const HexArray: string := "0123456789abcdef"

  function HexDigit(d: nat): char
    requires d < 16
  {
    if d < 10 then (('0' as int) + d) as char else (('a' as int) + d - 10) as char
  }

  lemma HexArrayDigits()
    ensures |HexArray| == 16
    ensures forall d :: 0 <= d < 16 ==> HexArray[d] == HexDigit(d)
  {
    assert HexArray == seq(16, d requires 0 <= d < 16 => HexDigit(d));
  }

  /** `v >>> 4` on a value that fits in eight bits: the high nibble. */
  function HighNibble(v: int): (h: int)
    requires 0 <= v < 256
    ensures h == v / 16
  {
    ((v as bv8) >> 4) as int
  }

  /** `v & 0x0F` on a value that fits in eight bits: the low nibble. */
  function LowNibble(v: int): (l: int)
    requires 0 <= v < 256
    ensures l == v % 16
  {
    ((v as bv8) & 0x0F) as int
  }

  /** The two digits of one byte, high nibble first. */
  function HexPair(b: JavaByte): string {
    [HexArray[Unsigned(b) / 16], HexArray[Unsigned(b) % 16]]
  }

  /** The encoding, byte after byte. */
  function Hex(bytes: seq<JavaByte>): (s: string)
    ensures |s| == 2 * |bytes|
  {
    if bytes == [] then [] else Hex(bytes[..|bytes| - 1]) + HexPair(bytes[|bytes| - 1])
  }

  /** Characters 2i and 2i+1 are the digits of the high and the low
      nibble of byte i. */
  lemma {:induction false} HexAt(bytes: seq<JavaByte>, i: nat)
    requires i < |bytes|
    ensures Hex(bytes)[2 * i] == HexArray[Unsigned(bytes[i]) / 16]
    ensures Hex(bytes)[2 * i + 1] == HexArray[Unsigned(bytes[i]) % 16]
  {
    var n := |bytes| - 1;
    if i < n {
      HexAt(bytes[..n], i);
      assert bytes[..n][i] == bytes[i];
    }
  }

  /** Two arrays of characters that agree pair by pair agree everywhere. */
  lemma PairwiseEqual(s: string, t: string, n: nat)
    requires |s| == |t| == 2 * n
    requires forall j :: 0 <= j < n ==> s[2 * j] == t[2 * j] && s[2 * j + 1] == t[2 * j + 1]
    ensures s == t
  {
    forall k | 0 <= k < |s|
      ensures s[k] == t[k]
    {
      var j := k / 2;
      assert k == 2 * j || k == 2 * j + 1;
    }
  }

  /** bytesToHex: fills a char array two characters per byte. */
  method BytesToHex(bytes: array<JavaByte>) returns (s: string)
    ensures s == Hex(bytes[..])
  {
    var hexChars := new char[bytes.Length * 2];
    for i := 0 to bytes.Length
      invariant forall j :: 0 <= j < i ==>
        hexChars[2 * j] == HexArray[Unsigned(bytes[j]) / 16] && hexChars[2 * j + 1] == HexArray[Unsigned(bytes[j]) % 16]
    {
      var v := Unsigned(bytes[i]);
      hexChars[i * 2] := HexArray[HighNibble(v)];
      hexChars[i * 2 + 1] := HexArray[LowNibble(v)];
    }
    s := hexChars[..];
    forall j | 0 <= j < bytes.Length
      ensures s[2 * j] == Hex(bytes[..])[2 * j] && s[2 * j + 1] == Hex(bytes[..])[2 * j + 1]
    {
      HexAt(bytes[..], j);
    }
    PairwiseEqual(s, Hex(bytes[..]), bytes.Length);
  }

  /** Output length, the two characters of each byte, and digits drawn
      only from the lowercase table. */
  lemma HexShape(bytes: seq<JavaByte>)
    ensures |Hex(bytes)| == 2 * |bytes|
    ensures forall i :: 0 <= i < |bytes| ==>
      && Hex(bytes)[2 * i] == HexDigit(Unsigned(bytes[i]) / 16)
      && Hex(bytes)[2 * i + 1] == HexDigit(Unsigned(bytes[i]) % 16)
    ensures forall k :: 0 <= k < |Hex(bytes)| ==> Hex(bytes)[k] in HexArray && !('A' <= Hex(bytes)[k] <= 'Z')
  {
    HexArrayDigits();
    forall i | 0 <= i < |bytes|
      ensures Hex(bytes)[2 * i] == HexDigit(Unsigned(bytes[i]) / 16)
      ensures Hex(bytes)[2 * i + 1] == HexDigit(Unsigned(bytes[i]) % 16)
    {
      HexAt(bytes, i);
    }
  }

  /** The value of one digit of the table. */
  function HexValue(c: char): (d: nat)
    ensures d < 16
  {
    if '0' <= c <= '9' then (c as int) - ('0' as int)
    else if 'a' <= c <= 'f' then (c as int) - ('a' as int) + 10
    else 0
  }

  lemma HexValueDigit(d: nat)
    requires d < 16
    ensures HexValue(HexDigit(d)) == d
  {
  }

  lemma SignedUnsigned(b: JavaByte)
    ensures Signed(Unsigned(b)) == b
  {
  }

  /** Reading a pair of digits back as a byte. */
  function Unhex(s: string): (bytes: seq<JavaByte>)
    ensures |bytes| == |s| / 2
  {
    seq(|s| / 2, i requires 0 <= i < |s| / 2 => Signed(HexValue(s[2 * i]) * 16 + HexValue(s[2 * i + 1])))
  }

  lemma PairDecodes(bytes: seq<JavaByte>, i: nat)
    requires i < |bytes|
    ensures HexValue(Hex(bytes)[2 * i]) * 16 + HexValue(Hex(bytes)[2 * i + 1]) == Unsigned(bytes[i])
  {
    var v := Unsigned(bytes[i]);
    HexArrayDigits();
    HexAt(bytes, i);
    HexValueDigit(v / 16);
    HexValueDigit(v % 16);
  }

  /** Every byte comes back from its two digits: the encoding loses
      nothing. */
  lemma UnhexHex(bytes: seq<JavaByte>)
    ensures Unhex(Hex(bytes)) == bytes
  {
    var s := Hex(bytes);
    assert |Unhex(s)| == |bytes|;
    forall i | 0 <= i < |bytes|
      ensures Unhex(s)[i] == bytes[i]
    {
      PairDecodes(bytes, i);
      SignedUnsigned(bytes[i]);
    }
  }

  /** Distinct digests have distinct encodings. */
  lemma HexInjective(a: seq<JavaByte>, b: seq<JavaByte>)
    ensures Hex(a) == Hex(b) ==> a == b
  {
    UnhexHex(a);
    UnhexHex(b);
  }

  /** The md5 digest of "hello" that rr-0008 expects, as Java's signed
      bytes, encodes to the expected 32 characters. */
  lemma HelloDigest()
    ensures Hex([93, 65, 64, 42, -68, 75, 42, 118, -71, 113, -99, -111, 16, 23, -59, -110])
         == "5d41402abc4b2a76b9719d911017c592"
  {
    var b: seq<JavaByte> := [93, 65, 64, 42, -68, 75, 42, 118, -71, 113, -99, -111, 16, 23, -59, -110];
    assert Hex(b[..1]) == "5d";
    assert b[..2][..1] == b[..1];
    assert Hex(b[..2]) == "5d41";
    assert b[..3][..2] == b[..2];
    assert Hex(b[..3]) == "5d4140";
    assert b[..4][..3] == b[..3];
    assert Hex(b[..4]) == "5d41402a";
    assert b[..5][..4] == b[..4];
    assert Hex(b[..5]) == "5d41402abc";
    assert b[..6][..5] == b[..5];
    assert Hex(b[..6]) == "5d41402abc4b";
    assert b[..7][..6] == b[..6];
    assert Hex(b[..7]) == "5d41402abc4b2a";
    assert b[..8][..7] == b[..7];
    assert Hex(b[..8]) == "5d41402abc4b2a76";
    assert b[..9][..8] == b[..8];
    assert Hex(b[..9]) == "5d41402abc4b2a76b9";
    assert b[..10][..9] == b[..9];
    assert Hex(b[..10]) == "5d41402abc4b2a76b971";
    assert b[..11][..10] == b[..10];
    assert Hex(b[..11]) == "5d41402abc4b2a76b9719d";
    assert b[..12][..11] == b[..11];
    assert Hex(b[..12]) == "5d41402abc4b2a76b9719d91";
    assert b[..13][..12] == b[..12];
    assert Hex(b[..13]) == "5d41402abc4b2a76b9719d9110";
    assert b[..14][..13] == b[..13];
    assert Hex(b[..14]) == "5d41402abc4b2a76b9719d911017";
    assert b[..15][..14] == b[..14];
    assert Hex(b[..15]) == "5d41402abc4b2a76b9719d911017c5";
    assert b[..16][..15] == b[..15];
    assert Hex(b[..16]) == "5d41402abc4b2a76b9719d911017c592";
    assert b[..16] == b;
  }
}
