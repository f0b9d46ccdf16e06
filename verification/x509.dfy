/**
  X.509 naming utilities: the hex rendering of a digest, the subject serial
  number, the subject key identifier and the certificate serial number of a
  public key, and the length-bounded view of a certificate buffer.
 */
module X509 {
  import opened Types
  import opened FmcEnv
  import Crypto

  /** A certificate buffer of fixed capacity `|buf|` holding `len` bytes. */
  datatype Certificate = Certificate(buf: seq<byte>, len: nat)

  /** The certificate bytes, or nothing when `len` exceeds the buffer. */
  function CertificateGet(c: Certificate): (r: Option<seq<byte>>)
    ensures r.Some? <==> c.len <= |c.buf|
    ensures r.Some? ==> |r.value| == c.len && r.value <= c.buf
  {
    if c.len <= |c.buf| then Some(c.buf[..c.len]) else None
  }

  /** ASCII '0'..'9' (48..57) or 'A'..'F' (65..70). */
  predicate IsHexDigit(c: byte)
  {
    48 <= c <= 57 || 65 <= c <= 70
  }

  /** The nibble an upper-case hex digit stands for. */
  function HexValue(c: byte): byte
  {
    if c <= 57 then c - 48 else c - 55
  }

  /** The hex digit of the low nibble of `b`. */
  function Ch(b: byte): (c: byte)
    ensures IsHexDigit(c)
    ensures HexValue(c) == b & 0x0F
    ensures b & 0x0F < 10 <==> c <= 57
  {
    var nibble := b & 0x0F;
    if nibble <= 9 then 48 + nibble else 55 + nibble
  }

  /** Two hex digits per byte, high nibble first. */
  function Hex(buf: seq<byte>): (hex: seq<byte>)
    ensures |hex| == 2 * |buf|
    ensures forall j :: 0 <= j < |hex| ==> IsHexDigit(hex[j])
  {
    if |buf| == 0 then []
    else [Ch((buf[0] & 0xF0) >> 4), Ch(buf[0] & 0x0F)] + Hex(buf[1..])
  }

  /** Position 2i of the rendering holds the digit of the high nibble of
      byte i, position 2i+1 the digit of its low nibble. */
  lemma {:induction false} HexLayout(buf: seq<byte>, i: nat)
    requires i < |buf|
    ensures Hex(buf)[2 * i] == Ch((buf[i] & 0xF0) >> 4)
    ensures Hex(buf)[2 * i + 1] == Ch(buf[i] & 0x0F)
  {
    if i > 0 {
      HexLayout(buf[1..], i - 1);
      assert Hex(buf)[2..] == Hex(buf[1..]);
    }
  }

  /** Known answer: bytes 00 FF 10 A5 render as the ASCII text "00FF10A5". */
  lemma HexKnownAnswer()
    ensures Hex([0x00, 0xFF, 0x10, 0xA5]) == [48, 48, 70, 70, 49, 48, 65, 53]
  {
  }

  /** Reads hex digits back pair-wise into bytes. */
  function Unhex(hex: seq<byte>): (buf: seq<byte>)
    requires |hex| % 2 == 0
    ensures |buf| == |hex| / 2
  {
    if |hex| == 0 then []
    else [(HexValue(hex[0]) << 4) | HexValue(hex[1])] + Unhex(hex[2..])
  }

  lemma ByteRoundTrip(b: byte)
    ensures (HexValue(Ch((b & 0xF0) >> 4)) << 4) | HexValue(Ch(b & 0x0F)) == b
  {
  }

  /** Decoding the hex rendering recovers the bytes. */
  lemma {:induction false} UnhexHex(buf: seq<byte>)
    ensures Unhex(Hex(buf)) == buf
  {
    if |buf| > 0 {
      var hex := Hex(buf);
      assert hex[2..] == Hex(buf[1..]);
      ByteRoundTrip(buf[0]);
      UnhexHex(buf[1..]);
    }
  }

  /** Distinct buffers have distinct hex renderings. */
  lemma HexInjective(a: seq<byte>, b: seq<byte>)
    requires Hex(a) == Hex(b)
    ensures a == b
  {
    UnhexHex(a);
    UnhexHex(b);
  }

  /** Subject serial number: the 64 hex digits of SHA-256 of the DER key. */
  function SubjSn(e: Engines, pubKey: PubKey): (r: Result<Bytes64>)
    ensures e.sha256(e.toDer(pubKey)).Err? ==> r == Err(e.sha256(e.toDer(pubKey)).error)
    ensures e.sha256(e.toDer(pubKey)).Ok? ==> r.Ok? && Unhex(r.value) == e.sha256(e.toDer(pubKey)).value
    ensures r.Ok? ==> forall j :: 0 <= j < 64 ==> IsHexDigit(r.value[j])
  {
    var digest :- Crypto.Sha256Digest(e, e.toDer(pubKey));
    UnhexHex(digest);
    Ok(Hex(digest))
  }

  /** Subject key identifier: the first 20 bytes of SHA-256 of the DER key. */
  function SubjKeyId(e: Engines, pubKey: PubKey): (r: Result<Bytes20>)
    ensures e.sha256(e.toDer(pubKey)).Err? ==> r == Err(e.sha256(e.toDer(pubKey)).error)
    ensures e.sha256(e.toDer(pubKey)).Ok? ==> r.Ok? && r.value <= e.sha256(e.toDer(pubKey)).value
  {
    var digest :- Crypto.Sha256Digest(e, e.toDer(pubKey));
    Ok(digest[..20])
  }

  /** Certificate serial number: the first 20 digest bytes with bit 7 of the
      first byte cleared, so that the serial reads as a non-negative integer
      of at most 20 octets. */
  function CertSn(e: Engines, pubKey: PubKey): (r: Result<Bytes20>)
    ensures e.sha256(e.toDer(pubKey)).Err? ==> r == Err(e.sha256(e.toDer(pubKey)).error)
    ensures e.sha256(e.toDer(pubKey)).Ok? ==> r.Ok?
    ensures r.Ok? ==> r.value[0] & 0x80 == 0
    ensures r.Ok? ==> r.value[0] & 0x7F == e.sha256(e.toDer(pubKey)).value[0] & 0x7F
    ensures r.Ok? ==> r.value[1..] == e.sha256(e.toDer(pubKey)).value[1..20]
  {
    var digest :- Crypto.Sha256Digest(e, e.toDer(pubKey));
    var cleared := digest[0 := digest[0] & !0x80];
    Ok(cleared[..20])
  }

  /** The serial number and the key identifier of one key come from the same
      digest: they agree from byte 1 on, differ at most in bit 7 of byte 0, and
      are equal exactly when that bit of the digest is clear. */
  lemma CertSnVersusSubjKeyId(e: Engines, pubKey: PubKey)
    ensures CertSn(e, pubKey).Ok? <==> SubjKeyId(e, pubKey).Ok?
    ensures CertSn(e, pubKey).Err? ==> CertSn(e, pubKey).error == SubjKeyId(e, pubKey).error
    ensures CertSn(e, pubKey).Ok? ==>
              && CertSn(e, pubKey).value[1..] == SubjKeyId(e, pubKey).value[1..]
              && CertSn(e, pubKey).value[0] == SubjKeyId(e, pubKey).value[0] & 0x7F
              && (CertSn(e, pubKey).value == SubjKeyId(e, pubKey).value <==> SubjKeyId(e, pubKey).value[0] < 0x80)
  {
  }
}
