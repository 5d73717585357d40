/** The byte layout of a stored key envelope: magic, version, initialization vector,
    authentication tag, ciphertext. */
module KeyEnvelope {
  import opened Options

  type Byte = n: nat | n < 256

  const ENVELOPE_MAGIC: seq<Byte> := [65, 76, 86, 89]
  const IV_LENGTH := 12
  const AUTH_TAG_LENGTH := 16
  const KEY_LENGTH := 32
  const ENVELOPE_HEADER_LENGTH := 8
  const ENVELOPE_LENGTH := 68

  datatype Parts = Parts(version: nat, iv: seq<Byte>, authTag: seq<Byte>, ciphertext: seq<Byte>) {
    predicate Valid() {
      version < 0x1_0000_0000 && |iv| == IV_LENGTH && |authTag| == AUTH_TAG_LENGTH && |ciphertext| == KEY_LENGTH
    }
  }

  function High(n: nat): nat {
    n / 256
  }

  function Low(n: nat): Byte {
    n % 256
  }

  function Shifted(high: nat, low: Byte): nat {
    high * 256 + low
  }

  /** writeUInt32BE. */
  function UInt32(n: nat): (b: seq<Byte>)
    requires n < 0x1_0000_0000
    ensures |b| == 4
  {
    HighBound(n, 0x100_0000);
    HighBound(High(n), 0x1_0000);
    HighBound(High(High(n)), 0x100);
    [High(High(High(n))), Low(High(High(n))), Low(High(n)), Low(n)]
  }

  /** readUInt32BE. */
  function ReadUInt32(b: seq<Byte>): nat
    requires |b| == 4
  {
    Shifted(Shifted(Shifted(b[0], b[1]), b[2]), b[3])
  }

  lemma HighBound(n: nat, bound: nat)
    ensures n < bound * 256 ==> High(n) < bound
  {
  }

  lemma ShiftedDigits(high: nat, low: Byte)
    ensures High(Shifted(high, low)) == high && Low(Shifted(high, low)) == low
    ensures forall bound: nat :: high < bound ==> Shifted(high, low) < bound * 256
  {
  }

  lemma DigitsShifted(n: nat)
    ensures Shifted(High(n), Low(n)) == n
  {
  }

  lemma WriteThenRead(n: nat)
    requires n < 0x1_0000_0000
    ensures ReadUInt32(UInt32(n)) == n
  {
    hide High, Low, Shifted;
    DigitsShifted(n);
    DigitsShifted(High(n));
    DigitsShifted(High(High(n)));
  }

  lemma ReadThenWrite(b: seq<Byte>)
    requires |b| == 4
    ensures ReadUInt32(b) < 0x1_0000_0000 && UInt32(ReadUInt32(b)) == b
  {
    hide High, Low, Shifted;
    var two := Shifted(b[0], b[1]);
    var three := Shifted(two, b[2]);
    ShiftedDigits(b[0], b[1]);
    ShiftedDigits(two, b[2]);
    ShiftedDigits(three, b[3]);
    assert two < 256 * 256;
    assert three < 65536 * 256;
    assert Shifted(three, b[3]) < 0x100_0000 * 256;
  }

  function Encode(p: Parts): seq<Byte>
    requires p.Valid()
  {
    ENVELOPE_MAGIC + UInt32(p.version) + p.iv + p.authTag + p.ciphertext
  }

  /** buffer.subarray(0, n): clamped to the buffer. */
  function Head(b: seq<Byte>, n: nat): seq<Byte> {
    if n <= |b| then b[..n] else b
  }

  /** The checks and cuts of decryptStoredKey and decryptWithSecret; None stands for the
      invalid-envelope error. */
  function Decode(b: seq<Byte>): Option<Parts> {
    if Head(b, |ENVELOPE_MAGIC|) != ENVELOPE_MAGIC || |b| != ENVELOPE_LENGTH then None
    else
      var ivEnd := ENVELOPE_HEADER_LENGTH + IV_LENGTH;
      Some(Parts(ReadUInt32(b[4..8]), b[ENVELOPE_HEADER_LENGTH..ivEnd],
                 b[ivEnd..ivEnd + AUTH_TAG_LENGTH], b[ivEnd + AUTH_TAG_LENGTH..]))
  }

  /** Decoding is the inverse of encoding on every envelope the manager writes, and accepts no
      other bytes. */
  lemma EnvelopeRoundTrip(p: Parts, b: seq<Byte>)
    requires p.Valid()
    ensures Decode(Encode(p)) == Some(p)
    ensures Decode(b).Some? <==> exists q: Parts :: q.Valid() && Encode(q) == b
    ensures Decode(b).Some? ==> Decode(b).value.Valid() && Encode(Decode(b).value) == b
  {
    EncodeThenDecode(p);
    if Decode(b).Some? {
      DecodeThenEncode(b);
      hide Encode, Decode;
      var q := Decode(b).value;
      assert q.Valid() && Encode(q) == b;
    }
    hide Encode, Decode;
    forall q: Parts | q.Valid() && Encode(q) == b ensures Decode(b).Some? {
      EncodeThenDecode(q);
    }
  }

  lemma DecodeThenEncode(b: seq<Byte>)
    requires Decode(b).Some?
    ensures Decode(b).value.Valid() && Encode(Decode(b).value) == b
  {
    ReadThenWrite(b[4..8]);
    hide UInt32, ReadUInt32;
    assert b[..4] == ENVELOPE_MAGIC;
    assert b[..8] == b[..4] + b[4..8];
    assert b[..20] == b[..8] + b[8..20];
    assert b[..36] == b[..20] + b[20..36];
    assert b == b[..36] + b[36..];
  }

  lemma EncodeThenDecode(p: Parts)
    requires p.Valid()
    ensures Decode(Encode(p)) == Some(p)
  {
    hide UInt32, ReadUInt32;
    WriteThenRead(p.version);
    var header := ENVELOPE_MAGIC + UInt32(p.version);
    Cut(ENVELOPE_MAGIC, UInt32(p.version), p.iv + p.authTag + p.ciphertext);
    Cut(header, p.iv, p.authTag + p.ciphertext);
    Cut(header + p.iv, p.authTag, p.ciphertext);
    assert Encode(p) == ENVELOPE_MAGIC + UInt32(p.version) + (p.iv + p.authTag + p.ciphertext);
    assert Encode(p) == header + p.iv + (p.authTag + p.ciphertext);
    assert Encode(p) == header + p.iv + p.authTag + p.ciphertext;
  }

  lemma Cut<T>(a: seq<T>, b: seq<T>, c: seq<T>)
    ensures (a + b + c)[..|a|] == a && (a + b + c)[|a|..|a| + |b|] == b && (a + b + c)[|a| + |b|..] == c
  {
  }
}
