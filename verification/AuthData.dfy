/**
 * The binary layouts App Attest verification reads: authenticator data (section 6.1 of
 * W3C WebAuthn Level 2) and the nonce extension of the attestation certificate.
 */
module AuthData {
  import opened Prelude

  type Byte = b: int | 0 <= b < 256
  type Bytes = seq<Byte>

  datatype ParseError = TooShort | MissingCredentialData

  datatype AuthData = AuthData(rpIdHash: Bytes, flags: Byte, signCount: nat, aaguid: Option<Bytes>)
  {
    predicate HasCredentialData() { AtFlag(flags) }
  }

  /** Bit 6: attested credential data included. */
  predicate AtFlag(flags: Byte) { flags / 64 % 2 == 1 }

  /** In binary: whatever the bit above it and the six below. */
  lemma AtFlagIsBitSix(high: nat, bit: nat, low: nat)
    requires high < 2 && bit < 2 && low < 64
    ensures AtFlag(high * 128 + bit * 64 + low) <==> bit == 1
  {}

  function ReadUint32(b: Bytes): nat
    requires |b| == 4
  {
    var b0: int, b1: int, b2: int, b3: int := b[0], b[1], b[2], b[3];
    ((b0 * 256 + b1) * 256 + b2) * 256 + b3
  }

  function WriteUint32(n: nat): (r: Bytes)
    requires n < 0x1_0000_0000
    ensures |r| == 4 && ReadUint32(r) == n
  {
    var high, low := n / 65536, n % 65536;
    [high / 256, high % 256, low / 256, low % 256]
  }

  function Parse(b: Bytes): Result<AuthData, ParseError>
  {
    if |b| < 37 then Err(TooShort)
    else if AtFlag(b[32]) && |b| < 55 then Err(MissingCredentialData)
    else Ok(AuthData(b[..32], b[32], ReadUint32(b[33..37]), if AtFlag(b[32]) then Some(b[37..53]) else None))
  }

  /** rpIdHash (32) | flags (1) | signCount (4) | the rest, which begins with the aaguid when the flag says so. */
  function Layout(rpIdHash: Bytes, flags: Byte, signCount: nat, rest: Bytes): Bytes
    requires |rpIdHash| == 32 && signCount < 0x1_0000_0000
  {
    rpIdHash + [flags] + WriteUint32(signCount) + rest
  }

  /** Whatever is laid out is read back, as long as the credential data the flag promises is there. */
  lemma ParseReadsLayout(rpIdHash: Bytes, flags: Byte, signCount: nat, rest: Bytes)
    requires |rpIdHash| == 32 && signCount < 0x1_0000_0000
    ensures Parse(Layout(rpIdHash, flags, signCount, rest))
         == if AtFlag(flags) && |rest| < 18 then Err(MissingCredentialData)
            else Ok(AuthData(rpIdHash, flags, signCount, if AtFlag(flags) then Some(rest[..16]) else None))
  {
    var b := Layout(rpIdHash, flags, signCount, rest);
    assert b[..32] == rpIdHash;
    assert b[33..37] == WriteUint32(signCount);
    assert b[37..] == rest;
    assert AtFlag(flags) && 18 <= |rest| ==> b[37..53] == rest[..16];
  }

  lemma WritesWhatWasRead(b: Bytes)
    requires |b| == 4
    ensures ReadUint32(b) < 0x1_0000_0000 && WriteUint32(ReadUint32(b)) == b
  {
    var b0: int, b1: int, b2: int, b3: int := b[0], b[1], b[2], b[3];
    var n := ReadUint32(b);
    assert n == (b0 * 256 + b1) * 65536 + (b2 * 256 + b3);
    assert n / 65536 == b0 * 256 + b1 && n % 65536 == b2 * 256 + b3;
  }

  /** And whatever is accepted is the layout of what was read: nothing of the first 37 bytes is lost. */
  lemma AcceptedIsLayout(b: Bytes)
    requires Parse(b).Ok?
    ensures var ad := Parse(b).value;
            && |ad.rpIdHash| == 32 && ad.signCount < 0x1_0000_0000
            && b == Layout(ad.rpIdHash, ad.flags, ad.signCount, b[37..])
            && ad.aaguid == if ad.HasCredentialData() then Some(b[37..53]) else None
  {
    WritesWhatWasRead(b[33..37]);
  }

  // ---- the nonce extension ---------------------------------------------------------------

  /** SEQUENCE { [1] { OCTET STRING of 32 bytes } } in strict DER: every length is the one its content has. */
  function StrictNonce(nonce: Bytes): Bytes
    requires |nonce| == 32
  {
    [0x30, 36, 0xA1, 34, 0x04, 32] + nonce
  }

  /** The parser reads the tags and the innermost length, and steps over the two outer lengths. */
  method ExtractAppleNonce(raw: Bytes) returns (nonce: Option<Bytes>)
    ensures nonce == AppleNonce(raw)
  {
    var i := 0;
    if i < |raw| && raw[i] == 0x30 { i := i + 1; } else { return None; }
    i := i + 1;
    if i < |raw| && raw[i] == 0xA1 { i := i + 1; } else { return None; }
    i := i + 1;
    if i < |raw| && raw[i] == 0x04 { i := i + 1; } else { return None; }
    if i < |raw| && raw[i] == 0x20 { i := i + 1; } else { return None; }
    if i + 32 != |raw| { return None; }
    nonce := Some(raw[i..i + 32]);
    assert raw[6..38] == raw[6..];
  }

  function AppleNonce(raw: Bytes): Option<Bytes>
  {
    if |raw| == 38 && raw[0] == 0x30 && raw[2] == 0xA1 && raw[4] == 0x04 && raw[5] == 0x20 then Some(raw[6..]) else None
  }

  /** Every strict encoding is read back. */
  lemma StrictEncodingIsRead(nonce: Bytes)
    requires |nonce| == 32
    ensures AppleNonce(StrictNonce(nonce)) == Some(nonce)
  {}

  /** What is accepted is the strict encoding of the nonce exactly when the two skipped lengths are right. */
  lemma AcceptsStrictExactlyWhen(raw: Bytes)
    requires AppleNonce(raw).Some?
    ensures |AppleNonce(raw).value| == 32
    ensures raw == StrictNonce(AppleNonce(raw).value) <==> raw[1] == 36 && raw[3] == 34
  {}

  /** A value that is not DER, for its outer length says 255 bytes follow, is accepted all the same. */
  lemma LooseLengthIsAccepted(nonce: Bytes)
    requires |nonce| == 32
    ensures AppleNonce([0x30, 255, 0xA1, 0, 0x04, 32] + nonce) == Some(nonce)
    ensures [0x30, 255, 0xA1, 0, 0x04, 32] + nonce != StrictNonce(nonce)
  {}
}
