/**
 * The credential payload printed in a voter's QR code: the aadhaar number,
 * a colon, and the hex SHA-256 digest of the voter's password. Building it
 * is `generate_qr_data` (and the f-string in the register handler);
 * reading it back is `payload.split(':')` unpacked into exactly two names,
 * which raises `ValueError` unless the payload holds exactly one colon.
 */
module Credentials {
  import opened Wrappers
  import opened Text

  predicate IsDigit(c: char)
  {
    '0' <= c <= '9'
  }

  /**
   * The aadhaar format: exactly 12 characters, all digits. The register
   * handler checks this before inserting, and the `voters` table enforces
   * it with two CHECK constraints. A valid aadhaar holds no colon, so in a
   * QR payload the one colon is the separator.
   */
  predicate ValidAadhaar(aadhaar: string)
    ensures ValidAadhaar(aadhaar) ==> |aadhaar| == 12 && ':' !in aadhaar
  {
    |aadhaar| == 12 && forall i :: 0 <= i < |aadhaar| ==> IsDigit(aadhaar[i])
  }

  predicate IsHexDigit(c: char)
  {
    '0' <= c <= '9' || 'a' <= c <= 'f'
  }

  /** What `hashlib.sha256(...).hexdigest()` returns: 64 lower-case hex digits. */
  predicate IsHexDigest(s: string)
  {
    |s| == 64 && forall i :: 0 <= i < |s| ==> IsHexDigit(s[i])
  }

  type Digest = s: string | IsHexDigest(s)
    witness seq(64, _ => '0')

  /** The payload `f"{aadhaar}:{password_hash}"`. */
  function GenerateQrData(aadhaar: string, passwordHash: string): (qr: string)
    ensures |qr| == |aadhaar| + 1 + |passwordHash|
    ensures Count(qr, ':') == Count(aadhaar, ':') + 1 + Count(passwordHash, ':')
  {
    CountAppend(aadhaar, [':'], ':');
    CountAppend(aadhaar + [':'], passwordHash, ':');
    aadhaar + [':'] + passwordHash
  }

  /**
   * `aadhaar, password_hash = qr_data.split(':')`: `None` stands for the
   * `ValueError` raised when the split does not give exactly two parts.
   */
  function ParseQrData(qr: string): (r: Option<(string, string)>)
    ensures r.Some? <==> Count(qr, ':') == 1
    ensures r.Some? ==> ':' !in r.value.0 && ':' !in r.value.1
    ensures r.Some? ==> GenerateQrData(r.value.0, r.value.1) == qr
  {
    var parts := Split(qr, ':');
    if |parts| == 2 then
      assert Join(parts, ':') == parts[0] + [':'] + parts[1];
      Some((parts[0], parts[1]))
    else
      None
  }

  /** Building a payload from colon-free parts and parsing it returns the parts. */
  lemma QrRoundTrip(aadhaar: string, passwordHash: string)
    requires ':' !in aadhaar && ':' !in passwordHash
    ensures ParseQrData(GenerateQrData(aadhaar, passwordHash)) == Some((aadhaar, passwordHash))
  {
    SplitJoin([aadhaar, passwordHash], ':');
  }

  /** A colon inside either part makes the generated payload unparseable. */
  lemma QrColonInPart(aadhaar: string, passwordHash: string)
    requires ':' in aadhaar || ':' in passwordHash
    ensures ParseQrData(GenerateQrData(aadhaar, passwordHash)) == None
  {
    CountPositive(aadhaar, ':');
    CountPositive(passwordHash, ':');
  }

  /** The credentials the application issues always parse back to their parts. */
  lemma CredentialRoundTrip(aadhaar: string, passwordHash: Digest)
    requires ValidAadhaar(aadhaar)
    ensures ParseQrData(GenerateQrData(aadhaar, passwordHash)) == Some((aadhaar, passwordHash))
  {
    assert !IsDigit(':') && !IsHexDigit(':');
    QrRoundTrip(aadhaar, passwordHash);
  }
}
