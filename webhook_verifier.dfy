// GitHub webhook signatures: the `X-Hub-Signature-256` header must be
// `sha256=` followed by the hexadecimal HMAC-SHA-256 (RFC 2104) of the raw
// request body under the shared secret. The hex rendering of a digest is a
// parameter; `hmac.compare_digest` on text refuses non-ASCII strings.

module WebhookVerification {
  import opened Common
  import opened Hashing

  const SignaturePrefix: string := "sha256="

  /** The verifier holds only the UTF-8 encoded secret. */
  datatype WebhookVerifier = WebhookVerifier(secret: seq<byte>)

  function NewVerifier(secret: string): (v: WebhookVerifier)
    ensures v.secret == Utf8(secret)
  {
    WebhookVerifier(Utf8(secret))
  }

  /** The signature header GitHub sends for `payload`. */
  function SignatureOf(secret: seq<byte>, payload: seq<byte>, hex: Digest -> string): string {
    SignaturePrefix + hex(HmacSha256(secret, payload))
  }

  /** `hmac.compare_digest(a, b)` on two strings. */
  function CompareDigest(a: string, b: string): (r: Result<bool>)
    ensures r.Ok? <==> IsAscii(a) && IsAscii(b)
    ensures r.Ok? ==> (r.value <==> a == b)
    ensures r.Err? ==> r.error.TypeError?
  {
    if IsAscii(a) && IsAscii(b) then Ok(a == b)
    else Err(TypeError("comparing strings with non-ASCII characters is not supported"))
  }

  /** `verify_signature`: a missing or empty header and a header without
      the `sha256=` prefix are rejected; otherwise the rest of the header
      must be the hex HMAC of the payload. */
  function VerifySignature(v: WebhookVerifier, payload: seq<byte>, header: Option<string>, hex: Digest -> string): (r: Result<bool>)
    ensures header == None || header == Some("") ==> r == Ok(false)
    ensures header.Some? && !StartsWith(header.value, SignaturePrefix) ==> r == Ok(false)
    ensures r == Ok(true) <==> header == Some(SignatureOf(v.secret, payload, hex)) && IsAscii(hex(HmacSha256(v.secret, payload)))
    ensures r.Err? ==> r.error.TypeError? && header.Some? && StartsWith(header.value, SignaturePrefix)
  {
    if header.None? || header.value == "" then Ok(false)
    else if !StartsWith(header.value, SignaturePrefix) then Ok(false)
    else
      var expected := header.value[7..];
      assert header.value == SignaturePrefix + expected;
      CompareDigest(hex(HmacSha256(v.secret, payload)), expected)
  }

  /** The hex rendering of a digest is 64 ASCII characters and tells
      digests apart, as `hexdigest` does. */
  ghost predicate HexDigest(hex: Digest -> string) {
    && (forall d :: |hex(d)| == 64 && IsAscii(hex(d)))
    && (forall d1, d2 :: hex(d1) == hex(d2) ==> d1 == d2)
  }

  /** A payload signed with the verifier's secret is accepted. */
  lemma SignedPayloadAccepted(secret: string, payload: seq<byte>, hex: Digest -> string)
    requires HexDigest(hex)
    ensures VerifySignature(NewVerifier(secret), payload, Some(SignatureOf(Utf8(secret), payload, hex)), hex) == Ok(true)
  {
    assert IsAscii(hex(HmacSha256(Utf8(secret), payload)));
  }

  /** A signature made for another payload or with another secret is
      rejected, not raised. */
  lemma ForeignSignatureRejected(secret: string, payload: seq<byte>, otherKey: seq<byte>, otherPayload: seq<byte>, hex: Digest -> string)
    requires HexDigest(hex)
    requires otherKey != Utf8(secret) || otherPayload != payload
    ensures VerifySignature(NewVerifier(secret), payload, Some(SignatureOf(otherKey, otherPayload, hex)), hex) == Ok(false)
  {
    var v := NewVerifier(secret);
    var mine := HmacSha256(v.secret, payload);
    var theirs := HmacSha256(otherKey, otherPayload);
    assert mine != theirs;
    assert hex(mine) != hex(theirs);
    assert IsAscii(hex(mine)) && IsAscii(hex(theirs));
    var header := SignatureOf(otherKey, otherPayload, hex);
    assert StartsWith(header, SignaturePrefix) && header[7..] == hex(theirs);
  }

  /** The header `sha256=invalid_signature` is too short to be any digest
      and is rejected; so is the `md5=` form. */
  lemma MalformedHeadersRejected(v: WebhookVerifier, payload: seq<byte>, hex: Digest -> string)
    requires HexDigest(hex)
    ensures VerifySignature(v, payload, Some("sha256=invalid_signature"), hex) == Ok(false)
    ensures VerifySignature(v, payload, Some("md5=somehash"), hex) == Ok(false)
    ensures VerifySignature(v, payload, None, hex) == Ok(false)
  {
    var header := "sha256=invalid_signature";
    assert StartsWith(header, SignaturePrefix);
    assert |header[7..]| == 17;
    assert IsAscii(header[7..]);
    assert IsAscii(hex(HmacSha256(v.secret, payload)));
    assert !StartsWith("md5=somehash", SignaturePrefix) by {
      assert "md5=somehash"[0] != SignaturePrefix[0];
    }
  }

  /** `verify_request`: the raw body when the signature checks out, and
      HTTP 401 when it does not. */
  function VerifyRequest(v: WebhookVerifier, body: seq<byte>, header: Option<string>, hex: Digest -> string): (r: Result<seq<byte>>)
    ensures r.Ok? <==> VerifySignature(v, body, header, hex) == Ok(true)
    ensures r.Ok? ==> r.value == body
    ensures VerifySignature(v, body, header, hex) == Ok(false) <==> r == Err(HttpError(401, "Invalid webhook signature"))
  {
    match VerifySignature(v, body, header, hex)
    case Err(e) => Err(e)
    case Ok(valid) =>
      if !valid then Err(HttpError(401, "Invalid webhook signature")) else Ok(body)
  }
}
