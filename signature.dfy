/**
 * The two webhook signature checks. The keyed hash (HMAC with SHA-256, RFC 2104,
 * digest in base64 as in section 4 of RFC 4648) and the UTF-8 encoding that
 * `Buffer.from` applies are foreign primitives, passed in as functions.
 */
module Signatures {
  import opened Wrappers
  import opened Payloads

  /** The foreign primitives: the base64 HMAC-SHA256 of a message under a key, and `Buffer.from(string)`. */
  datatype Crypto = Crypto(hmacBase64: (string, Bytes) -> string, utf8: string -> Bytes)

  /** A comparison either matches, mismatches, or throws instead of answering. */
  datatype Verdict = Match | Mismatch | Threw

  /** `crypto.timingSafeEqual`: throws on buffers of different lengths. */
  function TimingSafeEqual(a: Bytes, b: Bytes): Verdict {
    if |a| != |b| then Threw else if a == b then Match else Mismatch
  }

  /**
   * `verifyWebhook(rawBody, hmacHeader)` (api/checkout.js): `createHmac` throws
   * when the secret is unset, `Buffer.from` throws on a missing header.
   */
  function VerifyRaw(crypto: Crypto, secret: Option<string>, raw: Bytes, header: Option<string>): Verdict {
    match secret
    case None => Threw
    case Some(key) =>
      match header
      case None => Threw
      case Some(h) => TimingSafeEqual(crypto.utf8(crypto.hmacBase64(key, raw)), crypto.utf8(h))
  }

  /**
   * The raw check accepts exactly when a secret and a header are there and the
   * header encodes to the digest of the raw bytes; it throws, rather than
   * rejecting, when either is missing or their encodings differ in length.
   */
  lemma VerifyRawVerdicts(crypto: Crypto, secret: Option<string>, raw: Bytes, header: Option<string>)
    ensures VerifyRaw(crypto, secret, raw, header) == Match <==>
      secret.Some? && header.Some? &&
      crypto.utf8(crypto.hmacBase64(secret.value, raw)) == crypto.utf8(header.value)
    ensures VerifyRaw(crypto, secret, raw, header) == Threw <==>
      secret.None? || header.None? ||
      |crypto.utf8(crypto.hmacBase64(secret.value, raw))| != |crypto.utf8(header.value)|
    ensures VerifyRaw(crypto, secret, raw, header) == Mismatch ==>
      crypto.utf8(crypto.hmacBase64(secret.value, raw)) != crypto.utf8(header.value)
  {
  }

  /** A delivery signed over its exact bytes with the configured secret is accepted. */
  lemma VerifyRawAcceptsGenuine(crypto: Crypto, key: string, raw: Bytes)
    ensures VerifyRaw(crypto, Some(key), raw, Some(crypto.hmacBase64(key, raw))) == Match
  {
  }

  /**
   * `verifyWebhook(req)` (server.js): the digest of the UTF-8 bytes of
   * `JSON.stringify(req.body)`, compared with the header by `===`.
   */
  function VerifySerialized(crypto: Crypto, key: string, serialized: string, header: Option<string>): bool {
    header == Some(crypto.hmacBase64(key, crypto.utf8(serialized)))
  }

  /**
   * The server's check over the re-serialised body agrees with the raw check
   * when the re-serialisation reproduces the signed bytes, and rejects a
   * genuinely signed delivery whenever its digest differs from the raw one.
   */
  lemma SerializedVersusRaw(crypto: Crypto, key: string, serialized: string, raw: Bytes, header: Option<string>)
    ensures crypto.utf8(serialized) == raw && VerifySerialized(crypto, key, serialized, header) ==>
      VerifyRaw(crypto, Some(key), raw, header) == Match
    ensures header == Some(crypto.hmacBase64(key, raw)) &&
            crypto.hmacBase64(key, crypto.utf8(serialized)) != crypto.hmacBase64(key, raw) ==>
      !VerifySerialized(crypto, key, serialized, header)
  {
  }
}
