/** The libsodium primitives behind PyNaCl, taken as opaque functions, and
    the nonce||ciphertext framing that PyNaCl's `Box` and `SecretBox` put
    around them.

    `crypto_box_beforenm` (X25519 key agreement), the public key of a private
    key, and the XSalsa20-Poly1305 seal/open pair are parameters of every
    member that uses them. `crypto_box_easy_afternm` under a shared key and
    `crypto_secretbox_easy` under a group key are the same construction, so
    one seal/open pair serves both. What the model assumes of them is stated
    once, in `Lawful`, and passed as a precondition where it is needed. */
module Nacl {
  import opened Common

  /** `crypto_box_NONCEBYTES`: every nonce is 24 bytes. */
  const NONCE_SIZE: nat := 24
  /** Poly1305 tag length. */
  const MAC_SIZE: nat := 16
  /** Shared keys, group keys, public and private keys are 32 bytes. */
  const KEY_SIZE: nat := 32

  datatype Suite = Suite(
    /** X25519: `beforenm(their_public, my_private)`. */
    beforenm: (Bytes, Bytes) -> Bytes,
    /** The public key that belongs to a private key. */
    publicOf: Bytes -> Bytes,
    /** `seal(plaintext, nonce, key)` = MAC || body. */
    seal: (Bytes, Bytes, Bytes) -> Bytes,
    /** `open(ciphertext, nonce, key)`; None where libsodium reports a
        forgery, a wrong key or a short input. */
    open: (Bytes, Bytes, Bytes) -> Option<Bytes>)

  /** The idealised properties of the primitives: the ciphertext is the
      plaintext plus one tag; opening undoes sealing; opening succeeds only on
      what sealing produced (no forgery); both ends of a key agreement derive
      the same key. */
  ghost predicate Lawful(s: Suite) {
    && (forall pt, n, k :: |s.seal(pt, n, k)| == |pt| + MAC_SIZE)
    && (forall pt, n, k :: s.open(s.seal(pt, n, k), n, k) == Some(pt))
    && (forall c, n, k :: s.open(c, n, k).Some? ==> c == s.seal(s.open(c, n, k).value, n, k))
    && (forall a, b :: s.beforenm(s.publicOf(a), b) == s.beforenm(s.publicOf(b), a))
  }

  /** `PublicKey(raw)`: PyNaCl refuses raw keys that are not 32 bytes. */
  function PublicKeyFrom(raw: Bytes): (r: Option<Bytes>)
    ensures r.Some? <==> |raw| == KEY_SIZE
    ensures r.Some? ==> r.value == raw
  {
    if |raw| == KEY_SIZE then Some(raw) else None
  }

  /** `PublicKey(ub64(text))`: base64 decoding then the length check. */
  function ParsePublicKey(c: Codecs, text: string): (r: Option<Bytes>)
    ensures r.Some? <==> c.b64Decode(text).Some? && |c.b64Decode(text).value| == KEY_SIZE
    ensures r.Some? ==> r.value == c.b64Decode(text).value
  {
    match c.b64Decode(text)
    case None => None
    case Some(raw) => PublicKeyFrom(raw)
  }

  /** `SecretBox(key).encrypt(pt)` and `Box(...).encrypt(pt)` with the shared
      key: the random 24-byte nonce followed by the sealed text. None where
      PyNaCl raises (a key or nonce of the wrong size). */
  function FramedEncrypt(s: Suite, key: Bytes, pt: Bytes, nonce: Bytes): (r: Option<Bytes>)
    ensures r.Some? <==> |key| == KEY_SIZE && |nonce| == NONCE_SIZE
    ensures r.Some? ==> |r.value| >= NONCE_SIZE && r.value[..NONCE_SIZE] == nonce && r.value[NONCE_SIZE..] == s.seal(pt, nonce, key)
  {
    if |key| != KEY_SIZE || |nonce| != NONCE_SIZE then None
    else
      var r := nonce + s.seal(pt, nonce, key);
      assert r[..NONCE_SIZE] == nonce && r[NONCE_SIZE..] == s.seal(pt, nonce, key);
      Some(r)
  }

  /** `SecretBox(key).decrypt(combined)` and `Box(...).decrypt(combined)`:
      the first 24 bytes are the nonce, the rest is opened. */
  function FramedDecrypt(s: Suite, key: Bytes, combined: Bytes): (r: Option<Bytes>)
    ensures r.Some? <==>
      |key| == KEY_SIZE && |combined| >= NONCE_SIZE
      && s.open(combined[NONCE_SIZE..], combined[..NONCE_SIZE], key).Some?
    ensures r.Some? ==> r == s.open(combined[NONCE_SIZE..], combined[..NONCE_SIZE], key)
  {
    if |key| != KEY_SIZE || |combined| < NONCE_SIZE then None
    else s.open(combined[NONCE_SIZE..], combined[..NONCE_SIZE], key)
  }

  /** Whatever a framed encryption produces, the framed decryption under the
      same key gives back. */
  lemma FramedRoundTrip(s: Suite, key: Bytes, pt: Bytes, nonce: Bytes)
    requires Lawful(s)
    requires |key| == KEY_SIZE && |nonce| == NONCE_SIZE
    ensures FramedDecrypt(s, key, FramedEncrypt(s, key, pt, nonce).value) == Some(pt)
  {
    var c := FramedEncrypt(s, key, pt, nonce).value;
    assert c[NONCE_SIZE..] == s.seal(pt, nonce, key);
    assert s.open(s.seal(pt, nonce, key), nonce, key) == Some(pt);
  }

  /** A framed decryption that succeeds was given exactly the framed
      encryption of its result: tampering with any byte makes it fail unless
      the tampered text is itself an honest encryption. */
  lemma FramedAuthentic(s: Suite, key: Bytes, combined: Bytes)
    requires Lawful(s)
    requires FramedDecrypt(s, key, combined).Some?
    ensures |combined| >= NONCE_SIZE
    ensures combined == FramedEncrypt(s, key, FramedDecrypt(s, key, combined).value, combined[..NONCE_SIZE]).value
  {
    var n, ct := combined[..NONCE_SIZE], combined[NONCE_SIZE..];
    var pt := s.open(ct, n, key).value;
    assert ct == s.seal(pt, n, key);
    assert combined == n + ct;
  }
}
