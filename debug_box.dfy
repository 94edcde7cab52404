/** `DebugBox` of client/chat_client_logic.py: the pairwise box the GUI
    client uses. It derives the X25519 shared key once, and frames every
    ciphertext as nonce(24) || MAC(16) || body, with explicit length checks
    on both directions. Logging is left out; the primitives are those of
    `Nacl.Suite`. */
module DebugBox {
  import opened Common
  import opened Nacl

  /** The exceptions DebugBox raises, named after their messages. */
  datatype BoxError =
    | SharedKeyUnexpected  // "shared key inesperada"
    | InvalidNonce         // "nonce inválido (esperado 24 bytes)"
    | CiphertextTooShort   // "ciphertext muito curto"
    | BlobTooShort         // "blob muito curto para (nonce||ciphertext)"
    | MissingMac           // "ciphertext sem MAC"
    | Forged               // CryptoError from crypto_box_open_easy_afternm

  /** A constructed box: its own private key, the peer's public key and the
      derived shared key. */
  datatype Box = Box(priv: Bytes, pub: Bytes, sharedKey: Bytes)

  /** `DebugBox(private_key, public_key)`: refused when the derived shared
      key is not 32 bytes. */
  function New(s: Suite, priv: Bytes, pub: Bytes): (r: Result<Box, BoxError>)
    ensures r.Success? <==> |s.beforenm(pub, priv)| == KEY_SIZE
    ensures r.Success? ==> r.value.sharedKey == s.beforenm(pub, priv) && |r.value.sharedKey| == KEY_SIZE
    ensures r.Failure? ==> r.error == SharedKeyUnexpected
  {
    var k := s.beforenm(pub, priv);
    if |k| != KEY_SIZE then Failure(SharedKeyUnexpected) else Success(Box(priv, pub, k))
  }

  /** `encrypt(plaintext, nonce=None)`: `drawn` is what `os.urandom(24)`
      returned, used when no nonce is supplied. The output is the nonce
      followed by the sealed text. */
  function Encrypt(s: Suite, box: Box, plaintext: Bytes, nonce: Option<Bytes>, drawn: Bytes): (r: Result<Bytes, BoxError>)
    ensures var n := nonce.GetOr(drawn);
      && (|n| != NONCE_SIZE ==> r == Failure(InvalidNonce))
      && (|n| == NONCE_SIZE && |s.seal(plaintext, n, box.sharedKey)| < MAC_SIZE ==> r == Failure(CiphertextTooShort))
      && (r.Success? ==>
            && |r.value| >= NONCE_SIZE + MAC_SIZE
            && r.value[..NONCE_SIZE] == n
            && r.value[NONCE_SIZE..] == s.seal(plaintext, n, box.sharedKey))
      && (r.Failure? ==> r.error == InvalidNonce || r.error == CiphertextTooShort)
  {
    var n := nonce.GetOr(drawn);
    if |n| != NONCE_SIZE then Failure(InvalidNonce)
    else
      var ct := s.seal(plaintext, n, box.sharedKey);
      if |ct| < MAC_SIZE then Failure(CiphertextTooShort)
      else
        var out := n + ct;
        assert out[..NONCE_SIZE] == n && out[NONCE_SIZE..] == ct;
        Success(out)
  }

  /** `decrypt(combined, nonce=None)`: without a nonce, the input must hold
      at least a nonce and a MAC and is split at byte 24; with one, the
      nonce must be 24 bytes and the input at least a MAC. */
  function Decrypt(s: Suite, box: Box, combined: Bytes, nonce: Option<Bytes>): (r: Result<Bytes, BoxError>)
    ensures nonce.None? ==>
      && (r == Failure(BlobTooShort) <==> |combined| < NONCE_SIZE + MAC_SIZE)
      && (|combined| >= NONCE_SIZE + MAC_SIZE ==>
            r == Opened(s.open(combined[NONCE_SIZE..], combined[..NONCE_SIZE], box.sharedKey)))
    ensures nonce.Some? ==>
      && (|nonce.value| != NONCE_SIZE ==> r == Failure(InvalidNonce))
      && (|nonce.value| == NONCE_SIZE && |combined| < MAC_SIZE ==> r == Failure(MissingMac))
      && (|nonce.value| == NONCE_SIZE && |combined| >= MAC_SIZE ==>
            r == Opened(s.open(combined, nonce.value, box.sharedKey)))
  {
    if nonce.None? && |combined| < NONCE_SIZE + MAC_SIZE then Failure(BlobTooShort)
    else
      var n := if nonce.None? then combined[..NONCE_SIZE] else nonce.value;
      var ct := if nonce.None? then combined[NONCE_SIZE..] else combined;
      if |n| != NONCE_SIZE then Failure(InvalidNonce)
      else if |ct| < MAC_SIZE then Failure(MissingMac)
      else Opened(s.open(ct, n, box.sharedKey))
  }

  /** A libsodium open result as DebugBox reports it. */
  function Opened(o: Option<Bytes>): (r: Result<Bytes, BoxError>)
    ensures r.Success? <==> o.Some?
    ensures r.Success? ==> r.value == o.value
    ensures r.Failure? ==> r.error == Forged
  {
    match o
    case None => Failure(Forged)
    case Some(pt) => Success(pt)
  }

  /** Under lawful primitives encryption fails only on a bad nonce, and its
      output is exactly 40 bytes longer than the plaintext. */
  lemma EncryptLength(s: Suite, box: Box, plaintext: Bytes, nonce: Option<Bytes>, drawn: Bytes)
    requires Lawful(s)
    ensures var r := Encrypt(s, box, plaintext, nonce, drawn);
      && (r.Success? <==> |nonce.GetOr(drawn)| == NONCE_SIZE)
      && (r.Success? ==> |r.value| == NONCE_SIZE + MAC_SIZE + |plaintext|)
  {
    var n := nonce.GetOr(drawn);
    assert |s.seal(plaintext, n, box.sharedKey)| == |plaintext| + MAC_SIZE;
  }

  /** Decrypting what the same box encrypted gives the plaintext back,
      whether the nonce is left in the blob or passed separately. */
  lemma RoundTrip(s: Suite, box: Box, plaintext: Bytes, drawn: Bytes)
    requires Lawful(s)
    requires |drawn| == NONCE_SIZE
    ensures Encrypt(s, box, plaintext, None, drawn).Success?
    ensures var c := Encrypt(s, box, plaintext, None, drawn).value;
      && Decrypt(s, box, c, None) == Success(plaintext)
      && Decrypt(s, box, c[NONCE_SIZE..], Some(c[..NONCE_SIZE])) == Success(plaintext)
  {
    var ct := s.seal(plaintext, drawn, box.sharedKey);
    assert |ct| == |plaintext| + MAC_SIZE;
    assert s.open(ct, drawn, box.sharedKey) == Some(plaintext);
    var c := Encrypt(s, box, plaintext, None, drawn).value;
    assert c[NONCE_SIZE..] == ct && c[..NONCE_SIZE] == drawn;
  }

  /** Two parties each building a box from their own private key and the
      other's public key get the same shared key, so what one encrypts the
      other decrypts. */
  lemma PairwiseRoundTrip(s: Suite, privA: Bytes, privB: Bytes, plaintext: Bytes, drawn: Bytes)
    requires Lawful(s)
    requires |drawn| == NONCE_SIZE
    requires New(s, privA, s.publicOf(privB)).Success?
    ensures New(s, privB, s.publicOf(privA)).Success?
    ensures var a := New(s, privA, s.publicOf(privB)).value;
      var b := New(s, privB, s.publicOf(privA)).value;
      && a.sharedKey == b.sharedKey
      && Decrypt(s, b, Encrypt(s, a, plaintext, None, drawn).value, None) == Success(plaintext)
  {
    assert s.beforenm(s.publicOf(privB), privA) == s.beforenm(s.publicOf(privA), privB);
    var a := New(s, privA, s.publicOf(privB)).value;
    var b := New(s, privB, s.publicOf(privA)).value;
    RoundTrip(s, a, plaintext, drawn);
  }

  /** A decryption that succeeds was given exactly an encryption of its
      result under the same shared key: a blob with any byte changed opens
      only if it is itself an honest encryption, never to other text. */
  lemma DecryptAuthentic(s: Suite, box: Box, combined: Bytes)
    requires Lawful(s)
    requires Decrypt(s, box, combined, None).Success?
    ensures |combined| >= NONCE_SIZE + MAC_SIZE
    ensures Encrypt(s, box, Decrypt(s, box, combined, None).value, Some(combined[..NONCE_SIZE]), []) == Success(combined)
  {
    var n, ct := combined[..NONCE_SIZE], combined[NONCE_SIZE..];
    var pt := s.open(ct, n, box.sharedKey).value;
    assert ct == s.seal(pt, n, box.sharedKey);
    assert combined == n + ct;
  }
}
