/** What the two clients, the GUI's `ChatLogic` and the command-line
    client.py, put on the wire in the same shape: the client's identity, the
    two envelopes carried inside `send_blob` requests, and the record of a
    key-distribution loop. */
module Envelopes {
  import opened Common
  import opened Nacl
  import R = RelayState

  /** `client_id`, the private key and `bytes(priv.public_key)`. */
  datatype Identity = Identity(clientId: string, priv: Bytes, pub: Bytes)

  /** What `load_or_create_keys` guarantees of a client's own key pair. */
  predicate WellFormed(s: Suite, me: Identity) {
    me.pub == s.publicOf(me.priv) && |me.pub| == KEY_SIZE
  }

  const KEY_DISTRIBUTION := "group_key_distribution"

  /** The envelope of a private message. */
  function PrivateEnvelope(c: Codecs, me: Identity, cipher: Bytes): Json {
    JObj(map["sender_pub" := JStr(c.b64Encode(me.pub)), "blob" := JStr(c.b64Encode(cipher))])
  }

  /** The envelope carrying a group key, boxed for one member. */
  function KeyEnvelope(c: Codecs, me: Identity, gid: string, keyBlob: Bytes): Json {
    JObj(map["type" := JStr(KEY_DISTRIBUTION), "group_id" := JStr(gid),
             "sender_pub" := JStr(c.b64Encode(me.pub)), "key_blob" := JStr(c.b64Encode(keyBlob))])
  }

  /** A `send_blob` request from this client, without "meta". */
  function SendBlobTo(c: Codecs, me: Identity, to: string, envelope: Json): R.Request {
    R.SendBlob(Some(to), Some(me.clientId), Some(c.blobEncode(envelope)), None)
  }

  /** The requests sent for a prefix of the members, and whether the loop is
      still running (False once an exception escaped). */
  datatype Distribution = Distribution(sent: seq<R.Request>, ok: bool)

  /** Every request the distribution loop sends concerns a listed member
      other than the creator: a key lookup, or a `send_blob` from the
      creator to that member. */
  predicate ToOtherMember(r: R.Request, admin: Identity, members: seq<string>) {
    || (r.GetKey? && r.clientId.Some? && r.clientId.value in members && r.clientId.value != admin.clientId)
    || (r.SendBlob? && r.to.Some? && r.to.value in members && r.to.value != admin.clientId && r.from == Some(admin.clientId))
  }
}
