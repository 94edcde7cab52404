/** What the GUI client's protocol promises, proved about the functions of
    `ChatClientLogic`: a message one client sends is read back by its
    recipient word for word, a distributed group key reaches every member
    whose public key the relay knows, and receiving never loses or retypes
    a conversation. */
module ChatClientProperties {
  import opened Common
  import opened Nacl
  import DebugBox
  import R = RelayState
  import opened Persistence
  import opened Envelopes
  import opened ChatClientLogic

  /** `b` keeps every conversation of `a`, with the same type and with the
      old history as a prefix. */
  predicate Extends(a: Conversations, b: Conversations) {
    forall id :: id in a ==> id in b && b[id].kind == a[id].kind && a[id].history <= b[id].history
  }

  /** `b` and `a` agree on every conversation other than `id`. */
  ghost predicate SameExcept(a: Conversations, b: Conversations, id: string) {
    forall other :: other != id ==> (other in a <==> other in b) && (other in a ==> b[other] == a[other])
  }

  // ----- The pairwise box, end to end -----

  /** What `SealForPeer` produces with the recipient's published key, the
      recipient opens from an envelope carrying the sender's public key:
      both ends derive the same shared key. */
  lemma PeerRoundTrip(s: Suite, c: Codecs, sender: Identity, privB: Bytes, pubkeyText: string, pt: Bytes, nonce: Bytes,
                      env: map<string, Json>, field: string)
    requires Lawful(s) && LawfulCodecs(c) && WellFormed(s, sender)
    requires c.b64Decode(pubkeyText) == Some(s.publicOf(privB))
    requires SealForPeer(s, c, sender, pubkeyText, pt, nonce).Some?
    requires "sender_pub" in env && env["sender_pub"] == JStr(c.b64Encode(sender.pub))
    requires field in env && env[field] == JStr(c.b64Encode(SealForPeer(s, c, sender, pubkeyText, pt, nonce).value))
    ensures OpenFromPeer(s, c, privB, env, field) == Some(pt)
  {
    var peer := s.publicOf(privB);
    var boxA := DebugBox.New(s, sender.priv, peer).value;
    var ct := SealForPeer(s, c, sender, pubkeyText, pt, nonce).value;
    assert DebugBox.Encrypt(s, boxA, pt, None, nonce) == Success(ct);
    DebugBox.RoundTrip(s, boxA, pt, nonce);
    assert s.beforenm(s.publicOf(sender.priv), privB) == s.beforenm(s.publicOf(privB), sender.priv);
    assert ParsePublicKey(c, c.b64Encode(sender.pub)) == Some(sender.pub);
    var boxB := DebugBox.New(s, privB, sender.pub).value;
    assert boxB.sharedKey == boxA.sharedKey;
    assert DebugBox.Decrypt(s, boxB, ct, None) == DebugBox.Decrypt(s, boxA, ct, None);
  }

  /** A private message `send_private_message` sends, once fetched by the
      recipient, is appended to the recipient's conversation with the
      sender (created if it was missing), with the sender as author and the
      original text; no other conversation changes. */
  lemma PrivateMessageDelivered(s: Suite, c: Codecs, alice: Identity, bob: string, text: string, answer: R.Response,
                                nonce: Bytes, privB: Bytes, convs: Conversations, meta: Json, ts: string)
    requires Lawful(s) && LawfulCodecs(c) && WellFormed(s, alice)
    requires answer.KeyFound? && c.b64Decode(answer.pubkey) == Some(s.publicOf(privB))
    requires SendPrivateMessage(s, c, alice, bob, text, answer, nonce).reply.Done?
    ensures var req := SendPrivateMessage(s, c, alice, bob, text, answer, nonce).requests[1];
      && req.SendBlob? && req.to == Some(bob) && req.from == Some(alice.clientId) && req.blob.Some?
      && (var h := Receive(s, c, privB, convs, R.PrivateBlob(alice.clientId, req.blob.value, meta), ts);
          && !h.abort
          && alice.clientId in h.convs
          && h.convs[alice.clientId].kind == (if alice.clientId in convs then convs[alice.clientId].kind else PRIVATE_KIND)
          && h.convs[alice.clientId].history
               == (if alice.clientId in convs then convs[alice.clientId].history else []) + [HistoryEntry(ts, alice.clientId, text)]
          && SameExcept(convs, h.convs, alice.clientId))
  {
    var cipher := SealForPeer(s, c, alice, answer.pubkey, c.utf8Encode(text), nonce).value;
    var envJson := PrivateEnvelope(c, alice, cipher);
    var env := envJson.fields;
    assert c.blobDecode(c.blobEncode(envJson)) == Some(envJson);
    assert OpenEnvelope(c, c.blobEncode(envJson)) == Some(env);
    assert Get(JObj(env), "type").None?;
    PeerRoundTrip(s, c, alice, privB, answer.pubkey, c.utf8Encode(text), nonce, env, "blob");
    assert c.utf8Decode(c.utf8Encode(text)) == Some(text);
  }

  /** A group message `send_group_message` sends is appended, as written,
      to the group conversation of every member holding the same key. */
  lemma GroupMessageDelivered(s: Suite, c: Codecs, alice: Identity, convsA: Conversations, gid: string, text: string,
                              nonce: Bytes, privB: Bytes, convsB: Conversations, ts: string)
    requires Lawful(s) && LawfulCodecs(c)
    requires SendGroupMessage(s, c, alice, convsA, gid, text, nonce).reply.Done?
    requires gid in convsA && gid in convsB && convsB[gid].key == convsA[gid].key
    ensures var req := SendGroupMessage(s, c, alice, convsA, gid, text, nonce).requests[0];
      && req.SendGroupBlob? && req.groupId == Some(gid) && req.from == Some(alice.clientId) && req.blob.Some?
      && Receive(s, c, privB, convsB, R.GroupBlob(alice.clientId, req.blob.value, gid), ts)
           == Handled(AppendEntry(convsB, gid, HistoryEntry(ts, alice.clientId, text)), false)
  {
    var key := convsA[gid].key.value;
    var cipher := FramedEncrypt(s, key, c.utf8Encode(text), nonce).value;
    assert c.b64Decode(c.b64Encode(cipher)) == Some(cipher);
    FramedRoundTrip(s, key, c.utf8Encode(text), nonce);
    assert c.utf8Decode(c.utf8Encode(text)) == Some(text);
  }

  /** The key envelope built for a member, once that member fetches it,
      installs the group key in the member's group conversation (created
      as a group if missing, its type kept otherwise) and adds the welcome
      note; no other conversation changes. */
  lemma KeyEnvelopeInstalls(s: Suite, c: Codecs, admin: Identity, gid: string, groupKey: Bytes, pubkeyText: string,
                            nonce: Bytes, privM: Bytes, convs: Conversations, meta: Json, ts: string)
    requires Lawful(s) && LawfulCodecs(c) && WellFormed(s, admin)
    requires c.b64Decode(pubkeyText) == Some(s.publicOf(privM))
    requires SealForPeer(s, c, admin, pubkeyText, groupKey, nonce).Some?
    ensures var blob := c.blobEncode(KeyEnvelope(c, admin, gid, SealForPeer(s, c, admin, pubkeyText, groupKey, nonce).value));
      var h := Receive(s, c, privM, convs, R.PrivateBlob(admin.clientId, blob, meta), ts);
      && !h.abort
      && gid in h.convs && h.convs[gid].key == Some(groupKey)
      && h.convs[gid].kind == (if gid in convs then convs[gid].kind else GROUP_KIND)
      && h.convs[gid].history == (if gid in convs then convs[gid].history else []) + [HistoryEntry(ts, SYSTEM, AddedToGroup(gid))]
      && SameExcept(convs, h.convs, gid)
  {
    var keyBlob := SealForPeer(s, c, admin, pubkeyText, groupKey, nonce).value;
    var envJson := KeyEnvelope(c, admin, gid, keyBlob);
    var env := envJson.fields;
    assert c.blobDecode(c.blobEncode(envJson)) == Some(envJson);
    assert OpenEnvelope(c, c.blobEncode(envJson)) == Some(env);
    assert Get(JObj(env), "type") == Some(JStr(KEY_DISTRIBUTION));
    assert StrField(env, "group_id") == Some(gid);
    PeerRoundTrip(s, c, admin, privM, pubkeyText, groupKey, nonce, env, "key_blob");
  }

  /** A group key of empty bytes, which a sender produces by boxing b""
      (40 bytes, nonce and MAC only, which `DebugBox.decrypt` opens to b""),
      is installed without a length check; saving the state afterwards, as
      written, destroys the state file, so the next start loads `{}`; a save
      that keeps the previous file would keep the state saved before. */
  lemma EmptyGroupKeyWipesState(s: Suite, c: Codecs, admin: Identity, gid: string, pubkeyText: string,
                                nonce: Bytes, privM: Bytes, convs: Conversations, meta: Json, ts: string)
    requires Lawful(s) && LawfulCodecs(c) && WellFormed(s, admin)
    requires c.b64Decode(pubkeyText) == Some(s.publicOf(privM))
    requires SealForPeer(s, c, admin, pubkeyText, [], nonce).Some?
    requires Serialisable(convs)
    ensures var blob := c.blobEncode(KeyEnvelope(c, admin, gid, SealForPeer(s, c, admin, pubkeyText, [], nonce).value));
      var h := Receive(s, c, privM, convs, R.PrivateBlob(admin.clientId, blob, meta), ts);
      && gid in h.convs && h.convs[gid].key == Some([])
      && Load(c, SavedFile(c, h.convs)) == map[]
      && Load(c, SavedFileKeepingPrevious(c, h.convs, Parsed(Save(c, convs).value))) == convs
  {
    var blob := c.blobEncode(KeyEnvelope(c, admin, gid, SealForPeer(s, c, admin, pubkeyText, [], nonce).value));
    var h := Receive(s, c, privM, convs, R.PrivateBlob(admin.clientId, blob, meta), ts);
    KeyEnvelopeInstalls(s, c, admin, gid, [], pubkeyText, nonce, privM, convs, meta, ts);
    EmptyKeyLosesState(c, h.convs, gid);
    KeepingPreviousNeverLoses(c, h.convs, Parsed(Save(c, convs).value));
    SaveLoadRoundTrip(c, convs);
  }

  // ----- Group creation -----

  /** When the distribution loop runs to its end, every member other than
      the creator whose public key the relay returned was sent a key
      envelope boxed for that key. */
  lemma {:induction false} DistributeSendsTo(s: Suite, c: Codecs, admin: Identity, gid: string, groupKey: Bytes,
                                             members: seq<string>, keyOf: string -> R.Response, nonces: nat -> Bytes, j: nat)
    requires j < |members| && members[j] != admin.clientId && keyOf(members[j]).KeyFound?
    requires Distribute(s, c, admin, gid, groupKey, members, keyOf, nonces).ok
    ensures SealForPeer(s, c, admin, keyOf(members[j]).pubkey, groupKey, nonces(j)).Some?
    ensures SendBlobTo(c, admin, members[j],
              KeyEnvelope(c, admin, gid, SealForPeer(s, c, admin, keyOf(members[j]).pubkey, groupKey, nonces(j)).value))
            in Distribute(s, c, admin, gid, groupKey, members, keyOf, nonces).sent
  {
    var n := |members|;
    var prefix := members[..n - 1];
    var prev := Distribute(s, c, admin, gid, groupKey, prefix, keyOf, nonces);
    assert prev.ok;
    if j < n - 1 {
      assert prefix[j] == members[j];
      DistributeSendsTo(s, c, admin, gid, groupKey, prefix, keyOf, nonces, j);
    }
  }

  lemma {:induction false} DistributeOnlyToOthers(s: Suite, c: Codecs, admin: Identity, gid: string, groupKey: Bytes,
                                                  members: seq<string>, keyOf: string -> R.Response, nonces: nat -> Bytes)
    ensures forall r :: r in Distribute(s, c, admin, gid, groupKey, members, keyOf, nonces).sent ==> ToOtherMember(r, admin, members)
  {
    if members != [] {
      var prefix := members[..|members| - 1];
      DistributeOnlyToOthers(s, c, admin, gid, groupKey, prefix, keyOf, nonces);
      assert forall m :: m in prefix ==> m in members;
    }
  }

  /** The loop of `create_group` runs to its end iff no member raises:
      every member is the creator, or its `get_key` failed and it was
      skipped, or its key was found and boxing the group key for it
      succeeded. A failed lookup never stops the loop. */
  lemma {:induction false} DistributeCompletes(s: Suite, c: Codecs, admin: Identity, gid: string, groupKey: Bytes,
                                               members: seq<string>, keyOf: string -> R.Response, nonces: nat -> Bytes)
    ensures Distribute(s, c, admin, gid, groupKey, members, keyOf, nonces).ok <==>
      forall j :: 0 <= j < |members| ==>
        || members[j] == admin.clientId
        || keyOf(members[j]).Error?
        || (keyOf(members[j]).KeyFound? && SealForPeer(s, c, admin, keyOf(members[j]).pubkey, groupKey, nonces(j)).Some?)
  {
    if members != [] {
      var n := |members|;
      var prefix := members[..n - 1];
      DistributeCompletes(s, c, admin, gid, groupKey, prefix, keyOf, nonces);
      assert forall j :: 0 <= j < n - 1 ==> prefix[j] == members[j];
    }
  }

  /** A member of a group created to completion, whose key the relay
      returned as the one of `privM`, reads the group key out of what the
      creator sent and can then read the group's messages. */
  lemma GroupKeyReachesMember(s: Suite, c: Codecs, admin: Identity, gid: string, groupKey: Bytes,
                              members: seq<string>, keyOf: string -> R.Response, nonces: nat -> Bytes, j: nat,
                              privM: Bytes, convs: Conversations, meta: Json, ts: string)
    requires Lawful(s) && LawfulCodecs(c) && WellFormed(s, admin)
    requires j < |members| && members[j] != admin.clientId
    requires keyOf(members[j]).KeyFound? && c.b64Decode(keyOf(members[j]).pubkey) == Some(s.publicOf(privM))
    requires Distribute(s, c, admin, gid, groupKey, members, keyOf, nonces).ok
    ensures SealForPeer(s, c, admin, keyOf(members[j]).pubkey, groupKey, nonces(j)).Some?
    ensures var req := SendBlobTo(c, admin, members[j],
              KeyEnvelope(c, admin, gid, SealForPeer(s, c, admin, keyOf(members[j]).pubkey, groupKey, nonces(j)).value));
      && req in Distribute(s, c, admin, gid, groupKey, members, keyOf, nonces).sent
      && req.to == Some(members[j]) && req.from == Some(admin.clientId)
      && (var h := Receive(s, c, privM, convs, R.PrivateBlob(admin.clientId, req.blob.value, meta), ts);
          gid in h.convs && h.convs[gid].key == Some(groupKey))
  {
    DistributeSendsTo(s, c, admin, gid, groupKey, members, keyOf, nonces, j);
    var text := keyOf(members[j]).pubkey;
    var keyBlob := SealForPeer(s, c, admin, text, groupKey, nonces(j)).value;
    var req := SendBlobTo(c, admin, members[j], KeyEnvelope(c, admin, gid, keyBlob));
    KeyEnvelopeInstalls(s, c, admin, gid, groupKey, text, nonces(j), privM, convs, meta, ts);
  }

  // ----- Receiving never loses anything -----

  lemma ExtendsTransitive(a: Conversations, b: Conversations, d: Conversations)
    requires Extends(a, b) && Extends(b, d)
    ensures Extends(a, d)
  {
    forall id | id in a
      ensures id in d && d[id].kind == a[id].kind && a[id].history <= d[id].history
    {
      assert a[id].history == b[id].history[..|a[id].history|];
      assert b[id].history == d[id].history[..|b[id].history|];
    }
  }

  /** One message never removes a conversation, never changes its type,
      and only appends to its history. */
  lemma ReceiveExtends(s: Suite, c: Codecs, priv: Bytes, convs: Conversations, m: R.Entry, ts: string)
    ensures Extends(convs, Receive(s, c, priv, convs, m, ts).convs)
  {
  }

  lemma {:induction false} ReceiveBatchExtends(s: Suite, c: Codecs, priv: Bytes, convs: Conversations,
                                               ms: seq<R.Entry>, clock: nat -> string)
    ensures Extends(convs, ReceiveBatch(s, c, priv, convs, ms, clock).convs)
  {
    if ms != [] {
      var prev := ReceiveBatch(s, c, priv, convs, ms[..|ms| - 1], clock);
      ReceiveBatchExtends(s, c, priv, convs, ms[..|ms| - 1], clock);
      if !prev.abort {
        ReceiveExtends(s, c, priv, prev.convs, ms[|ms| - 1], clock(|ms| - 1));
        ExtendsTransitive(convs, prev.convs, Receive(s, c, priv, prev.convs, ms[|ms| - 1], clock(|ms| - 1)).convs);
      }
    }
  }

  /** Only a group message whose held key has the wrong length escapes its
      handler, and it changes nothing; every other failure is confined to
      the message. */
  lemma ReceiveAbortsOnlyOnBadGroupKey(s: Suite, c: Codecs, priv: Bytes, convs: Conversations, m: R.Entry, ts: string)
    ensures Receive(s, c, priv, convs, m, ts).abort
        <==> m.GroupBlob? && m.groupId in convs && HasKey(convs[m.groupId]) && |convs[m.groupId].key.value| != KEY_SIZE
    ensures Receive(s, c, priv, convs, m, ts).abort ==> Receive(s, c, priv, convs, m, ts).convs == convs
  {
  }

  /** A batch of private messages and key distributions is always handled
      to the end. */
  lemma {:induction false} PrivateBatchCompletes(s: Suite, c: Codecs, priv: Bytes, convs: Conversations,
                                                 ms: seq<R.Entry>, clock: nat -> string)
    requires forall i :: 0 <= i < |ms| ==> ms[i].PrivateBlob?
    ensures !ReceiveBatch(s, c, priv, convs, ms, clock).abort
  {
    if ms != [] {
      PrivateBatchCompletes(s, c, priv, convs, ms[..|ms| - 1], clock);
    }
  }

  /** A group message touches only its own group's conversation, and only
      when the client holds a key for it. */
  lemma GroupMessageNeedsKey(s: Suite, c: Codecs, priv: Bytes, convs: Conversations, from: string, blob: string, gid: string, ts: string)
    ensures var h := Receive(s, c, priv, convs, R.GroupBlob(from, blob, gid), ts);
      && SameExcept(convs, h.convs, gid)
      && (h.convs != convs ==> gid in convs && HasKey(convs[gid]) && |h.convs[gid].history| == |convs[gid].history| + 1)
  {
  }

  /** A private message touches only its sender's conversation, which
      exists afterwards whenever the envelope could be read, even if
      decryption failed; nothing is appended unless it decrypts. */
  lemma PrivateMessageTouchesSender(s: Suite, c: Codecs, priv: Bytes, convs: Conversations, from: string, blob: string, ts: string)
    requires OpenEnvelope(c, blob).Some?
    requires Get(JObj(OpenEnvelope(c, blob).value), "type") != Some(JStr(KEY_DISTRIBUTION))
    ensures var r := ReceiveDirect(s, c, priv, convs, from, blob, ts);
      && from in r
      && SameExcept(convs, r, from)
      && (OpenFromPeer(s, c, priv, OpenEnvelope(c, blob).value, "blob").None? ==>
            r[from] == (if from in convs then convs[from] else PRIVATE_BLANK))
  {
  }

  // ----- Through the relay -----

  /** Processing a batch that ends with `e`, when the earlier messages
      did not abort, is processing `e` last. */
  lemma BatchLast(s: Suite, c: Codecs, priv: Bytes, convs: Conversations, ms: seq<R.Entry>, e: R.Entry, clock: nat -> string)
    requires !ReceiveBatch(s, c, priv, convs, ms, clock).abort
    ensures ReceiveBatch(s, c, priv, convs, ms + [e], clock)
         == Receive(s, c, priv, ReceiveBatch(s, c, priv, convs, ms, clock).convs, e, clock(|ms|))
  {
    assert (ms + [e])[..|ms|] == ms;
  }

  /** Alice looks up Bob's key at the relay, sends him a private message,
      and Bob polls: unless an earlier message in his mailbox aborts the
      batch, his conversation with Alice ends with her text. */
  lemma PrivateMessageThroughRelay(st: R.State, s: Suite, c: Codecs, alice: Identity, bob: string, text: string,
                                   nonce: Bytes, privB: Bytes, convs: Conversations, clock: nat -> string)
    requires Lawful(s) && LawfulCodecs(c) && WellFormed(s, alice)
    requires alice.clientId != "" && bob != ""
    requires bob in st.publicKeys && st.publicKeys[bob] != ""
    requires c.b64Decode(st.publicKeys[bob]) == Some(s.publicOf(privB))
    requires SendPrivateMessage(s, c, alice, bob, text, R.Step(st, R.GetKey(Some(bob))).reply.value, nonce).reply.Done?
    requires !ReceiveBatch(s, c, privB, convs, R.Mailbox(st.blobs, bob), clock).abort
    ensures var answer := R.Step(st, R.GetKey(Some(bob))).reply.value;
      var sendBlob := SendPrivateMessage(s, c, alice, bob, text, answer, nonce).requests[1];
      var afterSend := R.Step(st, sendBlob).state;
      var fetched := R.Step(afterSend, R.FetchBlobs(Some(bob))).reply.value;
      var r := AfterFetch(s, c, privB, convs, fetched, clock);
      && alice.clientId in r
      && |r[alice.clientId].history| > 0
      && r[alice.clientId].history[|r[alice.clientId].history| - 1]
           == HistoryEntry(clock(|R.Mailbox(st.blobs, bob)|), alice.clientId, text)
  {
    var answer := R.Step(st, R.GetKey(Some(bob))).reply.value;
    assert answer == R.KeyFound(bob, st.publicKeys[bob]);
    var sendBlob := SendPrivateMessage(s, c, alice, bob, text, answer, nonce).requests[1];
    var ts := clock(|R.Mailbox(st.blobs, bob)|);
    PrivateMessageDelivered(s, c, alice, bob, text, answer, nonce, privB,
                            ReceiveBatch(s, c, privB, convs, R.Mailbox(st.blobs, bob), clock).convs, JObj(map[]), ts);
    var blob := sendBlob.blob.value;
    R.SendThenFetch(st, bob, alice.clientId, blob);
    BatchLast(s, c, privB, convs, R.Mailbox(st.blobs, bob), R.PrivateBlob(alice.clientId, blob, JObj(map[])), clock);
  }
}
