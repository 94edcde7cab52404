/** What the command-line client promises, proved about the functions of
    `CliClient`: the unread counters count exactly what a poll stored,
    nothing fetched is lost or rewritten, a distributed group key reaches
    every member whose public key the relay knows, the commands parse the
    lines the menu describes, and the command-line and GUI clients run the
    same key-distribution protocol. */
module CliProperties {
  import opened Common
  import opened Nacl
  import R = RelayState
  import opened Envelopes
  import opened CommandLine
  import opened CliClient
  import Persistence
  import ChatClientLogic
  import ChatClientProperties

  // ----- The unread counters -----

  /** One message raises the unread count of `id` by exactly the number of
      entries it stored under `id`, which is zero or one. */
  lemma RouteCounts(s: Suite, c: Codecs, priv: Bytes, st: CliState, m: R.Entry, id: string)
    ensures var r := Route(s, c, priv, st, m).state;
      && Stored(st, id) <= Stored(r, id) <= Stored(st, id) + 1
      && Unread(r, id) + Stored(st, id) == Unread(st, id) + Stored(r, id)
  {
  }

  /** A whole batch, including one cut short by a message that raised,
      raises each unread count by exactly the number of entries it stored
      under that id. */
  lemma {:induction false} RouteBatchCounts(s: Suite, c: Codecs, priv: Bytes, st: CliState, ms: seq<R.Entry>, id: string)
    ensures var r := RouteBatch(s, c, priv, st, ms).state;
      && Stored(st, id) <= Stored(r, id)
      && Unread(r, id) + Stored(st, id) == Unread(st, id) + Stored(r, id)
  {
    if ms != [] {
      var prev := RouteBatch(s, c, priv, st, ms[..|ms| - 1]);
      RouteBatchCounts(s, c, priv, st, ms[..|ms| - 1], id);
      if !prev.abort {
        RouteCounts(s, c, priv, prev.state, ms[|ms| - 1], id);
      }
    }
  }

  /** The same for one poll, whatever the relay answered. */
  lemma PollCounts(s: Suite, c: Codecs, priv: Bytes, st: CliState, fetched: R.Response, id: string)
    ensures var r := AfterPoll(s, c, priv, st, fetched);
      && Stored(st, id) <= Stored(r, id)
      && Unread(r, id) + Stored(st, id) == Unread(st, id) + Stored(r, id)
  {
    if fetched.Messages? {
      RouteBatchCounts(s, c, priv, st, fetched.items, id);
    }
  }

  // ----- What each kind of message does -----

  /** A group message with a base64 blob is stored undecrypted and counted,
      whether or not the group's key has arrived; the group is created if it
      was missing; nothing else changes. */
  lemma GroupMessageStored(s: Suite, c: Codecs, priv: Bytes, st: CliState, from: string, blob: string, gid: string)
    requires c.b64Decode(blob).Some?
    ensures var m := R.GroupBlob(from, blob, gid);
      var r := Route(s, c, priv, st, m);
      && !r.abort
      && gid in r.state.groups
      && r.state.groups[gid].history == (if gid in st.groups then st.groups[gid].history else []) + [ReceivedGroup(m)]
      && r.state.groups[gid].key == (if gid in st.groups then st.groups[gid].key else None)
      && r.state.conversations == st.conversations
      && Unread(r.state, gid) == Unread(st, gid) + 1
      && (forall other :: other != gid ==> Unread(r.state, other) == Unread(st, other))
      && (forall other :: other in st.groups && other != gid ==> other in r.state.groups && r.state.groups[other] == st.groups[other])
  {
  }

  /** A group message whose blob is not base64 raises, abandoning the rest
      of the batch, after its group was already created. */
  lemma GroupMessageBadBlob(s: Suite, c: Codecs, priv: Bytes, st: CliState, from: string, blob: string, gid: string)
    requires c.b64Decode(blob).None?
    ensures var r := Route(s, c, priv, st, R.GroupBlob(from, blob, gid));
      && r.abort
      && gid in r.state.groups
      && r.state.conversations == st.conversations && r.state.newMsgs == st.newMsgs
  {
  }

  /** A key distribution sets the group's key, keeps its history (an
      unknown group starts empty), and stores and counts nothing. */
  lemma KeyDistributionSetsKey(s: Suite, c: Codecs, priv: Bytes, st: CliState, from: string, blob: string, meta: Json,
                               gid: string, key: Bytes)
    requires KeyDistribution(s, c, priv, blob) == Some((gid, key))
    ensures var r := Route(s, c, priv, st, R.PrivateBlob(from, blob, meta));
      && !r.abort
      && gid in r.state.groups
      && r.state.groups[gid] == CliGroup(Some(key), if gid in st.groups then st.groups[gid].history else [])
      && r.state.conversations == st.conversations && r.state.newMsgs == st.newMsgs
      && (forall id :: Stored(r.state, id) == Stored(st, id))
  {
  }

  /** Any other private message whose blob text `base64.b64decode` accepts
      is stored undecrypted under its sender and counted, even when its
      envelope does not parse; no group changes. */
  lemma PrivateMessageStored(s: Suite, c: Codecs, priv: Bytes, st: CliState, from: string, blob: string, meta: Json)
    requires KeyDistribution(s, c, priv, blob).None? && B64DecodeText(c, blob).Some?
    ensures var m := R.PrivateBlob(from, blob, meta);
      var r := Route(s, c, priv, st, m);
      && !r.abort
      && from in r.state.conversations
      && r.state.conversations[from] == (if from in st.conversations then st.conversations[from] else []) + [Received(m)]
      && r.state.groups == st.groups
      && Unread(r.state, from) == Unread(st, from) + 1
  {
  }

  /** The only messages that raise are group messages whose blob `ub64`
      rejects, and private messages that are not a valid key distribution
      and whose blob text `base64.b64decode` rejects. */
  lemma RouteAborts(s: Suite, c: Codecs, priv: Bytes, st: CliState, m: R.Entry)
    ensures Route(s, c, priv, st, m).abort <==>
      if m.GroupBlob? then c.b64Decode(m.blob).None?
      else KeyDistribution(s, c, priv, m.blob).None? && B64DecodeText(c, m.blob).None?
  {
  }

  /** The two decoders part on non-ASCII text: a blob that `ub64` reads
      despite a non-ASCII character is stored as a group message, while any
      private message with a non-ASCII blob is no key distribution, raises
      and abandons the rest of the poll. */
  lemma NonAsciiBlobSplitsPaths(s: Suite, c: Codecs, priv: Bytes, st: CliState, from: string, blob: string,
                                gid: string, meta: Json)
    requires !IsAscii(blob)
    ensures c.b64Decode(blob).Some? ==> !Route(s, c, priv, st, R.GroupBlob(from, blob, gid)).abort
    ensures KeyDistribution(s, c, priv, blob).None?
    ensures Route(s, c, priv, st, R.PrivateBlob(from, blob, meta)) == Polled(st, true)
  {
  }

  // ----- Nothing fetched is lost -----

  /** `b` keeps every conversation and group of `a`, with the old history
      as a prefix. */
  predicate CliExtends(a: CliState, b: CliState) {
    && (forall id :: id in a.conversations ==> id in b.conversations && a.conversations[id] <= b.conversations[id])
    && (forall id :: id in a.groups ==> id in b.groups && a.groups[id].history <= b.groups[id].history)
  }

  lemma CliExtendsTransitive(a: CliState, b: CliState, d: CliState)
    requires CliExtends(a, b) && CliExtends(b, d)
    ensures CliExtends(a, d)
  {
    forall id | id in a.conversations
      ensures a.conversations[id] <= d.conversations[id]
    {
      assert a.conversations[id] == b.conversations[id][..|a.conversations[id]|];
      assert b.conversations[id] == d.conversations[id][..|b.conversations[id]|];
    }
    forall id | id in a.groups
      ensures a.groups[id].history <= d.groups[id].history
    {
      assert a.groups[id].history == b.groups[id].history[..|a.groups[id].history|];
      assert b.groups[id].history == d.groups[id].history[..|b.groups[id].history|];
    }
  }

  /** A poll never removes a conversation or a group and only appends to
      histories, even when it is cut short. */
  lemma {:induction false} RouteBatchExtends(s: Suite, c: Codecs, priv: Bytes, st: CliState, ms: seq<R.Entry>)
    ensures CliExtends(st, RouteBatch(s, c, priv, st, ms).state)
  {
    if ms != [] {
      var prev := RouteBatch(s, c, priv, st, ms[..|ms| - 1]);
      RouteBatchExtends(s, c, priv, st, ms[..|ms| - 1]);
      if !prev.abort {
        var r := Route(s, c, priv, prev.state, ms[|ms| - 1]).state;
        assert CliExtends(prev.state, r);
        CliExtendsTransitive(st, prev.state, r);
      }
    }
  }

  // ----- Group creation -----

  /** The key envelope `criar grupo` sends to a member, built with the public
      key the relay holds for that member, yields the group id and the group
      key when that member polls. */
  lemma CliKeyEnvelopeOpens(s: Suite, c: Codecs, admin: Identity, gid: string, groupKey: Bytes, pubkeyText: string,
                            nonce: Bytes, privM: Bytes)
    requires Lawful(s) && LawfulCodecs(c) && WellFormed(s, admin)
    requires c.b64Decode(pubkeyText) == Some(s.publicOf(privM))
    requires CliSeal(s, c, admin, pubkeyText, groupKey, nonce).Some?
    ensures KeyDistribution(s, c, privM, c.blobEncode(KeyEnvelope(c, admin, gid, CliSeal(s, c, admin, pubkeyText, groupKey, nonce).value)))
         == Some((gid, groupKey))
  {
    var keyBlob := CliSeal(s, c, admin, pubkeyText, groupKey, nonce).value;
    var envJson := KeyEnvelope(c, admin, gid, keyBlob);
    var blob := c.blobEncode(envJson);
    assert c.blobDecode(blob) == Some(envJson);
    var env := envJson.fields;
    assert OpenEnvelope(c, blob) == Some(env);
    assert StrField(env, "sender_pub") == Some(c.b64Encode(admin.pub));
    assert StrField(env, "key_blob") == Some(c.b64Encode(keyBlob));
    assert StrField(env, "group_id") == Some(gid);
    assert c.b64Decode(c.b64Encode(admin.pub)) == Some(admin.pub);
    assert ParsePublicKey(c, c.b64Encode(admin.pub)) == Some(admin.pub);
    assert c.b64Decode(c.b64Encode(keyBlob)) == Some(keyBlob);
    var shared := s.beforenm(s.publicOf(privM), admin.priv);
    assert s.beforenm(admin.pub, privM) == shared;
    FramedRoundTrip(s, shared, groupKey, nonce);
  }

  /** A creation that completed sent the key envelope to every member other
      than the creator whose public key the relay returned. */
  lemma {:induction false} CliDistributeSendsTo(s: Suite, c: Codecs, admin: Identity, gid: string, groupKey: Bytes,
                                                members: seq<string>, keyOf: string -> R.Response, nonces: nat -> Bytes, j: nat)
    requires j < |members| && members[j] != admin.clientId && keyOf(members[j]).KeyFound?
    requires CliDistribute(s, c, admin, gid, groupKey, members, keyOf, nonces).ok
    ensures CliSeal(s, c, admin, keyOf(members[j]).pubkey, groupKey, nonces(j)).Some?
    ensures SendBlobTo(c, admin, members[j],
              KeyEnvelope(c, admin, gid, CliSeal(s, c, admin, keyOf(members[j]).pubkey, groupKey, nonces(j)).value))
            in CliDistribute(s, c, admin, gid, groupKey, members, keyOf, nonces).sent
  {
    var n := |members|;
    var prefix := members[..n - 1];
    var prev := CliDistribute(s, c, admin, gid, groupKey, prefix, keyOf, nonces);
    assert prev.ok;
    if j < n - 1 {
      assert prefix[j] == members[j];
      CliDistributeSendsTo(s, c, admin, gid, groupKey, prefix, keyOf, nonces, j);
    }
  }

  /** The distribution loop sends nothing to the creator and nothing to
      anybody who is not a member. */
  lemma {:induction false} CliDistributeOnlyToOthers(s: Suite, c: Codecs, admin: Identity, gid: string, groupKey: Bytes,
                                                     members: seq<string>, keyOf: string -> R.Response, nonces: nat -> Bytes)
    ensures forall r :: r in CliDistribute(s, c, admin, gid, groupKey, members, keyOf, nonces).sent ==> ToOtherMember(r, admin, members)
  {
    if members != [] {
      var prefix := members[..|members| - 1];
      CliDistributeOnlyToOthers(s, c, admin, gid, groupKey, prefix, keyOf, nonces);
      assert forall m :: m in prefix ==> m in members;
    }
  }

  /** A member of a group created to completion, whose key the relay
      returned as the one of `privM`, finds the group key in what the
      creator sent: polling it sets the key, and counts nothing. */
  lemma CliGroupKeyReachesMember(s: Suite, c: Codecs, admin: Identity, gid: string, groupKey: Bytes,
                                 members: seq<string>, keyOf: string -> R.Response, nonces: nat -> Bytes, j: nat,
                                 privM: Bytes, st: CliState, meta: Json)
    requires Lawful(s) && LawfulCodecs(c) && WellFormed(s, admin)
    requires j < |members| && members[j] != admin.clientId
    requires keyOf(members[j]).KeyFound? && c.b64Decode(keyOf(members[j]).pubkey) == Some(s.publicOf(privM))
    requires CliDistribute(s, c, admin, gid, groupKey, members, keyOf, nonces).ok
    ensures CliSeal(s, c, admin, keyOf(members[j]).pubkey, groupKey, nonces(j)).Some?
    ensures var req := SendBlobTo(c, admin, members[j],
              KeyEnvelope(c, admin, gid, CliSeal(s, c, admin, keyOf(members[j]).pubkey, groupKey, nonces(j)).value));
      && req in CliDistribute(s, c, admin, gid, groupKey, members, keyOf, nonces).sent
      && req.to == Some(members[j]) && req.from == Some(admin.clientId)
      && (var r := Route(s, c, privM, st, R.PrivateBlob(admin.clientId, req.blob.value, meta));
          && !r.abort && gid in r.state.groups && r.state.groups[gid].key == Some(groupKey)
          && r.state.newMsgs == st.newMsgs)
  {
    CliDistributeSendsTo(s, c, admin, gid, groupKey, members, keyOf, nonces, j);
    CliKeyEnvelopeOpens(s, c, admin, gid, groupKey, keyOf(members[j]).pubkey, nonces(j), privM);
  }

  /** The loop of `criar grupo` runs to its end iff no member raises: every
      member is the creator, or its `get_key` failed and it was skipped, or
      its key was found and boxing the group key for it succeeded. A failed
      lookup never stops the loop. */
  lemma {:induction false} CliDistributeCompletes(s: Suite, c: Codecs, me: Identity, gid: string, groupKey: Bytes,
                                                  members: seq<string>, keyOf: string -> R.Response, nonces: nat -> Bytes)
    ensures CliDistribute(s, c, me, gid, groupKey, members, keyOf, nonces).ok <==>
      forall j :: 0 <= j < |members| ==>
        || members[j] == me.clientId
        || keyOf(members[j]).Error?
        || (keyOf(members[j]).KeyFound? && CliSeal(s, c, me, keyOf(members[j]).pubkey, groupKey, nonces(j)).Some?)
  {
    if members != [] {
      var n := |members|;
      var prefix := members[..n - 1];
      CliDistributeCompletes(s, c, me, gid, groupKey, prefix, keyOf, nonces);
      assert forall j :: 0 <= j < n - 1 ==> prefix[j] == members[j];
    }
  }

  // ----- The two clients speak the same protocol -----

  /** Under lawful primitives the command-line client's `Box` and the GUI's
      `DebugBox` seal a group key for a member identically. */
  lemma SealsAgree(s: Suite, c: Codecs, me: Identity, pubkeyText: string, key: Bytes, nonce: Bytes)
    requires Lawful(s)
    ensures CliSeal(s, c, me, pubkeyText, key, nonce) == ChatClientLogic.SealForPeer(s, c, me, pubkeyText, key, nonce)
  {
    match ParsePublicKey(c, pubkeyText) {
      case None =>
      case Some(peer) =>
        var shared := s.beforenm(peer, me.priv);
        assert |s.seal(key, nonce, shared)| == |key| + MAC_SIZE;
    }
  }

  /** Both clients' distribution loops send the same requests and stop at
      the same member. */
  lemma {:induction false} DistributionsAgree(s: Suite, c: Codecs, me: Identity, gid: string, groupKey: Bytes,
                                              members: seq<string>, keyOf: string -> R.Response, nonces: nat -> Bytes)
    requires Lawful(s)
    ensures CliDistribute(s, c, me, gid, groupKey, members, keyOf, nonces)
         == ChatClientLogic.Distribute(s, c, me, gid, groupKey, members, keyOf, nonces)
  {
    if members != [] {
      DistributionsAgree(s, c, me, gid, groupKey, members[..|members| - 1], keyOf, nonces);
      var m := members[|members| - 1];
      if keyOf(m).KeyFound? {
        SealsAgree(s, c, me, keyOf(m).pubkey, groupKey, nonces(|members| - 1));
      }
    }
  }

  /** A group created from the command line hands its key to a member using
      the GUI, and one created from the GUI hands it to a member using the
      command line. */
  lemma KeyCrossesClients(s: Suite, c: Codecs, admin: Identity, gid: string, groupKey: Bytes,
                          members: seq<string>, keyOf: string -> R.Response, nonces: nat -> Bytes, j: nat,
                          privM: Bytes, convs: Persistence.Conversations, st: CliState, meta: Json, ts: string)
    requires Lawful(s) && LawfulCodecs(c) && WellFormed(s, admin)
    requires j < |members| && members[j] != admin.clientId
    requires keyOf(members[j]).KeyFound? && c.b64Decode(keyOf(members[j]).pubkey) == Some(s.publicOf(privM))
    requires CliDistribute(s, c, admin, gid, groupKey, members, keyOf, nonces).ok
    ensures CliSeal(s, c, admin, keyOf(members[j]).pubkey, groupKey, nonces(j)).Some?
    ensures var req := SendBlobTo(c, admin, members[j],
              KeyEnvelope(c, admin, gid, CliSeal(s, c, admin, keyOf(members[j]).pubkey, groupKey, nonces(j)).value));
      && req in ChatClientLogic.Distribute(s, c, admin, gid, groupKey, members, keyOf, nonces).sent
      && (var h := ChatClientLogic.Receive(s, c, privM, convs, R.PrivateBlob(admin.clientId, req.blob.value, meta), ts);
          gid in h.convs && h.convs[gid].key == Some(groupKey))
      && (var r := Route(s, c, privM, st, R.PrivateBlob(admin.clientId, req.blob.value, meta));
          gid in r.state.groups && r.state.groups[gid].key == Some(groupKey))
  {
    DistributionsAgree(s, c, admin, gid, groupKey, members, keyOf, nonces);
    SealsAgree(s, c, admin, keyOf(members[j]).pubkey, groupKey, nonces(j));
    CliGroupKeyReachesMember(s, c, admin, gid, groupKey, members, keyOf, nonces, j, privM, st, meta);
    ChatClientProperties.GroupKeyReachesMember(s, c, admin, gid, groupKey, members, keyOf, nonces, j, privM, convs, meta, ts);
  }
}

/** The commands of the command-line client parse the lines its menu
    describes. */
module CliCommands {
  import opened Common
  import opened CommandLine
  import opened CliClient

  /** A typed line whose first two words are `criar grupo`, in any case,
      selects group creation. */
  lemma GroupCommandSelected(words: seq<string>)
    requires TypedWords(words) && |words| >= 2
    requires Lower(words[0]) == "criar" && Lower(words[1]) == "grupo"
    ensures CommandOf(Join(words, ' ')) == CreateGroupCmd
  {
    TypedLine(words);
  }

  /** `criar grupo <nome> com <membro> ...` parses to the group and the
      listed members followed by the creator. */
  lemma GroupCommandParses(words: seq<string>, clientId: string)
    requires TypedWords(words) && |words| >= 5
    requires Lower(words[0]) == "criar" && Lower(words[1]) == "grupo" && words[2] != "com" && words[3] == "com"
    ensures ParseGroupCommand(Join(words, ' '), clientId) == Success(GroupCommand(words[2], words[4..] + [clientId]))
  {
    TypedLine(words);
    assert words[0] != "com" by {
      assert Lower(words[0])[1] == 'r';
    }
    assert words[1] != "com" by {
      assert Lower(words[1])[0] == 'g';
    }
    assert words[..3] == [words[0], words[1], words[2]];
    assert FirstIndex(words, "com") == 3;
  }

  /** A typed line whose first word is `iniciar`, in any case, selects the
      command. */
  lemma StartChatSelected(words: seq<string>)
    requires TypedWords(words) && |words| >= 1
    requires Lower(words[0]) == "iniciar"
    ensures CommandOf(Join(words, ' ')) == StartChatCmd
  {
    TypedLine(words);
  }

  /** `iniciar chat <cliente>`, `chat` in any case, names the peer; naming
      oneself is refused. */
  lemma StartChatNamesPeer(words: seq<string>, clientId: string)
    requires TypedWords(words) && |words| == 3
    requires Lower(words[1]) == "chat"
    requires words[2][0] != '"' && words[2][|words[2]| - 1] != '"'
    ensures StartChatReply(Join(words, ' '), clientId) == if words[2] == clientId then SelfChat else Ready(words[2])
  {
    TypedLine(words);
    StripNoop(words[2], Whitespace);
    StripNoop(words[2], Only('"'));
  }
}
