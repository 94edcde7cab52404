/** `ChatLogic` of client/chat_client_logic.py: the GUI client's protocol
    logic. The object keeps the client's identity and its `conversations`
    map, which `list_all`, `create_group` and the body of the `poll_blobs`
    loop update in place; `send_private_message` and
    `send_group_message` only compute the requests they send.

    The network is a parameter: a method receives the relay's reply to
    each request (`keyOf(id)` is the reply to `get_key` for `id`), and
    returns the requests it sent. Random bytes (`os.urandom`) and the
    clock (`time.strftime`) are parameters too. Writing the state file,
    the UI callbacks and the logging are left out. */
module ChatClientLogic {
  import opened Common
  import opened Nacl
  import DebugBox
  import R = RelayState
  import opened Persistence
  import opened Envelopes

  const GROUP_KIND := "group"
  const PRIVATE_KIND := "private"
  const SYSTEM := "Sistema"
  const GROUP_NOT_FOUND := "Grupo não encontrado."
  const GROUP_KEY_MISSING := "A chave deste grupo ainda não foi recebida."
  const KEY_UNAVAILABLE := "Não foi possível obter a chave de "

  /** The blank conversations `list_all` and `poll_blobs` add. */
  const PRIVATE_BLANK := Conversation(PRIVATE_KIND, None, [])
  const GROUP_BLANK := Conversation(GROUP_KIND, None, [])

  function AddedToGroup(gid: string): string {
    "Você foi adicionado ao grupo '" + gid + "'."
  }

  function CreatedGroup(gid: string): string {
    "Você criou o grupo '" + gid + "'."
  }

  /** `history.append(e)` on an existing conversation. */
  function AppendEntry(convs: Conversations, id: string, e: HistoryEntry): (r: Conversations)
    requires id in convs
    ensures r.Keys == convs.Keys
    ensures r[id] == convs[id].(history := convs[id].history + [e])
    ensures forall other :: other in convs && other != id ==> r[other] == convs[other]
  {
    convs[id := convs[id].(history := convs[id].history + [e])]
  }

  /** Python truthiness of a stored key: present and not empty. */
  predicate HasKey(conv: Conversation) {
    conv.key.Some? && conv.key.value != []
  }

  // ----- The pairwise box on both ends -----

  /** `PublicKey(ub64(pubkey))`, `DebugBox(self.priv, peer_pub)` and
      `box.encrypt(pt)`: None where one of them raises. */
  function SealForPeer(s: Suite, c: Codecs, me: Identity, pubkeyText: string, pt: Bytes, nonce: Bytes): (r: Option<Bytes>)
    ensures r.Some? ==>
      && ParsePublicKey(c, pubkeyText).Some?
      && DebugBox.New(s, me.priv, ParsePublicKey(c, pubkeyText).value).Success?
      && Some(r.value) == DebugBox.Encrypt(s, DebugBox.New(s, me.priv, ParsePublicKey(c, pubkeyText).value).value, pt, None, nonce).ToOption()
  {
    match ParsePublicKey(c, pubkeyText)
    case None => None
    case Some(peer) =>
      match DebugBox.New(s, me.priv, peer)
      case Failure(_) => None
      case Success(box) => DebugBox.Encrypt(s, box, pt, None, nonce).ToOption()
  }

  /** `PublicKey(ub64(env["sender_pub"]))`, `DebugBox(self.priv, ...)` and
      `decrypt(ub64(env[field]))`: None where one of them raises. */
  function OpenFromPeer(s: Suite, c: Codecs, priv: Bytes, env: map<string, Json>, field: string): (r: Option<Bytes>)
    ensures r.Some? ==> StrField(env, "sender_pub").Some? && StrField(env, field).Some?
  {
    match (StrField(env, "sender_pub"), StrField(env, field))
    case (Some(senderPub), Some(blob)) =>
      (match (ParsePublicKey(c, senderPub), c.b64Decode(blob))
       case (Some(peer), Some(combined)) =>
         (match DebugBox.New(s, priv, peer)
          case Failure(_) => None
          case Success(box) => DebugBox.Decrypt(s, box, combined, None).ToOption())
       case _ => None)
    case _ => None
  }

  // ----- Receiving: one fetched message -----

  /** What handling one message did: the new conversations, and whether an
      exception escaped to the outer `try`, abandoning the rest of the batch. */
  datatype Handled = Handled(convs: Conversations, abort: bool)

  /** `SecretBox(key).decrypt(ub64(blob)).decode()`, for a 32-byte key. */
  function OpenGroupBlob(s: Suite, c: Codecs, key: Bytes, blob: string): Option<string> {
    match c.b64Decode(blob)
    case None => None
    case Some(combined) =>
      match FramedDecrypt(s, key, combined)
      case None => None
      case Some(pt) => c.utf8Decode(pt)
  }

  /** A group message: appended to the group's history when the group is
      known with a key and the blob opens under it. A key that is not 32
      bytes makes `SecretBox` raise outside the inner `try`. */
  function ReceiveGroup(s: Suite, c: Codecs, convs: Conversations, from: string, blob: string, gid: string, ts: string): Handled {
    if gid !in convs || !HasKey(convs[gid]) then Handled(convs, false)
    else if |convs[gid].key.value| != KEY_SIZE then Handled(convs, true)
    else match OpenGroupBlob(s, c, convs[gid].key.value, blob)
      case None => Handled(convs, false)
      case Some(pt) => Handled(AppendEntry(convs, gid, HistoryEntry(ts, from, pt)), false)
  }

  /** A message that is not a group message: its blob is a JSON envelope,
      either a group-key distribution or a private message. Every failure
      is caught per message; a private message's conversation is created
      before decryption is tried. */
  function ReceiveDirect(s: Suite, c: Codecs, priv: Bytes, convs: Conversations, from: string, blob: string, ts: string): Conversations {
    match OpenEnvelope(c, blob)
    case None => convs
    case Some(env) =>
      if Get(JObj(env), "type") == Some(JStr(KEY_DISTRIBUTION)) then
        (match (OpenFromPeer(s, c, priv, env, "key_blob"), StrField(env, "group_id"))
         case (Some(key), Some(gid)) =>
           var base := if gid in convs then convs[gid] else GROUP_BLANK;
           convs[gid := base.(key := Some(key), history := base.history + [HistoryEntry(ts, SYSTEM, AddedToGroup(gid))])]
         case _ => convs)
      else
        var withPeer := if from in convs then convs else convs[from := PRIVATE_BLANK];
        match OpenFromPeer(s, c, priv, env, "blob")
        case None => withPeer
        case Some(pt) =>
          match c.utf8Decode(pt)
          case None => withPeer
          case Some(text) => AppendEntry(withPeer, from, HistoryEntry(ts, from, text))
  }

  /** One iteration of `for m in response.get("messages", [])`. */
  function Receive(s: Suite, c: Codecs, priv: Bytes, convs: Conversations, m: R.Entry, ts: string): Handled {
    match m
    case GroupBlob(from, blob, gid) => ReceiveGroup(s, c, convs, from, blob, gid, ts)
    case PrivateBlob(from, blob, _) => Handled(ReceiveDirect(s, c, priv, convs, from, blob, ts), false)
  }

  /** The whole batch, in order, stopping at the first message whose
      exception escapes; message `i` is stamped with `clock(i)`. */
  function ReceiveBatch(s: Suite, c: Codecs, priv: Bytes, convs: Conversations, ms: seq<R.Entry>, clock: nat -> string): Handled {
    if ms == [] then Handled(convs, false)
    else
      var prev := ReceiveBatch(s, c, priv, convs, ms[..|ms| - 1], clock);
      if prev.abort then prev else Receive(s, c, priv, prev.convs, ms[|ms| - 1], clock(|ms| - 1))
  }

  /** What one poll does with the relay's reply to `fetch_blobs`. */
  function AfterFetch(s: Suite, c: Codecs, priv: Bytes, convs: Conversations, fetched: R.Response, clock: nat -> string): Conversations {
    match fetched
    case Messages(items) => ReceiveBatch(s, c, priv, convs, items, clock).convs
    case _ => convs
  }

  // ----- Listing -----

  /** The `for ... if x not in self.conversations` loops of `list_all`:
      every listed id gets `blank` unless it already has a conversation. */
  function AddMissing(convs: Conversations, ids: seq<string>, blank: Conversation): (r: Conversations)
    ensures forall id :: id in r <==> id in convs || id in ids
    ensures forall id :: id in convs ==> r[id] == convs[id]
    ensures forall id :: id in r && id !in convs ==> r[id] == blank
  {
    if ids == [] then convs
    else
      var prev := AddMissing(convs, ids[..|ids| - 1], blank);
      assert forall id :: id in ids <==> id in ids[..|ids| - 1] || id == ids[|ids| - 1] by {
        assert ids == ids[..|ids| - 1] + [ids[|ids| - 1]];
      }
      var id := ids[|ids| - 1];
      if id in prev then prev else prev[id := blank]
  }

  // ----- Sending -----

  datatype Reply = Done | Refused(reason: string) | Raised

  /** The requests an operation sent, and how it ended: returning
      `(True, "")`, returning `(False, reason)`, or raising. */
  datatype Attempt = Attempt(requests: seq<R.Request>, reply: Reply)

  /** `send_private_message(peer, text)`; `answer` is the relay's reply to
      the `get_key` for `peer`. */
  function SendPrivateMessage(s: Suite, c: Codecs, me: Identity, peer: string, text: string, answer: R.Response, nonce: Bytes): (r: Attempt)
    ensures |r.requests| >= 1 && r.requests[0] == R.GetKey(Some(peer))
    ensures r.reply.Refused? <==> answer.Error?
    ensures r.reply.Refused? ==> r.reply.reason == KEY_UNAVAILABLE + peer && |r.requests| == 1
    ensures r.reply.Done? <==> answer.KeyFound? && SealForPeer(s, c, me, answer.pubkey, c.utf8Encode(text), nonce).Some?
    ensures r.reply.Done? ==>
      r.requests == [R.GetKey(Some(peer)),
                     SendBlobTo(c, me, peer, PrivateEnvelope(c, me, SealForPeer(s, c, me, answer.pubkey, c.utf8Encode(text), nonce).value))]
    ensures !r.reply.Done? ==> r.requests == [R.GetKey(Some(peer))]
  {
    var lookup := R.GetKey(Some(peer));
    match answer
    case Error(_) => Attempt([lookup], Refused(KEY_UNAVAILABLE + peer))
    case KeyFound(_, pubkeyText) =>
      (match SealForPeer(s, c, me, pubkeyText, c.utf8Encode(text), nonce)
       case None => Attempt([lookup], Raised)
       case Some(cipher) => Attempt([lookup, SendBlobTo(c, me, peer, PrivateEnvelope(c, me, cipher))], Done))
    case _ => Attempt([lookup], Raised)
  }

  /** `send_group_message(group_id, text)`: refused for an unknown group or
      one without a key; `SecretBox(key)` raises for a key that is not 32
      bytes; otherwise one `send_group_blob` request is sent. */
  function SendGroupMessage(s: Suite, c: Codecs, me: Identity, convs: Conversations, gid: string, text: string, nonce: Bytes): (r: Attempt)
    ensures r.reply.Refused? <==> gid !in convs || convs[gid].kind != GROUP_KIND || !HasKey(convs[gid])
    ensures r.reply.Refused? ==>
      r.reply.reason == (if gid !in convs || convs[gid].kind != GROUP_KIND then GROUP_NOT_FOUND else GROUP_KEY_MISSING)
    ensures r.reply.Done? ==>
      && gid in convs && convs[gid].key.Some?
      && FramedEncrypt(s, convs[gid].key.value, c.utf8Encode(text), nonce).Some?
      && r.requests == [R.SendGroupBlob(Some(gid), Some(me.clientId),
                          Some(c.b64Encode(FramedEncrypt(s, convs[gid].key.value, c.utf8Encode(text), nonce).value)))]
    ensures r.reply.Done? <==>
      && gid in convs && convs[gid].kind == GROUP_KIND && HasKey(convs[gid])
      && FramedEncrypt(s, convs[gid].key.value, c.utf8Encode(text), nonce).Some?
    ensures r.reply.Raised? <==>
      && gid in convs && convs[gid].kind == GROUP_KIND && HasKey(convs[gid])
      && FramedEncrypt(s, convs[gid].key.value, c.utf8Encode(text), nonce).None?
    ensures !r.reply.Done? ==> r.requests == []
  {
    if gid !in convs || convs[gid].kind != GROUP_KIND then Attempt([], Refused(GROUP_NOT_FOUND))
    else if !HasKey(convs[gid]) then Attempt([], Refused(GROUP_KEY_MISSING))
    else match FramedEncrypt(s, convs[gid].key.value, c.utf8Encode(text), nonce)
      case None => Attempt([], Raised)
      case Some(cipher) => Attempt([R.SendGroupBlob(Some(gid), Some(me.clientId), Some(c.b64Encode(cipher)))], Done)
  }

  // ----- Group creation: the key distribution loop -----

  /** `for member in members` of `create_group`: the creator is skipped; a
      member whose `get_key` fails is skipped after the lookup; otherwise the
      group key is boxed for the member and sent in a key envelope. A reply
      without a public key, or a key the box refuses, raises. Member `i` is
      boxed with nonce `nonces(i)`. */
  function Distribute(s: Suite, c: Codecs, me: Identity, gid: string, groupKey: Bytes, members: seq<string>,
                      keyOf: string -> R.Response, nonces: nat -> Bytes): Distribution
  {
    if members == [] then Distribution([], true)
    else
      var prev := Distribute(s, c, me, gid, groupKey, members[..|members| - 1], keyOf, nonces);
      var m := members[|members| - 1];
      if !prev.ok || m == me.clientId then prev
      else
        var lookup := R.GetKey(Some(m));
        match keyOf(m)
        case Error(_) => Distribution(prev.sent + [lookup], true)
        case KeyFound(_, pubkeyText) =>
          (match SealForPeer(s, c, me, pubkeyText, groupKey, nonces(|members| - 1))
           case None => Distribution(prev.sent + [lookup], false)
           case Some(keyBlob) =>
             Distribution(prev.sent + [lookup, SendBlobTo(c, me, m, KeyEnvelope(c, me, gid, keyBlob))], true))
        case _ => Distribution(prev.sent + [lookup], false)
  }

  /** `if self.client_id not in members: members.append(self.client_id)`. */
  function WithSelf(me: Identity, members: seq<string>): (r: seq<string>)
    ensures me.clientId in r
    ensures forall m :: m in members ==> m in r
    ensures forall m :: m in r ==> m in members || m == me.clientId
  {
    if me.clientId in members then members else members + [me.clientId]
  }

  // ----- The client object -----

  class ChatLogic {
    const me: Identity
    var conversations: Conversations

    /** `ChatLogic(..., client_id)` with the key pair already loaded and the
        conversations restored from the state file. */
    constructor (s: Suite, c: Codecs, clientId: string, priv: Bytes, stateFile: StateFile)
      ensures me == Identity(clientId, priv, s.publicOf(priv))
      ensures conversations == Load(c, stateFile)
    {
      me := Identity(clientId, priv, s.publicOf(priv));
      conversations := Load(c, stateFile);
    }

    /** `list_all()`; `answer` is the relay's reply to the request. */
    method ListAll(answer: R.Response) returns (request: R.Request, clients: seq<string>, groups: seq<string>)
      modifies this`conversations
      ensures request == R.ListAll(Some(me.clientId))
      ensures answer.Listing? ==>
        && clients == answer.clients && groups == answer.groups
        && conversations == AddMissing(AddMissing(old(conversations), clients, PRIVATE_BLANK), groups, GROUP_BLANK)
      ensures !answer.Listing? ==> clients == [] && groups == [] && conversations == old(conversations)
    {
      request := R.ListAll(Some(me.clientId));
      if !answer.Listing? {
        return request, [], [];
      }
      clients, groups := answer.clients, answer.groups;
      AddEach(clients, PRIVATE_BLANK);
      AddEach(groups, GROUP_BLANK);
    }

    /** One of `list_all`'s loops: a blank conversation for every listed id
        not known yet. */
    method AddEach(ids: seq<string>, blank: Conversation)
      modifies this`conversations
      ensures conversations == AddMissing(old(conversations), ids, blank)
    {
      var i := 0;
      while i < |ids|
        invariant 0 <= i <= |ids|
        invariant conversations == AddMissing(old(conversations), ids[..i], blank)
      {
        assert ids[..i + 1][..i] == ids[..i];
        if ids[i] !in conversations {
          conversations := conversations[ids[i] := blank];
        }
        i := i + 1;
      }
      assert ids[..|ids|] == ids;
    }

    /** The body of one `poll_blobs` iteration: the `fetch_blobs` request,
        then every fetched message in order until one raises past its own
        handler. */
    method PollBlobs(s: Suite, c: Codecs, fetched: R.Response, clock: nat -> string) returns (request: R.Request)
      modifies this
      ensures request == R.FetchBlobs(Some(me.clientId))
      ensures conversations == AfterFetch(s, c, me.priv, old(conversations), fetched, clock)
    {
      request := R.FetchBlobs(Some(me.clientId));
      if !fetched.Messages? {
        return;
      }
      var items := fetched.items;
      var i, aborted := 0, false;
      while i < |items| && !aborted
        invariant 0 <= i <= |items|
        invariant ReceiveBatch(s, c, me.priv, old(conversations), items[..i], clock) == Handled(conversations, aborted)
        decreases |items| - i
      {
        assert items[..i + 1][..i] == items[..i];
        var h := Receive(s, c, me.priv, conversations, items[i], clock(i));
        conversations, aborted := h.convs, h.abort;
        i := i + 1;
      }
      BatchStopsAtAbort(s, c, me.priv, old(conversations), items, clock, i);
    }

    /** `create_group(group_id, members)`: `groupKey` is the 32 random bytes
        drawn for the group, `keyOf(id)` the relay's reply to `get_key` for
        `id`, `nonces(i)` the nonce drawn when boxing for member `i`. The
        conversation is (re)set before any request is sent; the creation
        note is appended only when every member was handled. */
    method CreateGroup(s: Suite, c: Codecs, gid: string, members: seq<string>, groupKey: Bytes,
                       keyOf: string -> R.Response, nonces: nat -> Bytes, ts: string)
      returns (membersOut: seq<string>, sent: seq<R.Request>, completed: bool)
      modifies this
      ensures membersOut == WithSelf(me, members)
      ensures var d := Distribute(s, c, me, gid, groupKey, membersOut, keyOf, nonces);
        && sent == [R.CreateGroup(Some(gid), Some(membersOut), Some(me.clientId))] + d.sent
        && completed == d.ok
        && conversations == old(conversations)[gid := Conversation(GROUP_KIND, Some(groupKey),
             if completed then [HistoryEntry(ts, SYSTEM, CreatedGroup(gid))] else [])]
    {
      membersOut := if me.clientId in members then members else members + [me.clientId];
      conversations := conversations[gid := Conversation(GROUP_KIND, Some(groupKey), [])];
      var log;
      log, completed := DistributeKey(s, c, gid, groupKey, membersOut, keyOf, nonces);
      sent := [R.CreateGroup(Some(gid), Some(membersOut), Some(me.clientId))] + log;
      if completed {
        var conv := conversations[gid];
        assert conv.history + [HistoryEntry(ts, SYSTEM, CreatedGroup(gid))] == [HistoryEntry(ts, SYSTEM, CreatedGroup(gid))];
        conversations := conversations[gid := conv.(history := conv.history + [HistoryEntry(ts, SYSTEM, CreatedGroup(gid))])];
      }
    }

    /** The `for member in members` loop of `create_group`. */
    method DistributeKey(s: Suite, c: Codecs, gid: string, groupKey: Bytes, members: seq<string>,
                         keyOf: string -> R.Response, nonces: nat -> Bytes)
      returns (sent: seq<R.Request>, completed: bool)
      ensures Distribution(sent, completed) == Distribute(s, c, me, gid, groupKey, members, keyOf, nonces)
    {
      sent := [];
      var i := 0;
      completed := true;
      while i < |members| && completed
        invariant 0 <= i <= |members|
        invariant Distribute(s, c, me, gid, groupKey, members[..i], keyOf, nonces) == Distribution(sent, completed)
        decreases |members| - i
      {
        assert members[..i + 1][..i] == members[..i];
        var member := members[i];
        if member != me.clientId {
          var lookup := R.GetKey(Some(member));
          var answer := keyOf(member);
          if answer.Error? {
            sent := sent + [lookup];
          } else if !answer.KeyFound? {
            sent := sent + [lookup];
            completed := false;
          } else {
            var keyBlob := SealForPeer(s, c, me, answer.pubkey, groupKey, nonces(i));
            if keyBlob.None? {
              sent := sent + [lookup];
              completed := false;
            } else {
              sent := sent + [lookup, SendBlobTo(c, me, member, KeyEnvelope(c, me, gid, keyBlob.value))];
            }
          }
        }
        i := i + 1;
      }
      DistributionStopsAtCrash(s, c, me, gid, groupKey, members, keyOf, nonces, i);
    }
  }

  // ----- Lemmas: the loops stop where the source stops -----

  /** Once a message aborts the batch, the later messages are not looked at. */
  lemma {:induction false} BatchStopsAtAbort(s: Suite, c: Codecs, priv: Bytes, convs: Conversations,
                                             ms: seq<R.Entry>, clock: nat -> string, i: nat)
    requires i <= |ms|
    requires i == |ms| || ReceiveBatch(s, c, priv, convs, ms[..i], clock).abort
    ensures ReceiveBatch(s, c, priv, convs, ms, clock) == ReceiveBatch(s, c, priv, convs, ms[..i], clock)
  {
    if i < |ms| {
      assert ms[..|ms| - 1][..i] == ms[..i];
      BatchStopsAtAbort(s, c, priv, convs, ms[..|ms| - 1], clock, i);
    } else {
      assert ms[..i] == ms;
    }
  }

  /** Once boxing for a member raised, no later member is looked at. */
  lemma {:induction false} DistributionStopsAtCrash(s: Suite, c: Codecs, me: Identity, gid: string, groupKey: Bytes,
                                                    members: seq<string>, keyOf: string -> R.Response, nonces: nat -> Bytes, i: nat)
    requires i <= |members|
    requires i == |members| || !Distribute(s, c, me, gid, groupKey, members[..i], keyOf, nonces).ok
    ensures Distribute(s, c, me, gid, groupKey, members, keyOf, nonces) == Distribute(s, c, me, gid, groupKey, members[..i], keyOf, nonces)
  {
    if i < |members| {
      assert members[..|members| - 1][..i] == members[..i];
      DistributionStopsAtCrash(s, c, me, gid, groupKey, members[..|members| - 1], keyOf, nonces, i);
    } else {
      assert members[..i] == members;
    }
  }
}
