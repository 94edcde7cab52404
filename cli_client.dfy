/** The command-line client, client.py: the session state `interactive`
    keeps in three local dictionaries, the body of the `poll_blobs` task,
    and the commands `criar grupo`, `conversas` (up to entering a
    conversation) and `iniciar chat`.

    The three dictionaries are fields of `Session`, updated in place. The
    network is a parameter: a method is given the relay's reply to each
    request (`keyOf(id)` is the reply to `get_key` for `id`) and returns the
    requests it sent. The key pair, the group key and the nonces drawn from
    `os.urandom` are parameters too. Printing and logging are left out. */
module CliClient {
  import opened Common
  import opened Nacl
  import R = RelayState
  import opened Envelopes
  import opened CommandLine

  /** One history entry: a fetched private message (`("received", m)`) or
      group message (`("received_group", m)`), kept undecrypted exactly as
      the relay delivered it, or a line typed in a chat (`(ts, sender,
      text)`, appended by the chat loops). */
  datatype CliEntry =
    | Received(m: R.Entry)
    | ReceivedGroup(m: R.Entry)
    | Typed(timestamp: string, sender: string, text: string)

  /** `groups[gid]`: the group key once it is known, and the history. */
  datatype CliGroup = CliGroup(key: Option<Bytes>, history: seq<CliEntry>)

  /** The group a fetched message or key creates when it is missing. */
  const NO_GROUP := CliGroup(None, [])

  /** `conversations`, `groups` and `new_msgs` together. */
  datatype CliState = CliState(conversations: map<string, seq<CliEntry>>, groups: map<string, CliGroup>,
                               newMsgs: map<string, nat>)

  /** `new_msgs.get(id, 0)`. */
  function Unread(st: CliState, id: string): nat {
    if id in st.newMsgs then st.newMsgs[id] else 0
  }

  /** The entries kept under `id`, in its private and its group history. */
  function Stored(st: CliState, id: string): nat {
    (if id in st.conversations then |st.conversations[id]| else 0)
    + (if id in st.groups then |st.groups[id].history| else 0)
  }

  /** `new_msgs[id] = new_msgs.get(id, 0) + 1`. */
  function Bump(counts: map<string, nat>, id: string): map<string, nat> {
    counts[id := (if id in counts then counts[id] else 0) + 1]
  }

  // ----- Receiving -----

  /** The inner `try` reading a private message as a group-key
      distribution: the group id and the key, or None when the envelope is
      of another type or any step raises (the envelope does not decode to
      an object, a field is missing or not text, the sender's key is not 32
      bytes, the box does not open). */
  function KeyDistribution(s: Suite, c: Codecs, priv: Bytes, blob: string): (r: Option<(string, Bytes)>)
    ensures r.Some? ==>
      && OpenEnvelope(c, blob).Some?
      && Get(JObj(OpenEnvelope(c, blob).value), "type") == Some(JStr(KEY_DISTRIBUTION))
      && StrField(OpenEnvelope(c, blob).value, "group_id") == Some(r.value.0)
  {
    match OpenEnvelope(c, blob)
    case None => None
    case Some(env) =>
      if Get(JObj(env), "type") != Some(JStr(KEY_DISTRIBUTION)) then None
      else match (StrField(env, "sender_pub"), StrField(env, "key_blob"), StrField(env, "group_id"))
        case (Some(senderPub), Some(keyBlob), Some(gid)) =>
          (match (ParsePublicKey(c, senderPub), c.b64Decode(keyBlob))
           case (Some(peer), Some(combined)) =>
             (match FramedDecrypt(s, s.beforenm(peer, priv), combined)
              case None => None
              case Some(key) => Some((gid, key)))
           case _ => None)
        case _ => None
  }

  /** The state after one message, and whether an exception escaped to the
      `try` around the whole poll, abandoning the rest of the batch. */
  datatype Polled = Polled(state: CliState, abort: bool)

  /** One iteration of `for m in response.get("messages", [])`. A group
      message creates its group if missing, then is stored undecrypted and
      counted, unless `ub64` rejects its blob, which raises. A private
      message is first tried as a key distribution, which sets the group's
      key and counts nothing; otherwise it is stored undecrypted under its
      sender and counted, unless `base64.b64decode` rejects the blob text,
      which it does for any non-ASCII character as well. */
  function Route(s: Suite, c: Codecs, priv: Bytes, st: CliState, m: R.Entry): Polled {
    match m
    case GroupBlob(from, blob, gid) =>
      var groups := if gid in st.groups then st.groups else st.groups[gid := NO_GROUP];
      if c.b64Decode(blob).None? then Polled(st.(groups := groups), true)
      else
        var g := groups[gid];
        Polled(st.(groups := groups[gid := g.(history := g.history + [ReceivedGroup(m)])],
                   newMsgs := Bump(st.newMsgs, gid)), false)
    case PrivateBlob(from, blob, _) =>
      match KeyDistribution(s, c, priv, blob)
      case Some((gid, key)) =>
        var g := if gid in st.groups then st.groups[gid] else NO_GROUP;
        Polled(st.(groups := st.groups[gid := g.(key := Some(key))]), false)
      case None =>
        if B64DecodeText(c, blob).None? then Polled(st, true)
        else
          var conv := if from in st.conversations then st.conversations[from] else [];
          Polled(st.(conversations := st.conversations[from := conv + [Received(m)]],
                     newMsgs := Bump(st.newMsgs, from)), false)
  }

  /** The fetched batch in order, up to the first message that raises. */
  function RouteBatch(s: Suite, c: Codecs, priv: Bytes, st: CliState, ms: seq<R.Entry>): Polled {
    if ms == [] then Polled(st, false)
    else
      var prev := RouteBatch(s, c, priv, st, ms[..|ms| - 1]);
      if prev.abort then prev else Route(s, c, priv, prev.state, ms[|ms| - 1])
  }

  /** What one poll does with the relay's reply to `fetch_blobs`. */
  function AfterPoll(s: Suite, c: Codecs, priv: Bytes, st: CliState, fetched: R.Response): CliState {
    match fetched
    case Messages(items) => RouteBatch(s, c, priv, st, items).state
    case _ => st
  }

  /** Routing one more message of a batch that has not raised. */
  lemma RouteBatchNext(s: Suite, c: Codecs, priv: Bytes, st: CliState, ms: seq<R.Entry>, i: nat)
    requires i < |ms| && !RouteBatch(s, c, priv, st, ms[..i]).abort
    ensures RouteBatch(s, c, priv, st, ms[..i + 1]) == Route(s, c, priv, RouteBatch(s, c, priv, st, ms[..i]).state, ms[i])
  {
    assert ms[..i + 1][..i] == ms[..i];
  }

  /** Once a message raises, the later messages are not looked at. */
  lemma {:induction false} RouteStopsAtAbort(s: Suite, c: Codecs, priv: Bytes, st: CliState, ms: seq<R.Entry>, i: nat)
    requires i <= |ms|
    requires i == |ms| || RouteBatch(s, c, priv, st, ms[..i]).abort
    ensures RouteBatch(s, c, priv, st, ms) == RouteBatch(s, c, priv, st, ms[..i])
  {
    if i < |ms| {
      assert ms[..|ms| - 1][..i] == ms[..i];
      RouteStopsAtAbort(s, c, priv, st, ms[..|ms| - 1], i);
    } else {
      assert ms[..i] == ms;
    }
  }

  // ----- The command line -----

  /** Which branch of the command loop a line selects. The first word and,
      for `criar`, the second are compared case-insensitively; the loop
      splits on single spaces, and `split(" ", 3)` only merges the pieces
      after the third, which no branch looks at. */
  datatype Command = Blank | ListCmd | CreateGroupCmd | ConversationsCmd | StartChatCmd | QuitCmd | UnknownCmd

  function CommandOf(line: string): Command {
    if line == "" then Blank
    else
      var parts := SplitOn(Strip(line), ' ');
      var cmd := Lower(parts[0]);
      if cmd == "listar" then ListCmd
      else if cmd == "criar" && |parts| > 1 && Lower(parts[1]) == "grupo" then CreateGroupCmd
      else if cmd == "conversas" then ConversationsCmd
      else if cmd == "iniciar" then StartChatCmd
      else if cmd == "sair" then QuitCmd
      else UnknownCmd
  }

  // ----- criar grupo -----

  /** "Formato inválido" (an IndexError or ValueError) and "precisa
      especificar pelo menos um membro". */
  datatype CommandError = BadFormat | NoMembers

  datatype GroupCommand = GroupCommand(groupId: string, members: seq<string>)

  /** The parse of `criar grupo <nome> com <membro> ...`: the third word is
      the group, the members are the words after the first `com`, and the
      creator is appended to them. */
  function ParseGroupCommand(line: string, clientId: string): (r: Result<GroupCommand, CommandError>)
    ensures var words := Words(Strip(line));
      && (r == Failure(BadFormat) <==> |words| < 3 || "com" !in words)
      && (r == Failure(NoMembers) <==> |words| >= 3 && "com" in words && FirstIndex(words, "com") == |words| - 1)
      && (r.Success? ==>
            && r.value.groupId == words[2]
            && r.value.members == words[FirstIndex(words, "com") + 1..] + [clientId])
  {
    var words := Words(Strip(line));
    if |words| < 3 || "com" !in words then Failure(BadFormat)
    else
      var members := words[FirstIndex(words, "com") + 1..];
      if members == [] then Failure(NoMembers)
      else Success(GroupCommand(words[2], members + [clientId]))
  }

  /** `Box(priv, PublicKey(ub64(pubkey))).encrypt(group_key)`: None where
      PyNaCl raises. */
  function CliSeal(s: Suite, c: Codecs, me: Identity, pubkeyText: string, key: Bytes, nonce: Bytes): (r: Option<Bytes>)
    ensures r.Some? <==>
      && ParsePublicKey(c, pubkeyText).Some?
      && |s.beforenm(ParsePublicKey(c, pubkeyText).value, me.priv)| == KEY_SIZE
      && |nonce| == NONCE_SIZE
    ensures r.Some? ==> r == FramedEncrypt(s, s.beforenm(ParsePublicKey(c, pubkeyText).value, me.priv), key, nonce)
  {
    match ParsePublicKey(c, pubkeyText)
    case None => None
    case Some(peer) => FramedEncrypt(s, s.beforenm(peer, me.priv), key, nonce)
  }

  /** The `for member in members` loop of `criar grupo`: the creator is
      skipped; a member whose `get_key` fails is skipped after the lookup;
      otherwise the group key is boxed for the member and sent in a key
      envelope. A reply without a public key, or a key the box refuses,
      raises. Member `i` is boxed with nonce `nonces(i)`. */
  function CliDistribute(s: Suite, c: Codecs, me: Identity, gid: string, groupKey: Bytes, members: seq<string>,
                         keyOf: string -> R.Response, nonces: nat -> Bytes): Distribution
  {
    if members == [] then Distribution([], true)
    else
      var prev := CliDistribute(s, c, me, gid, groupKey, members[..|members| - 1], keyOf, nonces);
      var m := members[|members| - 1];
      if !prev.ok || m == me.clientId then prev
      else
        var lookup := R.GetKey(Some(m));
        match keyOf(m)
        case Error(_) => Distribution(prev.sent + [lookup], true)
        case KeyFound(_, pubkeyText) =>
          (match CliSeal(s, c, me, pubkeyText, groupKey, nonces(|members| - 1))
           case None => Distribution(prev.sent + [lookup], false)
           case Some(keyBlob) =>
             Distribution(prev.sent + [lookup, SendBlobTo(c, me, m, KeyEnvelope(c, me, gid, keyBlob))], true))
        case _ => Distribution(prev.sent + [lookup], false)
  }

  /** Once boxing for a member raised, no later member is looked at. */
  lemma {:induction false} CliDistributionStopsAtCrash(s: Suite, c: Codecs, me: Identity, gid: string, groupKey: Bytes,
                                                       members: seq<string>, keyOf: string -> R.Response,
                                                       nonces: nat -> Bytes, i: nat)
    requires i <= |members|
    requires i == |members| || !CliDistribute(s, c, me, gid, groupKey, members[..i], keyOf, nonces).ok
    ensures CliDistribute(s, c, me, gid, groupKey, members, keyOf, nonces)
         == CliDistribute(s, c, me, gid, groupKey, members[..i], keyOf, nonces)
  {
    if i < |members| {
      assert members[..|members| - 1][..i] == members[..i];
      CliDistributionStopsAtCrash(s, c, me, gid, groupKey, members[..|members| - 1], keyOf, nonces, i);
    } else {
      assert members[..i] == members;
    }
  }

  /** How `criar grupo` ended: refused before anything was sent, every
      member handled, or an exception out of the distribution loop. */
  datatype CreateReply = Rejected(error: CommandError) | Created(groupId: string) | Crashed

  // ----- iniciar chat -----

  /** "Uso: Iniciar chat <cliente>", "Não é possível iniciar chat consigo
      mesmo", or the conversation with `peer` being ready. */
  datatype StartReply = Usage | SelfChat | Ready(peer: string)

  /** The checks of `iniciar chat <cliente>`: the second word must be `chat`
      in any case, and the peer is the third piece with surrounding
      whitespace and quotes removed. */
  function StartChatReply(line: string, clientId: string): (r: StartReply)
    ensures var parts := SplitOn(Strip(line), ' ');
      && (r.Usage? <==> |parts| < 3 || Lower(parts[1]) != "chat")
      && (!r.Usage? ==> var peer := StripChar(Strip(parts[2]), '"');
            if peer == clientId then r == SelfChat else r == Ready(peer))
  {
    var parts := SplitOn(Strip(line), ' ');
    if |parts| < 3 || Lower(parts[1]) != "chat" then Usage
    else
      var peer := StripChar(Strip(parts[2]), '"');
      if peer == clientId then SelfChat else Ready(peer)
  }

  // ----- The session -----

  class Session {
    const clientId: string
    const priv: Bytes
    const pub: Bytes
    var conversations: map<string, seq<CliEntry>>
    var groups: map<string, CliGroup>
    var newMsgs: map<string, nat>

    /** The identity the key-distribution envelopes are built from. */
    function Me(): Identity {
      Identity(clientId, priv, pub)
    }

    function State(): CliState
      reads this
    {
      CliState(conversations, groups, newMsgs)
    }

    /** The start of `interactive`: the id given on the command line with
        whitespace and then quotes stripped, the key pair drawn by
        `PrivateKey.generate()`, and three empty dictionaries. */
    constructor (s: Suite, givenId: string, freshPriv: Bytes)
      ensures clientId == StripChar(Strip(givenId), '"') && priv == freshPriv && pub == s.publicOf(freshPriv)
      ensures conversations == map[] && groups == map[] && newMsgs == map[]
    {
      var id := StripChar(Strip(givenId), '"');
      clientId := id;
      priv := freshPriv;
      pub := s.publicOf(freshPriv);
      conversations := map[];
      groups := map[];
      newMsgs := map[];
    }

    /** One message of a poll, updating the dictionaries in place; `abort`
        is set when the message raises. */
    method RouteOne(s: Suite, c: Codecs, m: R.Entry) returns (abort: bool)
      modifies this
      ensures Polled(State(), abort) == Route(s, c, priv, old(State()), m)
    {
      abort := false;
      match m {
        case GroupBlob(from, blob, gid) =>
          if gid !in groups {
            groups := groups[gid := NO_GROUP];
          }
          if c.b64Decode(blob).None? {
            abort := true;
            return;
          }
          groups := groups[gid := groups[gid].(history := groups[gid].history + [ReceivedGroup(m)])];
          newMsgs := Bump(newMsgs, gid);
        case PrivateBlob(from, blob, _) =>
          var distribution := KeyDistribution(s, c, priv, blob);
          if distribution.Some? {
            var (gid, key) := distribution.value;
            if gid !in groups {
              groups := groups[gid := NO_GROUP];
            }
            groups := groups[gid := groups[gid].(key := Some(key))];
            return;
          }
          if B64DecodeText(c, blob).None? {
            abort := true;
            return;
          }
          if from !in conversations {
            conversations := conversations[from := []];
          }
          conversations := conversations[from := conversations[from] + [Received(m)]];
          newMsgs := Bump(newMsgs, from);
      }
    }

    /** One round of `poll_blobs`: the `fetch_blobs` request, then every
        fetched message in order until one raises. */
    method Poll(s: Suite, c: Codecs, fetched: R.Response) returns (request: R.Request)
      modifies this
      ensures request == R.FetchBlobs(Some(clientId))
      ensures State() == AfterPoll(s, c, priv, old(State()), fetched)
    {
      request := R.FetchBlobs(Some(clientId));
      if !fetched.Messages? {
        return;
      }
      var items := fetched.items;
      var i, aborted := 0, false;
      while i < |items| && !aborted
        invariant 0 <= i <= |items|
        invariant RouteBatch(s, c, priv, old(State()), items[..i]) == Polled(State(), aborted)
        decreases |items| - i
      {
        RouteBatchNext(s, c, priv, old(State()), items, i);
        aborted := RouteOne(s, c, items[i]);
        i := i + 1;
      }
      RouteStopsAtAbort(s, c, priv, old(State()), items, i);
    }

    /** The `criar grupo` branch: `groupKey` is what `os.urandom(32)` drew
        and `nonces(i)` the nonce drawn when boxing for member `i`. The group
        is (re)set with the new key and an empty history before anything is
        sent. */
    method CreateGroup(s: Suite, c: Codecs, line: string, groupKey: Bytes,
                       keyOf: string -> R.Response, nonces: nat -> Bytes)
      returns (reply: CreateReply, sent: seq<R.Request>)
      requires CommandOf(line) == CreateGroupCmd
      modifies this`groups
      ensures var p := ParseGroupCommand(line, clientId);
        && (p.Failure? ==> reply == Rejected(p.error) && sent == [] && groups == old(groups))
        && (p.Success? ==>
              var d := CliDistribute(s, c, Me(), p.value.groupId, groupKey, p.value.members, keyOf, nonces);
              && groups == old(groups)[p.value.groupId := CliGroup(Some(groupKey), [])]
              && sent == [R.CreateGroup(Some(p.value.groupId), Some(p.value.members), Some(clientId))] + d.sent
              && reply == (if d.ok then Created(p.value.groupId) else Crashed))
    {
      var p := ParseGroupCommand(line, clientId);
      if p.Failure? {
        return Rejected(p.error), [];
      }
      var gid, members := p.value.groupId, p.value.members;
      groups := groups[gid := CliGroup(Some(groupKey), [])];
      var log, ok := DistributeKey(s, c, gid, groupKey, members, keyOf, nonces);
      sent := [R.CreateGroup(Some(gid), Some(members), Some(clientId))] + log;
      reply := if ok then Created(gid) else Crashed;
    }

    /** The distribution loop of `criar grupo`. */
    method DistributeKey(s: Suite, c: Codecs, gid: string, groupKey: Bytes, members: seq<string>,
                         keyOf: string -> R.Response, nonces: nat -> Bytes)
      returns (sent: seq<R.Request>, completed: bool)
      ensures Distribution(sent, completed) == CliDistribute(s, c, Me(), gid, groupKey, members, keyOf, nonces)
    {
      sent, completed := [], true;
      var i := 0;
      while i < |members| && completed
        invariant 0 <= i <= |members|
        invariant CliDistribute(s, c, Me(), gid, groupKey, members[..i], keyOf, nonces) == Distribution(sent, completed)
        decreases |members| - i
      {
        assert members[..i + 1][..i] == members[..i];
        var member := members[i];
        if member != clientId {
          var lookup := R.GetKey(Some(member));
          var answer := keyOf(member);
          if answer.Error? {
            sent := sent + [lookup];
          } else if !answer.KeyFound? {
            sent, completed := sent + [lookup], false;
          } else {
            var keyBlob := CliSeal(s, c, Me(), answer.pubkey, groupKey, nonces(i));
            if keyBlob.None? {
              sent, completed := sent + [lookup], false;
            } else {
              sent := sent + [lookup, SendBlobTo(c, Me(), member, KeyEnvelope(c, Me(), gid, keyBlob.value))];
            }
          }
        }
        i := i + 1;
      }
      CliDistributionStopsAtCrash(s, c, Me(), gid, groupKey, members, keyOf, nonces, i);
    }

    /** The `conversas` branch up to entering a chat: `answer` is what was
        typed at the prompt. A non-empty choice naming a private or group
        conversation is entered and its unread count cleared; anything else
        returns to the menu with nothing changed. */
    method EnterConversation(answer: string) returns (entered: Option<string>)
      modifies this`newMsgs
      ensures var choice := Strip(answer);
        entered == (if choice != "" && (choice in conversations || choice in groups) then Some(choice) else None)
      ensures entered.Some? ==> newMsgs == old(newMsgs)[entered.value := 0]
      ensures entered.None? ==> newMsgs == old(newMsgs)
    {
      var choice := Strip(answer);
      if choice == "" || (choice !in conversations && choice !in groups) {
        return None;
      }
      newMsgs := newMsgs[choice := 0];
      entered := Some(choice);
    }

    /** The `iniciar chat` branch: a valid peer other than the client gets an
        empty conversation unless it already has one. */
    method StartChat(line: string) returns (reply: StartReply)
      requires CommandOf(line) == StartChatCmd
      modifies this`conversations
      ensures reply == StartChatReply(line, clientId)
      ensures reply.Ready? ==>
        conversations == if reply.peer in old(conversations) then old(conversations) else old(conversations)[reply.peer := []]
      ensures !reply.Ready? ==> conversations == old(conversations)
    {
      var parts := SplitOn(Strip(line), ' ');
      if |parts| < 3 || Lower(parts[1]) != "chat" {
        return Usage;
      }
      var peer := StripChar(Strip(parts[2]), '"');
      if peer == clientId {
        return SelfChat;
      }
      if peer !in conversations {
        conversations := conversations[peer := []];
      }
      reply := Ready(peer);
    }
  }
}
