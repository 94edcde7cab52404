/** The relay's request state machine (server/server.py), as a function from
    the relay's state and one decoded request line to the new state, the
    reply written back, and whether the connection loop ends.

    The state is the four module-level dictionaries of the server:
    PUBLIC_KEYS (with its insertion order, which `list_all` exposes),
    BLOBS, GROUPS (with its insertion order) and the ids in ACTIVE_CLIENTS.
    The class `RelayServer.Relay` updates the same fields in place and is
    proved to agree with `Step`. */
module RelayState {
  import opened Common

  /** One mailbox entry. A private entry is `{"from", "blob", "meta"}`; a
      group entry is `{"from", "blob", "group_id", "type": "group"}`. */
  datatype Entry =
    | PrivateBlob(from: string, blob: string, meta: Json)
    | GroupBlob(from: string, blob: string, groupId: string)

  /** `GROUPS[group_id] = {"members": ..., "admin": ...}`, members verbatim. */
  datatype Group = Group(members: seq<string>, admin: string)

  /** One request line after `json.loads`. A field is None when the key is
      absent or null, except `meta`, which `msg.get("meta", {})` keeps when
      it is an explicit null (`Some(JNull)`); only an absent meta is None.
      `UnknownType` is an object whose "type" is none of the
      eight request kinds (or is missing); `InvalidJson` is a line that does
      not parse; `NotAnObject` parses to something other than an object, on
      which `msg.get` raises and the connection handler stops. */
  datatype Request =
    | PublishKey(clientId: Option<string>, pubkey: Option<string>)
    | GetKey(clientId: Option<string>)
    | SendBlob(to: Option<string>, from: Option<string>, blob: Option<string>, meta: Option<Json>)
    | CreateGroup(groupId: Option<string>, members: Option<seq<string>>, admin: Option<string>)
    | SendGroupBlob(groupId: Option<string>, from: Option<string>, blob: Option<string>)
    | FetchBlobs(clientId: Option<string>)
    | ListAll(clientId: Option<string>)
    | Disconnect(clientId: Option<string>)
    | UnknownType
    | InvalidJson(detail: string)
    | NotAnObject

  /** The reply objects: every constructor but `Error` carries
      `"status": "ok"`. */
  datatype Response =
    | KeyStored(clientId: string)
    | KeyFound(clientId: string, pubkey: string)
    | Stored
    | GroupCreated
    | StoredForGroup
    | Messages(items: seq<Entry>)
    | Listing(clients: seq<string>, groups: seq<string>)
    | Disconnected
    | Error(reason: string)

  const PUBLISH_KEY_NEEDS := "publish_key requer client_id e pubkey"
  const GET_KEY_NEEDS := "get_key requer client_id"
  const NOT_FOUND := "não encontrado"
  const SEND_BLOB_NEEDS := "send_blob requer to, from e blob"
  const CREATE_GROUP_NEEDS := "create_group requer group_id, members e admin"
  const GROUP_EXISTS := "grupo já existe"
  const SEND_GROUP_BLOB_NEEDS := "send_group_blob requer group_id, from e blob"
  const GROUP_NOT_FOUND := "grupo não encontrado"
  const NOT_A_MEMBER := "você não é membro deste grupo"
  const FETCH_BLOBS_NEEDS := "fetch_blobs requer client_id"
  const UNKNOWN_TYPE := "unknown_type"
  const INVALID_JSON := "invalid json: "

  datatype State = State(
    publicKeys: map<string, string>,
    keyOrder: seq<string>,
    blobs: map<string, seq<Entry>>,
    groups: map<string, Group>,
    groupOrder: seq<string>,
    active: set<string>)

  /** The relay at start-up with an empty pubkeys.json. */
  const Initial := State(map[], [], map[], map[], [], {})

  /** What every reachable state satisfies: the order lists enumerate their
      dictionaries' keys once each, no stored key is empty, no mailbox is
      kept empty, and every group has members and an admin. */
  ghost predicate Valid(s: State) {
    && Distinct(s.keyOrder)
    && (forall c :: c in s.keyOrder <==> c in s.publicKeys)
    && (forall c :: c in s.publicKeys ==> s.publicKeys[c] != "")
    && (forall r :: r in s.blobs ==> s.blobs[r] != [])
    && Distinct(s.groupOrder)
    && (forall g :: g in s.groupOrder <==> g in s.groups)
    && (forall g :: g in s.groups ==> s.groups[g].members != [] && s.groups[g].admin != "")
  }

  /** `BLOBS.get(r, [])`. */
  function Mailbox(blobs: map<string, seq<Entry>>, r: string): seq<Entry> {
    if r in blobs then blobs[r] else []
  }

  /** `BLOBS.setdefault(to, []).append(e)`. */
  function Deposit(blobs: map<string, seq<Entry>>, to: string, e: Entry): (b: map<string, seq<Entry>>)
    ensures Mailbox(b, to) == Mailbox(blobs, to) + [e]
    ensures forall r :: r != to ==> Mailbox(b, r) == Mailbox(blobs, r)
    ensures b.Keys == blobs.Keys + {to}
  {
    blobs[to := Mailbox(blobs, to) + [e]]
  }

  /** The fan-out loop of send_group_blob over `members`, one deposit per
      occurrence of a member other than the sender. */
  function FanOut(blobs: map<string, seq<Entry>>, members: seq<string>, from: string, e: Entry): map<string, seq<Entry>>
    decreases |members|
  {
    if members == [] then blobs
    else
      var rest := FanOut(blobs, members[..|members| - 1], from, e);
      var m := members[|members| - 1];
      if m != from then Deposit(rest, m, e) else rest
  }

  /** `[c for c in ids if c != requester]`. */
  function OthersThan(ids: seq<string>, requester: Option<string>): (r: seq<string>)
    ensures forall c :: c in r <==> c in ids && requester != Some(c)
  {
    if ids == [] then []
    else (if requester != Some(ids[0]) then [ids[0]] else []) + OthersThan(ids[1..], requester)
  }

  /** The result of handling one request line. */
  datatype Outcome = Outcome(state: State, reply: Option<Response>, close: bool)

  function Reply(s: State, r: Response): Outcome {
    Outcome(s, Some(r), false)
  }

  /** `store_pubkey`: last write wins; a new id goes to the end of the
      directory's order, a known id keeps its place. */
  function StorePubkey(s: State, cid: string, pub: string): (t: State)
    ensures t.publicKeys == s.publicKeys[cid := pub]
    ensures t.blobs == s.blobs && t.groups == s.groups && t.groupOrder == s.groupOrder && t.active == s.active
  {
    s.(publicKeys := s.publicKeys[cid := pub],
       keyOrder := if cid in s.publicKeys then s.keyOrder else s.keyOrder + [cid])
  }

  /** The lines after which handle_reader leaves its loop: `disconnect`
      breaks, and a line that is not an object raises out of it. */
  predicate Closes(req: Request) {
    req.Disconnect? || req.NotAnObject?
  }

  /** One iteration of the `while True` loop of handle_reader. Every line
      but a non-object is answered, and only the closing lines end the
      loop. */
  function Step(s: State, req: Request): (o: Outcome)
    ensures o.close <==> Closes(req)
    ensures o.reply.None? <==> req.NotAnObject?
  {
    match req
    case PublishKey(cid, pub) =>
      if !Filled(cid) || !Filled(pub) then Reply(s, Error(PUBLISH_KEY_NEEDS))
      else
        var t := StorePubkey(s, cid.value, pub.value);
        Reply(t.(active := t.active + {cid.value}), KeyStored(cid.value))
    case GetKey(cid) =>
      if !Filled(cid) then Reply(s, Error(GET_KEY_NEEDS))
      else if cid.value !in s.publicKeys || s.publicKeys[cid.value] == "" then Reply(s, Error(NOT_FOUND))
      else Reply(s, KeyFound(cid.value, s.publicKeys[cid.value]))
    case SendBlob(to, frm, blob, meta) =>
      if !Filled(to) || !Filled(frm) || !Filled(blob) then Reply(s, Error(SEND_BLOB_NEEDS))
      else
        var e := PrivateBlob(frm.value, blob.value, meta.GetOr(JObj(map[])));
        Reply(s.(blobs := Deposit(s.blobs, to.value, e)), Stored)
    case CreateGroup(gid, members, admin) =>
      if !Filled(gid) || members.None? || members.value == [] || !Filled(admin) then
        Reply(s, Error(CREATE_GROUP_NEEDS))
      else if gid.value in s.groups then Reply(s, Error(GROUP_EXISTS))
      else
        Reply(s.(groups := s.groups[gid.value := Group(members.value, admin.value)],
                 groupOrder := s.groupOrder + [gid.value]),
              GroupCreated)
    case SendGroupBlob(gid, frm, blob) =>
      if !Filled(gid) || !Filled(frm) || !Filled(blob) then Reply(s, Error(SEND_GROUP_BLOB_NEEDS))
      else if gid.value !in s.groups then Reply(s, Error(GROUP_NOT_FOUND))
      else if frm.value !in s.groups[gid.value].members then Reply(s, Error(NOT_A_MEMBER))
      else
        var e := GroupBlob(frm.value, blob.value, gid.value);
        Reply(s.(blobs := FanOut(s.blobs, s.groups[gid.value].members, frm.value, e)), StoredForGroup)
    case FetchBlobs(cid) =>
      if !Filled(cid) then Reply(s, Error(FETCH_BLOBS_NEEDS))
      else Reply(s.(blobs := s.blobs - {cid.value}), Messages(Mailbox(s.blobs, cid.value)))
    case ListAll(requester) =>
      Reply(s, Listing(OthersThan(s.keyOrder, requester), s.groupOrder))
    case Disconnect(cid) =>
      var active := if Filled(cid) && cid.value in s.active then s.active - {cid.value} else s.active;
      Outcome(s.(active := active), Some(Disconnected), true)
    case UnknownType =>
      Reply(s, Error(UNKNOWN_TYPE))
    case InvalidJson(detail) =>
      Reply(s, Error(INVALID_JSON + detail))
    case NotAnObject =>
      Outcome(s, None, true)
  }

  /** What one connection produces from the request lines it reads: the
      replies in order, the state afterwards, and how many lines were
      consumed before the handler stopped. */
  datatype Session = Session(state: State, replies: seq<Response>, consumed: nat)

  function Run(s: State, lines: seq<Request>): (r: Session)
    ensures r.consumed <= |lines|
    ensures forall i :: 0 <= i < r.consumed - 1 ==> !Closes(lines[i])
    ensures r.consumed < |lines| ==> 0 < r.consumed && Closes(lines[r.consumed - 1])
    ensures |r.replies| == r.consumed - (if 0 < r.consumed && lines[r.consumed - 1].NotAnObject? then 1 else 0)
    decreases |lines|
  {
    if lines == [] then Session(s, [], 0)
    else
      var o := Step(s, lines[0]);
      var now := if o.reply.Some? then [o.reply.value] else [];
      if o.close then Session(o.state, now, 1)
      else
        var rest := Run(o.state, lines[1..]);
        Session(rest.state, now + rest.replies, 1 + rest.consumed)
  }

  // ----- Lemmas about the fan-out and the listing -----

  /** After the fan-out, a mailbox has gained one copy of the entry per
      occurrence of its owner in `members`, except the sender's, which has
      gained nothing. */
  lemma {:induction false} FanOutMailbox(blobs: map<string, seq<Entry>>, members: seq<string>, from: string, e: Entry, r: string)
    ensures Mailbox(FanOut(blobs, members, from, e), r)
         == Mailbox(blobs, r) + Repeat(e, if r == from then 0 else Count(members, r))
    decreases |members|
  {
    if members != [] {
      var init := members[..|members| - 1];
      FanOutMailbox(blobs, init, from, e, r);
      var m := members[|members| - 1];
      if m != from && m == r {
        assert Repeat(e, Count(members, r)) == Repeat(e, Count(init, r)) + [e];
      }
    }
  }

  /** The fan-out creates a mailbox for exactly the members other than the
      sender that had none. */
  lemma {:induction false} FanOutKeys(blobs: map<string, seq<Entry>>, members: seq<string>, from: string, e: Entry)
    ensures FanOut(blobs, members, from, e).Keys == blobs.Keys + (set m | m in members && m != from)
    decreases |members|
  {
    if members != [] {
      var init := members[..|members| - 1];
      FanOutKeys(blobs, init, from, e);
      assert members == init + [members[|members| - 1]];
      assert (set m | m in members && m != from)
          == (set m | m in init && m != from) + (if members[|members| - 1] != from then {members[|members| - 1]} else {});
    }
  }

  /** The listing drops nothing but the requester and keeps the directory's
      order: if the requester is not listed, nothing is dropped. */
  lemma {:induction false} OthersThanAbsent(ids: seq<string>, requester: Option<string>)
    requires requester.None? || requester.value !in ids
    ensures OthersThan(ids, requester) == ids
  {
    if ids != [] {
      OthersThanAbsent(ids[1..], requester);
    }
  }

  /** ... and if the requester is listed once, at position k, exactly that
      position is dropped. */
  lemma {:induction false} OthersThanPresent(ids: seq<string>, k: nat)
    requires Distinct(ids) && k < |ids|
    ensures OthersThan(ids, Some(ids[k])) == ids[..k] + ids[k + 1..]
  {
    if k == 0 {
      OthersThanAbsent(ids[1..], Some(ids[0]));
    } else {
      assert ids[1..][k - 1] == ids[k] && ids[0] != ids[k];
      OthersThanPresent(ids[1..], k - 1);
      assert ids[1..][..k - 1] == ids[1..k];
      assert ids[1..][k..] == ids[k + 1..];
      assert ids[..k] == [ids[0]] + ids[1..k];
    }
  }

  // ----- Lemmas about single requests -----

  /** Every error reply leaves the relay state exactly as it was and keeps
      the connection open. */
  lemma ErrorChangesNothing(s: State, req: Request)
    requires Step(s, req).reply.Some? && Step(s, req).reply.value.Error?
    ensures Step(s, req).state == s && !Step(s, req).close
  {
  }

  /** publish_key: refused without both fields; otherwise the directory maps
      the id to the new key and the reply names the id. */
  lemma PublishKeyStores(s: State, cid: Option<string>, pub: Option<string>)
    ensures var o := Step(s, PublishKey(cid, pub));
      && (o.reply == Some(Error(PUBLISH_KEY_NEEDS)) <==> !Filled(cid) || !Filled(pub))
      && (Filled(cid) && Filled(pub) ==>
            && o.reply == Some(KeyStored(cid.value))
            && o.state.publicKeys == s.publicKeys[cid.value := pub.value]
            && cid.value in o.state.active
            && o.state.blobs == s.blobs && o.state.groups == s.groups)
  {
  }

  /** Last write wins: after two publications for one id, get_key returns
      the second key; the other ids' answers are untouched. */
  lemma LastWriteWins(s: State, cid: string, first: string, second: string, other: string)
    requires cid != "" && first != "" && second != ""
    ensures var t := Step(Step(s, PublishKey(Some(cid), Some(first))).state, PublishKey(Some(cid), Some(second))).state;
      && Step(t, GetKey(Some(cid))).reply == Some(KeyFound(cid, second))
      && (other != cid ==> Step(t, GetKey(Some(other))).reply == Step(s, GetKey(Some(other))).reply)
  {
  }

  /** In a valid state get_key answers exactly for the published ids and
      reports "não encontrado" for every other id. */
  lemma GetKeyAnswers(s: State, cid: string)
    requires Valid(s) && cid != ""
    ensures var o := Step(s, GetKey(Some(cid)));
      && o.state == s
      && (cid in s.publicKeys ==> o.reply == Some(KeyFound(cid, s.publicKeys[cid])))
      && (cid !in s.publicKeys ==> o.reply == Some(Error(NOT_FOUND)))
  {
  }

  /** send_blob with all three fields appends exactly one entry to the end of
      the recipient's mailbox and leaves every other mailbox as it was;
      without them it is refused and deposits nothing. */
  lemma SendBlobDeposits(s: State, to: Option<string>, frm: Option<string>, blob: Option<string>, meta: Option<Json>, r: string)
    ensures var o := Step(s, SendBlob(to, frm, blob, meta));
      && (!Filled(to) || !Filled(frm) || !Filled(blob) ==>
            o.reply == Some(Error(SEND_BLOB_NEEDS)) && o.state == s)
      && (Filled(to) && Filled(frm) && Filled(blob) ==>
            && o.reply == Some(Stored)
            && Mailbox(o.state.blobs, r) ==
                 if r == to.value then Mailbox(s.blobs, r) + [PrivateBlob(frm.value, blob.value, meta.GetOr(JObj(map[])))]
                 else Mailbox(s.blobs, r))
  {
  }

  /** fetch_blobs takes the whole queue in insertion order and leaves none
      behind, so a second fetch straight after returns no messages. */
  lemma FetchTakesAll(s: State, cid: string)
    requires cid != ""
    ensures var o := Step(s, FetchBlobs(Some(cid)));
      && o.reply == Some(Messages(Mailbox(s.blobs, cid)))
      && cid !in o.state.blobs
      && (forall r :: r != cid ==> Mailbox(o.state.blobs, r) == Mailbox(s.blobs, r))
      && Step(o.state, FetchBlobs(Some(cid))).reply == Some(Messages([]))
  {
  }

  /** A send followed by the recipient's fetch delivers what was queued
      before and then the new entry, last. */
  lemma SendThenFetch(s: State, to: string, frm: string, blob: string)
    requires to != "" && frm != "" && blob != ""
    ensures var t := Step(s, SendBlob(Some(to), Some(frm), Some(blob), None)).state;
      Step(t, FetchBlobs(Some(to))).reply
        == Some(Messages(Mailbox(s.blobs, to) + [PrivateBlob(frm, blob, JObj(map[]))]))
  {
  }

  /** Entries are never dropped except by the owner's fetch: every other
      request leaves each mailbox with its old contents as a prefix. */
  lemma MailboxGrowsUnlessFetched(s: State, req: Request, r: string)
    requires !(req.FetchBlobs? && req.clientId == Some(r))
    ensures Mailbox(s.blobs, r) <= Mailbox(Step(s, req).state.blobs, r)
  {
    match req
    case SendGroupBlob(gid, frm, blob) =>
      if Filled(gid) && Filled(frm) && Filled(blob) && gid.value in s.groups && frm.value in s.groups[gid.value].members {
        var e := GroupBlob(frm.value, blob.value, gid.value);
        FanOutMailbox(s.blobs, s.groups[gid.value].members, frm.value, e, r);
      }
    case _ =>
  }

  /** create_group: refused without the three fields; a taken id is refused
      and the stored group is untouched; otherwise the members are stored
      verbatim and the id is listed last. */
  lemma CreateGroupOnce(s: State, gid: Option<string>, members: Option<seq<string>>, admin: Option<string>)
    ensures var o := Step(s, CreateGroup(gid, members, admin));
      && (!Filled(gid) || members.None? || members.value == [] || !Filled(admin) ==>
            o.reply == Some(Error(CREATE_GROUP_NEEDS)) && o.state == s)
      && (Filled(gid) && members.Some? && members.value != [] && Filled(admin) ==>
            && (gid.value in s.groups ==> o.reply == Some(Error(GROUP_EXISTS)) && o.state == s)
            && (gid.value !in s.groups ==>
                  && o.reply == Some(GroupCreated)
                  && o.state.groups == s.groups[gid.value := Group(members.value, admin.value)]
                  && o.state.groupOrder == s.groupOrder + [gid.value]
                  && o.state.blobs == s.blobs))
  {
  }

  /** A group once created keeps its members and admin whatever is sent
      afterwards. */
  lemma GroupImmutable(s: State, req: Request, gid: string)
    requires gid in s.groups
    ensures gid in Step(s, req).state.groups && Step(s, req).state.groups[gid] == s.groups[gid]
  {
  }

  /** send_group_blob to an unknown group, or from a non-member, is refused
      and deposits nothing into any mailbox. */
  lemma GroupBlobGated(s: State, gid: string, frm: string, blob: string)
    requires gid != "" && frm != "" && blob != ""
    requires gid !in s.groups || frm !in s.groups[gid].members
    ensures var o := Step(s, SendGroupBlob(Some(gid), Some(frm), Some(blob)));
      && o.state == s
      && o.reply == Some(Error(if gid !in s.groups then GROUP_NOT_FOUND else NOT_A_MEMBER))
  {
  }

  /** A member's group blob reaches every occurrence of another member in
      the member list, once per occurrence, as a "group" entry; the sender's
      mailbox and the mailboxes of non-members are untouched. */
  lemma GroupBlobFansOut(s: State, gid: string, frm: string, blob: string, r: string)
    requires gid != "" && frm != "" && blob != ""
    requires gid in s.groups && frm in s.groups[gid].members
    ensures var o := Step(s, SendGroupBlob(Some(gid), Some(frm), Some(blob)));
      && o.reply == Some(StoredForGroup)
      && Mailbox(o.state.blobs, r)
           == Mailbox(s.blobs, r) + Repeat(GroupBlob(frm, blob, gid), if r == frm then 0 else Count(s.groups[gid].members, r))
      && (r == frm || r !in s.groups[gid].members ==> Mailbox(o.state.blobs, r) == Mailbox(s.blobs, r))
  {
    var e := GroupBlob(frm, blob, gid);
    FanOutMailbox(s.blobs, s.groups[gid].members, frm, e, r);
    CountZero(s.groups[gid].members, r);
  }

  /** list_all: in a valid state the clients are exactly the published ids
      other than the requester, in publication order, and the groups are all
      the group ids, each once. */
  lemma ListAllContents(s: State, requester: Option<string>)
    requires Valid(s)
    ensures var o := Step(s, ListAll(requester));
      && o.state == s
      && o.reply.Some? && o.reply.value.Listing?
      && (forall c :: c in o.reply.value.clients <==> c in s.publicKeys && requester != Some(c))
      && (forall g :: g in o.reply.value.groups <==> g in s.groups)
      && Distinct(o.reply.value.groups)
      && (requester.None? || requester.value !in s.publicKeys ==> o.reply.value.clients == s.keyOrder)
  {
    if requester.None? || requester.value !in s.publicKeys {
      OthersThanAbsent(s.keyOrder, requester);
    }
  }

  /** Unknown request types and unparsable lines are answered with an error
      and the connection goes on reading. */
  lemma UnknownAndInvalidAnswered(s: State, detail: string)
    ensures Step(s, UnknownType) == Outcome(s, Some(Error(UNKNOWN_TYPE)), false)
    ensures Step(s, InvalidJson(detail)) == Outcome(s, Some(Error(INVALID_JSON + detail)), false)
  {
  }

  /** disconnect answers ok, forgets the session and ends the connection. */
  lemma DisconnectCloses(s: State, cid: string)
    requires cid != ""
    ensures var o := Step(s, Disconnect(Some(cid)));
      && o.close && o.reply == Some(Disconnected)
      && o.state == s.(active := s.active - {cid})
  {
  }

  // ----- Invariants over whole runs -----

  /** The fan-out never leaves an empty queue behind. */
  lemma FanOutNonEmpty(blobs: map<string, seq<Entry>>, members: seq<string>, from: string, e: Entry)
    requires forall r :: r in blobs ==> blobs[r] != []
    ensures forall r :: r in FanOut(blobs, members, from, e) ==> FanOut(blobs, members, from, e)[r] != []
  {
    var b := FanOut(blobs, members, from, e);
    FanOutKeys(blobs, members, from, e);
    forall r | r in b ensures b[r] != [] {
      FanOutMailbox(blobs, members, from, e, r);
      CountZero(members, r);
      assert Mailbox(b, r) == b[r];
    }
  }

  /** Appending a fresh id to an order list keeps it duplicate-free. */
  lemma AppendFreshDistinct(order: seq<string>, x: string)
    requires Distinct(order) && x !in order
    ensures Distinct(order + [x])
  {
    var o := order + [x];
    assert forall i :: 0 <= i < |order| ==> o[i] == order[i];
  }

  /** Every request keeps the relay state valid. */
  lemma StepPreservesValid(s: State, req: Request)
    requires Valid(s)
    ensures Valid(Step(s, req).state)
  {
    match req
    case PublishKey(cid, pub) => PublishKeyKeepsValid(s, cid, pub);
    case CreateGroup(gid, members, admin) => CreateGroupKeepsValid(s, gid, members, admin);
    case SendGroupBlob(gid, frm, blob) => SendGroupBlobKeepsValid(s, gid, frm, blob);
    case SendBlob(to, frm, blob, meta) => SendBlobKeepsValid(s, to, frm, blob, meta);
    case FetchBlobs(cid) => FetchBlobsKeepsValid(s, cid);
    case _ =>
  }

  lemma PublishKeyKeepsValid(s: State, cid: Option<string>, pub: Option<string>)
    requires Valid(s)
    ensures Valid(Step(s, PublishKey(cid, pub)).state)
  {
    if Filled(cid) && Filled(pub) && cid.value !in s.publicKeys {
      AppendFreshDistinct(s.keyOrder, cid.value);
    }
  }

  lemma CreateGroupKeepsValid(s: State, gid: Option<string>, members: Option<seq<string>>, admin: Option<string>)
    requires Valid(s)
    ensures Valid(Step(s, CreateGroup(gid, members, admin)).state)
  {
    if Filled(gid) && members.Some? && members.value != [] && Filled(admin) && gid.value !in s.groups {
      AppendFreshDistinct(s.groupOrder, gid.value);
    }
  }

  lemma SendGroupBlobKeepsValid(s: State, gid: Option<string>, frm: Option<string>, blob: Option<string>)
    requires Valid(s)
    ensures Valid(Step(s, SendGroupBlob(gid, frm, blob)).state)
  {
    if Filled(gid) && Filled(frm) && Filled(blob) && gid.value in s.groups {
      var e := GroupBlob(frm.value, blob.value, gid.value);
      FanOutNonEmpty(s.blobs, s.groups[gid.value].members, frm.value, e);
    }
  }

  lemma SendBlobKeepsValid(s: State, to: Option<string>, frm: Option<string>, blob: Option<string>, meta: Option<Json>)
    requires Valid(s)
    ensures Valid(Step(s, SendBlob(to, frm, blob, meta)).state)
  {
  }

  lemma FetchBlobsKeepsValid(s: State, cid: Option<string>)
    requires Valid(s)
    ensures Valid(Step(s, FetchBlobs(cid)).state)
  {
  }

  lemma InitialValid()
    ensures Valid(Initial)
  {
  }

  /** A bad request never ends a connection: as long as no line is a
      disconnect or a non-object, every line is answered, in order. */
  lemma {:induction false} RunAnswersEveryLine(s: State, lines: seq<Request>)
    requires forall i :: 0 <= i < |lines| ==> !lines[i].Disconnect? && !lines[i].NotAnObject?
    ensures |Run(s, lines).replies| == |lines| && Run(s, lines).consumed == |lines|
    decreases |lines|
  {
    if lines != [] {
      RunAnswersEveryLine(Step(s, lines[0]).state, lines[1..]);
    }
  }

  /** A valid relay stays valid over a whole connection. */
  lemma {:induction false} RunPreservesValid(s: State, lines: seq<Request>)
    requires Valid(s)
    ensures Valid(Run(s, lines).state)
    decreases |lines|
  {
    if lines != [] {
      StepPreservesValid(s, lines[0]);
      if !Step(s, lines[0]).close {
        RunPreservesValid(Step(s, lines[0]).state, lines[1..]);
      }
    }
  }
}
