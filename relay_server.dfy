/** The relay server of server/server.py as it runs: the module-level
    dictionaries are fields updated in place, `handle_reader`'s dispatch is
    `Handle`, the group fan-out is a loop, and one connection's
    `while True` loop over request lines is `Serve`. Each method is proved
    to do what `RelayState.Step` and `RelayState.Run` specify, so every
    lemma of RelayState holds of the running relay. */
module RelayServer {
  import opened Common
  import opened RelayState

  class Relay {
    /** PUBLIC_KEYS, and the order its keys were first inserted in. */
    var publicKeys: map<string, string>
    var keyOrder: seq<string>
    /** BLOBS: recipient id -> queued entries, oldest first. */
    var blobs: map<string, seq<Entry>>
    /** GROUPS, and the order the groups were created in. */
    var groups: map<string, Group>
    var groupOrder: seq<string>
    /** The ids that ACTIVE_CLIENTS holds a connection for. */
    var activeClients: set<string>

    /** The relay's state as a value. */
    function Snapshot(): State
      reads this
    {
      State(publicKeys, keyOrder, blobs, groups, groupOrder, activeClients)
    }

    constructor ()
      ensures Snapshot() == Initial && Valid(Snapshot())
    {
      publicKeys, keyOrder := map[], [];
      blobs := map[];
      groups, groupOrder := map[], [];
      activeClients := {};
    }

    /** `store_pubkey(client_id, pubkey_b64)` without the file write. */
    method StorePubkey(cid: string, pub: string)
      modifies this`publicKeys, this`keyOrder
      ensures Snapshot() == RelayState.StorePubkey(old(Snapshot()), cid, pub)
    {
      if cid !in publicKeys {
        keyOrder := keyOrder + [cid];
      }
      publicKeys := publicKeys[cid := pub];
    }

    /** `BLOBS.setdefault(to, []).append(e)`. */
    method Deposit(to: string, e: Entry)
      modifies this`blobs
      ensures blobs == RelayState.Deposit(old(blobs), to, e)
    {
      var queue := if to in blobs then blobs[to] else [];
      blobs := blobs[to := queue + [e]];
    }

    /** The `for member in group["members"]` loop of send_group_blob. */
    method FanOutLoop(members: seq<string>, from: string, e: Entry)
      modifies this`blobs
      ensures blobs == FanOut(old(blobs), members, from, e)
    {
      var i := 0;
      while i < |members|
        invariant 0 <= i <= |members|
        invariant blobs == FanOut(old(blobs), members[..i], from, e)
      {
        assert members[..i + 1][..i] == members[..i];
        if members[i] != from {
          Deposit(members[i], e);
        }
        i := i + 1;
      }
      assert members[..|members|] == members;
    }

    /** One request line of handle_reader: the reply to write (None when the
        handler stops without one) and whether the loop ends. */
    method Handle(req: Request) returns (reply: Option<Response>, close: bool)
      modifies this
      ensures Outcome(Snapshot(), reply, close) == Step(old(Snapshot()), req)
    {
      close := false;
      match req {
        case PublishKey(cid, pub) =>
          if !Filled(cid) || !Filled(pub) {
            reply := Some(Error(PUBLISH_KEY_NEEDS));
          } else {
            StorePubkey(cid.value, pub.value);
            if cid.value !in activeClients {
              activeClients := activeClients + {cid.value};
            }
            reply := Some(KeyStored(cid.value));
          }
        case GetKey(cid) =>
          if !Filled(cid) {
            reply := Some(Error(GET_KEY_NEEDS));
          } else if cid.value !in publicKeys || publicKeys[cid.value] == "" {
            reply := Some(Error(NOT_FOUND));
          } else {
            reply := Some(KeyFound(cid.value, publicKeys[cid.value]));
          }
        case SendBlob(to, frm, blob, meta) =>
          if !Filled(to) || !Filled(frm) || !Filled(blob) {
            reply := Some(Error(SEND_BLOB_NEEDS));
          } else {
            Deposit(to.value, PrivateBlob(frm.value, blob.value, meta.GetOr(JObj(map[]))));
            reply := Some(Stored);
          }
        case CreateGroup(gid, members, admin) =>
          if !Filled(gid) || members.None? || members.value == [] || !Filled(admin) {
            reply := Some(Error(CREATE_GROUP_NEEDS));
          } else if gid.value in groups {
            reply := Some(Error(GROUP_EXISTS));
          } else {
            groups := groups[gid.value := Group(members.value, admin.value)];
            groupOrder := groupOrder + [gid.value];
            reply := Some(GroupCreated);
          }
        case SendGroupBlob(gid, frm, blob) =>
          if !Filled(gid) || !Filled(frm) || !Filled(blob) {
            reply := Some(Error(SEND_GROUP_BLOB_NEEDS));
          } else if gid.value !in groups {
            reply := Some(Error(GROUP_NOT_FOUND));
          } else if frm.value !in groups[gid.value].members {
            reply := Some(Error(NOT_A_MEMBER));
          } else {
            FanOutLoop(groups[gid.value].members, frm.value, GroupBlob(frm.value, blob.value, gid.value));
            reply := Some(StoredForGroup);
          }
        case FetchBlobs(cid) =>
          if !Filled(cid) {
            reply := Some(Error(FETCH_BLOBS_NEEDS));
          } else {
            var items := if cid.value in blobs then blobs[cid.value] else [];
            blobs := blobs - {cid.value};
            reply := Some(Messages(items));
          }
        case ListAll(requester) =>
          reply := Some(Listing(OthersThan(keyOrder, requester), groupOrder));
        case Disconnect(cid) =>
          if Filled(cid) && cid.value in activeClients {
            activeClients := activeClients - {cid.value};
          }
          reply := Some(Disconnected);
          close := true;
        case UnknownType =>
          reply := Some(Error(UNKNOWN_TYPE));
        case InvalidJson(detail) =>
          reply := Some(Error(INVALID_JSON + detail));
        case NotAnObject =>
          reply := None;
          close := true;
      }
    }

    /** One connection: read lines until the handler stops or the input
        ends, writing one reply per handled line. */
    method Serve(lines: seq<Request>) returns (replies: seq<Response>)
      modifies this
      ensures Snapshot() == Run(old(Snapshot()), lines).state
      ensures replies == Run(old(Snapshot()), lines).replies
    {
      replies := [];
      var i := 0;
      while i < |lines|
        invariant 0 <= i <= |lines|
        invariant Run(old(Snapshot()), lines).state == Run(Snapshot(), lines[i..]).state
        invariant Run(old(Snapshot()), lines).replies == replies + Run(Snapshot(), lines[i..]).replies
      {
        var close;
        replies, close := ServeLine(lines, i, replies);
        if close {
          return;
        }
        i := i + 1;
      }
    }

    /** One pass of the loop: handle line `i`, append its reply, and say
        what is left of the connection's run. */
    method ServeLine(lines: seq<Request>, i: nat, written: seq<Response>) returns (replies: seq<Response>, close: bool)
      requires i < |lines|
      modifies this
      ensures close ==> Run(old(Snapshot()), lines[i..]).state == Snapshot()
      ensures !close ==> Run(old(Snapshot()), lines[i..]).state == Run(Snapshot(), lines[i + 1..]).state
      ensures written + Run(old(Snapshot()), lines[i..]).replies
           == replies + (if close then [] else Run(Snapshot(), lines[i + 1..]).replies)
    {
      assert lines[i..][0] == lines[i] && lines[i..][1..] == lines[i + 1..];
      var reply;
      reply, close := Handle(lines[i]);
      var now := if reply.Some? then [reply.value] else [];
      assert written + (now + Run(Snapshot(), lines[i + 1..]).replies)
          == written + now + Run(Snapshot(), lines[i + 1..]).replies;
      replies := written + now;
    }
  }
}
