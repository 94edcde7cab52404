# Chat Seguro in Dafny

Chat Seguro is an end-to-end encrypted chat. A relay server
(`server/server.py`) only stores and forwards opaque blobs. It keeps four
tables: the public keys of the clients, one mailbox per recipient, the
groups, and the ids of active clients. It answers one JSON request per line:

- `publish_key`, `get_key`
- `send_blob`, `create_group`, `send_group_blob`
- `fetch_blobs`, `list_all`
- `disconnect`

There are two clients:

- **The graphical client's logic** (`client/chat_client_logic.py`):
  - boxes private messages with a Curve25519 box wrapper (`DebugBox`);
  - creates groups and sends each member the group's symmetric key in a
    `group_key_distribution` envelope;
  - encrypts group messages with a secret box;
  - polls the relay and files what it fetches in its conversations;
  - saves and restores those conversations as JSON
    (`client/persistence.py`).
- **The command-line client** (`client.py`):
  - keeps its sessions in three dictionaries: private conversations,
    groups and unread counters;
  - polls the relay in the same way;
  - reads the commands `criar grupo ... com ...`, `conversas` and
    `iniciar chat ...`.

The model is organised as follows:

- **Relay state machine.** `Step` is a pure function from the relay's state
  and one decoded request to the new state, the reply, and whether the
  connection closes. `Run` applies `Step` to a sequence of lines until a
  line closes the connection.
- **The running relay.** The class `RelayServer.Relay` holds the same four
  tables as mutable fields. Its methods are proved equal to `Step` and `Run`.
- **The clients.** Each client is a class whose fields are the
  dictionaries the source mutates. Every method is proved to leave exactly
  the state that a pure function of the old state describes.
- **Lemmas** about those functions state:
  - the end-to-end properties (a message or group key sent by one client is
    opened by the recipient);
  - the error paths, and the invariants each operation keeps.
- **Foreign code is abstract.** The cryptography (`Nacl.Suite`: X25519
  agreement, the XSalsa20-Poly1305 box and secret box), base64, UTF-8 and
  JSON encoding (`Common.Codecs`) are parameters. The lemmas assume only the
  laws stated in `Lawful` and `LawfulCodecs`: opening undoes sealing, a
  forged box does not open, decoding undoes encoding, base64 text is ASCII,
  and both ends of a key agreement compute the same key.
- **Effects are parameters.** The network is the relay's reply to each
  request. Clocks, random nonces and fresh keys are function parameters.
  The state file is what `json.load` returned.

Files:

| file | models |
|---|---|
| `common.dfy` | JSON values, field access, the abstract codecs |
| `nacl.dfy` | the abstract NaCl suite, public-key parsing, framed secret boxes |
| `relay_state.dfy` | the relay's state, `Step`, `Run` and their lemmas |
| `relay_server.dfy` | the relay as a class updating its tables in place |
| `debug_box.dfy` | `DebugBox` |
| `envelopes.dfy` | the request and envelope objects both clients build |
| `persistence.dfy` | `save_conversations` / `load_conversations` |
| `chat_logic.dfy` | `ChatLogic` and its receive and distribution functions |
| `chat_properties.dfy` | end-to-end and invariant lemmas for `ChatLogic` |
| `command_line.dfy` | the Python string operations the command line uses |
| `cli_client.dfy` | the command-line session |
| `cli_properties.dfy` | lemmas about the command-line session and commands |

## Model

| member | source | states |
|---|---|---|
| RelayState.Deposit | server/server.py:141-151 | appending to one mailbox creates it if missing and leaves every other mailbox unchanged |
| RelayState.OthersThan | server/server.py:268-272 | an id is listed iff it is in the key table and is not the requester |
| RelayState.StorePubkey | server/server.py:54-56 | overwrites the one key of that client and touches no other table |
| RelayState.Mailbox | server/server.py:149-151 | a recipient's pending entries, empty when BLOBS has no entry for it; its contents are stated by Deposit, FanOutMailbox and FetchTakesAll |
| RelayState.FanOut | server/server.py:237-247 | the loop depositing a group entry for every member but the sender; its effect is stated by FanOutMailbox, FanOutKeys and FanOutNonEmpty |
| RelayState.Valid | server/server.py:20-24 | the table invariant of the relay: the key and group orders list their tables once each, keys are non-empty, no mailbox is kept empty, every group has members and an admin; kept by StepPreservesValid and RunPreservesValid |
| RelayState.Step | server/server.py:93-283 | one iteration of the loop: only a disconnect or a non-object line ends the loop, and every line except a non-object is answered; each branch is stated by its own lemma below |
| RelayState.Run | server/server.py:93-291 | the connection consumes lines up to and including the first disconnect or non-object line (all of them when there is none), and writes one reply per consumed line except a final non-object line |
| RelayState.FanOutMailbox | server/server.py:237-247 | after a group fan-out, each mailbox gains one copy per occurrence of its owner in the member list, and the sender's mailbox gains none |
| RelayState.FanOutKeys | server/server.py:237-247 | the fan-out creates mailboxes exactly for the members other than the sender |
| RelayState.OthersThanAbsent | server/server.py:268-272 | a requester without a key sees every client |
| RelayState.OthersThanPresent | server/server.py:268-272 | a requester with a key sees every other client, in insertion order |
| RelayState.ErrorChangesNothing | server/server.py:93-283 | any request answered with an error leaves the state unchanged and keeps the connection open |
| RelayState.PublishKeyStores | server/server.py:105-119 | the reply is the missing-field error iff the id or the key is empty; otherwise the key is stored under the id (overwriting), the client becomes active, and the mailboxes and groups are unchanged |
| RelayState.LastWriteWins | server/server.py:105-139 | after two publications for one id, get_key answers the second key, and other ids are answered as before |
| RelayState.GetKeyAnswers | server/server.py:121-139 | get_key changes nothing; it answers the stored key, or not-found |
| RelayState.SendBlobDeposits | server/server.py:141-151 | a missing field gives the send_blob error and changes nothing; otherwise exactly the recipient's mailbox gains the entry, with meta defaulting to `{}` |
| RelayState.FetchTakesAll | server/server.py:250-266 | fetch returns the whole mailbox in order and empties it; other mailboxes are unchanged; a second fetch returns nothing |
| RelayState.SendThenFetch | server/server.py:141-266 | a blob sent to a client is the last message of that client's next fetch |
| RelayState.MailboxGrowsUnlessFetched | server/server.py:93-283 | only a fetch by its owner can shrink a mailbox; every other request keeps its old content as a prefix |
| RelayState.CreateGroupOnce | server/server.py:174-199 | missing fields or an empty member list are rejected; an existing id gives group-exists; otherwise the group is stored verbatim and appended to the group order, and mailboxes are untouched |
| RelayState.GroupImmutable | server/server.py:174-199 | no request changes or removes an existing group |
| RelayState.GroupBlobGated | server/server.py:201-236 | a send to an unknown group, or by a non-member, is refused and changes nothing |
| RelayState.GroupBlobFansOut | server/server.py:201-248 | a member's group blob reaches each other member once per listing and never the sender |
| RelayState.ListAllContents | server/server.py:268-272 | list_all changes nothing; it lists exactly the other clients with keys, and exactly the groups with no repeats |
| RelayState.UnknownAndInvalidAnswered | server/server.py:97-101 | an unknown type or an undecodable line is answered with an error; nothing changes and the connection stays open |
| RelayState.DisconnectCloses | server/server.py:274-280 | disconnect answers, removes the client from the active set, and ends the loop |
| RelayState.FanOutNonEmpty | server/server.py:237-247 | fan-out never creates an empty mailbox |
| RelayState.AppendFreshDistinct | server/server.py:187 | appending a new group id keeps the group order free of repeats |
| RelayState.StepPreservesValid | server/server.py:93-283 | every request preserves the table invariant: the key order matches the key table without repeats, keys are non-empty, mailboxes are non-empty, the group order matches the groups, and groups have members and an admin |
| RelayState.PublishKeyKeepsValid | server/server.py:105-119 | publish_key preserves the invariant |
| RelayState.CreateGroupKeepsValid | server/server.py:174-199 | create_group preserves the invariant |
| RelayState.SendGroupBlobKeepsValid | server/server.py:201-248 | send_group_blob preserves the invariant |
| RelayState.SendBlobKeepsValid | server/server.py:141-151 | send_blob preserves the invariant |
| RelayState.FetchBlobsKeepsValid | server/server.py:250-266 | fetch_blobs preserves the invariant |
| RelayState.InitialValid | server/server.py:20-24 | the empty tables satisfy the invariant |
| RelayState.RunAnswersEveryLine | server/server.py:93-287 | a connection that never disconnects and never sends a non-object gets exactly one reply per line |
| RelayState.RunPreservesValid | server/server.py:93-291 | any sequence of lines preserves the invariant |
| RelayServer.Relay.constructor | server/server.py:20-24 | the relay starts with empty tables, which satisfy the invariant |
| RelayServer.Relay.StorePubkey | server/server.py:54-56 | the in-place update equals `RelayState.StorePubkey` |
| RelayServer.Relay.Deposit | server/server.py:149-151 | the in-place append equals `RelayState.Deposit` |
| RelayServer.Relay.FanOutLoop | server/server.py:237-247 | the member loop leaves the mailboxes of `FanOut` |
| RelayServer.Relay.Handle | server/server.py:95-283 | one iteration leaves the state, reply and close flag of `Step` |
| RelayServer.Relay.ServeLine | server/server.py:93-287 | handling line i advances `Run` by exactly that line |
| RelayServer.Relay.Serve | server/server.py:93-291 | the connection loop leaves the state and writes the replies of `Run` |
| Nacl.PublicKeyFrom | client/chat_client_logic.py:266 | `PublicKey(raw)` succeeds iff the raw key is 32 bytes |
| Nacl.ParsePublicKey | client/chat_client_logic.py:266 | `PublicKey(ub64(text))` succeeds iff the text is base64 of 32 bytes |
| Nacl.FramedEncrypt | client/chat_client_logic.py:326-327 | `SecretBox(key).encrypt` needs a 32-byte key and a 24-byte nonce; its output is the nonce followed by the box |
| Nacl.FramedDecrypt | client/chat_client_logic.py:355-359 | `SecretBox(key).decrypt(nonce‖box)` opens iff the key is 32 bytes, the input holds a nonce, and the box opens |
| Nacl.FramedRoundTrip | client/chat_client_logic.py:326-359 | a group message encrypted with the group key decrypts to the plaintext |
| Nacl.FramedAuthentic | client/chat_client_logic.py:355-359 | whatever decrypts is exactly the encryption of its plaintext under its own nonce |
| Common.OpenEnvelope | client/chat_client_logic.py:374 | `json.loads(base64.b64decode(blob).decode())` kept when it is an object; None for a non-ASCII blob, which `base64.b64decode` on a str rejects, and wherever decoding fails |
| Common.B64DecodeText | client.py:208 | `base64.b64decode` on a str raises on any non-ASCII character and otherwise decodes as `ub64` does |
| Envelopes.PrivateEnvelope | client/chat_client_logic.py:305 | the `{sender_pub, blob}` envelope of a private message; PeerRoundTrip and PrivateMessageDelivered open it |
| Envelopes.KeyEnvelope | client/chat_client_logic.py:273-278 | the `group_key_distribution` envelope; KeyEnvelopeInstalls and CliKeyEnvelopeOpens open it at the member |
| Envelopes.SendBlobTo | client/chat_client_logic.py:279-285 | the `send_blob` request carrying `b64(json.dumps(envelope))` from this client to one recipient |
| DebugBox.New | client/chat_client_logic.py:55-67 | construction succeeds iff the shared key has 32 bytes, and keeps that key |
| DebugBox.Encrypt | client/chat_client_logic.py:80-106 | a nonce that is not 24 bytes is refused; so is a box shorter than the MAC; otherwise the output is `nonce‖box` |
| DebugBox.Decrypt | client/chat_client_logic.py:108-139 | gives the blob-too-short, invalid-nonce, missing-MAC and forged errors exactly when the source raises them; otherwise opens the box |
| DebugBox.EncryptLength | client/chat_client_logic.py:80-106 | under lawful NaCl, encryption succeeds iff the nonce is 24 bytes, and the output is 24 + 16 + plaintext bytes |
| DebugBox.RoundTrip | client/chat_client_logic.py:80-139 | decrypting a fresh encryption gives the plaintext, whether the nonce is passed inside the blob or separately |
| DebugBox.PairwiseRoundTrip | client/chat_client_logic.py:55-139 | boxes built by the two ends of a key pair share a key, and one opens what the other seals |
| DebugBox.DecryptAuthentic | client/chat_client_logic.py:108-139 | any blob that decrypts is the encryption of its plaintext under its own nonce |
| ChatClientLogic.AppendEntry | client/chat_client_logic.py:360-362 | appends one entry to one conversation's history and touches nothing else |
| ChatClientLogic.SealForPeer | client/chat_client_logic.py:266-270 | a sealed blob exists only when the peer's key parses and the box builds, and it is that box's encryption |
| ChatClientLogic.OpenFromPeer | client/chat_client_logic.py:420-428 | opening needs the envelope's `sender_pub` and blob fields as text |
| ChatClientLogic.OpenGroupBlob | client/chat_client_logic.py:359 | `group_box.decrypt(ub64(blob)).decode()`, None where it raises; it opens what the group key sealed (Nacl.FramedRoundTrip, ChatClientProperties.GroupMessageDelivered) |
| ChatClientLogic.ReceiveGroup | client/chat_client_logic.py:350-370 | a group message: appended when the group is known with a key and the blob opens; a key that is not 32 bytes aborts the batch; stated by GroupMessageDelivered, GroupMessageNeedsKey and ReceiveAbortsOnlyOnBadGroupKey |
| ChatClientLogic.ReceiveDirect | client/chat_client_logic.py:373-440 | a key distribution installs the key with the welcome line; any other envelope creates the sender's conversation and appends the opened text; every failure is caught; stated by KeyEnvelopeInstalls, PrivateMessageDelivered and PrivateMessageTouchesSender |
| ChatClientLogic.Receive | client/chat_client_logic.py:346-440 | one fetched message dispatched on its type; stated by ReceiveExtends and ReceiveAbortsOnlyOnBadGroupKey |
| ChatClientLogic.ReceiveBatch | client/chat_client_logic.py:338-443 | the messages in order, up to the first whose exception escapes; stated by BatchStopsAtAbort, BatchLast, ReceiveBatchExtends and PrivateBatchCompletes |
| ChatClientLogic.AfterFetch | client/chat_client_logic.py:338-443 | what one poll does with the relay's reply; ChatLogic.PollBlobs is proved equal to it, and PrivateMessageThroughRelay states delivery through it |
| ChatClientLogic.Distribute | client/chat_client_logic.py:258-285 | the member loop of create_group; stated by DistributeCompletes, DistributeSendsTo, DistributeOnlyToOthers, DistributionStopsAtCrash and GroupKeyReachesMember |
| ChatClientLogic.AddMissing | client/chat_client_logic.py:225-234 | adds exactly the listed ids that are missing, as blank conversations, and keeps every existing conversation |
| ChatClientLogic.WithSelf | client/chat_client_logic.py:239-240 | the member list gains the creator and nothing else |
| ChatClientLogic.SendPrivateMessage | client/chat_client_logic.py:296-313 | always asks for the peer's key first; refuses iff the key lookup fails; succeeds iff the boxing succeeds, and then sends exactly one send_blob request with the private envelope; when it refuses or raises, the key lookup is the only request sent |
| ChatClientLogic.SendGroupMessage | client/chat_client_logic.py:315-336 | refuses with group-not-found or key-missing exactly in those cases; otherwise raises iff `SecretBox` refuses the key (not 32 bytes), and else sends exactly one send_group_blob request with the message encrypted under the group key |
| ChatClientLogic.ChatLogic.constructor | client/chat_client_logic.py:179-185 | the client's identity is its id and key pair; its conversations are what `Load` restores |
| ChatClientLogic.ChatLogic.ListAll | client/chat_client_logic.py:217-236 | returns the relay's listing, and adds a blank private conversation for each new client and a blank group for each new group; anything but a listing returns nothing and changes nothing |
| ChatClientLogic.ChatLogic.AddEach | client/chat_client_logic.py:225-230 | the loop over ids leaves the conversations of `AddMissing` |
| ChatClientLogic.ChatLogic.PollBlobs | client/chat_client_logic.py:338-443 | sends one fetch_blobs request and leaves the conversations of `AfterFetch` |
| ChatClientLogic.ChatLogic.CreateGroup | client/chat_client_logic.py:238-294 | adds the creator to the members, sends create_group and then the key distribution, and installs the group with its key; the creation line appears only when the distribution completes |
| ChatClientLogic.ChatLogic.DistributeKey | client/chat_client_logic.py:258-285 | the member loop sends the requests of `Distribute` and reports whether it completed |
| ChatClientLogic.BatchStopsAtAbort | client/chat_client_logic.py:338-443 | once a message raises out of the inner tries, the rest of the batch is ignored |
| ChatClientLogic.DistributionStopsAtCrash | client/chat_client_logic.py:258-285 | once boxing for a member raises, no later member is handled |
| ChatClientProperties.PeerRoundTrip | client/chat_client_logic.py:412-428 | what the sender seals for a peer's published key, the peer opens to the same plaintext |
| ChatClientProperties.PrivateMessageDelivered | client/chat_client_logic.py:296-435 | a message sent privately is appended, with its text, to the sender's conversation at the recipient, creating it as private if needed, and nothing else changes |
| ChatClientProperties.GroupMessageDelivered | client/chat_client_logic.py:315-370 | a member holding the same group key appends the sender's exact text to the group history |
| ChatClientProperties.KeyEnvelopeInstalls | client/chat_client_logic.py:377-409 | a key envelope boxed for a member installs the group key there and adds the "added to group" line, creating the group if needed |
| ChatClientProperties.EmptyGroupKeyWipesState | client/chat_client_logic.py:385-403 | a group key boxed as empty bytes is installed without a length check, and the save that follows, as written, leaves a file that loads as `{}`; a save that kept the previous file would keep the state |
| ChatClientProperties.DistributeSendsTo | client/chat_client_logic.py:258-285 | a completed distribution sends the key envelope to every other member whose key was found |
| ChatClientProperties.DistributeCompletes | client/chat_client_logic.py:258-285 | the loop runs to its end iff every member is the creator, or its get_key failed (skipped, the loop goes on), or its key was found and the box for it built |
| ChatClientProperties.DistributeOnlyToOthers | client/chat_client_logic.py:258-285 | every request of the distribution is a key lookup or a send to a listed member other than the creator |
| ChatClientProperties.GroupKeyReachesMember | client/chat_client_logic.py:238-409 | after a completed group creation, each other member with a published key learns the group key from the envelope |
| ChatClientProperties.ExtendsTransitive | client/chat_client_logic.py:338-443 | conversation growth composes |
| ChatClientProperties.ReceiveExtends | client/chat_client_logic.py:346-440 | receiving one message never removes a conversation, never changes a kind, and only extends histories |
| ChatClientProperties.ReceiveBatchExtends | client/chat_client_logic.py:338-443 | the same holds for a whole polled batch |
| ChatClientProperties.ReceiveAbortsOnlyOnBadGroupKey | client/chat_client_logic.py:350-370 | a message aborts the batch iff it is a group message whose stored key is not 32 bytes, and the aborting message changes nothing |
| ChatClientProperties.PrivateBatchCompletes | client/chat_client_logic.py:373-440 | a batch of private messages never aborts |
| ChatClientProperties.GroupMessageNeedsKey | client/chat_client_logic.py:350-370 | a group message only changes its own group, and only when that group has a key, by one entry |
| ChatClientProperties.PrivateMessageTouchesSender | client/chat_client_logic.py:412-440 | a private message only touches the sender's conversation, which it creates if needed, and adds nothing when the box does not open |
| ChatClientProperties.BatchLast | client/chat_client_logic.py:346-440 | a batch without an abort followed by one message is that message received after the batch |
| ChatClientProperties.PrivateMessageThroughRelay | client/chat_client_logic.py:296-443 | through the relay (get_key, send_blob, fetch_blobs), the recipient's last history entry for the sender is the sent text |
| Persistence.HistoryToJson | client/persistence.py:24-27 | one JSON object per history tuple, in order |
| Persistence.KeyToJson | client/persistence.py:30-35 | None is written as null; a non-empty key as base64; empty bytes cannot be written |
| Persistence.ConversationToJson | client/persistence.py:21-35 | the object saved for one conversation; ConversationRoundTrip loads it back |
| Persistence.Save | client/persistence.py:14-40 | a document is produced iff no key is empty bytes, and it holds exactly the conversation ids |
| Persistence.SavedFile | client/persistence.py:37-40 | the state file after a save: the document when it serialises, otherwise an unparseable file, because `open("w")` has emptied it and `json.dump` has written part of the document before raising |
| Persistence.SavedFileKeepingPrevious | client/persistence.py:37-40 | the corrected save: the document when it serialises, otherwise the previous file unchanged |
| Persistence.LoadEntry | client/persistence.py:71-74 | an entry loads iff it has a timestamp, a sender and a message, all text, and keeps them (see Left out for non-text values) |
| Persistence.LoadEntries | client/persistence.py:71-74 | a loaded history has one tuple per element |
| Persistence.LoadEntriesPointwise | client/persistence.py:71-74 | a history loads iff every element loads as an entry, and then element i loads as entry i |
| Persistence.LoadKey | client/persistence.py:63-68 | an absent or falsy key loads as None |
| Persistence.LoadKind | client/persistence.py:56-60 | a missing type defaults to "private"; a text type is kept (see Left out for non-text values) |
| Persistence.LoadHistory | client/persistence.py:71-74 | a missing history is empty; a list is read element by element; an empty object or string iterates zero times; anything else raises; stated through EntriesRoundTrip and LoadAllOrNothing |
| Persistence.LoadConversation | client/persistence.py:55-74 | one conversation of the document, or None where the source raises; ConversationRoundTrip loads a saved one back |
| Persistence.Load | client/persistence.py:43-79 | a missing or unreadable file, or any conversion error, gives `{}`; otherwise every conversation is restored under its id (text-valued fields only, see Left out) |
| Persistence.EntriesRoundTrip | client/persistence.py:24-74 | a saved history loads back unchanged |
| Persistence.KeyRoundTrip | client/persistence.py:30-68 | a saved key loads back unchanged |
| Persistence.ConversationRoundTrip | client/persistence.py:20-74 | a saved conversation loads back unchanged |
| Persistence.SaveLoadRoundTrip | client/persistence.py:14-79 | saving and then loading gives back every conversation, with the same ids, kind, key and ordered history, both from the document and from the file the save leaves |
| Persistence.LoadPointwise | client/persistence.py:50-76 | a document whose conversations each load as given loads as the whole map |
| Persistence.EmptyKeyLosesState | client/persistence.py:30-40 | as written, a state holding an empty key cannot be serialised; the failed save leaves an unparseable file, and the next load gives `{}`, losing every conversation |
| Persistence.KeepingPreviousNeverLoses | client/persistence.py:37-79 | with the corrected save, what loads afterwards is the saved state, or the previous file's state when the new one cannot be written |
| Persistence.LoadAllOrNothing | client/persistence.py:43-79 | loading gives `{}` or exactly the document's ids, and an entry without a type loads as private |
| CommandLine.Lower | client.py:254 | lowering keeps the length, character by character |
| CommandLine.SplitOn | client.py:253 | `split(" ")` gives at least one piece, and no piece holds the separator |
| CommandLine.SplitOnJoin | client.py:253 | splitting a join of separator-free pieces gives the pieces back |
| CommandLine.Words | client.py:270 | `split()` gives non-empty words without whitespace |
| CommandLine.WordsOfJoin | client.py:270 | words joined by single spaces split back into the same words |
| CommandLine.TrimLeft | client.py:253 | `lstrip` removes exactly a maximal prefix of stripped characters |
| CommandLine.TrimRight | client.py:253 | `rstrip` removes exactly a maximal suffix of stripped characters |
| CommandLine.Strip | client.py:253 | `str.strip()`: TrimLeft then TrimRight over whitespace; StripNoop and TypedLine state when it leaves a line alone |
| CommandLine.StripChar | client.py:531 | `str.strip('"')`: TrimLeft then TrimRight over one character |
| CommandLine.Join | client.py:253 | `sep.join(ws)`; SplitOnJoin and WordsOfJoin split it back into the words |
| CommandLine.StripNoop | client.py:531 | a strip leaves alone a string that neither starts nor ends with a stripped character |
| CommandLine.TypedLine | client.py:249-270 | a typed line of words is non-empty and unchanged by strip, and both splits give the words back |
| CommandLine.FirstIndex | client.py:272 | `index("com")` is the first occurrence |
| CliClient.KeyDistribution | client.py:170-202 | a key is taken only from an envelope of type group_key_distribution, and only for its group_id |
| CliClient.Route | client.py:147-229 | one fetched message of the poll; stated by GroupMessageStored, GroupMessageBadBlob, KeyDistributionSetsKey, PrivateMessageStored, RouteAborts, NonAsciiBlobSplitsPaths and RouteCounts |
| CliClient.RouteBatch | client.py:146-229 | the fetched messages in order, up to the first that raises; stated by RouteStopsAtAbort, RouteBatchCounts and RouteBatchExtends |
| CliClient.AfterPoll | client.py:139-232 | what one poll does with the relay's reply; Session.Poll is proved equal to it, and PollCounts states its counters |
| CliClient.CommandOf | client.py:252-254 | the branch a line selects from its first word (and the second for `criar`), case-insensitively; stated by GroupCommandSelected and StartChatSelected |
| CliClient.CliDistribute | client.py:308-348 | the member loop of `criar grupo`; stated by CliDistributeCompletes, CliDistributeSendsTo, CliDistributeOnlyToOthers, CliDistributionStopsAtCrash and DistributionsAgree |
| CliClient.RouteStopsAtAbort | client.py:139-231 | once a fetched message raises, the rest of the batch is ignored |
| CliClient.ParseGroupCommand | client.py:269-283 | bad format iff there are fewer than three words or no "com"; no members iff "com" is the last word; otherwise the group is the third word, and the members are the words after the first "com" plus the creator |
| CliClient.CliSeal | client.py:318-329 | boxing succeeds iff the key parses, the shared key is 32 bytes and the nonce 24 bytes, and gives `nonce‖box` |
| CliClient.CliDistributionStopsAtCrash | client.py:308-348 | once boxing for a member raises, no later member is handled |
| CliClient.StartChatReply | client.py:527-534 | usage iff there are fewer than three pieces or the second is not "chat"; the peer is the third piece stripped of whitespace and quotes; naming oneself is refused |
| CliClient.Session.constructor | client.py:97-134 | the id is the stripped and unquoted argument; the key pair is fresh; the three dictionaries are empty |
| CliClient.Session.RouteOne | client.py:147-229 | one fetched message leaves the dictionaries and the abort flag of `Route` |
| CliClient.Session.Poll | client.py:139-232 | sends fetch_blobs for the client and leaves the dictionaries of `AfterPoll` |
| CliClient.Session.CreateGroup | client.py:267-351 | a rejected command sends nothing and changes nothing; otherwise the group is stored with its key and an empty history, create_group is sent, then the distribution, and the command reports whether it completed |
| CliClient.Session.DistributeKey | client.py:308-348 | the member loop sends the requests of `CliDistribute` |
| CliClient.Session.EnterConversation | client.py:353-371 | enters exactly a non-empty, stripped choice naming a conversation or group, and resets only its unread counter |
| CliClient.Session.StartChat | client.py:527-537 | replies as `StartChatReply`; a ready peer gets an empty conversation if it has none, and nothing else changes |
| CliProperties.RouteCounts | client.py:147-229 | a fetched message adds at most one stored entry under an id, and the unread counter rises by exactly the entries stored |
| CliProperties.RouteBatchCounts | client.py:146-229 | over a batch, the unread counter of every id rises by exactly the entries stored under it |
| CliProperties.PollCounts | client.py:139-231 | the same holds for a whole poll |
| CliProperties.GroupMessageStored | client.py:147-167 | a decodable group message is appended to its group, creating it if needed; the group's key is unchanged; only the group's counter rises; nothing else changes |
| CliProperties.GroupMessageBadBlob | client.py:147-167 | a group message that is not base64 aborts the poll, after creating its group |
| CliProperties.KeyDistributionSetsKey | client.py:170-202 | a key distribution sets the group's key, keeps its history, and counts and stores nothing |
| CliProperties.PrivateMessageStored | client.py:203-229 | any other private message whose blob text `base64.b64decode` accepts is appended under its sender and counted once |
| CliProperties.RouteAborts | client.py:147-231 | a group message aborts the poll iff `ub64` rejects its blob; a private message aborts iff it is not a key distribution and `base64.b64decode` rejects its blob text |
| CliProperties.NonAsciiBlobSplitsPaths | client.py:152-208 | a blob with a non-ASCII character is stored as a group message when `ub64` still reads it, while as a private message it is never a key distribution and always aborts the poll |
| CliProperties.CliExtendsTransitive | client.py:139-232 | the growth of the session dictionaries composes |
| CliProperties.RouteBatchExtends | client.py:139-232 | polling never removes an entry or changes a stored message; it only extends histories |
| CliProperties.CliKeyEnvelopeOpens | client.py:170-348 | an envelope the creator boxes for a member decodes, at that member, to the group id and key |
| CliProperties.CliDistributeSendsTo | client.py:308-348 | a completed distribution sends the envelope to every other member whose key was found |
| CliProperties.CliDistributeCompletes | client.py:308-348 | the loop runs to its end iff every member is the creator, or its get_key failed (skipped, the loop goes on), or its key was found and `Box` sealed for it |
| CliProperties.CliDistributeOnlyToOthers | client.py:308-348 | every request is a key lookup or a send to a listed member other than the creator |
| CliProperties.CliGroupKeyReachesMember | client.py:170-348 | each other member with a published key receives the group key and no unread count |
| CliProperties.SealsAgree | client.py:318-329 | the command-line boxing equals the graphical client's `DebugBox` boxing |
| CliProperties.DistributionsAgree | client.py:308-348 | both clients send the same key distribution |
| CliProperties.KeyCrossesClients | client.py:170-348 | a key sent by the command-line client installs at a member running either client |
| CliCommands.GroupCommandSelected | client.py:253-267 | a line starting with "criar grupo" in any case selects group creation |
| CliCommands.GroupCommandParses | client.py:269-283 | `criar grupo g com m1 ... mn` creates group g for m1 ... mn and the creator |
| CliCommands.StartChatSelected | client.py:253-254 | a line starting with "iniciar" in any case selects the start-chat command |
| CliCommands.StartChatNamesPeer | client.py:527-534 | `iniciar chat p` names p, unless p is the client itself |

## Left out

- Sockets, TLS, asyncio, `asyncio.sleep` polling periods, logging and all
  printing: the network is replaced by the relay's reply to each request.
- The relay keeps only ids in ACTIVE_CLIENTS; the reader and writer objects
  are not modelled. A request line that is valid JSON but not an object
  (`NotAnObject`) ends the connection, as the outer `except` of
  `handle_reader` does. Reading and writing `pubkeys.json` is left out.
- The NaCl primitives, base64, UTF-8, `json.dumps`/`json.loads`, timestamps
  and randomness are abstract parameters constrained only by the laws in
  `Nacl.Lawful` and `Common.LawfulCodecs`. JSON numbers are integers, and
  object key order is not modelled on the client side. The relay's key and
  group insertion order is kept, because `list_all` exposes it.
- Reading and writing `<client_id>_state.json` and the key files:
  `Persistence.Load` takes what `json.load` returned.
- `Persistence.Save`: the conversation "type" default is not modelled,
  because every modelled conversation has a kind.
- Persistence.LoadKind: the "type" is typed as text, because the program
  only ever writes text there. client/persistence.py:57 keeps any JSON value;
  the model treats a non-text type as a conversion error, so `Load` gives `{}`.
- Persistence.LoadEntry: timestamp, sender and message are typed as text,
  because the program only ever writes text there. client/persistence.py:71-74
  keeps any JSON value; the model rejects a non-text one.
- Persistence.Load: inherits the two lines above; a document holding a
  non-text type or history field loads as `{}` in the model, while the
  source restores it.
- ChatClientLogic.ReceiveDirect: `group_id` is typed as text. The source at
  client/chat_client_logic.py:389-395 installs a key under a numeric or null
  `group_id` as well; the model treats such an envelope as not opening and
  drops it.
- CliClient.KeyDistribution: `group_id`, `sender_pub` and `key_blob` are typed
  as text. A numeric `group_id` makes the source install the key at
  client.py:190-194; the model files the message as a private one instead.
- RelayState.Request: `client_id`, `to`, `from`, `group_id`, `blob` and the
  member ids are typed as text, because both clients only send text. The
  relay at server/server.py:105-119 and after would also accept a number
  there; the model reads a non-text field as missing.
- ChatClientProperties.ReceiveAbortsOnlyOnBadGroupKey: the graphical poll
  follows the code rather than the intent that one bad message never stops
  a batch. `SecretBox(key)` at client/chat_client_logic.py:355 is built
  outside the inner `try`. A stored group key of the wrong length therefore
  aborts the rest of the batch. This lemma states exactly that.
- The command-line client stores fetched messages undecrypted, as the
  source does; decryption happens in its chat loop, which is left out.
- `CommandLine.Lower` handles ASCII only. That is exact for the words the
  client compares against.
- `split(" ", 3)` is modelled as a full split; only pieces 0 to 2 are read.
- `CliClient.Session.CreateGroup` appends the creator unconditionally, so
  the member list can hold it twice, as in the source. A group created
  again over an existing one resets its history and sets the new key.
- An exception inside the command-line distribution loop (a reply without
  `pubkey`, a bad key) ends `interactive`; it is modelled as `Crashed`.
- The chat loops of client.py (373-525), `listar`, `show_menu` and `main`
  are left out, as are the web bridge, the GUI, the web app and
  certificate generation.

## Findings

| source | as written | input that shows it | evidently intended | confidence | as-written member | corrected member |
|---|---|---|---|---|---|---|
| client/persistence.py:37-40 | the state file is opened with `"w"` before `json.dump` runs; a key of `b""` is written as a raw bytes value, `json.dump` raises part-way, and the error is swallowed, leaving a truncated document | a conversation whose key is `b""`: a group key boxed as empty bytes is installed at client/chat_client_logic.py:395 with no length check and saved at :403 | a save that fails leaves the previous state file loadable | medium; not executed | Persistence.EmptyKeyLosesState | Persistence.KeepingPreviousNeverLoses |
