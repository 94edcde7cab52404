/** client/persistence.py: the GUI client's conversation state, and its
    conversion to and from the JSON document kept in `<client_id>_state.json`.

    Opening, writing and parsing the file are left out: `Save` yields the
    JSON value that `json.dump` would write (None where the source's `try`
    swallows an error), and `Load` takes what `json.load` returned, or the
    fact that the file is missing or unreadable. */
module Persistence {
  import opened Common

  /** One history tuple `(timestamp, sender, message)`. */
  datatype HistoryEntry = HistoryEntry(timestamp: string, sender: string, message: string)

  /** One entry of `conversations`: its "type", its "key" (a group's
      symmetric key; None when absent or None) and its "history". */
  datatype Conversation = Conversation(kind: string, key: Option<Bytes>, history: seq<HistoryEntry>)

  type Conversations = map<string, Conversation>

  const DEFAULT_KIND := "private"

  // ----- save_conversations -----

  /** `{"timestamp": ts, "sender": sender, "message": msg}`. */
  function EntryToJson(e: HistoryEntry): Json {
    JObj(map["timestamp" := JStr(e.timestamp), "sender" := JStr(e.sender), "message" := JStr(e.message)])
  }

  /** The history list comprehension: one object per tuple, same order. */
  function HistoryToJson(h: seq<HistoryEntry>): (r: seq<Json>)
    ensures |r| == |h| && forall i :: 0 <= i < |h| ==> r[i] == EntryToJson(h[i])
  {
    seq(|h|, i requires 0 <= i < |h| => EntryToJson(h[i]))
  }

  /** The "key" field: base64 text when the key is truthy (non-empty), None
      as null, and no JSON at all for empty bytes, which `json.dump` cannot
      write. */
  function KeyToJson(c: Codecs, key: Option<Bytes>): (r: Option<Json>)
    ensures r.None? <==> key == Some([])
    ensures key.None? ==> r == Some(JNull)
  {
    match key
    case None => Some(JNull)
    case Some(k) => if k != [] then Some(JStr(c.b64Encode(k))) else None
  }

  predicate Serialisable(convs: Conversations) {
    forall id :: id in convs ==> convs[id].key != Some([])
  }

  /** The object `save_conversations` builds for one conversation. */
  function ConversationToJson(c: Codecs, conv: Conversation): Json
    requires conv.key != Some([])
  {
    JObj(map["type" := JStr(conv.kind), "key" := KeyToJson(c, conv.key).value,
             "history" := JArr(HistoryToJson(conv.history))])
  }

  /** The document `save_conversations` builds, or None when `json.dump`
      raises on it (the one reachable error is a key of empty bytes, which
      stays a `bytes` value). Every conversation id is kept and nothing else
      is added. What the file holds afterwards is `SavedFile`. */
  function Save(c: Codecs, convs: Conversations): (r: Option<Json>)
    ensures r.Some? <==> Serialisable(convs)
    ensures r.Some? ==> r.value.JObj? && r.value.fields.Keys == convs.Keys
  {
    if Serialisable(convs) then Some(JObj(map id | id in convs :: ConversationToJson(c, convs[id])))
    else None
  }

  /** What `json.load` finds in the state file. */
  datatype StateFile = Missing | Unreadable | Parsed(content: Json)

  /** The state file after `save_conversations`, as written: the file is
      opened with "w", which empties it, before `json.dump` runs, and
      `json.dump` writes its output piece by piece, so when it raises the
      file holds an unterminated prefix of the document, which `json.load`
      cannot parse. The error itself is swallowed. */
  function SavedFile(c: Codecs, convs: Conversations): (f: StateFile)
    ensures f.Parsed? <==> Serialisable(convs)
    ensures !f.Parsed? ==> f == Unreadable
  {
    match Save(c, convs)
    case Some(doc) => Parsed(doc)
    case None => Unreadable
  }

  /** A save that leaves the previous file alone when the state cannot be
      serialised, as building the text with `json.dumps` before opening the
      file would. */
  function SavedFileKeepingPrevious(c: Codecs, convs: Conversations, previous: StateFile): (f: StateFile)
    ensures Serialisable(convs) ==> f == Parsed(Save(c, convs).value)
    ensures !Serialisable(convs) ==> f == previous
  {
    match Save(c, convs)
    case Some(doc) => Parsed(doc)
    case None => previous
  }

  // ----- load_conversations -----

  const ENTRY_FIELDS: set<string> := {"timestamp", "sender", "message"}

  /** `(msg["timestamp"], msg["sender"], msg["message"])`. */
  function LoadEntry(j: Json): (r: Option<HistoryEntry>)
    ensures r.Some? <==> forall k :: k in ENTRY_FIELDS ==> Get(j, k).Some? && Get(j, k).value.JStr?
    ensures r.Some? ==> && Get(j, "timestamp") == Some(JStr(r.value.timestamp))
                        && Get(j, "sender") == Some(JStr(r.value.sender))
                        && Get(j, "message") == Some(JStr(r.value.message))
  {
    match (Get(j, "timestamp"), Get(j, "sender"), Get(j, "message"))
    case (Some(JStr(ts)), Some(JStr(sender)), Some(JStr(msg))) => Some(HistoryEntry(ts, sender, msg))
    case _ => None
  }

  /** The loop restoring the history, in list order; one bad element fails
      the whole load. */
  function LoadEntries(items: seq<Json>): (r: Option<seq<HistoryEntry>>)
    ensures r.Some? ==> |r.value| == |items|
  {
    if items == [] then Some([])
    else match (LoadEntry(items[0]), LoadEntries(items[1..]))
      case (Some(e), Some(rest)) => Some([e] + rest)
      case _ => None
  }

  /** The history loads iff every element is an entry, and then it is the
      elements' entries, in order. */
  lemma {:induction false} LoadEntriesPointwise(items: seq<Json>)
    ensures LoadEntries(items).Some? <==> forall i :: 0 <= i < |items| ==> LoadEntry(items[i]).Some?
    ensures LoadEntries(items).Some? ==>
      forall i :: 0 <= i < |items| ==> LoadEntry(items[i]) == Some(LoadEntries(items).value[i])
  {
    if items != [] {
      LoadEntriesPointwise(items[1..]);
      assert forall i :: 1 <= i < |items| ==> items[1..][i - 1] == items[i];
    }
  }

  /** `for msg in conv_data.get("history", [])`: a missing history is empty,
      a list is read element by element, and an empty object or string
      iterates zero times; anything else raises. */
  function LoadHistory(h: Option<Json>): Option<seq<HistoryEntry>> {
    match h
    case None => Some([])
    case Some(JArr(items)) => LoadEntries(items)
    case Some(JObj(m)) => if m == map[] then Some([]) else None
    case Some(JStr(s)) => if s == "" then Some([]) else None
    case Some(_) => None
  }

  /** `if conv_data.get("key"): base64.b64decode(conv_data["key"].encode())`:
      a falsy or absent key loads as None; a truthy one must be base64 text. */
  function LoadKey(c: Codecs, k: Option<Json>): (r: Option<Option<Bytes>>)
    ensures k.None? || !Truthy(k.value) ==> r == Some(None)
  {
    match k
    case None => Some(None)
    case Some(j) =>
      if !Truthy(j) then Some(None)
      else if !j.JStr? then None
      else match c.b64Decode(j.s)
        case None => None
        case Some(b) => Some(Some(b))
  }

  /** `conv_data.get("type", "private")`. */
  function LoadKind(t: Option<Json>): (r: Option<string>)
    ensures t.None? ==> r == Some(DEFAULT_KIND)
  {
    match t
    case None => Some(DEFAULT_KIND)
    case Some(JStr(s)) => Some(s)
    case Some(_) => None
  }

  /** One conversation of the document, or None where the source raises. */
  function LoadConversation(c: Codecs, j: Json): Option<Conversation> {
    if !j.JObj? then None
    else match (LoadKind(Get(j, "type")), LoadKey(c, Get(j, "key")), LoadHistory(Get(j, "history")))
      case (Some(kind), Some(key), Some(history)) => Some(Conversation(kind, key, history))
      case _ => None
  }

  predicate Loadable(c: Codecs, data: Json) {
    data.JObj? && forall id :: id in data.fields ==> LoadConversation(c, data.fields[id]).Some?
  }

  /** `load_conversations`: a missing or unreadable file, and any error while
      converting, give `{}`; otherwise every conversation of the document is
      restored under its id. */
  function Load(c: Codecs, f: StateFile): (r: Conversations)
    ensures f.Missing? || f.Unreadable? ==> r == map[]
    ensures f.Parsed? && !Loadable(c, f.content) ==> r == map[]
    ensures f.Parsed? && Loadable(c, f.content) ==>
      && r.Keys == f.content.fields.Keys
      && forall id :: id in r ==> Some(r[id]) == LoadConversation(c, f.content.fields[id])
  {
    match f
    case Parsed(data) =>
      if Loadable(c, data) then map id | id in data.fields :: LoadConversation(c, data.fields[id]).value
      else map[]
    case _ => map[]
  }

  // ----- The round trip -----

  lemma {:induction false} EntriesRoundTrip(h: seq<HistoryEntry>)
    ensures LoadEntries(HistoryToJson(h)) == Some(h)
  {
    if h != [] {
      EntriesRoundTrip(h[1..]);
      assert HistoryToJson(h)[1..] == HistoryToJson(h[1..]);
      assert LoadEntry(EntryToJson(h[0])) == Some(h[0]);
      assert [h[0]] + h[1..] == h;
    }
  }

  /** A key written by `save_conversations` reads back as the same key. */
  lemma KeyRoundTrip(c: Codecs, key: Option<Bytes>)
    requires LawfulCodecs(c)
    requires key != Some([])
    ensures LoadKey(c, KeyToJson(c, key)) == Some(key)
  {
    if key.Some? {
      assert c.b64Decode(c.b64Encode(key.value)) == Some(key.value);
    }
  }

  lemma ConversationRoundTrip(c: Codecs, conv: Conversation)
    requires LawfulCodecs(c)
    requires conv.key != Some([])
    ensures LoadConversation(c, ConversationToJson(c, conv)) == Some(conv)
  {
    var j := ConversationToJson(c, conv);
    EntriesRoundTrip(conv.history);
    KeyRoundTrip(c, conv.key);
    assert Get(j, "history") == Some(JArr(HistoryToJson(conv.history)));
    assert Get(j, "key") == KeyToJson(c, conv.key);
    assert Get(j, "type") == Some(JStr(conv.kind));
    assert LoadHistory(Get(j, "history")) == Some(conv.history);
  }

  /** Saving then loading gives back every conversation: the same ids, each
      with its type, its key and its history in order, provided no key is
      empty bytes (for that case see `EmptyKeyLosesState`). */
  lemma SaveLoadRoundTrip(c: Codecs, convs: Conversations)
    requires LawfulCodecs(c)
    requires Serialisable(convs)
    ensures Save(c, convs).Some?
    ensures Load(c, Parsed(Save(c, convs).value)) == convs
    ensures Load(c, SavedFile(c, convs)) == convs
  {
    var data := Save(c, convs).value;
    forall id | id in data.fields
      ensures LoadConversation(c, data.fields[id]) == Some(convs[id])
    {
      ConversationRoundTrip(c, convs[id]);
    }
    LoadPointwise(c, data, convs);
  }

  /** A document each of whose conversations loads as the corresponding
      conversation of `convs` loads as `convs`. */
  lemma LoadPointwise(c: Codecs, data: Json, convs: Conversations)
    requires data.JObj? && data.fields.Keys == convs.Keys
    requires forall id :: id in data.fields ==> LoadConversation(c, data.fields[id]) == Some(convs[id])
    ensures Load(c, Parsed(data)) == convs
  {
    assert Loadable(c, data);
    var r := Load(c, Parsed(data));
    assert r.Keys == convs.Keys;
    assert forall id :: id in r ==> r[id] == convs[id];
  }

  /** As written, a state holding a key of empty bytes destroys the state
      file: the save fails after truncating it, and the next load gives
      `{}`, losing every conversation, not only the one with the empty key. */
  lemma EmptyKeyLosesState(c: Codecs, convs: Conversations, id: string)
    requires id in convs && convs[id].key == Some([])
    ensures Save(c, convs).None?
    ensures SavedFile(c, convs) == Unreadable
    ensures Load(c, SavedFile(c, convs)) == map[] && Load(c, SavedFile(c, convs)) != convs
  {
  }

  /** With the previous file kept on failure, a save never loses state:
      what loads afterwards is the saved state, or, when it cannot be
      written, whatever the previous file held. */
  lemma KeepingPreviousNeverLoses(c: Codecs, convs: Conversations, previous: StateFile)
    requires LawfulCodecs(c)
    ensures Load(c, SavedFileKeepingPrevious(c, convs, previous))
         == if Serialisable(convs) then convs else Load(c, previous)
  {
    if Serialisable(convs) {
      SaveLoadRoundTrip(c, convs);
    }
  }

  /** Loading is all or nothing: the result is either empty or holds
      exactly the document's conversation ids, and a conversation without a
      "type" loads as a private one. */
  lemma LoadAllOrNothing(c: Codecs, data: Json, id: string)
    ensures var r := Load(c, Parsed(data));
      && (r == map[] || (data.JObj? && r.Keys == data.fields.Keys))
      && (id in r && Get(data.fields[id], "type").None? ==> r[id].kind == DEFAULT_KIND)
  {
  }
}
