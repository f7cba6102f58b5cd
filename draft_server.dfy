/**
 * The draft server (frontend_raw/supabase/index.tsx): `POST /memories`
 * validates the JSON body, builds a record and writes it to the key-value
 * store; `GET /memories` reads every `memory:` entry and sorts it newest
 * first. The key-value store is a map from keys to records.
 */
module DraftServer {
  import opened Wrappers
  import opened JsText
  import opened Web

  /** A stored record: `{ id, imageUrl, message, createdAt }`. */
  datatype Memory = Memory(id: string, imageUrl: string, message: string, createdAt: int)

  /** The fields `POST /memories` reads from its JSON body; `None` is a field that is absent or null. */
  datatype PostBody = PostBody(imageData: Option<string>, message: Option<string>)

  /** The JSON a handler answers with. */
  datatype Json = MemoryJson(memory: Memory) | MemoryListJson(memories: seq<Memory>) | ErrorJson(error: string)

  /** `c.json(body, status)`; `c.json(body)` answers 200. */
  datatype HttpReply = HttpReply(status: nat, body: Json)

  /** The key prefix of every record, and the prefix `GET` reads. */
  const KeyPrefix: string := "memory:"

  /** The text of the 400 reply. */
  const RequiredError: string := "Image and message are required"

  /** `memory:${Date.now()}`. */
  function MemoryId(timestamp: nat): (id: string)
    ensures KeyPrefix <= id
    ensures id[|KeyPrefix|..] == NatToString(timestamp)
  {
    KeyPrefix + NatToString(timestamp)
  }

  /** Two records made at different milliseconds get different ids. */
  lemma MemoryIdInjective(t1: nat, t2: nat)
    requires MemoryId(t1) == MemoryId(t2)
    ensures t1 == t2
  {
    assert MemoryId(t1)[|KeyPrefix|..] == MemoryId(t2)[|KeyPrefix|..];
    NatToStringInjective(t1, t2);
  }

  /** `!imageData || !message` is false: both fields are non-empty strings. */
  predicate HasRequiredFields(body: PostBody)
    ensures HasRequiredFields(body) <==>
      body.imageData !in {None, Some("")} && body.message !in {None, Some("")}
  {
    body.imageData.Some? && Truthy(body.imageData.value) && body.message.Some? && Truthy(body.message.value)
  }

  /**
   * The record built for a valid body: the id from one clock read, the
   * image data and message verbatim, `createdAt` from a second clock read.
   */
  function NewMemory(body: PostBody, idClock: nat, createdClock: nat): (m: Memory)
    requires HasRequiredFields(body)
    ensures m.id == MemoryId(idClock) && KeyPrefix <= m.id
    ensures m.imageUrl == body.imageData.value && m.message == body.message.value
    ensures m.createdAt == createdClock
  {
    Memory(MemoryId(idClock), body.imageData.value, body.message.value, createdClock)
  }

  /** The prefix of the 500 reply of `POST`. */
  const CreateErrorPrefix: string := "Failed to create memory: "
  /** The prefix of the 500 reply of `GET`. */
  const FetchErrorPrefix: string := "Failed to fetch memories: "

  /** The 500 reply for an exception with message `reason`, after the handler's prefix. */
  function InternalError(prefix: string, reason: string): (reply: HttpReply)
    ensures reply.status == 500 && reply.body.ErrorJson?
    ensures |reply.body.error| == |prefix| + |reason|
    ensures reply.body.error[..|prefix|] == prefix && reply.body.error[|prefix|..] == reason
  {
    HttpReply(500, ErrorJson(prefix + reason))
  }

  /** The keys of `store` that start with `prefix`. */
  function KeysWithPrefix(store: map<string, Memory>, prefix: string): (keys: set<string>)
    ensures keys <= store.Keys
    ensures forall k :: k in store && prefix <= k ==> k in keys
    ensures forall k :: k in keys ==> prefix <= k
  {
    set k | k in store && prefix <= k
  }

  /** The records stored under `keys`, counted with multiplicity. */
  ghost function ValuesAt(store: map<string, Memory>, keys: set<string>): multiset<Memory>
    requires keys <= store.Keys
    decreases keys
  {
    if keys == {} then multiset{}
    else
      var k :| k in keys;
      multiset{store[k]} + ValuesAt(store, keys - {k})
  }

  /** Taking any one key out of `keys` takes out exactly its record. */
  lemma {:induction false} ValuesAtRemove(store: map<string, Memory>, keys: set<string>, k: string)
    requires keys <= store.Keys && k in keys
    ensures ValuesAt(store, keys) == multiset{store[k]} + ValuesAt(store, keys - {k})
    decreases keys
  {
    var j :| j in keys && ValuesAt(store, keys) == multiset{store[j]} + ValuesAt(store, keys - {j});
    if j != k {
      ValuesAtRemove(store, keys - {j}, k);
      ValuesAtRemove(store, keys - {k}, j);
      assert keys - {j} - {k} == keys - {k} - {j};
    }
  }

  /** A record stored under a key with the prefix is among the records `GET` reads. */
  lemma StoredMemoryIsFetched(store: map<string, Memory>, key: string)
    requires key in store && KeyPrefix <= key
    ensures store[key] in ValuesAt(store, KeysWithPrefix(store, KeyPrefix))
  {
    ValuesAtRemove(store, KeysWithPrefix(store, KeyPrefix), key);
  }

  /** After a successful `POST`, the record it answered with is among those the next `GET` returns. */
  lemma PostedMemoryIsFetched(store: map<string, Memory>, body: PostBody, idClock: nat, createdClock: nat)
    requires HasRequiredFields(body)
    ensures var m := NewMemory(body, idClock, createdClock);
      m in ValuesAt(store[m.id := m], KeysWithPrefix(store[m.id := m], KeyPrefix))
  {
    var m := NewMemory(body, idClock, createdClock);
    StoredMemoryIsFetched(store[m.id := m], m.id);
  }

  /** Newest first: `createdAt` never increases along the list. */
  predicate NewestFirst(list: seq<Memory>)
  {
    forall i, j :: 0 <= i < j < |list| ==> list[i].createdAt >= list[j].createdAt
  }

  /** The key-value store (`kv_store.tsx`), as the map of its entries. */
  class KvStore {
    var entries: map<string, Memory>

    constructor (initial: map<string, Memory>)
      ensures entries == initial
    {
      entries := initial;
    }

    /** `kv.set(key, value)`. */
    method Set(key: string, value: Memory)
      modifies this
      ensures entries == old(entries)[key := value]
    {
      entries := entries[key := value];
    }

    /** `kv.getByPrefix(prefix)`: the records under keys with the prefix, in an unspecified order. */
    method GetByPrefix(prefix: string) returns (values: seq<Memory>)
      ensures multiset(values) == ValuesAt(entries, KeysWithPrefix(entries, prefix))
    {
      var all := KeysWithPrefix(entries, prefix);
      var remaining := all;
      values := [];
      while remaining != {}
        invariant remaining <= all
        invariant multiset(values) + ValuesAt(entries, remaining) == ValuesAt(entries, all)
        decreases remaining
      {
        var k :| k in remaining;
        ValuesAtRemove(entries, remaining, k);
        values := values + [entries[k]];
        remaining := remaining - {k};
      }
    }
  }

  /** Exchange `a[i]` and `a[j]`. */
  method Swap(a: array<Memory>, i: nat, j: nat)
    requires i < a.Length && j < a.Length
    modifies a
    ensures a[..] == old(a[..])[i := old(a[j])][j := old(a[i])]
    ensures multiset(a[..]) == old(multiset(a[..]))
  {
    a[i], a[j] := a[j], a[i];
  }

  /** Move `a[i]` left past every older record, leaving `a[..i + 1]` newest first. */
  method InsertNewestFirst(a: array<Memory>, i: nat)
    requires i < a.Length
    requires forall k, l :: 0 <= k < l < i ==> a[k].createdAt >= a[l].createdAt
    modifies a
    ensures forall k, l :: 0 <= k < l <= i ==> a[k].createdAt >= a[l].createdAt
    ensures forall k :: i < k < a.Length ==> a[k] == old(a[k])
    ensures multiset(a[..]) == old(multiset(a[..]))
  {
    var j := i;
    while j > 0 && a[j - 1].createdAt < a[j].createdAt
      invariant 0 <= j <= i
      invariant forall k, l :: 0 <= k < l <= i && k != j && l != j ==> a[k].createdAt >= a[l].createdAt
      invariant forall l :: j < l <= i ==> a[j].createdAt > a[l].createdAt
      invariant forall k :: i < k < a.Length ==> a[k] == old(a[k])
      invariant multiset(a[..]) == old(multiset(a[..]))
    {
      Swap(a, j - 1, j);
      j := j - 1;
    }
  }

  /** `memories.sort((a, b) => b.createdAt - a.createdAt)`, in place. */
  method SortNewestFirst(a: array<Memory>)
    modifies a
    ensures NewestFirst(a[..])
    ensures multiset(a[..]) == old(multiset(a[..]))
  {
    var i := 0;
    while i < a.Length
      invariant 0 <= i <= a.Length
      invariant forall k, l :: 0 <= k < l < i ==> a[k].createdAt >= a[l].createdAt
      invariant multiset(a[..]) == old(multiset(a[..]))
    {
      InsertNewestFirst(a, i);
      i := i + 1;
    }
  }

  /**
   * `POST /memories`: an undecodable body or a failing store answers 500; a
   * body without a truthy `imageData` and `message` answers 400; otherwise
   * the new record is stored under its own id and answered as it was stored.
   */
  method PostMemory(kv: KvStore, request: Body<PostBody>, idClock: nat, createdClock: nat, storeError: Option<string>)
    returns (reply: HttpReply)
    modifies kv
    ensures request.Undecodable? ==> reply == InternalError(CreateErrorPrefix, request.reason) && kv.entries == old(kv.entries)
    ensures request.Decoded? && !HasRequiredFields(request.value) ==>
      reply == HttpReply(400, ErrorJson(RequiredError)) && kv.entries == old(kv.entries)
    ensures request.Decoded? && HasRequiredFields(request.value) && storeError.Some? ==>
      reply == InternalError(CreateErrorPrefix, storeError.value) && kv.entries == old(kv.entries)
    ensures request.Decoded? && HasRequiredFields(request.value) && storeError.None? ==>
      var m := NewMemory(request.value, idClock, createdClock);
      reply == HttpReply(200, MemoryJson(m)) && kv.entries == old(kv.entries)[m.id := m]
  {
    if request.Undecodable? {
      return InternalError(CreateErrorPrefix, request.reason);
    }
    var body := request.value;
    if !HasRequiredFields(body) {
      return HttpReply(400, ErrorJson(RequiredError));
    }
    var memory := NewMemory(body, idClock, createdClock);
    if storeError.Some? {
      return InternalError(CreateErrorPrefix, storeError.value);
    }
    kv.Set(memory.id, memory);
    reply := HttpReply(200, MemoryJson(memory));
  }

  /**
   * `GET /memories`: every record under a `memory:` key, newest first, or a
   * 500 when the store fails. The store is not changed.
   */
  method GetMemories(kv: KvStore, storeError: Option<string>) returns (reply: HttpReply)
    ensures storeError.Some? ==> reply == InternalError(FetchErrorPrefix, storeError.value)
    ensures storeError.None? ==>
      && reply.status == 200 && reply.body.MemoryListJson?
      && NewestFirst(reply.body.memories)
      && multiset(reply.body.memories) == ValuesAt(kv.entries, KeysWithPrefix(kv.entries, KeyPrefix))
  {
    if storeError.Some? {
      return InternalError(FetchErrorPrefix, storeError.value);
    }
    var fetched := kv.GetByPrefix(KeyPrefix);
    var memories := new Memory[|fetched|](i requires 0 <= i < |fetched| => fetched[i]);
    assert memories[..] == fetched;
    SortNewestFirst(memories);
    reply := HttpReply(200, MemoryListJson(memories[..]));
  }
}
