/**
 * The chat persistence service of services/chatStorage.ts: one storage slot
 * holding the serialized chat list, a capped save with one smaller retry,
 * an upsert by thread id and a load that drops invalid entries and fills
 * in defaults.
 *
 * The slot holds the list as JSON would leave it rather than a string:
 * an undefined field is absent, messages and activities may be missing,
 * and a date is an ISO string, or `null` for an invalid date. Whether the
 * browser accepts a write (its quota) is a parameter, `fits`.
 */
module ChatStorage {
  import opened Wrappers
  import opened Messages
  import opened ChatTypes
  import opened Text

  /** A date after `JSON.stringify`: absent, an ISO time, or `null` (an invalid date). */
  datatype StoredStamp = Missing | Iso(ms: int) | Null

  /** A chat as the slot holds it; an id that is missing or falsy is the empty string. */
  datatype StoredChat = StoredChat(
    id: string,
    title: Option<Content>,
    timestamp: StoredStamp,
    preview: Option<Content>,
    messages: Option<seq<Message>>,
    historicalActivities: Option<Activities>)

  /** The storage slot: no entry, a parsed list, or text that does not parse to a list of objects. */
  datatype Slot = Absent | Stored(chats: seq<StoredChat>) | Corrupt

  /** `MAX_CHATS` (line 5). */
  const MaxChats: nat := 50

  /** What `JSON.stringify` writes for a date. */
  function WriteStamp(t: Stamp): StoredStamp
  {
    match t
    case Unset => Missing
    case At(ms) => Iso(ms)
    case Invalid => Null
  }

  /** `new Date(chat.timestamp)` on what was read back (line 65). */
  function ReviveStamp(t: StoredStamp): Stamp
  {
    match t
    case Missing => Invalid
    case Iso(ms) => At(ms)
    case Null => At(0)
  }

  /** One chat as `JSON.stringify` stores it. */
  function Serialize(c: ChatItem): (r: StoredChat)
    ensures Keeps(r) <==> c.id != "" && Truthy(c.title)
    ensures c.timestamp.At? && c.historicalActivities.Some? ==> Revive(r) == c
  {
    StoredChat(c.id, c.title, WriteStamp(c.timestamp), c.preview, Some(c.messages), c.historicalActivities)
  }

  /** The whole list serialized. */
  function SerializeAll(cs: seq<ChatItem>): (r: seq<StoredChat>)
    ensures |r| == |cs| && forall k :: 0 <= k < |r| ==> r[k] == Serialize(cs[k])
  {
    seq(|cs|, k requires 0 <= k < |cs| => Serialize(cs[k]))
  }

  /** The filter of line 62: a truthy id and a truthy title. */
  predicate Keeps(c: StoredChat)
  {
    c.id != "" && Truthy(c.title)
  }

  /** The map of lines 63-68: the date revived, missing messages and activities defaulted. */
  function Revive(c: StoredChat): (r: ChatItem)
    ensures r.id == c.id && r.title == c.title && r.preview == c.preview
    ensures r.historicalActivities.Some?
    ensures c.timestamp.Iso? ==> WriteStamp(r.timestamp) == c.timestamp
    ensures c.timestamp.Missing? ==> r.timestamp.Invalid?
  {
    ChatItem(c.id, c.title, ReviveStamp(c.timestamp), c.preview,
      if c.messages.Some? then c.messages.value else [],
      if c.historicalActivities.Some? then c.historicalActivities else Some(map[]))
  }

  /** The stored entries kept and revived, in order. */
  function LoadList(cs: seq<StoredChat>): (r: seq<ChatItem>)
    ensures |r| <= |cs|
    ensures forall k :: 0 <= k < |r| ==> r[k].id != "" && Truthy(r[k].title) && r[k].historicalActivities.Some?
  {
    if cs == [] then [] else (if Keeps(cs[0]) then [Revive(cs[0])] else []) + LoadList(cs[1..])
  }

  /** What `loadChats` returns for a slot (lines 53-74). */
  function Loaded(slot: Slot): (r: seq<ChatItem>)
    ensures slot.Absent? || slot.Corrupt? ==> r == []
  {
    if slot.Stored? then LoadList(slot.chats) else []
  }

  /** The slot after `loadChats`: corrupt data is cleared. */
  function AfterLoad(slot: Slot): (r: Slot)
    ensures r.Corrupt? == false
    ensures !slot.Corrupt? ==> r == slot
  {
    if slot.Corrupt? then Absent else slot
  }

  /** Whether `saveChats` reports success (lines 10-29): the capped write or the halved retry fits. */
  predicate SaveOk(chats: seq<ChatItem>, fits: seq<StoredChat> -> bool)
  {
    fits(SerializeAll(Prefix(chats, MaxChats))) || fits(SerializeAll(Prefix(chats, MaxChats / 2)))
  }

  /** The slot after `saveChats`: the first write that fits, or the slot as it was. */
  function SavedSlot(prior: Slot, chats: seq<ChatItem>, fits: seq<StoredChat> -> bool): (r: Slot)
    ensures !SaveOk(chats, fits) ==> r == prior
    ensures SaveOk(chats, fits) ==>
      r.Stored? && |r.chats| <= MaxChats && r.chats == SerializeAll(Prefix(chats, |r.chats|))
  {
    if fits(SerializeAll(Prefix(chats, MaxChats))) then Stored(SerializeAll(Prefix(chats, MaxChats)))
    else if fits(SerializeAll(Prefix(chats, MaxChats / 2))) then Stored(SerializeAll(Prefix(chats, MaxChats / 2)))
    else prior
  }

  /** The index of the first chat with the id. */
  function IndexOf(chats: seq<ChatItem>, id: string): (r: Option<nat>)
    ensures r.None? <==> !HasId(chats, id)
    ensures r.Some? ==> r.value < |chats| && chats[r.value].id == id
    ensures r.Some? ==> forall j :: 0 <= j < r.value ==> chats[j].id != id
  {
    if chats == [] then None
    else if chats[0].id == id then Some(0)
    else
      var tail := IndexOf(chats[1..], id);
      assert forall k :: 1 <= k < |chats| ==> chats[k] == chats[1..][k - 1];
      if tail.Some? then Some(tail.value + 1) else None
  }

  /** The chat pushed for a thread seen for the first time (lines 38-45). */
  function ThreadChat(threadId: string, messages: seq<Message>, now: int): ChatItem
  {
    var last := if messages == [] then None else Some(messages[|messages| - 1].content);
    ChatItem(threadId, last, At(now), last, messages, Some(map[]))
  }

  /** The list `saveChatByThreadId` saves (lines 33-46). */
  function Upserted(chats: seq<ChatItem>, threadId: string, messages: seq<Message>, now: int): (r: seq<ChatItem>)
    ensures |r| == |chats| + (if HasId(chats, threadId) then 0 else 1)
    ensures forall k :: 0 <= k < |chats| ==> r[k].id == chats[k].id
    ensures HasId(r, threadId)
  {
    var found := IndexOf(chats, threadId);
    if found.Some? then chats[found.value := chats[found.value].(messages := messages)]
    else
      var r := chats + [ThreadChat(threadId, messages, now)];
      assert r[|chats|].id == threadId;
      r
  }

  /** `ChatStorageService`: the service and the one slot it reads and writes. */
  class ChatStorageService {
    var slot: Slot

    constructor(initial: Slot)
      ensures slot == initial
    {
      slot := initial;
    }

    /** `saveChats` (lines 10-29). */
    method SaveChats(chats: seq<ChatItem>, fits: seq<StoredChat> -> bool) returns (ok: bool)
      modifies this
      ensures ok == SaveOk(chats, fits)
      ensures slot == SavedSlot(old(slot), chats, fits)
    {
      var limitedChats := SerializeAll(Prefix(chats, MaxChats));
      if fits(limitedChats) {
        slot := Stored(limitedChats);
        ok := true;
      } else {
        var reducedChats := SerializeAll(Prefix(chats, MaxChats / 2));
        if fits(reducedChats) {
          slot := Stored(reducedChats);
          ok := true;
        } else {
          ok := false;
        }
      }
    }

    /** `loadChats` (lines 53-74). */
    method LoadChats() returns (chats: seq<ChatItem>)
      modifies this
      ensures chats == Loaded(old(slot))
      ensures slot == AfterLoad(old(slot))
    {
      match slot
      case Absent => chats := [];
      case Stored(stored) => chats := LoadList(stored);
      case Corrupt =>
        ClearChats();
        chats := [];
    }

    /** `saveChatByThreadId` (lines 31-48). */
    method SaveChatByThreadId(threadId: string, messages: seq<Message>, now: int, fits: seq<StoredChat> -> bool) returns (ok: bool)
      modifies this
      ensures var chats := Upserted(Loaded(old(slot)), threadId, messages, now);
        ok == SaveOk(chats, fits) && slot == SavedSlot(AfterLoad(old(slot)), chats, fits)
    {
      var chats := LoadChats();
      var threadIdChat := IndexOf(chats, threadId);
      if threadIdChat.Some? {
        chats := chats[threadIdChat.value := chats[threadIdChat.value].(messages := messages)];
      } else {
        chats := chats + [ThreadChat(threadId, messages, now)];
      }
      ok := SaveChats(chats, fits);
    }

    /** `clearChats` (lines 81-87). */
    method ClearChats()
      modifies this
      ensures slot == Absent
    {
      slot := Absent;
    }
  }

  /** A chat held as JSON leaves it after one save and load: the date and the activities settled. */
  function Settled(c: ChatItem): ChatItem
  {
    c.(timestamp := ReviveStamp(WriteStamp(c.timestamp)),
       historicalActivities := if c.historicalActivities.Some? then c.historicalActivities else Some(map[]))
  }

  /** The chats with a non-empty id and a truthy title, settled, in order. */
  function KeptSettled(cs: seq<ChatItem>): seq<ChatItem>
  {
    if cs == [] then []
    else (if cs[0].id != "" && Truthy(cs[0].title) then [Settled(cs[0])] else []) + KeptSettled(cs[1..])
  }

  /** Loading what was serialized gives back the valid chats, settled, in order. */
  lemma {:induction false} LoadSerialized(cs: seq<ChatItem>)
    ensures LoadList(SerializeAll(cs)) == KeptSettled(cs)
  {
    if cs != [] {
      LoadSerialized(cs[1..]);
      assert SerializeAll(cs)[1..] == SerializeAll(cs[1..]);
    }
  }

  /**
   * Round trip: after a save whose first write fits, a load returns the
   * first `min(n, 50)` saved chats that have an id and a title, in order,
   * settled by JSON.
   */
  lemma SaveThenLoad(prior: Slot, chats: seq<ChatItem>, fits: seq<StoredChat> -> bool)
    requires fits(SerializeAll(Prefix(chats, MaxChats)))
    ensures Loaded(SavedSlot(prior, chats, fits)) == KeptSettled(Prefix(chats, MaxChats))
  {
    LoadSerialized(Prefix(chats, MaxChats));
  }

  /** A chat that has a date and an activity record is not changed by a save and a load. */
  lemma SettledExact(c: ChatItem)
    requires c.timestamp.At? && c.historicalActivities.Some?
    ensures Settled(c) == c
  {
  }

  /**
   * A chat saved without a date comes back with an invalid date; saved and
   * loaded again it comes back dated at time 0, and from then on it stays.
   */
  lemma UndatedDrifts(c: ChatItem)
    requires c.timestamp == Unset
    ensures Settled(c).timestamp == Invalid
    ensures Settled(Settled(c)).timestamp == At(0)
    ensures Settled(Settled(Settled(c))) == Settled(Settled(c))
  {
  }

  /** Saving reports failure only when both writes were refused, and then the slot is unchanged. */
  lemma SaveFailure(prior: Slot, chats: seq<ChatItem>, fits: seq<StoredChat> -> bool)
    ensures !SaveOk(chats, fits) <==> !fits(SerializeAll(Prefix(chats, MaxChats))) && !fits(SerializeAll(Prefix(chats, MaxChats / 2)))
    ensures !SaveOk(chats, fits) ==> SavedSlot(prior, chats, fits) == prior
    ensures SaveOk(chats, fits) ==> SavedSlot(prior, chats, fits).Stored?
  {
  }

  /** After the retry, the slot holds the first 25 chats. */
  lemma RetryKeepsHalf(prior: Slot, chats: seq<ChatItem>, fits: seq<StoredChat> -> bool)
    requires !fits(SerializeAll(Prefix(chats, MaxChats))) && fits(SerializeAll(Prefix(chats, MaxChats / 2)))
    ensures SavedSlot(prior, chats, fits) == Stored(SerializeAll(Prefix(chats, 25)))
    ensures |SavedSlot(prior, chats, fits).chats| == if |chats| < 25 then |chats| else 25
  {
  }

  /** An existing thread: only that chat's messages are replaced; count, order and the rest stay. */
  lemma UpsertExisting(chats: seq<ChatItem>, threadId: string, messages: seq<Message>, now: int)
    requires HasId(chats, threadId)
    ensures var r := Upserted(chats, threadId, messages, now);
      && |r| == |chats|
      && exists k :: (0 <= k < |chats| && chats[k].id == threadId
        && r[k] == chats[k].(messages := messages)
        && (forall j :: 0 <= j < |chats| && j != k ==> r[j] == chats[j])
        && (forall j :: 0 <= j < k ==> chats[j].id != threadId))
  {
    var k := IndexOf(chats, threadId).value;
    var r := Upserted(chats, threadId, messages, now);
    assert r[k] == chats[k].(messages := messages);
  }

  /** A new thread: one chat appended at the end, titled by the last message's content. */
  lemma UpsertNew(chats: seq<ChatItem>, threadId: string, messages: seq<Message>, now: int)
    requires !HasId(chats, threadId)
    ensures var r := Upserted(chats, threadId, messages, now);
      && r[..|chats|] == chats && |r| == |chats| + 1
      && r[|chats|].id == threadId && r[|chats|].messages == messages
      && r[|chats|].historicalActivities == Some(map[])
      && r[|chats|].title == r[|chats|].preview
      && r[|chats|].title == (if messages == [] then None else Some(messages[|messages| - 1].content))
  {
  }

  /** No loaded chat has the id. */
  lemma {:induction false} LoadListMissing(cs: seq<StoredChat>, id: string)
    requires forall k :: 0 <= k < |cs| ==> cs[k].id != id
    ensures !HasId(LoadList(cs), id)
  {
    if cs != [] {
      LoadListMissing(cs[1..], id);
      var r := LoadList(cs);
      var tail := LoadList(cs[1..]);
      forall k | 0 <= k < |r| ensures r[k].id != id {
        if Keeps(cs[0]) && k > 0 {
          assert r[k] == tail[k - 1];
        } else if !Keeps(cs[0]) {
          assert r[k] == tail[k];
        }
      }
    }
  }

  /**
   * With 50 or more chats stored, a new thread is appended after the 50th,
   * so the capped write leaves it out and the next load does not find it.
   */
  lemma NewThreadCutOff(chats: seq<ChatItem>, threadId: string, messages: seq<Message>, now: int, prior: Slot, fits: seq<StoredChat> -> bool)
    requires !HasId(chats, threadId) && |chats| >= MaxChats
    requires fits(SerializeAll(Prefix(Upserted(chats, threadId, messages, now), MaxChats)))
    ensures !HasId(Loaded(SavedSlot(prior, Upserted(chats, threadId, messages, now), fits)), threadId)
  {
    var r := Upserted(chats, threadId, messages, now);
    var stored := SerializeAll(Prefix(r, MaxChats));
    assert Prefix(r, MaxChats) == chats[..MaxChats];
    forall k | 0 <= k < |stored| ensures stored[k].id != threadId {
      assert stored[k].id == chats[k].id;
    }
    LoadListMissing(stored, threadId);
  }

  /**
   * A new thread whose last message has no text (or that has no messages)
   * is saved without a truthy title, so the next load drops it.
   */
  lemma {:induction false} UntitledThreadDropped(chats: seq<ChatItem>, threadId: string, messages: seq<Message>, now: int)
    requires !HasId(chats, threadId) && |chats| < MaxChats
    requires messages == [] || messages[|messages| - 1].content == Text("")
    ensures KeptSettled(Prefix(Upserted(chats, threadId, messages, now), MaxChats)) == KeptSettled(chats)
  {
    var r := Upserted(chats, threadId, messages, now);
    assert Prefix(r, MaxChats) == chats + [ThreadChat(threadId, messages, now)];
    KeptSettledAppend(chats, [ThreadChat(threadId, messages, now)]);
    assert KeptSettled([ThreadChat(threadId, messages, now)]) == [];
  }

  /** Keeping and settling distributes over concatenation. */
  lemma {:induction false} KeptSettledAppend(a: seq<ChatItem>, b: seq<ChatItem>)
    ensures KeptSettled(a + b) == KeptSettled(a) + KeptSettled(b)
  {
    if a != [] {
      KeptSettledAppend(a[1..], b);
      assert (a + b)[1..] == a[1..] + b;
    } else {
      assert a + b == b;
    }
  }

  /** After clearing, a load finds nothing. */
  lemma ClearThenLoad()
    ensures Loaded(Absent) == []
    ensures AfterLoad(Absent) == Absent
  {
  }
}
