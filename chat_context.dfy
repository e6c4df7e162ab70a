/**
 * The chat list of contexts/ChatContext.tsx: `chatReducer`, the title rule
 * `generateChatTitle`, and the actions the provider dispatches (creating,
 * deleting, renaming and re-messaging a chat, and loading the history). The
 * React dispatch queue becomes the reducer applied to the actions in the
 * order the provider dispatches them.
 */
module ChatContext {
  import opened Wrappers
  import opened Text
  import opened Messages
  import opened AgentRest
  import opened ChatTypes

  /** A `Partial<ChatItem>` as the provider builds it: the fields present are the ones to overwrite. */
  datatype Updates = Updates(
    title: Option<string>,
    timestamp: Option<int>,
    preview: Option<string>,
    messages: Option<seq<Message>>,
    historicalActivities: Option<Activities>)

  const NoUpdates := Updates(None, None, None, None, None)

  /** `{ ...chat, ...updates }`. */
  function Merge(chat: ChatItem, u: Updates): ChatItem
  {
    chat.(
      title := if u.title.Some? then Str(u.title.value) else chat.title,
      timestamp := if u.timestamp.Some? then At(u.timestamp.value) else chat.timestamp,
      preview := if u.preview.Some? then Str(u.preview.value) else chat.preview,
      messages := if u.messages.Some? then u.messages.value else chat.messages,
      historicalActivities := if u.historicalActivities.Some? then u.historicalActivities else chat.historicalActivities)
  }

  /** `ChatAction`, with one more case for an action of any other type. */
  datatype ChatAction =
    | SetChats(chats: seq<ChatItem>)
    | SetLoading(loading: bool)
    | SetError(error: Option<string>)
    | AddChat(chat: ChatItem)
    | UpdateChat(id: string, updates: Updates)
    | DeleteChat(id: string)
    | Unrecognised(kind: string)

  /** The `map` of `UPDATE_CHAT`: every chat with the id gets the updates, in place. */
  function UpdateAll(chats: seq<ChatItem>, id: string, u: Updates): (r: seq<ChatItem>)
    ensures |r| == |chats|
    ensures forall k :: 0 <= k < |r| ==> r[k].id == chats[k].id
    ensures forall k :: 0 <= k < |r| ==> r[k] == if chats[k].id == id then Merge(chats[k], u) else chats[k]
  {
    seq(|chats|, k requires 0 <= k < |chats| => if chats[k].id == id then Merge(chats[k], u) else chats[k])
  }

  /** The `filter` of `DELETE_CHAT`: the chats whose id differs, in order. */
  function Without(chats: seq<ChatItem>, id: string): (r: seq<ChatItem>)
    ensures |r| <= |chats|
  {
    if chats == [] then []
    else (if chats[0].id == id then [] else [chats[0]]) + Without(chats[1..], id)
  }

  /** No chat with the id survives, and when there was none, nothing changes. */
  lemma {:induction false} WithoutRemoves(chats: seq<ChatItem>, id: string)
    ensures !HasId(Without(chats, id), id)
    ensures !HasId(chats, id) ==> Without(chats, id) == chats
  {
    if chats != [] {
      var rest := chats[1..];
      var head := if chats[0].id == id then [] else [chats[0]];
      WithoutRemoves(rest, id);
      var tail := Without(rest, id);
      assert Without(chats, id) == head + tail;
      assert !HasId(head + tail, id) by {
        forall k | 0 <= k < |head + tail|
          ensures (head + tail)[k].id != id
        {
          if k >= |head| { assert (head + tail)[k] == tail[k - |head|]; }
        }
      }
      if !HasId(chats, id) {
        assert !HasId(rest, id) by {
          forall k | 0 <= k < |rest| ensures rest[k].id != id {
            assert rest[k] == chats[k + 1];
          }
        }
        assert [chats[0]] + rest == chats;
      }
    }
  }

  /** The chats that have the id, in order. */
  function Matching(chats: seq<ChatItem>, id: string): seq<ChatItem>
  {
    if chats == [] then []
    else (if chats[0].id == id then [chats[0]] else []) + Matching(chats[1..], id)
  }

  /** `chatReducer` (lines 28-61). */
  function ChatReducer(state: ChatState, action: ChatAction): (r: ChatState)
    ensures r.isLoading == if action.SetLoading? then action.loading else state.isLoading
    ensures r.error == if action.SetError? then action.error else state.error
    ensures action.SetChats? ==> r.chats == action.chats
    ensures action.AddChat? ==> r.chats == [action.chat] + state.chats
    ensures action.UpdateChat? ==> r.chats == UpdateAll(state.chats, action.id, action.updates)
    ensures action.DeleteChat? ==> r.chats == Without(state.chats, action.id)
    ensures action.SetLoading? || action.SetError? || action.Unrecognised? ==> r.chats == state.chats
  {
    match action
    case SetChats(chats) => state.(chats := chats)
    case SetLoading(loading) => state.(isLoading := loading)
    case SetError(error) => state.(error := error)
    case AddChat(chat) => state.(chats := [chat] + state.chats)
    case UpdateChat(id, updates) => state.(chats := UpdateAll(state.chats, id, updates))
    case DeleteChat(id) => state.(chats := Without(state.chats, id))
    case Unrecognised(_) => state
  }

  /** An action of an unknown type leaves the state exactly as it was. */
  lemma UnrecognisedIsNoOp(state: ChatState, kind: string)
    ensures ChatReducer(state, Unrecognised(kind)) == state
  {
  }

  /**
   * Deleting removes every chat with the id and nothing else: what is left
   * and what was removed together make up the old list.
   */
  lemma {:induction false} DeleteSplits(chats: seq<ChatItem>, id: string)
    ensures multiset(Without(chats, id)) + multiset(Matching(chats, id)) == multiset(chats)
  {
    if chats != [] {
      var c, rest := chats[0], chats[1..];
      DeleteSplits(rest, id);
      assert multiset(chats) == multiset([c]) + multiset(rest) by {
        assert chats == [c] + rest;
      }
      if c.id == id {
        assert Without(chats, id) == [] + Without(rest, id) == Without(rest, id);
        assert Matching(chats, id) == [c] + Matching(rest, id);
      } else {
        assert Without(chats, id) == [c] + Without(rest, id);
        assert Matching(chats, id) == [] + Matching(rest, id) == Matching(rest, id);
      }
    }
  }

  /** Every chat `Matching` keeps has the id. */
  lemma {:induction false} MatchingHasId(chats: seq<ChatItem>, id: string)
    ensures forall k :: 0 <= k < |Matching(chats, id)| ==> Matching(chats, id)[k].id == id
  {
    if chats != [] {
      var c, rest := chats[0], chats[1..];
      MatchingHasId(rest, id);
      var head := if c.id == id then [c] else [];
      assert Matching(chats, id) == head + Matching(rest, id);
      forall k | 0 <= k < |Matching(chats, id)|
        ensures Matching(chats, id)[k].id == id
      {
        if k >= |head| {
          assert Matching(chats, id)[k] == Matching(rest, id)[k - |head|];
        }
      }
    }
  }

  /** Deleting leaves nothing exactly when every chat has the id. */
  lemma {:induction false} WithoutEmpty(chats: seq<ChatItem>, id: string)
    ensures Without(chats, id) == [] <==> forall k :: 0 <= k < |chats| ==> chats[k].id == id
  {
    if chats != [] {
      var rest := chats[1..];
      WithoutEmpty(rest, id);
      assert Without(chats, id) == (if chats[0].id == id then [] else [chats[0]]) + Without(rest, id);
      if forall k :: 0 <= k < |rest| ==> rest[k].id == id {
        assert forall k :: 1 <= k < |chats| ==> chats[k].id == rest[k - 1].id;
      } else {
        var k :| 0 <= k < |rest| && rest[k].id != id;
        assert chats[k + 1].id != id;
      }
    }
  }

  /** Deleting distributes over concatenation, so the kept chats stay in their order. */
  lemma {:induction false} DeleteAppend(a: seq<ChatItem>, b: seq<ChatItem>, id: string)
    ensures Without(a + b, id) == Without(a, id) + Without(b, id)
  {
    if a != [] {
      var c := a[0];
      var head := if c.id == id then [] else [c];
      DeleteAppend(a[1..], b, id);
      assert (a + b)[0] == c;
      assert (a + b)[1..] == a[1..] + b;
      assert Without(a + b, id) == head + Without(a[1..] + b, id);
      assert Without(a, id) == head + Without(a[1..], id);
      AppendAssoc(head, Without(a[1..], id), Without(b, id));
    } else {
      assert a + b == b;
    }
  }

  /** Adding a chat with a new id and deleting that id gives back the state. */
  lemma AddThenDelete(state: ChatState, chat: ChatItem)
    requires !HasId(state.chats, chat.id)
    ensures ChatReducer(ChatReducer(state, AddChat(chat)), DeleteChat(chat.id)) == state
  {
    var s1 := ChatReducer(state, AddChat(chat));
    assert s1.chats[1..] == state.chats;
    WithoutRemoves(state.chats, chat.id);
  }

  /** The same update applied twice is the update applied once. */
  lemma UpdateIdempotent(state: ChatState, id: string, u: Updates)
    ensures ChatReducer(ChatReducer(state, UpdateChat(id, u)), UpdateChat(id, u)) == ChatReducer(state, UpdateChat(id, u))
  {
    var once := UpdateAll(state.chats, id, u);
    var twice := UpdateAll(once, id, u);
    assert twice == once by {
      forall k | 0 <= k < |once| ensures twice[k] == once[k] {}
    }
  }

  /** An update for an id no chat has changes nothing. */
  lemma UpdateMissing(state: ChatState, id: string, u: Updates)
    requires !HasId(state.chats, id)
    ensures ChatReducer(state, UpdateChat(id, u)) == state
  {
    var r := UpdateAll(state.chats, id, u);
    assert r == state.chats by {
      forall k | 0 <= k < |r| ensures r[k] == state.chats[k] {
        assert state.chats[k].id != id;
      }
    }
  }

  /** After an update, the first chat with the id is the old first chat with the updates merged in. */
  lemma {:induction false} FindAfterUpdate(chats: seq<ChatItem>, id: string, u: Updates)
    ensures FindChat(UpdateAll(chats, id, u), id) == if FindChat(chats, id).Some? then Some(Merge(FindChat(chats, id).value, u)) else None
  {
    var r := UpdateAll(chats, id, u);
    if chats != [] && chats[0].id != id {
      FindAfterUpdate(chats[1..], id, u);
      assert r[1..] == UpdateAll(chats[1..], id, u);
    }
  }

  // ---------------------------------------------------------------------
  // Titles
  // ---------------------------------------------------------------------

  /** `maxLength` of `generateChatTitle`. */
  const MaxTitle := 40

  /** `generateChatTitle` (lines 64-70). */
  function GenerateChatTitle(content: string): (r: string)
    ensures r != [] && |r| <= MaxTitle + 3
    ensures |Trim(content)| > MaxTitle ==> r == Trim(content)[..MaxTitle] + "..."
    ensures |Trim(content)| <= MaxTitle && Trim(content) != [] ==> r == Trim(content)
    ensures Trim(content) == [] ==> r == "New Chat"
  {
    var cleaned := Trim(content);
    if |cleaned| > MaxTitle then cleaned[..MaxTitle] + "..."
    else if cleaned != [] then cleaned
    else "New Chat"
  }

  /** A generated title has no surrounding white space and is its own title. */
  lemma TitleIsFixedPoint(content: string)
    ensures Trim(GenerateChatTitle(content)) == GenerateChatTitle(content)
    ensures GenerateChatTitle(GenerateChatTitle(content)) == GenerateChatTitle(content)
  {
    var t := Trim(content);
    var r := GenerateChatTitle(content);
    TrimSpec(content);
    if |t| > MaxTitle {
      assert r[0] == t[0];
      assert r[|r| - 1] == '.';
      TrimUnpadded(r);
      assert r[..MaxTitle] == t[..MaxTitle];
    } else if t != [] {
      TrimIdempotent(content);
    } else {
      TrimUnpadded("New Chat");
    }
  }

  /** `newTitle.trim() || "Untitled Chat"` (line 166). */
  function RenameTitle(newTitle: string): (r: string)
    ensures Trim(newTitle) != [] ==> r == Trim(newTitle)
    ensures Trim(newTitle) == [] ==> r == "Untitled Chat"
  {
    if Trim(newTitle) != [] then Trim(newTitle) else "Untitled Chat"
  }

  /** A stored title is never blank, and renaming to it again keeps it. */
  lemma RenameTitleStable(newTitle: string)
    ensures Trim(RenameTitle(newTitle)) != []
    ensures RenameTitle(RenameTitle(newTitle)) == RenameTitle(newTitle)
  {
    if Trim(newTitle) != [] {
      TrimIdempotent(newTitle);
    } else {
      TrimUnpadded("Untitled Chat");
    }
  }

  /** `renameChat` (lines 165-171): the one update it dispatches. */
  function RenameChat(chatId: string, newTitle: string): (r: ChatAction)
    ensures r.UpdateChat? && r.id == chatId
    ensures r.updates == NoUpdates.(title := Some(RenameTitle(newTitle)))
  {
    UpdateChat(chatId, NoUpdates.(title := Some(RenameTitle(newTitle))))
  }

  /** Renaming sets the title of every chat with the id, and changes nothing else. */
  lemma RenameEffect(state: ChatState, chatId: string, newTitle: string)
    ensures var r := ChatReducer(state, RenameChat(chatId, newTitle));
      && r.isLoading == state.isLoading && r.error == state.error
      && |r.chats| == |state.chats|
      && forall k :: 0 <= k < |r.chats| ==>
        r.chats[k] == if state.chats[k].id == chatId then state.chats[k].(title := Str(RenameTitle(newTitle))) else state.chats[k]
  {
    var u := NoUpdates.(title := Some(RenameTitle(newTitle)));
    var r := ChatReducer(state, RenameChat(chatId, newTitle));
    assert r.chats == UpdateAll(state.chats, chatId, u);
    forall k | 0 <= k < |r.chats|
      ensures r.chats[k] == if state.chats[k].id == chatId then state.chats[k].(title := Str(RenameTitle(newTitle))) else state.chats[k]
    {
      MergeTitle(state.chats[k], RenameTitle(newTitle));
    }
  }

  /** Merging a title alone replaces the title and nothing else. */
  lemma MergeTitle(chat: ChatItem, title: string)
    ensures Merge(chat, NoUpdates.(title := Some(title))) == chat.(title := Str(title))
  {
  }

  // ---------------------------------------------------------------------
  // New messages for a chat
  // ---------------------------------------------------------------------

  /** The condition of line 181: the chat exists, is still titled "New Chat", and messages arrived. */
  predicate Retitles(chats: seq<ChatItem>, chatId: string, messages: seq<Message>)
  {
    FindChat(chats, chatId).Some? && FindChat(chats, chatId).value.title == Str("New Chat") && |messages| > 0
  }

  /** Number of characters of the first message a re-titled chat keeps as its preview. */
  const MaxPreview := 60

  /**
   * `updateChatMessages` (lines 173-190): the update it dispatches, or
   * `None` when it throws, which it does when it re-titles from a first
   * message whose content is not a string (`trim` is not defined on it).
   */
  function UpdateChatMessages(chats: seq<ChatItem>, chatId: string, messages: seq<Message>, now: int): (r: Option<ChatAction>)
    ensures r.None? <==> Retitles(chats, chatId, messages) && !messages[0].content.Text?
    ensures r.Some? ==> r.value.UpdateChat? && r.value.id == chatId
    ensures r.Some? ==> r.value.updates.messages == Some(messages) && r.value.updates.timestamp == Some(now)
    ensures r.Some? ==> r.value.updates.historicalActivities.None?
    ensures r.Some? ==> (r.value.updates.title.Some? <==> Retitles(chats, chatId, messages))
    ensures r.Some? ==> (r.value.updates.preview.Some? <==> Retitles(chats, chatId, messages))
    ensures r.Some? && Retitles(chats, chatId, messages) ==>
      && r.value.updates.title == Some(GenerateChatTitle(messages[0].content.text))
      && r.value.updates.preview == Some(Prefix(messages[0].content.text, MaxPreview) + "...")
  {
    var updates := NoUpdates.(messages := Some(messages), timestamp := Some(now));
    if Retitles(chats, chatId, messages) then
      match messages[0].content
      case Text(first) =>
        Some(UpdateChat(chatId, updates.(title := Some(GenerateChatTitle(first)), preview := Some(Prefix(first, MaxPreview) + "..."))))
      case Structured(_) => None
    else Some(UpdateChat(chatId, updates))
  }

  /**
   * A chat is re-titled once: after its first messages gave it a title
   * other than "New Chat", later messages replace the messages and the
   * time but no longer touch the title or the preview.
   */
  lemma RetitledOnce(state: ChatState, chatId: string, messages: seq<Message>, now: int, later: seq<Message>, laterNow: int)
    requires Retitles(state.chats, chatId, messages) && messages[0].content.Text?
    requires GenerateChatTitle(messages[0].content.text) != "New Chat"
    ensures var a := UpdateChatMessages(state.chats, chatId, messages, now).value;
      var s := ChatReducer(state, a);
      UpdateChatMessages(s.chats, chatId, later, laterNow) == Some(UpdateChat(chatId, NoUpdates.(messages := Some(later), timestamp := Some(laterNow))))
  {
    var a := UpdateChatMessages(state.chats, chatId, messages, now).value;
    FindAfterUpdate(state.chats, chatId, a.updates);
  }

  // ---------------------------------------------------------------------
  // Creating, deleting, loading
  // ---------------------------------------------------------------------

  /** `initialState` (lines 21-25). */
  const InitialState := ChatState([], true, None)

  /** The chat `createNewChat` builds (lines 136-143), from a fresh id and the current time. */
  function NewChat(id: string, now: int): ChatItem
  {
    ChatItem(id, Str("New Chat"), At(now), Str("Start a new conversation"), [], Some(map[]))
  }

  /** `createNewChat` (lines 134-152): the state after its two dispatches. */
  function CreateNewChat(state: ChatState, freshId: string, now: int): (r: ChatState)
    ensures r.chats == [NewChat(freshId, now)] + state.chats
    ensures r.error == None && r.isLoading == state.isLoading
  {
    ChatReducer(ChatReducer(state, AddChat(NewChat(freshId, now))), SetError(None))
  }

  /** The first messages sent to a newly created chat re-title it. */
  lemma NewChatRetitles(state: ChatState, freshId: string, now: int, messages: seq<Message>)
    requires |messages| > 0
    ensures Retitles(CreateNewChat(state, freshId, now).chats, freshId, messages)
  {
  }

  /**
   * `deleteChat` (lines 154-163): the state after the dispatch, and whether
   * the storage is cleared, which happens exactly when every chat had the id.
   */
  function DeleteChatEffect(state: ChatState, chatId: string): (r: (ChatState, bool))
    ensures r.0 == ChatReducer(state, DeleteChat(chatId))
    ensures r.1 <==> forall k :: 0 <= k < |state.chats| ==> state.chats[k].id == chatId
  {
    WithoutEmpty(state.chats, chatId);
    var kept := Without(state.chats, chatId);
    (ChatReducer(state, DeleteChat(chatId)), kept == [])
  }

  /** The first human message, if any. */
  function FirstHuman(msgs: seq<Message>): (r: Option<nat>)
    ensures r.None? <==> forall k :: 0 <= k < |msgs| ==> msgs[k].role != Human
    ensures r.Some? ==> r.value < |msgs| && msgs[r.value].role == Human
    ensures r.Some? ==> forall k :: 0 <= k < r.value ==> msgs[k].role != Human
  {
    if msgs == [] then None
    else if msgs[0].role == Human then Some(0)
    else
      var tail := FirstHuman(msgs[1..]);
      assert forall k :: 1 <= k < |msgs| ==> msgs[k] == msgs[1..][k - 1];
      if tail.Some? then Some(tail.value + 1) else None
  }

  /**
   * The title of a loaded thread (lines 106-110): "New Chat" with no
   * messages, otherwise the content of the first human message, undefined
   * when there is none.
   */
  function HistoryTitle(msgs: seq<Message>): (r: Option<Content>)
    ensures msgs == [] ==> r == Str("New Chat")
    ensures msgs != [] ==> (r.Some? <==> exists k :: 0 <= k < |msgs| && msgs[k].role == Human)
    ensures msgs != [] && r.Some? ==>
      exists k :: (0 <= k < |msgs| && msgs[k].role == Human && r.value == msgs[k].content
        && forall j :: 0 <= j < k ==> msgs[j].role != Human)
  {
    if msgs == [] then Str("New Chat")
    else
      var h := FirstHuman(msgs);
      if h.Some? then Some(msgs[h.value].content) else None
  }

  /** One conversation of the history as a chat (lines 104-118). */
  function HistoryChat(th: Thread): (r: ChatItem)
    ensures r.id == th.id && r.messages == th.messages
    ensures r.title == HistoryTitle(th.messages) && r.preview == r.title
    ensures r.timestamp == Unset && r.historicalActivities == None
  {
    ChatItem(th.id, HistoryTitle(th.messages), Unset, HistoryTitle(th.messages), th.messages, None)
  }

  /**
   * `loadUserHistory` (lines 99-128): loading is switched on, the fetched
   * and combined threads replace the chats when the fetch succeeds, and
   * loading is switched off in either case; `None` is a failed fetch.
   */
  function LoadUserHistory(state: ChatState, fetched: Option<seq<Thread>>): (r: ChatState)
    ensures !r.isLoading && r.error == state.error
    ensures fetched.None? ==> r.chats == state.chats
    ensures fetched.Some? ==> |r.chats| == |fetched.value|
    ensures fetched.Some? ==> forall k :: 0 <= k < |r.chats| ==>
      r.chats[k] == HistoryChat(TransformThreads(fetched.value)[k])
  {
    var on := ChatReducer(state, SetLoading(true));
    var loaded := if fetched.Some? then
        var threads := TransformThreads(fetched.value);
        ChatReducer(on, SetChats(seq(|threads|, k requires 0 <= k < |threads| => HistoryChat(threads[k]))))
      else on;
    ChatReducer(loaded, SetLoading(false))
  }

  /** A loaded chat shows no tool message: those were folded into the calls. */
  lemma HistoryWithoutTools(state: ChatState, threads: seq<Thread>, k: nat, q: nat)
    requires k < |threads|
    ensures var r := LoadUserHistory(state, Some(threads));
      q < |r.chats[k].messages| ==> r.chats[k].messages[q].role != Tool
  {
    CombinedShape(threads[k].messages);
    var c := Combined(threads[k].messages);
    if q < |c| {
      assert Shape(c[q]) == Shape(NonTool(threads[k].messages)[q]);
    }
  }

  /** The mount effect (lines 85-89): the stored chats are shown and loading ends. */
  function MountLoad(state: ChatState, stored: seq<ChatItem>): (r: ChatState)
    ensures r.chats == stored && !r.isLoading && r.error == state.error
  {
    ChatReducer(ChatReducer(state, SetChats(stored)), SetLoading(false))
  }
}
