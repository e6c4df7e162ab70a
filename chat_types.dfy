/**
 * The chat-list records of types/chat.ts: a chat as the sidebar and the
 * chat page see it, and the state the chat context keeps.
 */
module ChatTypes {
  import opened Wrappers
  import opened Messages

  /**
   * A chat's `timestamp?: Date`: absent, a time in milliseconds, or an
   * invalid date (what `new Date(undefined)` yields).
   */
  datatype Stamp = Unset | At(ms: int) | Invalid

  /** `historicalActivities`: message id to the activity entries shown for it, kept opaque. */
  type Activities = map<string, seq<Json>>

  /**
   * `ChatItem`. The title and preview are typed as strings but can hold
   * whatever content a message carried, or be undefined (`None`), since
   * the code fills them from message contents with a cast.
   */
  datatype ChatItem = ChatItem(
    id: string,
    title: Option<Content>,
    timestamp: Stamp,
    preview: Option<Content>,
    messages: seq<Message>,
    historicalActivities: Option<Activities>)

  /** `ChatState`. */
  datatype ChatState = ChatState(chats: seq<ChatItem>, isLoading: bool, error: Option<string>)

  /** JavaScript truthiness of a title: defined and not the empty string. */
  predicate Truthy(c: Option<Content>)
  {
    c.Some? && (c.value.Text? ==> c.value.text != "")
  }

  /** A title or preview holding a string. */
  function Str(s: string): Option<Content>
  {
    Some(Text(s))
  }

  /** Whether some chat of the list has the id. */
  predicate HasId(chats: seq<ChatItem>, id: string)
  {
    exists k :: 0 <= k < |chats| && chats[k].id == id
  }

  /** `chats.find(c => c.id === id)`: the first chat with the id, if any. */
  function FindChat(chats: seq<ChatItem>, id: string): (r: Option<ChatItem>)
    ensures r.None? <==> !HasId(chats, id)
    ensures r.Some? ==> r.value.id == id
    ensures r.Some? ==> exists k :: 0 <= k < |chats| && chats[k] == r.value && NoIdBefore(chats, id, k)
  {
    if chats == [] then None
    else if chats[0].id == id then Some(chats[0])
    else
      assert HasId(chats, id) <==> HasId(chats[1..], id) by {
        if HasId(chats, id) {
          var k :| 0 <= k < |chats| && chats[k].id == id;
          assert chats[1..][k - 1] == chats[k];
        }
        if HasId(chats[1..], id) {
          var k :| 0 <= k < |chats[1..]| && chats[1..][k].id == id;
          assert chats[k + 1] == chats[1..][k];
        }
      }
      var r := FindChat(chats[1..], id);
      assert r.Some? ==> exists k :: 0 <= k < |chats| && chats[k] == r.value && NoIdBefore(chats, id, k) by {
        if r.Some? {
          var k :| 0 <= k < |chats[1..]| && chats[1..][k] == r.value && NoIdBefore(chats[1..], id, k);
          assert chats[k + 1] == chats[1..][k];
          forall j | 0 <= j < k + 1 ensures chats[j].id != id {
            if j > 0 {
              assert chats[j] == chats[1..][j - 1];
            }
          }
        }
      }
      r
  }

  /** No chat ahead of position `k` carries the id. */
  predicate NoIdBefore(chats: seq<ChatItem>, id: string, k: nat)
    requires k <= |chats|
  {
    forall j :: 0 <= j < k ==> chats[j].id != id
  }
}
