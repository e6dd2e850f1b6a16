/** The persisted chat data: messages, chats and the snapshot
    `{chats, currentChatId, settings}` that both stores read and write whole,
    with the snapshot transformations their operations apply. */
module ChatModel {
  import opened Base

  type Id = string

  /** A timestamp as produced by `new Date().toISOString()`; the model never
      compares timestamps, so they stay opaque. */
  type Time = string

  /** What the id generator and the clock return for one created object. */
  datatype Stamp = Stamp(id: Id, at: Time)

  datatype Role = User | Assistant

  /** `edited` stands for the optional `edited` flag: absent is `false`. */
  datatype Message = Message(id: Id, role: Role, content: string, timestamp: Time, edited: bool)

  datatype Chat = Chat(
    id: Id,
    title: Option<string>,
    createdAt: Time,
    updatedAt: Time,
    messages: seq<Message>,
    toolId: Option<string>,
    model: Option<string>)

  datatype Setting = Text(text: string) | Flag(flag: bool)

  type Settings = map<string, Setting>

  /** The per-user store's extra fields `userId` and `profile.lastActive`;
      the global store's snapshot has neither. The empty `profile.preferences`
      object written beside them is never read, and is not modelled. */
  datatype Profile = Profile(userId: Option<Id>, lastActive: Time)

  datatype Snapshot = Snapshot(
    chats: seq<Chat>,
    currentChatId: Option<Id>,
    settings: Settings,
    profile: Option<Profile>)

  function DefaultSettings(): Settings {
    map["theme" := Text("dark"), "streamingEnabled" := Flag(true)]
  }

  function InitialSnapshot(profile: Option<Profile>): Snapshot {
    Snapshot([], None, DefaultSettings(), profile)
  }

  /** JavaScript truthiness of an optional id: `null` and `""` are false. */
  predicate IsSet(id: Option<Id>) {
    id.Some? && id.value != ""
  }

  /** `chats.findIndex(chat => chat.id === id)`. */
  function ChatIndex(chats: seq<Chat>, id: Id): (r: int)
    ensures -1 <= r < |chats|
    ensures r == -1 <==> forall k :: 0 <= k < |chats| ==> chats[k].id != id
    ensures r >= 0 ==> chats[r].id == id && forall k :: 0 <= k < r ==> chats[k].id != id
  {
    FindIndex(chats, (c: Chat) => c.id == id)
  }

  /** `chats.find(chat => chat.id === id) || null`. */
  function FindChat(chats: seq<Chat>, id: Id): (r: Option<Chat>)
    ensures r.None? <==> ChatIndex(chats, id) == -1
    ensures r.Some? ==> r.value == chats[ChatIndex(chats, id)]
  {
    var i := ChatIndex(chats, id);
    if i == -1 then None else Some(chats[i])
  }

  /** `messages.findIndex(m => m.id === id)`. */
  function MessageIndex(messages: seq<Message>, id: Id): (r: int)
    ensures -1 <= r < |messages|
    ensures r == -1 <==> forall k :: 0 <= k < |messages| ==> messages[k].id != id
    ensures r >= 0 ==> messages[r].id == id && forall k :: 0 <= k < r ==> messages[k].id != id
  {
    FindIndex(messages, (m: Message) => m.id == id)
  }

  function NewChat(stamp: Stamp, title: Option<string>, toolId: Option<string>, model: Option<string>): Chat {
    Chat(stamp.id, title, stamp.at, stamp.at, [], toolId, model)
  }

  function NewMessage(stamp: Stamp, role: Role, content: string): Message {
    Message(stamp.id, role, content, stamp.at, false)
  }

  /** Two chats agree on everything but their messages and `updatedAt`. */
  predicate SameHeader(a: Chat, b: Chat) {
    a.id == b.id && a.title == b.title && a.createdAt == b.createdAt
    && a.toolId == b.toolId && a.model == b.model
  }

  /** `r` differs from `d` at most in the chat at index `i`. */
  predicate OnlyChatChanged(d: Snapshot, r: Snapshot, i: int) {
    |r.chats| == |d.chats|
    && (forall k :: 0 <= k < |d.chats| && k != i ==> r.chats[k] == d.chats[k])
    && r.currentChatId == d.currentChatId
    && r.settings == d.settings
    && r.profile == d.profile
  }

  /** The current chat id is absent or names a chat in the snapshot. */
  predicate CurrentIdValid(d: Snapshot) {
    d.currentChatId.None? || ChatIndex(d.chats, d.currentChatId.value) >= 0
  }

  /** No two chats share an id. */
  predicate UniqueChatIds(chats: seq<Chat>) {
    forall j, k :: 0 <= j < k < |chats| ==> chats[j].id != chats[k].id
  }

  /** createNewChat: the new chat goes to the front and becomes current. */
  function WithNewChat(d: Snapshot, c: Chat): (r: Snapshot)
    ensures |r.chats| == |d.chats| + 1 && r.chats[0] == c && r.chats[1..] == d.chats
    ensures r.currentChatId == Some(c.id) && ChatIndex(r.chats, c.id) == 0
    ensures r.settings == d.settings && r.profile == d.profile
    ensures CurrentIdValid(r)
  {
    var r := d.(chats := [c] + d.chats, currentChatId := Some(c.id));
    assert r.chats[1..] == d.chats;
    r
  }

  /** updateChatTitle on the chat at index `i`. */
  function WithTitle(d: Snapshot, i: int, title: string, now: Time): (r: Snapshot)
    requires 0 <= i < |d.chats|
    ensures OnlyChatChanged(d, r, i)
    ensures r.chats[i].title == Some(title) && r.chats[i].updatedAt == now
    ensures r.chats[i].id == d.chats[i].id && r.chats[i].messages == d.chats[i].messages
    ensures r.chats[i].createdAt == d.chats[i].createdAt
    ensures r.chats[i].toolId == d.chats[i].toolId && r.chats[i].model == d.chats[i].model
  {
    d.(chats := d.chats[i := d.chats[i].(title := Some(title), updatedAt := now)])
  }

  /** addMessageToChat on the chat at index `i`: `m` goes to the end. */
  function WithMessage(d: Snapshot, i: int, m: Message, now: Time): (r: Snapshot)
    requires 0 <= i < |d.chats|
    ensures OnlyChatChanged(d, r, i)
    ensures SameHeader(r.chats[i], d.chats[i]) && r.chats[i].updatedAt == now
    ensures |r.chats[i].messages| == |d.chats[i].messages| + 1
    ensures r.chats[i].messages[..|d.chats[i].messages|] == d.chats[i].messages
    ensures r.chats[i].messages[|d.chats[i].messages|] == m
  {
    var c := d.chats[i];
    var r := d.(chats := d.chats[i := c.(messages := c.messages + [m], updatedAt := now)]);
    assert r.chats[i].messages[..|c.messages|] == c.messages;
    r
  }

  /** The message after an edit: new content, flagged as edited. */
  function Edited(m: Message, content: string): Message {
    m.(content := content, edited := true)
  }

  /** updateMessageInChat on message `j` of chat `i`: nothing is removed. */
  function WithEditedMessage(d: Snapshot, i: int, j: int, content: string, now: Time): (r: Snapshot)
    requires 0 <= i < |d.chats| && 0 <= j < |d.chats[i].messages|
    ensures OnlyChatChanged(d, r, i)
    ensures SameHeader(r.chats[i], d.chats[i]) && r.chats[i].updatedAt == now
    ensures |r.chats[i].messages| == |d.chats[i].messages|
    ensures forall k :: 0 <= k < |d.chats[i].messages| && k != j ==>
      r.chats[i].messages[k] == d.chats[i].messages[k]
    ensures r.chats[i].messages[j] == Edited(d.chats[i].messages[j], content)
  {
    var c := d.chats[i];
    d.(chats := d.chats[i := c.(messages := c.messages[j := Edited(c.messages[j], content)], updatedAt := now)])
  }

  /** updateMessageAndTrimChat on message `j` of chat `i`: the edited message
      becomes the last one; everything before it is untouched. */
  function WithTrimmedAt(d: Snapshot, i: int, j: int, content: string, now: Time): (r: Snapshot)
    requires 0 <= i < |d.chats| && 0 <= j < |d.chats[i].messages|
    ensures OnlyChatChanged(d, r, i)
    ensures SameHeader(r.chats[i], d.chats[i]) && r.chats[i].updatedAt == now
    ensures |r.chats[i].messages| == j + 1
    ensures r.chats[i].messages[..j] == d.chats[i].messages[..j]
    ensures r.chats[i].messages[j] == Edited(d.chats[i].messages[j], content)
  {
    var c := d.chats[i];
    var edited := c.messages[j := Edited(c.messages[j], content)];
    var r := d.(chats := d.chats[i := c.(messages := edited[..j + 1], updatedAt := now)]);
    assert r.chats[i].messages[..j] == c.messages[..j];
    r
  }

  /** deleteChat: drop every chat with the id; repoint `currentChatId` to the
      first remaining chat (or none) only when it named the deleted id. */
  function WithoutChat(d: Snapshot, id: Id): (r: Snapshot)
    ensures |r.chats| <= |d.chats|
    ensures ChatIndex(r.chats, id) == -1
    ensures d.currentChatId == Some(id) ==>
      r.currentChatId == (if r.chats == [] then None else Some(r.chats[0].id))
    ensures d.currentChatId != Some(id) ==> r.currentChatId == d.currentChatId
    ensures r.settings == d.settings && r.profile == d.profile
  {
    var kept := Filter(d.chats, Keeps(id));
    var current :=
      if d.currentChatId == Some(id) then (if |kept| > 0 then Some(kept[0].id) else None)
      else d.currentChatId;
    d.(chats := kept, currentChatId := current)
  }

  /** Lookups by id see the same index in two chat lists whose ids agree pointwise. */
  lemma SameIdsSameIndex(a: seq<Chat>, b: seq<Chat>, id: Id)
    requires |a| == |b| && forall k :: 0 <= k < |a| ==> a[k].id == b[k].id
    ensures ChatIndex(a, id) == ChatIndex(b, id)
  {
  }

  /** Changing one chat but not its id keeps every lookup by id where it was. */
  lemma OnlyChatChangedKeepsIndex(d: Snapshot, r: Snapshot, i: int, id: Id)
    requires 0 <= i < |d.chats| && OnlyChatChanged(d, r, i) && r.chats[i].id == d.chats[i].id
    ensures ChatIndex(r.chats, id) == ChatIndex(d.chats, id)
    ensures CurrentIdValid(d) ==> CurrentIdValid(r)
  {
    SameIdsSameIndex(d.chats, r.chats, id);
    if d.currentChatId.Some? {
      SameIdsSameIndex(d.chats, r.chats, d.currentChatId.value);
    }
  }

  /** The filter predicate of deleteChat: `chat => chat.id !== id`. */
  function Keeps(id: Id): Chat -> bool {
    (c: Chat) => c.id != id
  }

  /** deleteChat keeps exactly the chats whose id differs. */
  lemma WithoutChatMember(d: Snapshot, id: Id, c: Chat)
    ensures c in WithoutChat(d, id).chats <==> c in d.chats && c.id != id
  {
    FilterMember(d.chats, Keeps(id), c);
  }

  /** Deleting a chat never leaves the current id dangling. */
  lemma WithoutChatKeepsCurrentValid(d: Snapshot, id: Id)
    requires CurrentIdValid(d)
    ensures CurrentIdValid(WithoutChat(d, id))
  {
    var r := WithoutChat(d, id);
    if d.currentChatId.Some? && d.currentChatId.value != id {
      var k := ChatIndex(d.chats, d.currentChatId.value);
      WithoutChatMember(d, id, d.chats[k]);
      assert d.chats[k] in r.chats;
      var m :| 0 <= m < |r.chats| && r.chats[m] == d.chats[k];
      assert r.chats[m].id == d.currentChatId.value;
    }
  }

  /** With unique ids, deleting the chat at position |a| leaves exactly the
      chats before it followed by the chats after it. */
  lemma WithoutUniqueChat(a: seq<Chat>, c: Chat, b: seq<Chat>, current: Option<Id>, settings: Settings, profile: Option<Profile>)
    requires UniqueChatIds(a + [c] + b)
    ensures WithoutChat(Snapshot(a + [c] + b, current, settings, profile), c.id).chats == a + b
  {
    var s := a + [c] + b;
    forall k | 0 <= k < |a| ensures a[k].id != c.id {
      assert s[k] == a[k] && s[|a|] == c;
    }
    forall k | 0 <= k < |b| ensures b[k].id != c.id {
      assert s[|a| + 1 + k] == b[k] && s[|a|] == c;
    }
    FilterDropsOne(a, c, b, Keeps(c.id));
  }

  /** A chat created with a fresh id keeps the ids unique. */
  lemma WithNewChatKeepsUnique(d: Snapshot, c: Chat)
    requires UniqueChatIds(d.chats) && ChatIndex(d.chats, c.id) == -1
    ensures UniqueChatIds(WithNewChat(d, c).chats)
  {
    var r := WithNewChat(d, c).chats;
    forall j, k | 0 <= j < k < |r| ensures r[j].id != r[k].id {
      assert r[k] == d.chats[k - 1];
      if j > 0 {
        assert r[j] == d.chats[j - 1];
      }
    }
  }
}
