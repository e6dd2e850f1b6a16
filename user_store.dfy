/** The per-user chat store: the same operations as the global store, but the
    snapshot lives under `soozai_user_data_<id>`, where the id is read from the
    logged-in user record on every call. Without a logged-in user nothing is
    ever written and every read yields a fresh, unsaved initial snapshot. */
module UserStore {
  import opened Base
  import opened ChatModel
  import opened Browser

  const KeyPrefix := "soozai_user_data_"

  function UserStorageKey(userId: Id): (k: string)
    ensures |k| == |KeyPrefix| + |userId| && k[..|KeyPrefix|] == KeyPrefix && k[|KeyPrefix|..] == userId
  {
    KeyPrefix + userId
  }

  /** Distinct users never share a storage key. */
  lemma UserStorageKeyInjective(a: Id, b: Id)
    ensures UserStorageKey(a) == UserStorageKey(b) <==> a == b
  {
    if UserStorageKey(a) == UserStorageKey(b) {
      assert a == UserStorageKey(a)[|KeyPrefix|..];
    }
  }

  /** getCurrentUserId followed by the callers' `if (!userId)` test: the id
      of the stored user when it is a non-empty string; a missing or
      unparsable record, a missing or null id and the empty id all read as
      "nobody is logged in". */
  function CurrentUserId(slot: Stored<UserObj>): (r: Option<Id>)
    ensures r.Some? <==> slot.Value? && exists id :: Get(slot.value, "id") == Some(Str(id)) && id != ""
    ensures r.Some? ==> r.value != "" && Get(slot.value, "id") == Some(Str(r.value))
  {
    if slot.Value? && "id" in slot.value && slot.value["id"].Str? && slot.value["id"].s != ""
    then Some(slot.value["id"].s)
    else None
  }

  /** The snapshot getAllData returns: the stored one, or a fresh initial
      snapshot stamped with `now` (and the user id, when there is one). */
  function Loaded(data: map<string, Stored<Snapshot>>, uid: Option<Id>, now: Time): (d: Snapshot)
    ensures uid.None? ==> d == InitialSnapshot(Some(Profile(None, now)))
    ensures uid.Some? && Lookup(data, UserStorageKey(uid.value)).Value? ==>
      d == Lookup(data, UserStorageKey(uid.value)).value
    ensures uid.Some? && !Lookup(data, UserStorageKey(uid.value)).Value? ==>
      d == InitialSnapshot(Some(Profile(uid, now)))
  {
    if uid.None? then InitialSnapshot(Some(Profile(None, now)))
    else
      var s := Lookup(data, UserStorageKey(uid.value));
      if s.Value? then s.value else InitialSnapshot(Some(Profile(uid, now)))
  }

  /** The per-user keys after saving `d`: only the logged-in user's key changes. */
  function Written(data: map<string, Stored<Snapshot>>, uid: Option<Id>, d: Snapshot)
    : (r: map<string, Stored<Snapshot>>)
    ensures uid.None? ==> r == data
    ensures uid.Some? ==> Lookup(r, UserStorageKey(uid.value)) == Value(d)
  {
    if uid.None? then data else data[UserStorageKey(uid.value) := Value(d)]
  }

  /** Saving for one user leaves every other user's data as it was. */
  lemma WrittenIsolatesUsers(data: map<string, Stored<Snapshot>>, u: Id, v: Id, d: Snapshot)
    requires u != v
    ensures Lookup(Written(data, Some(u), d), UserStorageKey(v)) == Lookup(data, UserStorageKey(v))
  {
    UserStorageKeyInjective(u, v);
  }

  /** What was saved for the logged-in user is what the next read returns. */
  lemma LoadedAfterWritten(data: map<string, Stored<Snapshot>>, u: Id, d: Snapshot, now: Time)
    ensures Loaded(Written(data, Some(u), d), Some(u), now) == d
  {
  }

  /** A read that finds a stored snapshot and writes it back changes nothing. */
  lemma WrittenLoadedIsIdentity(data: map<string, Stored<Snapshot>>, u: Id, now: Time)
    requires Lookup(data, UserStorageKey(u)).Value?
    ensures Written(data, Some(u), Loaded(data, Some(u), now)) == data
  {
    var k := UserStorageKey(u);
    assert data[k := data[k]] == data;
  }

  /** The per-user keys after getAllData: a missing or unparsable snapshot of
      a logged-in user is replaced by the initial one. */
  function AfterRead(data: map<string, Stored<Snapshot>>, uid: Option<Id>, now: Time)
    : (r: map<string, Stored<Snapshot>>)
    ensures uid.None? ==> r == data
    ensures uid.Some? ==> Lookup(r, UserStorageKey(uid.value)) == Value(Loaded(data, uid, now))
    ensures forall k :: k in data && (uid.None? || k != UserStorageKey(uid.value)) ==> k in r && r[k] == data[k]
  {
    if uid.Some? && !Lookup(data, UserStorageKey(uid.value)).Value?
    then Written(data, uid, Loaded(data, uid, now))
    else data
  }

  /** A read persists at most the snapshot it returns, and only for the logged-in user. */
  lemma AfterReadIsWritten(data: map<string, Stored<Snapshot>>, uid: Option<Id>, now: Time)
    ensures AfterRead(data, uid, now) == Written(data, uid, Loaded(data, uid, now))
  {
    if uid.Some? && Lookup(data, UserStorageKey(uid.value)).Value? {
      WrittenLoadedIsIdentity(data, uid.value, now);
    }
  }

  method InitializeStorage(ls: Storage, userId: Option<Id>, now: Time) returns (d: Snapshot)
    modifies ls`userData
    ensures d == InitialSnapshot(Some(Profile(userId, now))) && d.chats == []
    ensures ls.userData == (if IsSet(userId) then Written(old(ls.userData), userId, d) else old(ls.userData))
  {
    d := InitialSnapshot(Some(Profile(userId, now)));
    if IsSet(userId) {
      ls.userData := ls.userData[UserStorageKey(userId.value) := Value(d)];
    }
  }

  method GetAllData(ls: Storage, now: Time) returns (d: Snapshot)
    modifies ls`userData
    ensures var uid := CurrentUserId(ls.currentUser);
      d == Loaded(old(ls.userData), uid, now) && ls.userData == AfterRead(old(ls.userData), uid, now)
  {
    var uid := CurrentUserId(ls.currentUser);
    if uid.None? {
      d := InitializeStorage(ls, None, now);
      return;
    }
    var key := UserStorageKey(uid.value);
    var s := Lookup(ls.userData, key);
    if s.Value? {
      d := s.value;
    } else {
      d := InitializeStorage(ls, uid, now);
    }
  }

  /** Fails, writing nothing, when nobody is logged in. */
  method SaveAllData(ls: Storage, d: Snapshot) returns (ok: bool)
    modifies ls`userData
    ensures var uid := CurrentUserId(ls.currentUser);
      ok == uid.Some? && ls.userData == Written(old(ls.userData), uid, d)
  {
    var uid := CurrentUserId(ls.currentUser);
    if uid.None? {
      return false;
    }
    ls.userData := ls.userData[UserStorageKey(uid.value) := Value(d)];
    return true;
  }

  /** The part of a backup file that importUserDataFromFile uses. */
  datatype BackupData = BackupData(chats: Option<seq<Chat>>, settings: Option<Settings>)

  /** A parsed backup: its `data` object (absent or null is `None`) and
      whether its `user` field is truthy. */
  datatype Backup = Backup(data: Option<BackupData>, hasUser: bool)

  /** The merged snapshot of an import: existing chats first, imported ones
      after them, imported settings overriding existing ones key by key. */
  function Merged(d: Snapshot, b: BackupData): (r: Snapshot)
    requires b.chats.Some?
    ensures |r.chats| == |d.chats| + |b.chats.value|
    ensures r.chats[..|d.chats|] == d.chats && r.chats[|d.chats|..] == b.chats.value
    ensures r.settings.Keys == d.settings.Keys + (if b.settings.Some? then b.settings.value.Keys else {})
    ensures forall key :: key in r.settings ==>
      r.settings[key] == if b.settings.Some? && key in b.settings.value then b.settings.value[key] else d.settings[key]
    ensures r.currentChatId == d.currentChatId && r.profile == d.profile
  {
    var extra := if b.settings.Some? then b.settings.value else map[];
    var r := d.(chats := d.chats + b.chats.value, settings := d.settings + extra);
    assert r.chats[..|d.chats|] == d.chats;
    r
  }

  /** Chats are appended without comparing ids, so importing a backup of the
      current chats duplicates every id. */
  lemma MergedDuplicatesIds(d: Snapshot)
    requires |d.chats| > 0
    ensures !UniqueChatIds(Merged(d, BackupData(Some(d.chats), None)).chats)
  {
    var r := Merged(d, BackupData(Some(d.chats), None));
    assert r.chats[0] == d.chats[0] && r.chats[|d.chats|] == d.chats[0];
  }

  /** importUserDataFromFile. `file` is the parsed file content (`None` when
      it does not parse). A backup without chats passes the format check but
      fails at the merge, after getAllData has run. */
  method ImportUserDataFromFile(ls: Storage, file: Option<Backup>, now: Time) returns (ok: bool)
    modifies ls`userData
    ensures var uid := CurrentUserId(ls.currentUser);
      if file.None? || file.value.data.None? || !file.value.hasUser || uid.None? then
        !ok && ls.userData == old(ls.userData)
      else if file.value.data.value.chats.None? then
        !ok && ls.userData == AfterRead(old(ls.userData), uid, now)
      else
        ok && ls.userData == Written(old(ls.userData), uid, Merged(Loaded(old(ls.userData), uid, now), file.value.data.value))
  {
    if file.None? || file.value.data.None? || !file.value.hasUser {
      return false;
    }
    var uid := CurrentUserId(ls.currentUser);
    if uid.None? {
      return false;
    }
    var current := GetAllData(ls, now);
    var b := file.value.data.value;
    if b.chats.None? {
      return false;
    }
    var merged := Merged(current, b);
    var _ := SaveAllData(ls, merged);
    ok := true;
  }

  method GetAllChats(ls: Storage, now: Time) returns (chats: seq<Chat>)
    modifies ls`userData
    ensures var uid := CurrentUserId(ls.currentUser);
      chats == Loaded(old(ls.userData), uid, now).chats && ls.userData == AfterRead(old(ls.userData), uid, now)
  {
    var d := GetAllData(ls, now);
    chats := d.chats;
  }

  method GetChatById(ls: Storage, chatId: Id, now: Time) returns (chat: Option<Chat>)
    modifies ls`userData
    ensures var uid := CurrentUserId(ls.currentUser);
      chat == FindChat(Loaded(old(ls.userData), uid, now).chats, chatId)
      && ls.userData == AfterRead(old(ls.userData), uid, now)
  {
    var d := GetAllData(ls, now);
    chat := FindChat(d.chats, chatId);
  }

  /** The new chat is returned even when nobody is logged in and nothing is saved. */
  method CreateNewChat(ls: Storage, title: Option<string>, toolId: Option<string>, model: Option<string>, stamp: Stamp)
    returns (chat: Chat)
    modifies ls`userData
    ensures chat == NewChat(stamp, title, toolId, model)
    ensures var uid := CurrentUserId(ls.currentUser);
      ls.userData == Written(old(ls.userData), uid, WithNewChat(Loaded(old(ls.userData), uid, stamp.at), chat))
  {
    var d := GetAllData(ls, stamp.at);
    chat := NewChat(stamp, title, toolId, model);
    d := WithNewChat(d, chat);
    var _ := SaveAllData(ls, d);
  }

  method UpdateChatTitle(ls: Storage, chatId: Id, title: string, now: Time) returns (ok: bool)
    modifies ls`userData
    ensures var uid := CurrentUserId(ls.currentUser);
      var d := Loaded(old(ls.userData), uid, now); var i := ChatIndex(d.chats, chatId);
      ok == (i != -1)
      && ls.userData == (if ok then Written(old(ls.userData), uid, WithTitle(d, i, title, now))
                         else AfterRead(old(ls.userData), uid, now))
  {
    var d := GetAllData(ls, now);
    var i := ChatIndex(d.chats, chatId);
    if i == -1 {
      return false;
    }
    d := WithTitle(d, i, title, now);
    var _ := SaveAllData(ls, d);
    return true;
  }

  method AddMessageToChat(ls: Storage, chatId: Id, role: Role, content: string, stamp: Stamp)
    returns (message: Option<Message>)
    modifies ls`userData
    ensures var uid := CurrentUserId(ls.currentUser);
      var d := Loaded(old(ls.userData), uid, stamp.at); var i := ChatIndex(d.chats, chatId);
      if i == -1 then message == None && ls.userData == AfterRead(old(ls.userData), uid, stamp.at)
      else (message == Some(NewMessage(stamp, role, content))
        && ls.userData == Written(old(ls.userData), uid, WithMessage(d, i, message.value, stamp.at)))
  {
    var d := GetAllData(ls, stamp.at);
    var i := ChatIndex(d.chats, chatId);
    if i == -1 {
      return None;
    }
    var m := NewMessage(stamp, role, content);
    d := WithMessage(d, i, m, stamp.at);
    var _ := SaveAllData(ls, d);
    return Some(m);
  }

  method DeleteChat(ls: Storage, chatId: Id, now: Time) returns (ok: bool)
    modifies ls`userData
    ensures var uid := CurrentUserId(ls.currentUser);
      ok && ls.userData == Written(old(ls.userData), uid, WithoutChat(Loaded(old(ls.userData), uid, now), chatId))
  {
    var d := GetAllData(ls, now);
    d := WithoutChat(d, chatId);
    var _ := SaveAllData(ls, d);
    ok := true;
  }

  method SetCurrentChat(ls: Storage, chatId: Id, now: Time) returns (ok: bool)
    modifies ls`userData
    ensures var uid := CurrentUserId(ls.currentUser);
      ok && ls.userData == Written(old(ls.userData), uid,
        Loaded(old(ls.userData), uid, now).(currentChatId := Some(chatId)))
  {
    var d := GetAllData(ls, now);
    d := d.(currentChatId := Some(chatId));
    var _ := SaveAllData(ls, d);
    ok := true;
  }

  method GetCurrentChatId(ls: Storage, now: Time) returns (id: Option<Id>)
    modifies ls`userData
    ensures var uid := CurrentUserId(ls.currentUser);
      id == Loaded(old(ls.userData), uid, now).currentChatId
      && ls.userData == AfterRead(old(ls.userData), uid, now)
  {
    var d := GetAllData(ls, now);
    id := d.currentChatId;
  }

  method GetCurrentChat(ls: Storage, now: Time) returns (chat: Option<Chat>)
    modifies ls`userData
    ensures var uid := CurrentUserId(ls.currentUser); var d := Loaded(old(ls.userData), uid, now);
      chat == (if IsSet(d.currentChatId) then FindChat(d.chats, d.currentChatId.value) else None)
      && ls.userData == AfterRead(old(ls.userData), uid, now)
  {
    var d := GetAllData(ls, now);
    if !IsSet(d.currentChatId) {
      return None;
    }
    chat := FindChat(d.chats, d.currentChatId.value);
  }

  method ClearAllChats(ls: Storage, now: Time) returns (ok: bool)
    modifies ls`userData
    ensures var uid := CurrentUserId(ls.currentUser);
      ok && ls.userData == Written(old(ls.userData), uid,
        Loaded(old(ls.userData), uid, now).(chats := [], currentChatId := None))
  {
    var d := GetAllData(ls, now);
    d := d.(chats := [], currentChatId := None);
    var _ := SaveAllData(ls, d);
    ok := true;
  }

  method UpdateMessageInChat(ls: Storage, chatId: Id, messageId: Id, content: string, now: Time)
    returns (ok: bool)
    modifies ls`userData
    ensures var uid := CurrentUserId(ls.currentUser);
      var d := Loaded(old(ls.userData), uid, now); var i := ChatIndex(d.chats, chatId);
      var j := if i == -1 then -1 else MessageIndex(d.chats[i].messages, messageId);
      ok == (j != -1)
      && ls.userData == (if ok then Written(old(ls.userData), uid, WithEditedMessage(d, i, j, content, now))
                         else AfterRead(old(ls.userData), uid, now))
  {
    var d := GetAllData(ls, now);
    var i := ChatIndex(d.chats, chatId);
    if i == -1 {
      return false;
    }
    var j := MessageIndex(d.chats[i].messages, messageId);
    if j == -1 {
      return false;
    }
    d := WithEditedMessage(d, i, j, content, now);
    var _ := SaveAllData(ls, d);
    ok := true;
  }

  method UpdateMessageAndTrimChat(ls: Storage, chatId: Id, messageId: Id, content: string, now: Time)
    returns (message: Option<Message>)
    modifies ls`userData
    ensures var uid := CurrentUserId(ls.currentUser);
      var d := Loaded(old(ls.userData), uid, now); var i := ChatIndex(d.chats, chatId);
      var j := if i == -1 then -1 else MessageIndex(d.chats[i].messages, messageId);
      if j == -1 then message == None && ls.userData == AfterRead(old(ls.userData), uid, now)
      else (message == Some(Edited(d.chats[i].messages[j], content))
        && ls.userData == Written(old(ls.userData), uid, WithTrimmedAt(d, i, j, content, now)))
  {
    var d := GetAllData(ls, now);
    var i := ChatIndex(d.chats, chatId);
    if i == -1 {
      return None;
    }
    var j := MessageIndex(d.chats[i].messages, messageId);
    if j == -1 {
      return None;
    }
    d := WithTrimmedAt(d, i, j, content, now);
    var _ := SaveAllData(ls, d);
    message := Some(d.chats[i].messages[j]);
  }
}
