/** The global chat store kept under the key `soozai_chat_data`. Every
    operation reads the whole snapshot, changes its private copy and writes
    the whole snapshot back. A missing or unparsable stored value reads as
    the initial snapshot, which is then persisted. */
module ChatStore {
  import opened Base
  import opened ChatModel
  import opened Browser

  /** The snapshot `getAllData` returns for a stored value. */
  function Loaded(s: Stored<Snapshot>): Snapshot {
    if s.Value? then s.value else InitialSnapshot(None)
  }

  method InitializeStorage(ls: Storage) returns (d: Snapshot)
    modifies ls`chatData
    ensures d == InitialSnapshot(None) && d.chats == [] && d.currentChatId == None
    ensures ls.chatData == Value(d)
  {
    d := InitialSnapshot(None);
    ls.chatData := Value(d);
  }

  /** Reading persists the initial snapshot when nothing (or garbage) is stored;
      a stored snapshot is returned unchanged. */
  method GetAllData(ls: Storage) returns (d: Snapshot)
    modifies ls`chatData
    ensures d == Loaded(old(ls.chatData)) && ls.chatData == Value(d)
    ensures old(ls.chatData).Value? ==> ls.chatData == old(ls.chatData)
  {
    if ls.chatData.Value? {
      d := ls.chatData.value;
    } else {
      d := InitializeStorage(ls);
    }
  }

  /** Writing never fails in the model, so a later read returns `d`. */
  method SaveAllData(ls: Storage, d: Snapshot) returns (ok: bool)
    modifies ls`chatData
    ensures ok && ls.chatData == Value(d) && Loaded(ls.chatData) == d
  {
    ls.chatData := Value(d);
    ok := true;
  }

  method GetAllChats(ls: Storage) returns (chats: seq<Chat>)
    modifies ls`chatData
    ensures chats == Loaded(old(ls.chatData)).chats
    ensures ls.chatData == Value(Loaded(old(ls.chatData)))
  {
    var d := GetAllData(ls);
    chats := d.chats;
  }

  method GetChatById(ls: Storage, chatId: Id) returns (chat: Option<Chat>)
    modifies ls`chatData
    ensures chat == FindChat(Loaded(old(ls.chatData)).chats, chatId)
    ensures ls.chatData == Value(Loaded(old(ls.chatData)))
  {
    var d := GetAllData(ls);
    chat := FindChat(d.chats, chatId);
  }

  method CreateNewChat(ls: Storage, title: Option<string>, toolId: Option<string>, model: Option<string>, stamp: Stamp)
    returns (chat: Chat)
    modifies ls`chatData
    ensures chat == NewChat(stamp, title, toolId, model) && chat.messages == []
    ensures ls.chatData == Value(WithNewChat(Loaded(old(ls.chatData)), chat))
  {
    var d := GetAllData(ls);
    chat := NewChat(stamp, title, toolId, model);
    d := WithNewChat(d, chat);
    var _ := SaveAllData(ls, d);
  }

  method UpdateChatTitle(ls: Storage, chatId: Id, title: string, now: Time) returns (ok: bool)
    modifies ls`chatData
    ensures var d := Loaded(old(ls.chatData)); var i := ChatIndex(d.chats, chatId);
      ok == (i != -1) && ls.chatData == Value(if ok then WithTitle(d, i, title, now) else d)
  {
    var d := GetAllData(ls);
    var i := ChatIndex(d.chats, chatId);
    if i != -1 {
      d := WithTitle(d, i, title, now);
      var _ := SaveAllData(ls, d);
      return true;
    }
    return false;
  }

  method AddMessageToChat(ls: Storage, chatId: Id, role: Role, content: string, stamp: Stamp)
    returns (message: Option<Message>)
    modifies ls`chatData
    ensures var d := Loaded(old(ls.chatData)); var i := ChatIndex(d.chats, chatId);
      if i == -1 then message == None && ls.chatData == Value(d)
      else (message == Some(NewMessage(stamp, role, content))
        && ls.chatData == Value(WithMessage(d, i, message.value, stamp.at)))
  {
    var d := GetAllData(ls);
    var i := ChatIndex(d.chats, chatId);
    if i != -1 {
      var m := NewMessage(stamp, role, content);
      d := WithMessage(d, i, m, stamp.at);
      var _ := SaveAllData(ls, d);
      return Some(m);
    }
    return None;
  }

  method DeleteChat(ls: Storage, chatId: Id) returns (ok: bool)
    modifies ls`chatData
    ensures ok && ls.chatData == Value(WithoutChat(Loaded(old(ls.chatData)), chatId))
  {
    var d := GetAllData(ls);
    d := WithoutChat(d, chatId);
    ok := SaveAllData(ls, d);
  }

  /** The current id is written as given; the store does not check that the chat exists. */
  method SetCurrentChat(ls: Storage, chatId: Id) returns (ok: bool)
    modifies ls`chatData
    ensures ok && ls.chatData == Value(Loaded(old(ls.chatData)).(currentChatId := Some(chatId)))
  {
    var d := GetAllData(ls);
    d := d.(currentChatId := Some(chatId));
    ok := SaveAllData(ls, d);
  }

  method GetCurrentChatId(ls: Storage) returns (id: Option<Id>)
    modifies ls`chatData
    ensures id == Loaded(old(ls.chatData)).currentChatId
    ensures ls.chatData == Value(Loaded(old(ls.chatData)))
  {
    var d := GetAllData(ls);
    id := d.currentChatId;
  }

  method GetCurrentChat(ls: Storage) returns (chat: Option<Chat>)
    modifies ls`chatData
    ensures var d := Loaded(old(ls.chatData));
      chat == if IsSet(d.currentChatId) then FindChat(d.chats, d.currentChatId.value) else None
    ensures ls.chatData == Value(Loaded(old(ls.chatData)))
  {
    var d := GetAllData(ls);
    if !IsSet(d.currentChatId) {
      return None;
    }
    chat := FindChat(d.chats, d.currentChatId.value);
  }

  method ClearAllChats(ls: Storage) returns (ok: bool)
    modifies ls`chatData
    ensures var d := Loaded(old(ls.chatData));
      ok && ls.chatData == Value(d.(chats := [], currentChatId := None))
  {
    var d := GetAllData(ls);
    d := d.(chats := [], currentChatId := None);
    ok := SaveAllData(ls, d);
  }

  method UpdateMessageInChat(ls: Storage, chatId: Id, messageId: Id, content: string, now: Time)
    returns (ok: bool)
    modifies ls`chatData
    ensures var d := Loaded(old(ls.chatData)); var i := ChatIndex(d.chats, chatId);
      var j := if i == -1 then -1 else MessageIndex(d.chats[i].messages, messageId);
      ok == (j != -1)
      && ls.chatData == Value(if ok then WithEditedMessage(d, i, j, content, now) else d)
  {
    var d := GetAllData(ls);
    var i := ChatIndex(d.chats, chatId);
    if i == -1 {
      return false;
    }
    var j := MessageIndex(d.chats[i].messages, messageId);
    if j == -1 {
      return false;
    }
    d := WithEditedMessage(d, i, j, content, now);
    ok := SaveAllData(ls, d);
  }

  method UpdateMessageAndTrimChat(ls: Storage, chatId: Id, messageId: Id, content: string, now: Time)
    returns (message: Option<Message>)
    modifies ls`chatData
    ensures var d := Loaded(old(ls.chatData)); var i := ChatIndex(d.chats, chatId);
      var j := if i == -1 then -1 else MessageIndex(d.chats[i].messages, messageId);
      if j == -1 then message == None && ls.chatData == Value(d)
      else (message == Some(Edited(d.chats[i].messages[j], content))
        && ls.chatData == Value(WithTrimmedAt(d, i, j, content, now)))
  {
    var d := GetAllData(ls);
    var i := ChatIndex(d.chats, chatId);
    if i == -1 {
      return None;
    }
    var j := MessageIndex(d.chats[i].messages, messageId);
    if j == -1 {
      return None;
    }
    d := WithTrimmedAt(d, i, j, content, now);
    var _ := SaveAllData(ls, d);
    message := Some(d.chats[i].messages[j]);
  }
}
