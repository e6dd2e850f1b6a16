/** The orchestration in the top-level `App` component: which store writes a
    handler makes, which history goes to the transport, what is appended on
    completion or error, and how the selected chat is kept. Only the state
    the handlers decide on is modelled: the selected chat id and whether the
    key is configured. The store is the global chat store. */
module App {
  import opened Base
  import opened Text
  import opened ChatModel
  import opened Browser
  import ChatStore
  import Api

  /** The model a chat asks for when it names none. */
  const FALLBACK_MODEL: string := "mistralai/mixtral-8x7b-instruct"

  /** `❌ <error.message>`: the assistant message stored for a failure. */
  function ErrorText(message: string): (t: string)
    ensures |t| == |message| + 2 && t[2..] == message
  {
    "\U{274C} " + message
  }

  /** `chat.model || "mistralai/mixtral-8x7b-instruct"`. */
  function ModelFor(chat: Chat): (model: string)
    ensures IsSet(chat.model) ==> model == chat.model.value
    ensures !IsSet(chat.model) ==> model == FALLBACK_MODEL
  {
    if IsSet(chat.model) then chat.model.value else FALLBACK_MODEL
  }

  /** Image modalities are asked for exactly when the model id mentions
      `image-preview` or `imagen`. */
  function Modalities(model: string): (m: Option<seq<string>>)
    ensures m.Some? <==> Contains(model, "image-preview") || Contains(model, "imagen")
    ensures m.Some? ==> m.value == ["image", "text"]
  {
    if Contains(model, "image-preview") || Contains(model, "imagen") then Some(["image", "text"]) else None
  }

  /** `history.slice(0, -1)`: every message but the last. */
  function History(ms: seq<Message>): (h: seq<Message>)
    ensures ms == [] ==> h == []
    ensures ms != [] ==> h + [ms[|ms| - 1]] == ms
  {
    if |ms| == 0 then [] else ms[..|ms| - 1]
  }

  /** The history sent after appending a message is what was stored before. */
  lemma HistoryOfAppended(ms: seq<Message>, m: Message)
    ensures History(ms + [m]) == ms
  {
    assert (ms + [m])[..|ms|] == ms;
  }

  /** The title of the error path of App's generateChatTitle: the first 40
      characters of the trimmed message, followed by `...` when the untrimmed
      message is longer than 40. */
  function CatchPathTitle(firstMessage: string): (title: string)
    ensures |title| <= 43
    ensures |firstMessage| <= 40 ==> title == Trim(firstMessage)
    ensures |firstMessage| > 40 ==>
      var t := Trim(firstMessage);
      |title| == (if |t| > 40 then 40 else |t|) + 3
      && StartsWith(t, title[..|title| - 3]) && title[|title| - 3..] == "..."
  {
    var t := Trim(firstMessage);
    var fallback := if |t| > 40 then t[..40] else t;
    var title := fallback + (if |firstMessage| > 40 then "..." else "");
    assert |firstMessage| > 40 ==> title[..|title| - 3] == fallback && title[|title| - 3..] == "...";
    title
  }

  // ------------------------------------------------------ store effects

  /** The store after `addMessageToChat(chatId, {role, content})`. */
  function Add(d: Snapshot, chatId: Id, role: Role, content: string, s: Stamp): (r: Snapshot)
    ensures |r.chats| == |d.chats| && r.currentChatId == d.currentChatId && r.settings == d.settings
    ensures ChatIndex(d.chats, chatId) == -1 ==> r == d
  {
    var i := ChatIndex(d.chats, chatId);
    if i == -1 then d else WithMessage(d, i, NewMessage(s, role, content), s.at)
  }

  /** Appending to an existing chat extends its messages by one and keeps it
      where it was. */
  lemma AddAppends(d: Snapshot, chatId: Id, role: Role, content: string, s: Stamp)
    requires ChatIndex(d.chats, chatId) != -1
    ensures var i := ChatIndex(d.chats, chatId); var r := Add(d, chatId, role, content, s);
      ChatIndex(r.chats, chatId) == i && OnlyChatChanged(d, r, i)
      && SameHeader(r.chats[i], d.chats[i]) && r.chats[i].updatedAt == s.at
      && r.chats[i].messages == d.chats[i].messages + [NewMessage(s, role, content)]
  {
    var i := ChatIndex(d.chats, chatId);
    var r := Add(d, chatId, role, content, s);
    OnlyChatChangedKeepsIndex(d, r, i, chatId);
    assert r.chats[i].messages == d.chats[i].messages + [NewMessage(s, role, content)];
  }

  /** The store after the title write, when the title is non-empty. */
  function Titled(d: Snapshot, chatId: Id, title: string, now: Time): (r: Snapshot)
    ensures |r.chats| == |d.chats|
    ensures var i := ChatIndex(d.chats, chatId);
      if title == "" || i == -1 then r == d
      else OnlyChatChanged(d, r, i) && r.chats[i].title == Some(title) && r.chats[i].messages == d.chats[i].messages
  {
    var i := ChatIndex(d.chats, chatId);
    if title == "" || i == -1 then d else WithTitle(d, i, title, now)
  }

  /** What sendMessageToChat appends after the user message: the full text on
      completion; the error message twice on failure (once from `onError`,
      once from the catch of the rethrown error). */
  function Replies(r: Result<string, string>, s2: Stamp, s3: Stamp): (ms: seq<Message>)
    ensures forall k :: 0 <= k < |ms| ==> ms[k].role == Assistant
    ensures r.Success? ==> |ms| == 1 && ms[0].content == r.value
    ensures r.Failure? ==> |ms| == 2 && ms[0].content == ms[1].content == ErrorText(r.error)
  {
    match r
    case Success(text) => [NewMessage(s2, Assistant, text)]
    case Failure(e) => [NewMessage(s2, Assistant, ErrorText(e)), NewMessage(s3, Assistant, ErrorText(e))]
  }

  /** The store after sendMessageToChat with transport result `r`. */
  function AfterSend(d: Snapshot, chatId: Id, message: string, s1: Stamp, s2: Stamp, s3: Stamp,
                     r: Result<string, string>): (e: Snapshot)
    ensures |e.chats| == |d.chats| && e.currentChatId == d.currentChatId && e.settings == d.settings
    ensures ChatIndex(d.chats, chatId) == -1 ==> e == d
  {
    if ChatIndex(d.chats, chatId) == -1 then d
    else
      var d1 := Add(d, chatId, User, message, s1);
      match r
      case Success(text) => Add(d1, chatId, Assistant, text, s2)
      case Failure(e) => Add(Add(d1, chatId, Assistant, ErrorText(e), s2), chatId, Assistant, ErrorText(e), s3)
  }

  /** `r` differs from `d` only in chat `i`, whose header and id stay. */
  predicate OnlyMessagesOf(d: Snapshot, r: Snapshot, i: int) {
    0 <= i < |d.chats| && OnlyChatChanged(d, r, i) && SameHeader(r.chats[i], d.chats[i])
  }

  lemma OnlyMessagesOfTrans(a: Snapshot, b: Snapshot, c: Snapshot, i: int)
    requires OnlyMessagesOf(a, b, i) && OnlyMessagesOf(b, c, i)
    ensures OnlyMessagesOf(a, c, i)
  {
  }

  /** sendMessageToChat on an existing chat appends the user message and then
      the replies, to that chat only; an unknown chat is left as it was. */
  lemma {:induction false} SendAppends(d: Snapshot, chatId: Id, message: string, s1: Stamp, s2: Stamp, s3: Stamp,
                                       r: Result<string, string>)
    ensures var i := ChatIndex(d.chats, chatId); var e := AfterSend(d, chatId, message, s1, s2, s3, r);
      (i == -1 ==> e == d)
      && (i != -1 ==>
            OnlyMessagesOf(d, e, i) && ChatIndex(e.chats, chatId) == i
            && e.chats[i].messages == d.chats[i].messages + [NewMessage(s1, User, message)] + Replies(r, s2, s3))
  {
    var i := ChatIndex(d.chats, chatId);
    if i != -1 {
      var user := NewMessage(s1, User, message);
      var e := AfterSend(d, chatId, message, s1, s2, s3, r);
      AddExtends(d, chatId, User, message, s1);
      var d1 := Add(d, chatId, User, message, s1);
      match r
      case Success(text) =>
        AddExtends(d1, chatId, Assistant, text, s2);
        OnlyMessagesOfTrans(d, d1, e, i);
      case Failure(err) =>
        var reply := NewMessage(s2, Assistant, ErrorText(err));
        AddExtends(d1, chatId, Assistant, ErrorText(err), s2);
        var d2 := Add(d1, chatId, Assistant, ErrorText(err), s2);
        AddExtends(d2, chatId, Assistant, ErrorText(err), s3);
        OnlyMessagesOfTrans(d, d1, d2, i);
        OnlyMessagesOfTrans(d, d2, e, i);
        assert e.chats[i].messages == d.chats[i].messages + [user] + [reply] + [NewMessage(s3, Assistant, ErrorText(err))];
    }
  }

  /** AddAppends, stated with OnlyMessagesOf. */
  lemma AddExtends(d: Snapshot, chatId: Id, role: Role, content: string, s: Stamp)
    requires ChatIndex(d.chats, chatId) != -1
    ensures var i := ChatIndex(d.chats, chatId); var r := Add(d, chatId, role, content, s);
      ChatIndex(r.chats, chatId) == i && OnlyMessagesOf(d, r, i)
      && r.chats[i].messages == d.chats[i].messages + [NewMessage(s, role, content)]
  {
    AddAppends(d, chatId, role, content, s);
  }

  /** The store after regenerateFromEditedPrompt: one reply, the error
      message once on failure (the catch there only clears the loading flag). */
  function AfterRegenerate(d: Snapshot, chatId: Id, s2: Stamp, r: Result<string, string>): (e: Snapshot)
    ensures |e.chats| == |d.chats| && e.currentChatId == d.currentChatId && e.settings == d.settings
    ensures ChatIndex(d.chats, chatId) == -1 ==> e == d
  {
    match r
    case Success(text) => Add(d, chatId, Assistant, text, s2)
    case Failure(e) => Add(d, chatId, Assistant, ErrorText(e), s2)
  }

  /** The selected chat of the app and the store's current id agree
      whenever either is set. */
  predicate SameCurrent(a: Option<Id>, b: Option<Id>) {
    (IsSet(a) || IsSet(b)) ==> a == b
  }

  /** Writing the title and appending a message to the same chat commute,
      up to the chat's `updatedAt`, which the later write sets. */
  lemma TitleCommutesWithAdd(d: Snapshot, chatId: Id, title: string, now: Time, role: Role, content: string, s: Stamp)
    requires ChatIndex(d.chats, chatId) != -1 && title != ""
    ensures var i := ChatIndex(d.chats, chatId);
      var a := Titled(Add(d, chatId, role, content, s), chatId, title, now);
      var b := Add(Titled(d, chatId, title, now), chatId, role, content, s);
      a.chats[i].updatedAt == now && b.chats[i].updatedAt == s.at
      && a == b.(chats := b.chats[i := b.chats[i].(updatedAt := now)])
  {
    var i := ChatIndex(d.chats, chatId);
    var d1 := Add(d, chatId, role, content, s);
    AddAppends(d, chatId, role, content, s);
    var t := Titled(d, chatId, title, now);
    OnlyChatChangedKeepsIndex(d, t, i, chatId);
  }

  class App {
    const ls: Storage
    /** The sanitised key the transport sends. */
    const key: string
    var currentChatId: Option<Id>
    var apiKeyConfigured: bool

    predicate InAgreement()
      reads this, ls
    {
      SameCurrent(currentChatId, ChatStore.Loaded(ls.chatData).currentChatId)
    }

    constructor (storage: Storage, env: Option<string>)
      ensures ls == storage && key == Api.SanitizeKey(Api.RawKey(env))
      ensures currentChatId.None? && apiKeyConfigured
    {
      var k := Api.LoadKey(env);
      ls := storage;
      key := k;
      currentChatId := None;
      apiKeyConfigured := true;
    }

    method CheckApiConfiguration()
      modifies this`apiKeyConfigured
      ensures apiKeyConfigured == Api.CheckApiKey(key)
    {
      apiKeyConfigured := Api.CheckApiKey(key);
    }

    /** Keep a stored current id; otherwise select and persist the first chat. */
    method LoadChatsFromStorage()
      modifies this`currentChatId, ls`chatData
      ensures var d := ChatStore.Loaded(old(ls.chatData));
        if IsSet(d.currentChatId) then currentChatId == d.currentChatId && ls.chatData == Value(d)
        else if |d.chats| > 0 then
          currentChatId == Some(d.chats[0].id) && ls.chatData == Value(d.(currentChatId := Some(d.chats[0].id)))
        else currentChatId == old(currentChatId) && ls.chatData == Value(d)
      ensures !IsSet(old(currentChatId)) ==> InAgreement()
    {
      var chats := ChatStore.GetAllChats(ls);
      var currentId := ChatStore.GetCurrentChatId(ls);
      if IsSet(currentId) {
        currentChatId := currentId;
      } else if |chats| > 0 {
        currentChatId := Some(chats[0].id);
        var _ := ChatStore.SetCurrentChat(ls, chats[0].id);
      }
    }

    method HandleNewChat(stamp: Stamp) returns (chat: Chat)
      modifies this`currentChatId, ls`chatData
      ensures chat == NewChat(stamp, None, None, None) && currentChatId == Some(chat.id)
      ensures ls.chatData == Value(WithNewChat(ChatStore.Loaded(old(ls.chatData)), chat))
      ensures InAgreement()
    {
      chat := ChatStore.CreateNewChat(ls, None, None, None, stamp);
      currentChatId := Some(chat.id);
    }

    /** A tool's chat records the tool and its model. */
    method HandleToolSelect(toolId: string, model: string, stamp: Stamp) returns (chat: Chat)
      modifies this`currentChatId, ls`chatData
      ensures chat == NewChat(stamp, None, Some(toolId), Some(model)) && currentChatId == Some(chat.id)
      ensures ls.chatData == Value(WithNewChat(ChatStore.Loaded(old(ls.chatData)), chat))
      ensures InAgreement()
    {
      chat := ChatStore.CreateNewChat(ls, None, Some(toolId), Some(model), stamp);
      currentChatId := Some(chat.id);
    }

    method HandleSelectChat(chatId: Id)
      modifies this`currentChatId, ls`chatData
      ensures currentChatId == Some(chatId)
      ensures ls.chatData == Value(ChatStore.Loaded(old(ls.chatData)).(currentChatId := Some(chatId)))
      ensures InAgreement()
    {
      currentChatId := Some(chatId);
      var _ := ChatStore.SetCurrentChat(ls, chatId);
    }

    /** Delete, then move the selection to the first remaining chat (or none)
        when the deleted chat was selected. */
    method HandleDeleteChat(chatId: Id)
      modifies this`currentChatId, ls`chatData
      ensures var d := WithoutChat(ChatStore.Loaded(old(ls.chatData)), chatId);
        if old(currentChatId) == Some(chatId) then
          (if |d.chats| > 0 then
             currentChatId == Some(d.chats[0].id) && ls.chatData == Value(d.(currentChatId := Some(d.chats[0].id)))
           else currentChatId.None? && ls.chatData == Value(d))
        else currentChatId == old(currentChatId) && ls.chatData == Value(d)
      ensures old(InAgreement()) && chatId != "" ==> InAgreement()
    {
      var _ := ChatStore.DeleteChat(ls, chatId);
      var updated := ChatStore.GetAllChats(ls);
      if currentChatId == Some(chatId) {
        if |updated| > 0 {
          currentChatId := Some(updated[0].id);
          var _ := ChatStore.SetCurrentChat(ls, updated[0].id);
        } else {
          currentChatId := None;
        }
      }
    }

    /** sendMessageToChat: store the user message, send the stored messages
        before it as history, store the answer or the error. An unknown chat
        makes the history read throw, and the catch's write finds no chat. */
    method SendMessageToChat(chatId: Id, message: string, s1: Stamp, s2: Stamp, s3: Stamp,
                             attempts: seq<Api.Attempt>, parse: string -> Option<string>)
      returns (request: Option<Api.Request>)
      requires Api.STREAM_RETRIES < |attempts|
      modifies ls`chatData
      ensures var d := ChatStore.Loaded(old(ls.chatData)); var i := ChatIndex(d.chats, chatId);
        ls.chatData == Value(AfterSend(d, chatId, message, s1, s2, s3, Api.StreamingResult(attempts, parse)))
        && (i == -1 ==> request.None?)
        && (i != -1 ==> request == Some(Api.StreamingRequest(key, message, d.chats[i].messages)))
      ensures request.Some? ==> request.value.model == Api.MODEL
    {
      ghost var d := ChatStore.Loaded(ls.chatData);
      var added := ChatStore.AddMessageToChat(ls, chatId, User, message, s1);
      var chat := ChatStore.GetChatById(ls, chatId);
      if chat.None? {
        var _ := ChatStore.AddMessageToChat(ls, chatId, Assistant, ErrorText("chat not found"), s2);
        return None;
      }
      AddAppends(d, chatId, User, message, s1);
      HistoryOfAppended(d.chats[ChatIndex(d.chats, chatId)].messages, NewMessage(s1, User, message));
      var req, r, events := Api.SendMessageStreaming(key, message, History(chat.value.messages), attempts, parse);
      request := Some(req);
      if r.Success? {
        var _ := ChatStore.AddMessageToChat(ls, chatId, Assistant, r.value, s2);
      } else {
        var _ := ChatStore.AddMessageToChat(ls, chatId, Assistant, ErrorText(r.error), s2);
        var _ := ChatStore.AddMessageToChat(ls, chatId, Assistant, ErrorText(r.error), s3);
      }
    }

    /** App's generateChatTitle: the title request goes out, and the helper's
        title is written when it is non-empty; a blank one touches nothing. */
    method GenerateChatTitle(chatId: Id, firstMessage: string, response: Option<string>, now: Time)
      returns (title: string, request: Api.Request)
      modifies ls`chatData
      ensures request == Api.TitleRequest(key, firstMessage)
      ensures title == Api.GenerateChatTitle(firstMessage, response)
      ensures title != "" ==> ls.chatData == Value(Titled(ChatStore.Loaded(old(ls.chatData)), chatId, title, now))
      ensures title == "" ==> ls.chatData == old(ls.chatData)
    {
      request := Api.TitleRequest(key, firstMessage);
      title := Api.GenerateChatTitle(firstMessage, response);
      if title != "" {
        var _ := ChatStore.UpdateChatTitle(ls, chatId, title, now);
      }
    }

    /** handleSendMessage: nothing without a key; without a selected chat, a
        new untitled chat is created and selected. A title is generated for a
        chat that is untitled and empty; it is written after the send. */
    method HandleSendMessage(message: string, newChat: Stamp, s1: Stamp, s2: Stamp, s3: Stamp,
                             attempts: seq<Api.Attempt>, parse: string -> Option<string>,
                             titleResponse: Option<string>, titleNow: Time)
      returns (titled: bool, request: Option<Api.Request>)
      requires Api.STREAM_RETRIES < |attempts|
      modifies this`currentChatId, ls`chatData
      ensures !old(apiKeyConfigured) ==>
        !titled && request.None? && currentChatId == old(currentChatId) && ls.chatData == old(ls.chatData)
      ensures old(apiKeyConfigured) ==>
        var created := !IsSet(old(currentChatId));
        var d0 := ChatStore.Loaded(old(ls.chatData));
        var d := if created then WithNewChat(d0, NewChat(newChat, None, None, None)) else d0;
        var target := if created then newChat.id else old(currentChatId).value;
        var i := ChatIndex(d.chats, target);
        var sent := AfterSend(d, target, message, s1, s2, s3, Api.StreamingResult(attempts, parse));
        currentChatId == Some(target)
        && titled == (i != -1 && !IsSet(d.chats[i].title) && |d.chats[i].messages| == 0)
        && (i != -1 ==> request == Some(Api.StreamingRequest(key, message, d.chats[i].messages)))
        && ls.chatData == Value(if titled then Titled(sent, target, Api.GenerateChatTitle(message, titleResponse), titleNow)
                                else sent)
    {
      if !apiKeyConfigured {
        return false, None;
      }
      var target;
      target, titled := OpenTarget(newChat);
      request := SendMessageToChat(target, message, s1, s2, s3, attempts, parse);
      if titled {
        var _, _ := GenerateChatTitle(target, message, titleResponse, titleNow);
      }
    }

    /** The first half of handleSendMessage: the chat the message goes to
        (a new one when none is selected) and whether it still needs a title. */
    method OpenTarget(newChat: Stamp) returns (target: Id, titled: bool)
      modifies this`currentChatId, ls`chatData
      ensures var created := !IsSet(old(currentChatId));
        var d0 := ChatStore.Loaded(old(ls.chatData));
        var d := if created then WithNewChat(d0, NewChat(newChat, None, None, None)) else d0;
        var i := ChatIndex(d.chats, target);
        target == (if created then newChat.id else old(currentChatId).value)
        && currentChatId == Some(target) && ls.chatData == Value(d)
        && titled == (i != -1 && !IsSet(d.chats[i].title) && |d.chats[i].messages| == 0)
    {
      if !IsSet(currentChatId) {
        var chat := ChatStore.CreateNewChat(ls, None, None, None, newChat);
        currentChatId := Some(chat.id);
        target := chat.id;
        titled := true;
      } else {
        target := currentChatId.value;
        var data := ChatStore.GetChatById(ls, target);
        titled := data.Some? && !IsSet(data.value.title) && |data.value.messages| == 0;
      }
    }

    /** The message handleRegenerate resends: the user message right before
        an assistant message of the displayed chat. */
    static function RegenerateTarget(message: Message, shown: Option<seq<Message>>): (t: Option<Message>)
      ensures t.Some? <==>
        message.role == Assistant && shown.Some? && MessageIndex(shown.value, message.id) > 0
        && shown.value[MessageIndex(shown.value, message.id) - 1].role == User
      ensures t.Some? ==> t.value == shown.value[MessageIndex(shown.value, message.id) - 1]
    {
      if message.role != Assistant || shown.None? then None
      else
        var index := MessageIndex(shown.value, message.id);
        if index > 0 && shown.value[index - 1].role == User then Some(shown.value[index - 1]) else None
    }

    /** handleRegenerate: the truncation is made on a re-parsed copy and then
        a fresh read is saved, so the stored transcript keeps every message and
        the user message is sent (and stored) again. */
    method HandleRegenerate(message: Message, shown: Option<seq<Message>>, s1: Stamp, s2: Stamp, s3: Stamp,
                            attempts: seq<Api.Attempt>, parse: string -> Option<string>)
      returns (request: Option<Api.Request>)
      requires Api.STREAM_RETRIES < |attempts|
      modifies ls`chatData
      ensures var t := RegenerateTarget(message, shown); var d := ChatStore.Loaded(old(ls.chatData));
        if t.None? then request.None? && ls.chatData == old(ls.chatData)
        else if currentChatId.None? || ChatIndex(d.chats, currentChatId.value) == -1 then
          request.None? && ls.chatData == Value(d)
        else
          var target := currentChatId.value;
          request == Some(Api.StreamingRequest(key, t.value.content, d.chats[ChatIndex(d.chats, target)].messages))
          && ls.chatData == Value(AfterSend(d, target, t.value.content, s1, s2, s3, Api.StreamingResult(attempts, parse)))
    {
      var t := RegenerateTarget(message, shown);
      if t.None? {
        return None;
      }
      if currentChatId.None? {
        var _ := ChatStore.GetAllData(ls);
        return None;
      }
      var chat := ChatStore.GetChatById(ls, currentChatId.value);
      if chat.None? {
        return None;
      }
      var data := ChatStore.GetAllData(ls);
      var _ := ChatStore.SaveAllData(ls, data);
      request := SendMessageToChat(currentChatId.value, t.value.content, s1, s2, s3, attempts, parse);
    }

    /** regenerateFromEditedPrompt: no user message is added; the stored
        messages but the last are the history, and one reply is stored. */
    method RegenerateFromEditedPrompt(chatId: Id, prompt: string, s2: Stamp,
                                      attempts: seq<Api.Attempt>, parse: string -> Option<string>)
      returns (request: Option<Api.Request>)
      requires Api.STREAM_RETRIES < |attempts|
      modifies ls`chatData
      ensures var d := ChatStore.Loaded(old(ls.chatData)); var i := ChatIndex(d.chats, chatId);
        if i == -1 then request.None? && ls.chatData == Value(d)
        else (request == Some(Api.StreamingRequest(key, prompt, History(d.chats[i].messages)))
          && ls.chatData == Value(AfterRegenerate(d, chatId, s2, Api.StreamingResult(attempts, parse))))
    {
      var chat := ChatStore.GetChatById(ls, chatId);
      if chat.None? {
        return None;
      }
      var req, r, events := Api.SendMessageStreaming(key, prompt, History(chat.value.messages), attempts, parse);
      request := Some(req);
      if r.Success? {
        var _ := ChatStore.AddMessageToChat(ls, chatId, Assistant, r.value, s2);
      } else {
        var _ := ChatStore.AddMessageToChat(ls, chatId, Assistant, ErrorText(r.error), s2);
      }
    }

    /** handleEditMessage: edit and truncate the selected chat at the message,
        then regenerate from the edited text. */
    method HandleEditMessage(messageId: Id, newText: string, now: Time, s2: Stamp,
                             attempts: seq<Api.Attempt>, parse: string -> Option<string>)
      returns (request: Option<Api.Request>)
      requires Api.STREAM_RETRIES < |attempts|
      modifies ls`chatData
      ensures !IsSet(currentChatId) ==> request.None? && ls.chatData == old(ls.chatData)
      ensures IsSet(currentChatId) ==>
        var d := ChatStore.Loaded(old(ls.chatData)); var i := ChatIndex(d.chats, currentChatId.value);
        var j := if i == -1 then -1 else MessageIndex(d.chats[i].messages, messageId);
        if j == -1 then request.None? && ls.chatData == Value(d)
        else
          var trimmed := WithTrimmedAt(d, i, j, newText, now);
          request == Some(Api.StreamingRequest(key, newText, d.chats[i].messages[..j]))
          && ls.chatData == Value(AfterRegenerate(trimmed, currentChatId.value, s2, Api.StreamingResult(attempts, parse)))
    {
      if !IsSet(currentChatId) {
        return None;
      }
      ghost var d := ChatStore.Loaded(ls.chatData);
      var updated := ChatStore.UpdateMessageAndTrimChat(ls, currentChatId.value, messageId, newText, now);
      if updated.None? {
        return None;
      }
      ghost var i := ChatIndex(d.chats, currentChatId.value);
      ghost var j := MessageIndex(d.chats[i].messages, messageId);
      ghost var trimmed := WithTrimmedAt(d, i, j, newText, now);
      OnlyChatChangedKeepsIndex(d, trimmed, i, currentChatId.value);
      assert History(trimmed.chats[i].messages) == d.chats[i].messages[..j];
      var _ := ChatStore.GetChatById(ls, currentChatId.value);
      request := RegenerateFromEditedPrompt(currentChatId.value, updated.value.content, s2, attempts, parse);
    }
  }

  /** handleRegenerate leaves the stored transcript whole: the chat ends with
      every earlier message, a new copy of the resent user message, and the
      replies. */
  lemma RegenerateKeepsTranscript(d: Snapshot, chatId: Id, message: Message, shown: Option<seq<Message>>,
                                  s1: Stamp, s2: Stamp, s3: Stamp, r: Result<string, string>)
    requires App.RegenerateTarget(message, shown).Some? && ChatIndex(d.chats, chatId) != -1
    ensures var i := ChatIndex(d.chats, chatId); var t := App.RegenerateTarget(message, shown).value;
      var e := AfterSend(d, chatId, t.content, s1, s2, s3, r);
      ChatIndex(e.chats, chatId) == i
      && e.chats[i].messages == d.chats[i].messages + [NewMessage(s1, User, t.content)] + Replies(r, s2, s3)
  {
    SendAppends(d, chatId, App.RegenerateTarget(message, shown).value.content, s1, s2, s3, r);
  }

  /** After an edit, the chat holds the messages before the edited one, the
      edited message, and exactly one reply: no user message is added. */
  lemma EditThenRegenerate(d: Snapshot, chatId: Id, j: int, newText: string, now: Time, s2: Stamp, r: Result<string, string>)
    requires ChatIndex(d.chats, chatId) != -1
    requires 0 <= j < |d.chats[ChatIndex(d.chats, chatId)].messages|
    ensures var i := ChatIndex(d.chats, chatId);
      var e := AfterRegenerate(WithTrimmedAt(d, i, j, newText, now), chatId, s2, r);
      var reply := if r.Success? then r.value else ErrorText(r.error);
      e.chats[i].messages == d.chats[i].messages[..j] + [Edited(d.chats[i].messages[j], newText)]
                             + [NewMessage(s2, Assistant, reply)]
  {
    var i := ChatIndex(d.chats, chatId);
    var trimmed := WithTrimmedAt(d, i, j, newText, now);
    OnlyChatChangedKeepsIndex(d, trimmed, i, chatId);
    var reply := if r.Success? then r.value else ErrorText(r.error);
    AddAppends(trimmed, chatId, Assistant, reply, s2);
    assert trimmed.chats[i].messages == d.chats[i].messages[..j] + [Edited(d.chats[i].messages[j], newText)];
  }
}
