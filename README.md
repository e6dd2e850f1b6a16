# SoozAI chat client: a Dafny model of its session layer

SoozAI is a browser chat client for the OpenRouter chat-completions service.
This project models the part of it that decides what is stored and what is
sent, and proves properties of that model:

- **Global chat store** (`src/utils/localStorage.js`). One snapshot
  `{chats, currentChatId, settings}` under `soozai_chat_data`. Every operation
  reads the whole snapshot, changes it and writes it back. A missing or
  unparsable value reads as the initial snapshot, which is then persisted.
- **Per-user chat store** (`src/utils/userStorage.js`). The same operations,
  but the snapshot lives under `soozai_user_data_<id>`. The id is taken from
  the stored logged-in user on every call. Without a logged-in user nothing is
  written. Also covers the import of a backup.
- **Service client** (`src/utils/api.js`):
  - the API-key clean-up and its check;
  - the request bodies;
  - the streaming reader, with its line loop and `[DONE]` handling;
  - the retry wrapper and the callback order;
  - the title clean-up and the offline title fallback.
- **Authentication provider** (`src/contexts/AuthContext.js`). A user
  registry under `soozai_users` and the logged-in user under
  `soozai_current_user`. Covers register, login, Google sign-in, logout,
  profile update and the per-user data initialisation.
- **App handlers** (`src/App.js`). The store writes each handler makes:
  - the history sent to the transport;
  - what is appended on completion and on error;
  - when a title is generated;
  - the regenerate, edit and delete flows;
  - the initial selection of a chat.

Layout:

- **The browser's `localStorage`** is the class `Browser.Storage`, with one
  field per key family. The values are parsed values:
  `Stored<T> = Missing | Corrupt | Value(T)`.
- **Store operations** are methods that take the storage and `modifies` only
  the field they write. Each is specified against the pure snapshot
  transformations of `ChatModel`; the lemmas are stated about those
  transformations.
- **React components with state** (`App`, `AuthProvider`) are classes. Their
  fields are the state their logic reads.
- **Oracles**, passed in as parameters:
  - the id generator and the clock, as `Stamp(id, at)` values;
  - the network, as one `Attempt` per call of the transport;
  - `JSON.parse(data).choices[0].delta.content`, as a function
    `parse: string -> Option<string>`.
- **Callbacks** (`onChunk`, `onComplete`, `onError`) are recorded as an
  ordered list of events.

Where the code does something other than what its design intends, the
model follows the code:

- `handleRegenerate` truncates a re-parsed copy of the chat and then saves a
  fresh read of the store. So the stored transcript is never truncated, and
  the user message is stored a second time (`App.RegenerateKeepsTranscript`).
- When every attempt fails, `sendMessageToChat` stores the error message
  twice: once from `onError`, once from the catch of the rethrown error
  (`App.Replies`, `App.SendAppends`).
- The per-chat model and the image modalities are computed but never reach
  the request; `sendMessageStreaming` always sends its constant model
  (`App.App.SendMessageToChat` ensures that any request it makes names
  `Api.MODEL`).
- A Google sign-in looks only for Google accounts. An address already
  registered by email therefore gets a second account
  (`Auth.GoogleLoginDuplicatesEmail`).
- An import appends the backup's chats without comparing ids
  (`UserStore.MergedDuplicatesIds`).
- In App's `generateChatTitle`, the catch branch cannot be reached, because
  the service client's `generateChatTitle` catches every error itself. The
  title that branch would write is modelled as `App.CatchPathTitle`, but no
  handler uses it.

## Model

| member | source | states |
|---|---|---|
| ChatModel.ChatIndex | src/utils/localStorage.js:69 | `findIndex` by id: -1 exactly when no chat has the id, otherwise the first index that has it |
| ChatModel.FindChat | src/utils/localStorage.js:43-46 | `find` by id: none exactly when the id is absent, otherwise the chat at ChatIndex |
| ChatModel.MessageIndex | src/utils/localStorage.js:146 | `findIndex` on messages: -1 exactly when no message has the id, otherwise the first match |
| ChatModel.WithNewChat | src/utils/localStorage.js:48-65 | the new chat is at index 0, the old chats follow in order, and it becomes current (so the current id is valid); settings are untouched |
| ChatModel.WithTitle | src/utils/localStorage.js:67-78 | only chat `i` changes: its title and `updatedAt`; its id, messages, creation time, tool and model stay |
| ChatModel.WithMessage | src/utils/localStorage.js:80-99 | only chat `i` changes: it gains exactly one message, at the end, and a new `updatedAt`; its header stays |
| ChatModel.WithEditedMessage | src/utils/localStorage.js:140-155 | only message `j` of chat `i` changes (new content, `edited`); the count and every other message stay |
| ChatModel.WithTrimmedAt | src/utils/localStorage.js:158-176 | chat `i` keeps messages `0..j-1` untouched, then edited message `j`, then nothing; other chats stay |
| ChatModel.WithoutChat | src/utils/localStorage.js:101-111 | no chat with the id remains; the current id moves to the first remaining chat (or none) only when it named that id |
| ChatModel.WithoutChatMember | src/utils/localStorage.js:103 | a chat survives deleting `id` exactly when it was there and has another id |
| ChatModel.WithoutChatKeepsCurrentValid | src/utils/localStorage.js:101-111 | deleting never leaves the current id naming a missing chat |
| ChatModel.WithoutUniqueChat | src/utils/localStorage.js:103 | with unique ids, deleting the chat at one position leaves the chats before it followed by those after it, in order |
| ChatModel.WithNewChatKeepsUnique | src/utils/localStorage.js:48-65 | a chat created with a fresh id keeps the ids unique |
| ChatModel.OnlyChatChangedKeepsIndex | src/utils/localStorage.js:69 | changing one chat, but not its id, keeps every lookup by id where it was, and keeps the current id valid |
| ChatStore.InitializeStorage | src/utils/localStorage.js:18-26 | writes and returns the initial snapshot: no chats, no current chat, default settings |
| ChatStore.GetAllData | src/utils/localStorage.js:7-16 | returns the stored snapshot unchanged, or (missing or corrupt) persists and returns the initial one |
| ChatStore.SaveAllData | src/utils/localStorage.js:28-36 | succeeds, and the next read returns the saved snapshot |
| ChatStore.GetAllChats | src/utils/localStorage.js:38-41 | the chats of the read snapshot |
| ChatStore.GetChatById | src/utils/localStorage.js:43-46 | the chat with the id, or none |
| ChatStore.CreateNewChat | src/utils/localStorage.js:48-65 | returns a chat with the given title, tool and model and no messages; the store becomes WithNewChat |
| ChatStore.UpdateChatTitle | src/utils/localStorage.js:67-78 | true exactly when the chat exists; then WithTitle is written, otherwise the store is as read |
| ChatStore.AddMessageToChat | src/utils/localStorage.js:80-99 | an unknown chat gives null and the store stays as read; otherwise the new message is returned and WithMessage is written |
| ChatStore.DeleteChat | src/utils/localStorage.js:101-111 | writes WithoutChat of the read snapshot |
| ChatStore.SetCurrentChat | src/utils/localStorage.js:113-118 | writes the current id as given and changes nothing else |
| ChatStore.GetCurrentChatId | src/utils/localStorage.js:120-123 | the stored current id |
| ChatStore.GetCurrentChat | src/utils/localStorage.js:125-129 | the chat named by the current id, or none when that id is unset |
| ChatStore.ClearAllChats | src/utils/localStorage.js:131-137 | no chats and no current id; settings stay |
| ChatStore.UpdateMessageInChat | src/utils/localStorage.js:140-155 | true exactly when the chat and the message exist; then WithEditedMessage is written |
| ChatStore.UpdateMessageAndTrimChat | src/utils/localStorage.js:158-176 | null, with the store as read, when the chat or message is missing; otherwise returns the edited message and writes WithTrimmedAt |
| UserStore.UserStorageKey | src/utils/userStorage.js:9-11 | the key is `soozai_user_data_` followed by the id |
| UserStore.UserStorageKeyInjective | src/utils/userStorage.js:9-11 | two users share a key exactly when they are the same user |
| UserStore.CurrentUserId | src/utils/userStorage.js:14-25 | an id exactly when the stored user parses and has a non-empty string id |
| UserStore.Loaded | src/utils/userStorage.js:28-47 | without a user, a fresh initial snapshot; with one, the stored snapshot, or a new initial one stamped with the user |
| UserStore.Written | src/utils/userStorage.js:74-89 | without a user nothing changes; with one, only that user's key is set to the snapshot |
| UserStore.WrittenIsolatesUsers | src/utils/userStorage.js:82-83 | saving for user A leaves user B's data as it was |
| UserStore.LoadedAfterWritten | src/utils/userStorage.js:28-47 | what was saved for the user is what the next read returns |
| UserStore.WrittenLoadedIsIdentity | src/utils/userStorage.js:35-36 | writing back a snapshot that was read from the store changes nothing |
| UserStore.AfterReadIsWritten | src/utils/userStorage.js:28-47 | a read persists at most the snapshot it returns, and only for the logged-in user |
| UserStore.AfterRead | src/utils/userStorage.js:28-47 | without a user nothing is written; for a user, that user's key then holds the snapshot the read returns, and every other key is unchanged |
| UserStore.InitializeStorage | src/utils/userStorage.js:50-71 | returns the initial snapshot stamped with the user and time; writes it only when the id is truthy |
| UserStore.GetAllData | src/utils/userStorage.js:28-47 | returns Loaded and persists as AfterRead |
| UserStore.SaveAllData | src/utils/userStorage.js:74-89 | false and no write without a user; otherwise true and only that user's key is written |
| UserStore.Merged | src/utils/userStorage.js:141-146 | existing chats, then the imported chats in order; imported settings override key by key; current id and profile stay |
| UserStore.MergedDuplicatesIds | src/utils/userStorage.js:144 | importing a backup of the current chats leaves every id twice |
| UserStore.ImportUserDataFromFile | src/utils/userStorage.js:127-154 | false with no write for unparsable content, no `data`, no `user` or no logged-in user; false after the read when there are no chats; otherwise true and Merged is written |
| UserStore.GetAllChats | src/utils/userStorage.js:157-160 | the chats of Loaded |
| UserStore.GetChatById | src/utils/userStorage.js:162-165 | the chat with the id in Loaded, or none |
| UserStore.CreateNewChat | src/utils/userStorage.js:167-184 | returns the new chat even without a user; writes WithNewChat for the user only |
| UserStore.UpdateChatTitle | src/utils/userStorage.js:186-197 | true exactly when the chat exists; then WithTitle is written for the user |
| UserStore.AddMessageToChat | src/utils/userStorage.js:199-218 | null for an unknown chat; otherwise the new message, with WithMessage written for the user |
| UserStore.DeleteChat | src/utils/userStorage.js:220-230 | writes WithoutChat for the user |
| UserStore.SetCurrentChat | src/utils/userStorage.js:232-237 | writes the current id for the user |
| UserStore.GetCurrentChatId | src/utils/userStorage.js:239-242 | the current id of Loaded |
| UserStore.GetCurrentChat | src/utils/userStorage.js:244-248 | the chat named by the current id, or none when that id is unset |
| UserStore.ClearAllChats | src/utils/userStorage.js:250-256 | writes no chats and no current id for the user |
| UserStore.UpdateMessageInChat | src/utils/userStorage.js:258-273 | true exactly when the chat and message exist; then WithEditedMessage is written for the user |
| UserStore.UpdateMessageAndTrimChat | src/utils/userStorage.js:275-293 | null when the chat or message is missing; otherwise the edited message, with WithTrimmedAt written for the user |
| Api.SanitizeKey | src/utils/api.js:6-11 | the key has no whitespace, is no longer than the raw value, and is the raw value with every double quote (`"`) and every whitespace character removed; a single quote is kept |
| Api.LoadKey | src/utils/api.js:6-11 | the module key is the sanitised configured value, or the sanitised empty string |
| Api.RawKey | src/utils/api.js:6 | the fallback to `""`: the raw key is empty exactly when the variable is unset or empty, and otherwise is its value |
| Api.CheckApiKey | src/utils/api.js:199-201 | the check passes exactly when the cleaned key is longer than ten characters |
| Api.CheckAcceptsDecoratedKey | src/utils/api.js:6-11 | a key of more than ten characters with no double quote or whitespace passes the check however it is wrapped in double quotes and whitespace |
| Api.CheckRejectsShortValue | src/utils/api.js:6-11 | a configured value of at most ten characters never passes the check |
| Api.SanitizeKeyChars | src/utils/api.js:8-11 | a character is in the key exactly when it is in the raw value and is neither a double quote nor whitespace |
| Api.SanitizeKeyIdempotent | src/utils/api.js:8-11 | cleaning a clean key changes nothing |
| Api.SanitizeKeyStripsDecoration | src/utils/api.js:8-11 | double quotes and whitespace around the key do not reach the request |
| Api.StreamingRequest | src/utils/api.js:46-64 | POST to the service URL with `Bearer <key>`, the constant model, streamed: the history's role and content in order, then the user message |
| Api.WireAll | src/utils/api.js:57-60 | the `map` to role and content: one wire message per message, in order, each carrying that message's role and content |
| Api.TitleRequest | src/utils/api.js:144-166 | not streamed, at most 30 tokens, the fixed system prompt, then the user prompt `Generate a title for this message: "<message>"`, which contains the message |
| Api.ClassifyLine | src/utils/api.js:85-96 | only `data:` lines count; the trimmed rest is `[DONE]`, a token exactly when it parses to a non-empty string, or skipped |
| Api.LinesTokens | src/utils/api.js:84-97 | the tokens of a chunk's lines, all non-empty, up to the first `[DONE]` |
| Api.StreamTokens | src/utils/api.js:77-98 | the tokens of the whole stream are non-empty |
| Api.ReadStream | src/utils/api.js:75-98 | the reader's text is the concatenation of the stream's tokens, with one `onChunk` per token carrying the text so far |
| Api.ReadLines | src/utils/api.js:84-97 | the inner loop extends the text and callbacks by exactly the tokens of the chunk's lines |
| Api.StreamTokensAppend | src/utils/api.js:77-98 | the tokens of consecutive chunk runs are the tokens of each run, in order |
| Api.DoneEndsChunk | src/utils/api.js:87 | a `[DONE]` line drops the lines of its chunk that follow it |
| Api.DoneDoesNotEndStream | src/utils/api.js:77-87 | a chunk that starts with `[DONE]` adds nothing, and later chunks are still read |
| Api.ConcatAppend | src/utils/api.js:93 | appending tokens appends their texts |
| Api.TokenEventsAt | src/utils/api.js:93-94 | the k-th `onChunk` carries the k-th token and the text of the first k+1 tokens |
| Api.SoFarGrows | src/utils/api.js:93-94 | within one response the reported text grows strictly, each report extending the previous one |
| Api.LastChunkIsFullText | src/utils/api.js:94-100 | the last `onChunk` reports the text `onComplete` receives |
| Api.AttemptOutcome | src/utils/api.js:45-102 | a call returns exactly when the body streams to its end, and then returns the concatenated tokens; a non-ok response throws its body text, or `OpenRouter error` when that is empty |
| Api.AttemptEventsShape | src/utils/api.js:94-101 | a failed call makes only `onChunk` callbacks; a successful one ends with one `onComplete` carrying the returned text |
| Api.RunAttempt | src/utils/api.js:45-102 | one transport call returns AttemptOutcome and makes AttemptEvents |
| Api.LastCall | src/utils/api.js:23-32 | the call that ends the retries: every earlier call failed, and it either succeeded or was the last permitted |
| Api.RetrySucceedsIff | src/utils/api.js:23-32 | the retries succeed exactly when one of the first `retries + 1` calls succeeds |
| Api.SendWithRetry | src/utils/api.js:23-32 | at most `retries + 1` calls; the result is the first success, or the last call's error; the callbacks are those of the calls made |
| Api.FailedCallsEvents | src/utils/api.js:24-30 | failed calls make only `onChunk` callbacks |
| Api.StreamingCallbacks | src/utils/api.js:100-108 | the last callback is exactly one of `onComplete` with the text and `onError` with the rethrown message; all earlier ones are `onChunk` |
| Api.SendMessageStreaming | src/utils/api.js:37-109 | sends StreamingRequest with two retries; returns StreamingResult and makes StreamingEvents |
| Api.StripQuotes | src/utils/api.js:177 | one quote (`"` or `'`) at the start and one at the end are removed, by case |
| Api.StripTerminal | src/utils/api.js:177 | the result is a prefix, everything cut is `.`, `!` or `?`, and the result does not end in one |
| Api.Truncate | src/utils/api.js:180-182 | at most 50 characters: unchanged up to 50, else the first 47 and `...` |
| Api.CleanTitle | src/utils/api.js:174-184 | quotes, then terminal punctuation, are stripped and the result trimmed and truncated; empty becomes `New Chat`; 1 to 50 characters |
| Api.CleanTitleOfClean | src/utils/api.js:174-184 | a title that needs no clean-up is kept as it is |
| Api.FallbackEmptyIff | src/utils/api.js:188-189 | the fallback title is empty exactly when the message is blank |
| Api.FallbackTitle | src/utils/api.js:188-189 | at most 50 characters; FallbackEmptyIff, FallbackOfMessage and FallbackOfShortMessage give its value |
| Api.FallbackOfShortMessage | src/utils/api.js:188-189 | at most five words of at most 50 characters, joined by single spaces, are their own fallback title |
| Api.FallbackOfMessage | src/utils/api.js:188-189 | for any non-blank message, written as words with whitespace runs between and around them, the fallback title is the first five words joined by single spaces, truncated |
| Api.FallbackOfLongMessage | src/utils/api.js:188-189 | of more than five words joined by single spaces only the first five reach the fallback title |
| Api.FallbackOfWords | src/utils/api.js:188-189 | a trimmed string that is its words joined by spaces, with at most five words and 50 characters, is its own fallback title |
| Api.GenerateChatTitle | src/utils/api.js:142-191 | at most 50 characters; a service answer never gives an empty title; the title is empty exactly on the fallback path for a blank message; on that path it is FallbackTitle, whose value FallbackOfMessage gives for every non-blank message |
| Text.Trim | src/utils/api.js:86 | `trim`: the middle of the string after its leading whitespace run, with only whitespace cut after it, and no whitespace at either end |
| Text.TrimIdempotent | src/utils/api.js:177 | trimming twice is trimming once |
| Text.TrimLeadingWhitespace | src/utils/api.js:86 | leading whitespace does not survive a trim |
| Text.Split | src/utils/api.js:82 | `split` on one character: at least one piece, none containing the separator |
| Text.JoinSplit | src/utils/api.js:82 | joining the pieces of a split with its separator gives the string back |
| Text.SplitJoin | src/contexts/AuthContext.js:82 | splitting a join of separator-free pieces gives the pieces back |
| Text.SplitWhitespace | src/utils/api.js:188 | `split(/\s+/)`: at least one piece, none containing whitespace; SplitInterleave and InterleaveSplit pin the pieces to the input |
| Text.Gaps | src/utils/api.js:188 | the runs `split(/\s+/)` cuts at: one fewer than the pieces, each a non-empty whitespace run |
| Text.SplitInterleave | src/utils/api.js:188 | the pieces with the cut runs put back between them give the string back |
| Text.InterleaveSplit | src/utils/api.js:188 | non-empty whitespace-free words separated by any non-empty whitespace runs split into exactly those words |
| Text.TrimSurrounded | src/utils/api.js:188 | whitespace runs on both sides of a string without whitespace at its ends are exactly what `trim` removes |
| Text.WordsOfTrimmedNonEmpty | src/utils/api.js:188 | a trimmed, non-blank message splits into non-empty words |
| Text.SplitWhitespaceJoin | src/utils/api.js:188 | splitting non-empty whitespace-free words joined by single spaces gives the words back |
| Base.FindIndex | src/contexts/AuthContext.js:188 | `findIndex`: -1 exactly when nothing matches, otherwise the first match |
| Base.Find | src/contexts/AuthContext.js:46-48 | `find`: none exactly when nothing matches, otherwise the element at FindIndex |
| Base.Filter | src/utils/localStorage.js:103 | `filter`: only elements that satisfy the predicate, all of them when every element does |
| Base.FilterMember | src/utils/localStorage.js:103 | an element survives exactly when it occurs and satisfies the predicate |
| Base.FilterAppend | src/utils/localStorage.js:103 | filtering distributes over concatenation, so the kept elements stay in order |
| Base.FilterDropsOne | src/utils/localStorage.js:103 | dropping one rejected element between two kept runs joins the runs |
| Auth.LoadUsers | src/contexts/AuthContext.js:42-43 | a missing registry reads as empty, a corrupt one as a parse failure |
| Auth.StripPassword | src/contexts/AuthContext.js:51 | the user without its `password` field and with every other field unchanged |
| Auth.EmailLocalPart | src/contexts/AuthContext.js:82 | the address up to its first `@`: a prefix without `@`, the whole address when it has none |
| Auth.DisplayName | src/contexts/AuthContext.js:82 | the given name when it is truthy, otherwise the local part of the address |
| Auth.NewEmailUser | src/contexts/AuthContext.js:78-86 | id, address, password, display name, provider `email` and a null picture |
| Auth.EmailUserId | src/contexts/AuthContext.js:79 | `user_<millis>_<random>`: starts with `user_`, then the time stamp |
| Auth.GoogleUserId | src/contexts/AuthContext.js:123 | `user_google_<sub>_<millis>`: starts with `user_google_`, then the Google subject |
| Auth.EmailIdIsNotGoogleId | src/contexts/AuthContext.js:79-123 | an email account id with a numeric time stamp is never a Google account id |
| Auth.NewGoogleUser | src/contexts/AuthContext.js:122-130 | id, address, provider `google`, the Google id, and no password |
| Auth.UserInitialData | src/contexts/AuthContext.js:152-168 | no chats, no current chat, default settings, a profile with the user id and the time |
| Auth.RegisterKeepsEmailsUnique | src/contexts/AuthContext.js:73-90 | registration refuses a taken address, so addresses stay unique |
| Auth.GoogleLoginDuplicatesEmail | src/contexts/AuthContext.js:118-133 | a Google sign-in with an address already registered by email leaves two accounts with that address |
| Auth.RegisterThenLogin | src/contexts/AuthContext.js:46-48 | after registering, the address and password find exactly the new account |
| Auth.RegisteredUserStartsEmpty | src/contexts/AuthContext.js:93-99 | after registering, the per-user store sees the new account as logged in, with its initial data |
| Auth.AuthProvider.constructor | src/contexts/AuthContext.js:14-16 | no user, not authenticated, loading |
| Auth.AuthProvider.SignIn | src/contexts/AuthContext.js:52-54 | the user becomes the state's user, authenticated, and the stored session; state and store agree |
| Auth.AuthProvider.CheckAuthStatus | src/contexts/AuthContext.js:23-36 | a stored user is restored as logged in; an unparsable one is ignored; loading ends |
| Auth.AuthProvider.InitializeUserData | src/contexts/AuthContext.js:152-168 | the user's key is (over)written with UserInitialData |
| Auth.AuthProvider.Login | src/contexts/AuthContext.js:39-63 | `Login failed` for a corrupt registry, `Invalid email or password` when nothing matches (both with no write); otherwise the first match, without its password, becomes the session |
| Auth.AuthProvider.Register | src/contexts/AuthContext.js:66-106 | `Registration failed` for a corrupt registry, `Email already registered` for a taken address (both with no write); otherwise one email account is appended, its data initialised, and it becomes the session without its password |
| Auth.AuthProvider.LoginWithGoogle | src/contexts/AuthContext.js:109-149 | `Google login failed` for a corrupt registry; an existing Google account is reused with no registry write; otherwise one Google account is appended and initialised; the account becomes the session |
| Auth.AuthProvider.Logout | src/contexts/AuthContext.js:171-175 | no user, not authenticated, the session key removed; the registry is outside the frame |
| Auth.AuthProvider.UpdateProfile | src/contexts/AuthContext.js:178-194 | nothing without a user; otherwise the session becomes the merge, and only the registry entry with the old id is merged |
| App.ErrorText | src/App.js:185 | `❌ ` followed by the message |
| App.ModelFor | src/App.js:161 | the chat's model when it is truthy, otherwise the default model |
| App.Modalities | src/App.js:164-165 | image modalities exactly when the model id contains `image-preview` or `imagen` |
| App.HistoryOfAppended | src/App.js:166-168 | the history sent after storing the user message is the messages stored before it |
| App.History | src/App.js:169 | `slice(0, -1)`: empty for no messages, otherwise the messages without the last, which appended gives them back |
| App.CatchPathTitle | src/App.js:226-231 | the first min(40, length) characters of the trimmed message, followed by `...` exactly when the untrimmed message is longer than 40 |
| App.AddAppends | src/App.js:173-177 | appending to an existing chat adds one message at its end, changes nothing else and keeps its position |
| App.Add | src/App.js:143-146 | `addMessageToChat`: an unknown chat leaves the store as it is; the number of chats, the current id and the settings never change |
| App.Titled | src/App.js:218 | a blank title or an unknown chat changes nothing; otherwise only that chat changes, gaining the title and keeping its messages |
| App.Replies | src/App.js:173-203 | all replies are from the assistant: the full text once on success, the error text twice on failure |
| App.AfterSend | src/App.js:143-203 | an unknown chat leaves the store as it is; the number of chats, the current id and the settings never change; SendAppends gives the messages added |
| App.AfterRegenerate | src/App.js:283-300 | an unknown chat leaves the store as it is; the number of chats, the current id and the settings never change; EditThenRegenerate gives the messages |
| App.SendAppends | src/App.js:142-210 | on an existing chat, the user message and then the replies are appended to that chat only: one answer, or the error twice; an unknown chat is untouched |
| App.TitleCommutesWithAdd | src/App.js:212-224 | a title write and a message append to the same chat commute, up to the `updatedAt` the later write sets |
| App.RegenerateKeepsTranscript | src/App.js:240-254 | handleRegenerate keeps the chat's transcript whole, followed by a new copy of the user message and the replies |
| App.EditThenRegenerate | src/App.js:312-331 | after an edit, the chat holds the messages before the edited one, the edited message, and exactly one reply |
| App.App.constructor | src/App.js:17 | the key is the sanitised configured value, no chat is selected, and the key is taken as configured |
| App.App.CheckApiConfiguration | src/App.js:50-56 | the flag is the key check |
| App.App.LoadChatsFromStorage | src/App.js:58-69 | a stored current id is kept; otherwise the first chat is selected and persisted; the selection and the store then agree |
| App.App.HandleNewChat | src/App.js:71-76 | an untitled chat is created, placed first and selected |
| App.App.HandleToolSelect | src/App.js:78-84 | a chat with the tool's id and model is created and selected |
| App.App.HandleSelectChat | src/App.js:86-89 | the chat is selected and persisted as current |
| App.App.HandleDeleteChat | src/App.js:91-112 | after deleting the selected chat, the first remaining chat (or none) is selected; deleting any other keeps the selection; selection and store keep agreeing |
| App.App.SendMessageToChat | src/App.js:142-210 | the history is the stored messages before the new user message; the store becomes AfterSend for the transport's result; whatever model the chat names, the request carries the constant model |
| App.App.GenerateChatTitle | src/App.js:212-238 | the title request is TitleRequest of the message; the title is the service's title or the fallback; a non-empty one is written to the chat, a blank one leaves the store untouched |
| App.App.HandleSendMessage | src/App.js:114-140 | nothing without a key; without a selection a new chat is created and selected; a title is generated exactly for a chat that exists, is untitled and is empty |
| App.App.OpenTarget | src/App.js:121-136 | the target chat, created if needed, and whether it still needs a title |
| App.App.RegenerateTarget | src/App.js:240-246 | a target exactly for an assistant message at a position above 0 whose predecessor is a user message; the target is that predecessor |
| App.App.HandleRegenerate | src/App.js:240-254 | no target, no write; otherwise the predecessor's text is sent as a new message to the selected chat, with the whole stored chat as history |
| App.App.RegenerateFromEditedPrompt | src/App.js:257-310 | no user message is added; the stored messages but the last are the history; one reply (or one error) is stored |
| App.App.HandleEditMessage | src/App.js:312-331 | nothing without a selection or a match; otherwise the chat is trimmed at the edited message and regenerated from the edited text, with the messages before it as history |

## Left out

- Rendering, components, the theme and the React state setters are left
  out. Only the store writes and the transport calls decide anything here.
- `fetch`, the headers other than `Authorization`, `temperature`, the body
  reader and the `TextDecoder` are replaced by the `Attempt` oracle.
  Chunk boundaries are given as decoded strings.
- `JSON.parse` and `JSON.stringify` of stored values are not modelled. A
  stored value is missing, corrupt, or a well-formed value. JSON that parses
  but has the wrong shape (a snapshot without `chats`) is not modelled.
- `localStorage.setItem` never fails in the model, so the stores' `saveAllData`
  catch branches (the quota errors) are not modelled.
- `generateId`, `Date.now`, `Math.random` and `new Date().toISOString()` are
  parameters (`Stamp`, `now`, `millis`, `random`). Each operation uses one
  time value; the code may read the clock several times within a call.
- The retry delay, the 500 ms delete delay and every other timer have no
  effect on the data and are left out.
- Overlapping handlers are not modelled; calls run one after another. The
  title request of handleSendMessage runs without being awaited. The model
  applies its title write after the send has finished, which is one of the
  orders the code allows.
- String lengths are counted in characters, not in UTF-16 code units.
- `exportUserDataToFile` is left out. It builds a Blob and clicks a DOM
  anchor, with nothing to store or decide.
- `sendMessageSimple` is left out. No core handler calls it.
- Google OAuth and `jwtDecode` are left out: the sign-in gets the decoded
  profile as a `GoogleProfile`.
- `process.env` is read once, as the `env` parameter of `App.App.constructor`.
- App.App.HandleDeleteChat: the promise that selection and store keep
  agreeing holds only when the deleted id is non-empty.
- App.App.SendMessageToChat, App.App.HandleSendMessage,
  App.App.HandleRegenerate, App.App.RegenerateFromEditedPrompt,
  App.App.HandleEditMessage: the oracle must supply an `Attempt` for every
  call the retry wrapper may make (three).
- App.CatchPathTitle: App's generateChatTitle never reaches its catch
  branch, so no handler writes this title.
- App.App.HandleRegenerate: the displayed chat (`currentChat.messages`) is a
  parameter. When no chat is displayed the code throws; the model then
  returns without a request, and nothing is written.
- The `useAuth` guard and the `loading` flag's effect on rendering are left
  out.
