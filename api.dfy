/** The client of the OpenRouter chat-completions service: API-key clean-up,
    request construction, the streaming reader with its retry wrapper, and
    the title generator with its clean-up and offline fallback.

    The network is an oracle: each call of the transport consumes the next
    `Attempt`, and `parse` stands for `JSON.parse(data).choices[0].delta.content`
    on one `data:` payload (`None` when the payload does not parse or has no
    string there). The callbacks `onChunk`, `onComplete` and `onError` are
    recorded, in order, as a list of `Event`s. */
module Api {
  import opened Base
  import opened Text
  import opened ChatModel

  const MODEL: string := "mistralai/mixtral-8x7b-instruct"
  const OPENROUTER_URL: string := "https://openrouter.ai/api/v1/chat/completions"
  const DEFAULT_ERROR: string := "OpenRouter error"
  const DATA_PREFIX: string := "data:"
  const DONE_MARKER: string := "[DONE]"
  /** The retry count sendMessageStreaming passes to sendWithRetry. */
  const STREAM_RETRIES: nat := 2
  const TITLE_MAX_TOKENS: nat := 30
  const TITLE_SYSTEM_PROMPT: string :=
    "You are a title generator. Generate a short, concise, and descriptive title (3-5 words maximum) for the following conversation. Do not use quotes or punctuation. Just return the title text only."
  const NEW_CHAT_TITLE: string := "New Chat"

  // ---------------------------------------------------------------- API key

  function NotQuote(): char -> bool {
    (c: char) => c != '"'
  }

  function NotSpace(): char -> bool {
    (c: char) => !IsWhitespace(c)
  }

  /** The configured key with every double quote and every whitespace run
      removed, then trimmed. */
  function SanitizeKey(raw: string): (key: string)
    ensures NoWhitespace(key)
    ensures |key| <= |raw|
    ensures key == Filter(Filter(raw, NotQuote()), NotSpace())
  {
    var noQuotes := Filter(raw, NotQuote());
    var noSpaces := Filter(noQuotes, NotSpace());
    TrimNoWhitespace(noSpaces);
    Trim(noSpaces)
  }

  /** `process.env.REACT_APP_OPENROUTER_KEY || ""`: an unset variable reads as
      the empty string, a set one as its value. */
  function RawKey(env: Option<string>): (raw: string)
    ensures raw == "" <==> env.None? || env.value == ""
    ensures env.Some? ==> raw == env.value
  {
    if env.Some? then env.value else ""
  }

  /** The module's key: the configured value, sanitised. */
  method LoadKey(env: Option<string>) returns (key: string)
    ensures key == SanitizeKey(RawKey(env))
  {
    key := SanitizeKey(RawKey(env));
  }

  /** The key keeps exactly the characters of the raw value that are neither
      double quotes nor whitespace. */
  lemma SanitizeKeyChars(raw: string, c: char)
    ensures c in SanitizeKey(raw) <==> c in raw && c != '"' && !IsWhitespace(c)
  {
    var noQuotes := Filter(raw, NotQuote());
    FilterMember(raw, NotQuote(), c);
    FilterMember(noQuotes, NotSpace(), c);
  }

  /** Cleaning an already clean key changes nothing. */
  lemma SanitizeKeyIdempotent(raw: string)
    ensures SanitizeKey(SanitizeKey(raw)) == SanitizeKey(raw)
  {
    var key := SanitizeKey(raw);
    forall k | 0 <= k < |key| ensures NotQuote()(key[k]) && NotSpace()(key[k]) {
      assert key[k] in key;
      SanitizeKeyChars(raw, key[k]);
    }
    assert Filter(key, NotQuote()) == key;
    assert Filter(key, NotSpace()) == key;
  }

  /** Double quotes and whitespace around the key (as a `.env` file may add)
      do not reach the request. */
  lemma SanitizeKeyStripsDecoration(pre: string, key: string, post: string)
    requires forall k :: 0 <= k < |pre| ==> pre[k] == '"' || IsWhitespace(pre[k])
    requires forall k :: 0 <= k < |post| ==> post[k] == '"' || IsWhitespace(post[k])
    ensures SanitizeKey(pre + key + post) == SanitizeKey(key)
  {
    FilterAppend(pre + key, post, NotQuote());
    FilterAppend(pre, key, NotQuote());
    var q1 := Filter(pre, NotQuote());
    var q2 := Filter(key, NotQuote());
    var q3 := Filter(post, NotQuote());
    assert Filter(pre + key + post, NotQuote()) == q1 + q2 + q3;
    forall k | 0 <= k < |q1| ensures !NotSpace()(q1[k]) {
      FilterMember(pre, NotQuote(), q1[k]);
    }
    forall k | 0 <= k < |q3| ensures !NotSpace()(q3[k]) {
      FilterMember(post, NotQuote(), q3[k]);
    }
    FilterNone(q1, NotSpace());
    FilterNone(q3, NotSpace());
    FilterAppend(q1 + q2, q3, NotSpace());
    FilterAppend(q1, q2, NotSpace());
    assert [] + Filter(q2, NotSpace()) + [] == Filter(q2, NotSpace());
  }

  /** checkAPIKey: the cleaned key is longer than ten characters. */
  function CheckApiKey(key: string): (ok: bool)
    ensures ok <==> 10 < |key|
  {
    |key| > 10
  }

  /** A key of more than ten characters, none a double quote or whitespace,
      passes the check however it is wrapped in double quotes and whitespace. */
  lemma CheckAcceptsDecoratedKey(pre: string, key: string, post: string)
    requires forall k :: 0 <= k < |pre| ==> pre[k] == '"' || IsWhitespace(pre[k])
    requires forall k :: 0 <= k < |post| ==> post[k] == '"' || IsWhitespace(post[k])
    requires forall k :: 0 <= k < |key| ==> key[k] != '"' && !IsWhitespace(key[k])
    requires |key| > 10
    ensures CheckApiKey(SanitizeKey(pre + key + post))
  {
    SanitizeKeyStripsDecoration(pre, key, post);
    assert Filter(key, NotQuote()) == key;
    assert Filter(key, NotSpace()) == key;
  }

  /** A configured value of at most ten characters never passes the check. */
  lemma CheckRejectsShortValue(env: Option<string>)
    requires |RawKey(env)| <= 10
    ensures !CheckApiKey(SanitizeKey(RawKey(env)))
  {
  }

  // ---------------------------------------------------------------- requests

  datatype WireMessage = WireMessage(role: string, content: string)

  /** The parts of a POST to the service that the model keeps: the URL, the
      `Authorization` header and the JSON body's `model`, `messages`,
      `stream` and `max_tokens`. */
  datatype Request = Request(
    url: string,
    authorization: string,
    model: string,
    messages: seq<WireMessage>,
    stream: bool,
    maxTokens: Option<nat>)

  function RoleName(r: Role): string {
    match r
    case User => "user"
    case Assistant => "assistant"
  }

  /** A stored message as sent: role and content only. */
  function Wire(m: Message): WireMessage {
    WireMessage(RoleName(m.role), m.content)
  }

  function WireAll(ms: seq<Message>): (r: seq<WireMessage>)
    ensures |r| == |ms| && forall k :: 0 <= k < |ms| ==> r[k] == Wire(ms[k])
  {
    if ms == [] then [] else [Wire(ms[0])] + WireAll(ms[1..])
  }

  /** The streaming request: the history (role and content only), then the new
      user message, always for MODEL. */
  function StreamingRequest(key: string, message: string, history: seq<Message>): (r: Request)
    ensures r.url == OPENROUTER_URL && r.authorization == "Bearer " + key
    ensures r.model == MODEL && r.stream && r.maxTokens.None?
    ensures |r.messages| == |history| + 1
    ensures forall k :: 0 <= k < |history| ==>
      r.messages[k].role == RoleName(history[k].role) && r.messages[k].content == history[k].content
    ensures r.messages[|history|] == WireMessage("user", message)
  {
    Request(OPENROUTER_URL, "Bearer " + key, MODEL, WireAll(history) + [WireMessage("user", message)], true, None)
  }

  /** The opening of the title request's user prompt; the message follows in
      double quotes. */
  const TITLE_PROMPT := "Generate a title for this message: \""

  /** The title request: the fixed system prompt and the first message quoted
      in a user prompt, not streamed, at most 30 tokens. */
  function TitleRequest(key: string, firstMessage: string): (r: Request)
    ensures r.url == OPENROUTER_URL && r.authorization == "Bearer " + key
    ensures r.model == MODEL && !r.stream && r.maxTokens == Some(TITLE_MAX_TOKENS)
    ensures |r.messages| == 2 && r.messages[0] == WireMessage("system", TITLE_SYSTEM_PROMPT)
    ensures r.messages[1] == WireMessage("user", TITLE_PROMPT + firstMessage + "\"")
    ensures Contains(r.messages[1].content, firstMessage)
  {
    var prefix := TITLE_PROMPT;
    var content := prefix + firstMessage + "\"";
    assert content[|prefix|..][..|firstMessage|] == firstMessage;
    ContainsAt(content, |prefix|, firstMessage);
    Request(OPENROUTER_URL, "Bearer " + key, MODEL,
      [WireMessage("system", TITLE_SYSTEM_PROMPT), WireMessage("user", content)], false, Some(TITLE_MAX_TOKENS))
  }

  /** `sub` occurring at position `i` is found by `includes`. */
  lemma {:induction false} ContainsAt(s: string, i: nat, sub: string)
    requires i + |sub| <= |s| && s[i..i + |sub|] == sub
    ensures Contains(s, sub)
    decreases i
  {
    if i > 0 {
      assert s[1..][i - 1..i - 1 + |sub|] == sub;
      ContainsAt(s[1..], i - 1, sub);
    }
  }

  // ---------------------------------------------------------------- stream

  /** What the reader makes of one line of a chunk. */
  datatype LineKind = Skip | Done | Token(token: string)

  /** A line counts only when it starts with `data:`; its payload is the rest,
      trimmed (the first `data:` is the one at the start). `[DONE]` ends the
      chunk; a payload whose content is a non-empty string is a token; any
      other payload, including one that does not parse, is skipped. */
  function ClassifyLine(line: string, parse: string -> Option<string>): (k: LineKind)
    ensures !StartsWith(line, DATA_PREFIX) ==> k.Skip?
    ensures k.Done? <==> StartsWith(line, DATA_PREFIX) && Trim(line[|DATA_PREFIX|..]) == DONE_MARKER
    ensures k.Token? <==> (StartsWith(line, DATA_PREFIX) && Trim(line[|DATA_PREFIX|..]) != DONE_MARKER
      && parse(Trim(line[|DATA_PREFIX|..])).Some? && parse(Trim(line[|DATA_PREFIX|..])).value != "")
    ensures k.Token? ==> k.token != "" && k.token == parse(Trim(line[|DATA_PREFIX|..])).value
  {
    if !StartsWith(line, DATA_PREFIX) then Skip
    else
      var data := Trim(line[|DATA_PREFIX|..]);
      if data == DONE_MARKER then Done
      else
        match parse(data)
        case Some(t) => if t != "" then Token(t) else Skip
        case None => Skip
  }

  predicate NoDone(lines: seq<string>, parse: string -> Option<string>) {
    forall k :: 0 <= k < |lines| ==> !ClassifyLine(lines[k], parse).Done?
  }

  /** The tokens of the lines of one chunk, up to its first `[DONE]` line. */
  function LinesTokens(lines: seq<string>, parse: string -> Option<string>): (r: seq<string>)
    ensures forall k :: 0 <= k < |r| ==> r[k] != ""
    ensures |r| <= |lines|
  {
    if lines == [] then []
    else
      match ClassifyLine(lines[0], parse)
      case Done => []
      case Token(t) => [t] + LinesTokens(lines[1..], parse)
      case Skip => LinesTokens(lines[1..], parse)
  }

  function ChunkTokens(chunk: string, parse: string -> Option<string>): seq<string> {
    LinesTokens(Split(chunk, '\n'), parse)
  }

  /** The tokens of a whole stream: each chunk is split into lines on its own,
      so `[DONE]` only ends the chunk it is in. */
  function StreamTokens(chunks: seq<string>, parse: string -> Option<string>): (r: seq<string>)
    ensures forall k :: 0 <= k < |r| ==> r[k] != ""
  {
    if chunks == [] then []
    else
      var head := ChunkTokens(chunks[0], parse);
      var rest := StreamTokens(chunks[1..], parse);
      assert forall k :: |head| <= k < |head + rest| ==> (head + rest)[k] == rest[k - |head|];
      head + rest
  }

  /** `fullText` after the tokens were appended one by one. */
  function Concat(tokens: seq<string>): string {
    if tokens == [] then "" else Concat(tokens[..|tokens| - 1]) + tokens[|tokens| - 1]
  }

  /** The callbacks, in the order they are made. */
  datatype Event = Chunk(token: string, soFar: string) | Complete(text: string) | Error(message: string)

  /** One `onChunk(token, fullText)` per token. */
  function TokenEvents(tokens: seq<string>): (r: seq<Event>)
    ensures |r| == |tokens|
  {
    if tokens == [] then []
    else TokenEvents(tokens[..|tokens| - 1]) + [Chunk(tokens[|tokens| - 1], Concat(tokens))]
  }

  predicate AllChunks(events: seq<Event>) {
    forall k :: 0 <= k < |events| ==> events[k].Chunk?
  }

  /** The reader loop of one successful response: every chunk is split into
      lines, `[DONE]` breaks out of the lines of that chunk only, and each
      token extends `fullText` and is reported with it. */
  method ReadStream(chunks: seq<string>, parse: string -> Option<string>) returns (fullText: string, events: seq<Event>)
    ensures fullText == Concat(StreamTokens(chunks, parse))
    ensures events == TokenEvents(StreamTokens(chunks, parse))
  {
    ghost var seen: seq<string> := [];
    fullText := "";
    events := [];
    var i := 0;
    while i < |chunks|
      invariant 0 <= i <= |chunks|
      invariant seen + StreamTokens(chunks[i..], parse) == StreamTokens(chunks, parse)
      invariant fullText == Concat(seen) && events == TokenEvents(seen)
    {
      var lines := Split(chunks[i], '\n');
      StreamTokensStep(chunks, i, parse);
      ghost var found := LinesTokens(lines, parse);
      fullText, events := ReadLines(lines, parse, fullText, events, seen);
      AppendAssoc(seen, found, StreamTokens(chunks[i + 1..], parse));
      seen := seen + found;
      i := i + 1;
    }
    assert chunks[i..] == [];
    AppendEmpty(seen);
  }

  /** The inner loop over the lines of one chunk, continuing the text and
      callbacks of the tokens `seen` so far. */
  method ReadLines(lines: seq<string>, parse: string -> Option<string>, text: string, reported: seq<Event>, ghost seen: seq<string>)
    returns (fullText: string, events: seq<Event>)
    requires text == Concat(seen) && reported == TokenEvents(seen)
    ensures fullText == Concat(seen + LinesTokens(lines, parse))
    ensures events == TokenEvents(seen + LinesTokens(lines, parse))
  {
    fullText, events := text, reported;
    ghost var got := seen;
    var j := 0;
    while j < |lines|
      invariant 0 <= j <= |lines|
      invariant got + LinesTokens(lines[j..], parse) == seen + LinesTokens(lines, parse)
      invariant fullText == Concat(got) && events == TokenEvents(got)
    {
      var kind := ClassifyLine(lines[j], parse);
      LinesTokensStep(lines, j, parse);
      if kind.Done? {
        AppendEmpty(got);
        return;
      }
      if kind.Token? {
        TokenStep(got, kind.token);
        AppendAssoc(got, [kind.token], LinesTokens(lines[j + 1..], parse));
        got := got + [kind.token];
        fullText := fullText + kind.token;
        events := events + [Chunk(kind.token, fullText)];
      }
      j := j + 1;
    }
    assert lines[j..] == [];
    AppendEmpty(got);
  }

  /** The tokens of the stream from chunk `i` on: those of chunk `i`, then the rest. */
  lemma StreamTokensStep(chunks: seq<string>, i: nat, parse: string -> Option<string>)
    requires i < |chunks|
    ensures StreamTokens(chunks[i..], parse) == LinesTokens(Split(chunks[i], '\n'), parse) + StreamTokens(chunks[i + 1..], parse)
  {
    assert chunks[i..][1..] == chunks[i + 1..];
  }

  /** The tokens of the lines from line `j` on, by the kind of line `j`. */
  lemma LinesTokensStep(lines: seq<string>, j: nat, parse: string -> Option<string>)
    requires j < |lines|
    ensures ClassifyLine(lines[j], parse).Done? ==> LinesTokens(lines[j..], parse) == []
    ensures ClassifyLine(lines[j], parse).Skip? ==> LinesTokens(lines[j..], parse) == LinesTokens(lines[j + 1..], parse)
    ensures ClassifyLine(lines[j], parse).Token? ==>
      LinesTokens(lines[j..], parse) == [ClassifyLine(lines[j], parse).token] + LinesTokens(lines[j + 1..], parse)
  {
    assert lines[j..][1..] == lines[j + 1..];
  }

  /** Appending one token extends the text by it and adds one `onChunk`. */
  lemma TokenStep(seen: seq<string>, t: string)
    ensures Concat(seen + [t]) == Concat(seen) + t
    ensures TokenEvents(seen + [t]) == TokenEvents(seen) + [Chunk(t, Concat(seen) + t)]
  {
    assert (seen + [t])[..|seen|] == seen;
  }

  /** The text of a stream is the concatenation of the texts of its parts. */
  lemma {:induction false} StreamTokensAppend(a: seq<string>, b: seq<string>, parse: string -> Option<string>)
    ensures StreamTokens(a + b, parse) == StreamTokens(a, parse) + StreamTokens(b, parse)
  {
    if a == [] {
      assert a + b == b;
    } else {
      assert (a + b)[1..] == a[1..] + b;
      StreamTokensAppend(a[1..], b, parse);
    }
  }

  /** `[DONE]` drops the rest of its chunk: the lines after it yield nothing. */
  lemma {:induction false} DoneEndsChunk(before: seq<string>, done: string, after: seq<string>, parse: string -> Option<string>)
    requires NoDone(before, parse) && ClassifyLine(done, parse).Done?
    ensures LinesTokens(before + [done] + after, parse) == LinesTokens(before, parse)
  {
    if before == [] {
      assert before + [done] + after == [done] + after;
    } else {
      assert (before + [done] + after)[1..] == before[1..] + [done] + after;
      DoneEndsChunk(before[1..], done, after, parse);
    }
  }

  /** `[DONE]` does not end the stream: a chunk that starts with it
      contributes nothing, and later chunks are still read. */
  lemma DoneDoesNotEndStream(first: string, rest: seq<string>, parse: string -> Option<string>)
    requires ClassifyLine(Split(first, '\n')[0], parse).Done?
    ensures StreamTokens([first] + rest, parse) == StreamTokens(rest, parse)
  {
    assert ([first] + rest)[1..] == rest;
  }

  /** Appending tokens appends their texts. */
  lemma {:induction false} ConcatAppend(a: seq<string>, b: seq<string>)
    ensures Concat(a + b) == Concat(a) + Concat(b)
    decreases |b|
  {
    if b == [] {
      assert a + b == a;
    } else {
      var b' := b[..|b| - 1];
      var x := b[|b| - 1];
      assert (a + b)[..|a + b| - 1] == a + b';
      assert (a + b)[|a + b| - 1] == x;
      assert Concat(a + b) == Concat(a + b') + x;
      ConcatAppend(a, b');
      assert Concat(b) == Concat(b') + x;
    }
  }

  /** The k-th `onChunk` carries the k-th token and the text of the first k+1 tokens. */
  lemma {:induction false} TokenEventsAt(tokens: seq<string>, k: int)
    requires 0 <= k < |tokens|
    ensures TokenEvents(tokens)[k] == Chunk(tokens[k], Concat(tokens[..k + 1]))
    decreases |tokens|
  {
    var n := |tokens| - 1;
    if k < n {
      TokenEventsAt(tokens[..n], k);
      assert tokens[..n][..k + 1] == tokens[..k + 1];
    } else {
      assert tokens[..k + 1] == tokens;
    }
  }

  /** Within one response the text reported by `onChunk` strictly grows, each
      report extending the previous one. */
  lemma SoFarGrows(tokens: seq<string>, j: int, k: int)
    requires forall m :: 0 <= m < |tokens| ==> tokens[m] != ""
    requires 0 <= j < k < |tokens|
    ensures TokenEvents(tokens)[j].Chunk? && TokenEvents(tokens)[k].Chunk?
    ensures TokenEvents(tokens)[j].soFar < TokenEvents(tokens)[k].soFar
  {
    TokenEventsAt(tokens, j);
    TokenEventsAt(tokens, k);
    ConcatGrows(tokens[..k + 1], j + 1);
    assert tokens[..k + 1][..j + 1] == tokens[..j + 1];
  }

  /** A longer prefix of non-empty tokens has a strictly longer text, extending the shorter one. */
  lemma ConcatGrows(tokens: seq<string>, n: nat)
    requires forall m :: 0 <= m < |tokens| ==> tokens[m] != ""
    requires n < |tokens|
    ensures Concat(tokens[..n]) < Concat(tokens)
  {
    var a := tokens[..n];
    var b := tokens[n..];
    assert a + b == tokens;
    ConcatAppend(a, b);
    assert b[|b| - 1] != "";
    assert |Concat(b)| > 0;
  }

  /** The last `onChunk` of a response reports the text `onComplete` receives. */
  lemma LastChunkIsFullText(tokens: seq<string>)
    requires tokens != []
    ensures TokenEvents(tokens)[|tokens| - 1] == Chunk(tokens[|tokens| - 1], Concat(tokens))
  {
    TokenEventsAt(tokens, |tokens| - 1);
    assert tokens[..|tokens|] == tokens;
  }

  lemma {:induction false} TokenEventsAreChunks(tokens: seq<string>)
    ensures AllChunks(TokenEvents(tokens))
    decreases |tokens|
  {
    if tokens != [] {
      TokenEventsAreChunks(tokens[..|tokens| - 1]);
    }
  }

  // ---------------------------------------------------------------- transport

  /** What one call of the transport meets: `fetch` rejects, the response is
      not ok (with its body text), or the body streams the given chunks and
      then ends or, with `failure`, makes the reader throw. */
  datatype Attempt = Rejected(reason: string) | NotOk(body: string) | Streamed(chunks: seq<string>, failure: Option<string>)

  function AttemptTokens(a: Attempt, parse: string -> Option<string>): seq<string> {
    if a.Streamed? then StreamTokens(a.chunks, parse) else []
  }

  /** The value one call returns, or the message of the error it throws; a
      non-ok response with an empty body throws "OpenRouter error". */
  function AttemptOutcome(a: Attempt, parse: string -> Option<string>): (r: Result<string, string>)
    ensures r.Success? <==> a.Streamed? && a.failure.None?
    ensures r.Success? ==> r.value == Concat(AttemptTokens(a, parse))
    ensures a.NotOk? ==> r == Failure(if a.body == "" then DEFAULT_ERROR else a.body)
  {
    match a
    case Rejected(reason) => Failure(reason)
    case NotOk(body) => Failure(if body == "" then DEFAULT_ERROR else body)
    case Streamed(chunks, failure) =>
      if failure.Some? then Failure(failure.value) else Success(Concat(StreamTokens(chunks, parse)))
  }

  /** The callbacks one call makes: an `onChunk` per token read, then
      `onComplete` once if the body ended normally. */
  function AttemptEvents(a: Attempt, parse: string -> Option<string>): seq<Event> {
    var chunks := TokenEvents(AttemptTokens(a, parse));
    if AttemptOutcome(a, parse).Success? then chunks + [Complete(AttemptOutcome(a, parse).value)] else chunks
  }

  /** A failed call made only `onChunk` callbacks; a successful one ends with
      its single `onComplete`, carrying the returned text. */
  lemma AttemptEventsShape(a: Attempt, parse: string -> Option<string>)
    ensures var r := AttemptEvents(a, parse);
      if AttemptOutcome(a, parse).Failure? then AllChunks(r)
      else |r| > 0 && AllChunks(r[..|r| - 1]) && r[|r| - 1] == Complete(AttemptOutcome(a, parse).value)
  {
    TokenEventsAreChunks(AttemptTokens(a, parse));
    var chunks := TokenEvents(AttemptTokens(a, parse));
    var r := AttemptEvents(a, parse);
    if AttemptOutcome(a, parse).Success? {
      assert r[..|r| - 1] == chunks;
    }
  }

  /** One call of the transport (`fetchFn`). */
  method RunAttempt(a: Attempt, parse: string -> Option<string>) returns (r: Result<string, string>, events: seq<Event>)
    ensures r == AttemptOutcome(a, parse) && events == AttemptEvents(a, parse)
  {
    match a {
      case Rejected(reason) =>
        r := Failure(reason);
        events := [];
      case NotOk(body) =>
        r := Failure(if body == "" then DEFAULT_ERROR else body);
        events := [];
      case Streamed(chunks, failure) =>
        var text;
        text, events := ReadStream(chunks, parse);
        if failure.Some? {
          r := Failure(failure.value);
        } else {
          events := events + [Complete(text)];
          r := Success(text);
        }
    }
  }

  /** sendWithRetry from call `i` on: the index of the call that ends it, the
      first successful one or else call `retries`, whose error is rethrown. */
  function LastCall(attempts: seq<Attempt>, parse: string -> Option<string>, retries: nat, i: nat): (n: nat)
    requires i <= retries < |attempts|
    ensures i <= n <= retries
    ensures forall k :: i <= k < n ==> AttemptOutcome(attempts[k], parse).Failure?
    ensures AttemptOutcome(attempts[n], parse).Success? || n == retries
    decreases retries - i
  {
    if AttemptOutcome(attempts[i], parse).Success? || i == retries then i
    else LastCall(attempts, parse, retries, i + 1)
  }

  /** The callbacks of the first `n` calls, in order. */
  function CallEvents(attempts: seq<Attempt>, parse: string -> Option<string>, n: nat): seq<Event>
    requires n <= |attempts|
  {
    if n == 0 then [] else CallEvents(attempts, parse, n - 1) + AttemptEvents(attempts[n - 1], parse)
  }

  /** sendWithRetry succeeds exactly when one of its first `retries + 1`
      calls does, and then returns the first successful one. */
  lemma RetrySucceedsIff(attempts: seq<Attempt>, parse: string -> Option<string>, retries: nat)
    requires retries < |attempts|
    ensures var n := LastCall(attempts, parse, retries, 0);
      AttemptOutcome(attempts[n], parse).Success? <==>
      exists k :: 0 <= k <= retries && AttemptOutcome(attempts[k], parse).Success?
  {
    var n := LastCall(attempts, parse, retries, 0);
    if AttemptOutcome(attempts[n], parse).Failure? {
      forall k | 0 <= k <= retries ensures AttemptOutcome(attempts[k], parse).Failure? {
        if k < n {
          assert AttemptOutcome(attempts[k], parse).Failure?;
        }
      }
    }
  }

  /** The retry loop. `attempts` holds what each of the at most
      `retries + 1` calls would meet; the delay between calls is not modelled. */
  method SendWithRetry(attempts: seq<Attempt>, parse: string -> Option<string>, retries: nat)
    returns (r: Result<string, string>, calls: nat, events: seq<Event>)
    requires retries < |attempts|
    ensures calls == LastCall(attempts, parse, retries, 0) + 1
    ensures r == AttemptOutcome(attempts[calls - 1], parse)
    ensures events == CallEvents(attempts, parse, calls)
  {
    var i: nat := 0;
    events := [];
    while true
      invariant i <= retries
      invariant LastCall(attempts, parse, retries, i) == LastCall(attempts, parse, retries, 0)
      invariant events == CallEvents(attempts, parse, i)
      decreases retries - i
    {
      var ev;
      r, ev := RunAttempt(attempts[i], parse);
      events := events + ev;
      if r.Success? || i == retries {
        calls := i + 1;
        return;
      }
      i := i + 1;
    }
  }

  /** The final result of sendMessageStreaming's transport. */
  function StreamingResult(attempts: seq<Attempt>, parse: string -> Option<string>): Result<string, string>
    requires STREAM_RETRIES < |attempts|
  {
    AttemptOutcome(attempts[LastCall(attempts, parse, STREAM_RETRIES, 0)], parse)
  }

  /** The callbacks of a whole sendMessageStreaming: those of the calls, then
      `onError` once if the last call failed. */
  function StreamingEvents(attempts: seq<Attempt>, parse: string -> Option<string>): seq<Event>
    requires STREAM_RETRIES < |attempts|
  {
    var events := CallEvents(attempts, parse, LastCall(attempts, parse, STREAM_RETRIES, 0) + 1);
    var r := StreamingResult(attempts, parse);
    if r.Failure? then events + [Error(r.error)] else events
  }

  /** Failed calls make only `onChunk` callbacks. */
  lemma {:induction false} FailedCallsEvents(attempts: seq<Attempt>, parse: string -> Option<string>, n: nat)
    requires n <= |attempts|
    requires forall k :: 0 <= k < n ==> AttemptOutcome(attempts[k], parse).Failure?
    ensures AllChunks(CallEvents(attempts, parse, n))
  {
    if n > 0 {
      FailedCallsEvents(attempts, parse, n - 1);
      AttemptEventsShape(attempts[n - 1], parse);
    }
  }

  /** Exactly one of `onComplete` and `onError` is made, as the last callback,
      and it carries the returned text or the thrown message; every earlier
      callback is an `onChunk`. */
  lemma StreamingCallbacks(attempts: seq<Attempt>, parse: string -> Option<string>)
    requires STREAM_RETRIES < |attempts|
    ensures var e := StreamingEvents(attempts, parse); var r := StreamingResult(attempts, parse);
      |e| > 0 && AllChunks(e[..|e| - 1])
      && e[|e| - 1] == (if r.Success? then Complete(r.value) else Error(r.error))
  {
    var n := LastCall(attempts, parse, STREAM_RETRIES, 0);
    var before := CallEvents(attempts, parse, n);
    var last := AttemptEvents(attempts[n], parse);
    FailedCallsEvents(attempts, parse, n);
    AttemptEventsShape(attempts[n], parse);
    var e := StreamingEvents(attempts, parse);
    if StreamingResult(attempts, parse).Failure? {
      assert e == before + last + [Error(StreamingResult(attempts, parse).error)];
      assert e[..|e| - 1] == before + last;
    } else {
      assert e == before + last;
      assert e[..|e| - 1] == before + last[..|last| - 1];
    }
  }

  /** sendMessageStreaming: build the request, run the transport with two
      retries, and report the final error through `onError` before rethrowing it. */
  method SendMessageStreaming(key: string, message: string, history: seq<Message>,
                              attempts: seq<Attempt>, parse: string -> Option<string>)
    returns (request: Request, r: Result<string, string>, events: seq<Event>)
    requires STREAM_RETRIES < |attempts|
    ensures request == StreamingRequest(key, message, history)
    ensures r == StreamingResult(attempts, parse)
    ensures events == StreamingEvents(attempts, parse)
  {
    request := StreamingRequest(key, message, history);
    var calls;
    r, calls, events := SendWithRetry(attempts, parse, STREAM_RETRIES);
    if r.Failure? {
      events := events + [Error(r.error)];
    }
  }

  // ---------------------------------------------------------------- titles

  predicate IsQuote(c: char) {
    c == '"' || c == '\''
  }

  predicate IsTerminal(c: char) {
    c == '.' || c == '!' || c == '?'
  }

  /** `s.replace(/^["']|["']$/g, '')`: one quote at the start and one at the
      end are removed (a lone quote is removed once). */
  function StripQuotes(s: string): (r: string)
    ensures |s| > 0 && IsQuote(s[0]) && |s| > 1 && IsQuote(s[|s| - 1]) ==> r == s[1..|s| - 1]
    ensures |s| > 0 && IsQuote(s[0]) && (|s| == 1 || !IsQuote(s[|s| - 1])) ==> r == s[1..]
    ensures (|s| == 0 || !IsQuote(s[0])) && |s| > 0 && IsQuote(s[|s| - 1]) ==> r == s[..|s| - 1]
    ensures (|s| == 0 || !IsQuote(s[0])) && (|s| == 0 || !IsQuote(s[|s| - 1])) ==> r == s
  {
    var a := if |s| > 0 && IsQuote(s[0]) then s[1..] else s;
    if |a| > 0 && IsQuote(a[|a| - 1]) then a[..|a| - 1] else a
  }

  /** `s.replace(/[.!?]+$/, '')`: the maximal trailing run of `.`, `!` and `?` is removed. */
  function StripTerminal(s: string): (r: string)
    ensures |r| <= |s| && r == s[..|r|]
    ensures forall k :: |r| <= k < |s| ==> IsTerminal(s[k])
    ensures r == [] || !IsTerminal(r[|r| - 1])
  {
    if s != [] && IsTerminal(s[|s| - 1]) then StripTerminal(s[..|s| - 1]) else s
  }

  /** A string longer than 50 characters becomes its first 47 and `...`. */
  function Truncate(s: string): (r: string)
    ensures |r| <= 50
    ensures |s| <= 50 ==> r == s
    ensures |s| > 50 ==> r == s[..47] + "..."
  {
    if |s| > 50 then s[..47] + "..." else s
  }

  /** The clean-up of a title the service returned. */
  function CleanTitle(content: string): (title: string)
    ensures 0 < |title| <= 50
    ensures var cleaned := Trim(StripTerminal(StripQuotes(Trim(content))));
      if cleaned == "" then title == NEW_CHAT_TITLE
      else if |cleaned| <= 50 then title == cleaned
      else title == cleaned[..47] + "..."
  {
    var t := Truncate(Trim(StripTerminal(StripQuotes(Trim(content)))));
    if t == "" then NEW_CHAT_TITLE else t
  }

  /** A title that needs no clean-up is kept as it is. */
  lemma CleanTitleOfClean(title: string)
    requires 0 < |title| <= 50
    requires !IsWhitespace(title[0]) && !IsWhitespace(title[|title| - 1])
    requires !IsQuote(title[0]) && !IsQuote(title[|title| - 1]) && !IsTerminal(title[|title| - 1])
    ensures CleanTitle(title) == title
  {
    TrimOfTrimmed(title);
    assert StripQuotes(title) == title;
    assert StripTerminal(title) == title;
  }

  /** The offline title: the first five whitespace-separated words of the
      trimmed message, joined by single spaces and truncated. */
  function FallbackTitle(firstMessage: string): (title: string)
    ensures |title| <= 50
  {
    var words := SplitWhitespace(Trim(firstMessage));
    Truncate(Join(words[..if |words| < 5 then |words| else 5], " "))
  }

  /** The fallback title is empty exactly when the message is blank. */
  lemma FallbackEmptyIff(firstMessage: string)
    ensures FallbackTitle(firstMessage) == "" <==> Trim(firstMessage) == ""
  {
    var t := Trim(firstMessage);
    var words := SplitWhitespace(t);
    var first := words[..if |words| < 5 then |words| else 5];
    if t != "" {
      WordsOfTrimmedNonEmpty(t);
      assert first[0] == words[0];
      JoinStartsWith(first, " ");
    } else {
      assert LeadingWord(t) == t;
      assert words == [""];
    }
  }

  /** A short message of at most five words separated by single spaces is its
      own fallback title. */
  lemma FallbackOfShortMessage(words: seq<string>)
    requires 1 <= |words| <= 5
    requires forall k :: 0 <= k < |words| ==> words[k] != [] && NoWhitespace(words[k])
    requires |Join(words, " ")| <= 50
    ensures FallbackTitle(Join(words, " ")) == Join(words, " ")
  {
    var s := Join(words, " ");
    JoinedWordsTrimmed(words);
    SplitWhitespaceJoin(words);
    FallbackOfWords(s, words);
  }

  /** For every non-blank message, written as its words with whitespace runs
      between them and around them, the fallback title is the first five words
      joined by single spaces and truncated. */
  lemma FallbackOfMessage(lead: string, words: seq<string>, gaps: seq<string>, trail: string)
    requires |words| == |gaps| + 1
    requires forall k :: 0 <= k < |words| ==> words[k] != [] && NoWhitespace(words[k])
    requires forall k :: 0 <= k < |gaps| ==> gaps[k] != [] && AllWhitespace(gaps[k])
    requires AllWhitespace(lead) && AllWhitespace(trail)
    ensures FallbackTitle(lead + Interleave(words, gaps) + trail)
         == Truncate(Join(words[..if |words| < 5 then |words| else 5], " "))
  {
    var core := Interleave(words, gaps);
    InterleaveEnds(words, gaps);
    TrimSurrounded(lead, core, trail);
    InterleaveSplit(words, gaps);
  }

  /** A message of more than five words separated by single spaces: the
      fallback title keeps only the first five. */
  lemma FallbackOfLongMessage(words: seq<string>)
    requires |words| > 5
    requires forall k :: 0 <= k < |words| ==> words[k] != [] && NoWhitespace(words[k])
    ensures FallbackTitle(Join(words, " ")) == Truncate(Join(words[..5], " "))
  {
    JoinedWordsTrimmed(words);
    SplitWhitespaceJoin(words);
  }

  lemma JoinedWordsTrimmed(words: seq<string>)
    requires |words| >= 1
    requires forall k :: 0 <= k < |words| ==> words[k] != [] && NoWhitespace(words[k])
    ensures Trim(Join(words, " ")) == Join(words, " ")
  {
    JoinStartsWith(words, " ");
    JoinEndsWith(words, " ");
    assert !IsWhitespace(words[0][0]);
    assert !IsWhitespace(words[|words| - 1][|words[|words| - 1]| - 1]);
    TrimOfTrimmed(Join(words, " "));
  }

  /** A trimmed string of at most five words and fifty characters that is
      those words joined by spaces is its own fallback title. */
  lemma FallbackOfWords(s: string, words: seq<string>)
    requires Trim(s) == s && SplitWhitespace(s) == words && Join(words, " ") == s
    requires |words| <= 5 && |s| <= 50
    ensures FallbackTitle(s) == s
  {
    assert words[..|words|] == words;
  }

  lemma {:induction false} JoinEndsWith(words: seq<string>, sep: string)
    requires |words| >= 1 && words[|words| - 1] != []
    ensures Join(words, sep) != [] && Join(words, sep)[|Join(words, sep)| - 1] == words[|words| - 1][|words[|words| - 1]| - 1]
  {
    if |words| > 1 {
      JoinEndsWith(words[1..], sep);
    }
  }

  /** generateChatTitle: `response` is the content of the service's answer,
      `None` when the request fails in any way (rejected, not ok, no content),
      which selects the fallback. */
  function GenerateChatTitle(firstMessage: string, response: Option<string>): (title: string)
    ensures |title| <= 50
    ensures response.Some? ==> title != ""
    ensures title == "" <==> response.None? && Trim(firstMessage) == ""
  {
    FallbackEmptyIff(firstMessage);
    if response.Some? then CleanTitle(response.value) else FallbackTitle(firstMessage)
  }
}
