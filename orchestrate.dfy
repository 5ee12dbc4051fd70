/**
 * The Watson Orchestrate chat client (conversation/watsonx.py): a bearer token
 * from the token cache, the conversation's stored thread id as a header, and the
 * thread id of the reply stored for the next turn. The HTTP reply is an argument.
 */
module Orchestrate {
  import opened Wrappers
  import opened Values
  import opened ThreadSessions
  import opened TokenCache

  /** `choices[i].message.content`; `None` stands for a JSON `null`. */
  datatype Choice = Choice(content: Option<string>)

  /**
   * A decoded reply body (`thread_id` and `choices` each absent or present) with
   * the time it arrived, or any request failure, `raise_for_status` included.
   */
  datatype ChatReply =
    | ChatOk(threadId: Option<string>, choices: Option<seq<Choice>>, receivedAt: real)
    | ChatFailed

  type Headers = seq<(string, string)>

  datatype ChatRequest = ChatRequest(headers: Headers, payload: Value)

  const ThreadHeader := "X-IBM-THREAD-ID"

  /** The first value stored under `name`, as a `dict` lookup sees it. */
  function HeaderValue(headers: Headers, name: string): (r: Option<string>)
    ensures r.Some? <==> exists i :: 0 <= i < |headers| && headers[i].0 == name
    decreases |headers|
  {
    if headers == [] then None
    else if headers[0].0 == name then Some(headers[0].1)
    else
      var r := HeaderValue(headers[1..], name);
      assert forall i :: 0 <= i < |headers| - 1 ==> headers[1..][i] == headers[i + 1];
      r
  }

  lemma HeaderValueCons(h: (string, string), rest: Headers, name: string)
    ensures HeaderValue([h] + rest, name) == if h.0 == name then Some(h.1) else HeaderValue(rest, name)
  {
    assert ([h] + rest)[1..] == rest;
  }

  /** The request headers: the bearer token, then the thread header iff a thread id is known. */
  function RequestHeaders(token: string, threadId: Option<string>): (r: Headers)
    ensures HeaderValue(r, "Authorization") == Some("Bearer " + token)
    ensures HeaderValue(r, "accept") == Some("application/json")
    ensures HeaderValue(r, "content-type") == Some("application/json")
    ensures HeaderValue(r, ThreadHeader).Some? <==> Present(threadId)
    ensures Present(threadId) ==> HeaderValue(r, ThreadHeader) == threadId
  {
    var tail: Headers := if Present(threadId) then [(ThreadHeader, threadId.value)] else [];
    var contentType := ("content-type", "application/json");
    var accept := ("accept", "application/json");
    var authorization := ("Authorization", "Bearer " + token);
    assert HeaderValue([], ThreadHeader) == None;
    assert Present(threadId) ==> HeaderValue(tail, ThreadHeader) == threadId by {
      if Present(threadId) {
        HeaderValueCons((ThreadHeader, threadId.value), [], ThreadHeader);
      }
    }
    HeaderValueCons(contentType, tail, ThreadHeader);
    HeaderValueCons(accept, [contentType] + tail, ThreadHeader);
    HeaderValueCons(authorization, [accept] + [contentType] + tail, ThreadHeader);
    HeaderValueCons(contentType, tail, "content-type");
    HeaderValueCons(accept, [contentType] + tail, "content-type");
    HeaderValueCons(authorization, [accept] + [contentType] + tail, "content-type");
    HeaderValueCons(accept, [contentType] + tail, "accept");
    HeaderValueCons(authorization, [accept] + [contentType] + tail, "accept");
    HeaderValueCons(authorization, [accept] + [contentType] + tail, "Authorization");
    assert [authorization] + ([accept] + [contentType] + tail) == [authorization, accept, contentType] + tail;
    [authorization, accept, contentType] + tail
  }

  /** The request body: one user message, the context, and no streaming. */
  function RequestPayload(userMessage: string, context: Value): (r: Value)
    ensures r.Dict? && DistinctKeys(r.entries)
    ensures GetOrNull(r.entries, "context") == context
    ensures GetOrNull(r.entries, "stream") == Bool(false)
    ensures var messages := GetOrNull(r.entries, "messages");
      messages.List? && |messages.items| == 1 && messages.items[0].Dict?
      && GetOrNull(messages.items[0].entries, "role") == Str("user")
      && GetOrNull(messages.items[0].entries, "content") == Str(userMessage)
  {
    var message: Mapping := [("role", Str("user")), ("content", Str(userMessage))];
    GetCons("content", Str(userMessage), [], "content");
    GetCons("role", Str("user"), [("content", Str(userMessage))], "content");
    GetCons("role", Str("user"), [("content", Str(userMessage))], "role");
    var messages := List([Dict(message)]);
    var stream: Mapping := [("stream", Bool(false))];
    GetCons("stream", Bool(false), [], "stream");
    GetCons("context", context, stream, "stream");
    GetCons("context", context, stream, "context");
    GetCons("messages", messages, [("context", context)] + stream, "stream");
    GetCons("messages", messages, [("context", context)] + stream, "context");
    GetCons("messages", messages, [("context", context)] + stream, "messages");
    assert [("messages", messages)] + ([("context", context)] + stream) == [("messages", messages), ("context", context), ("stream", Bool(false))];
    Dict([("messages", messages), ("context", context), ("stream", Bool(false))])
  }

  /** What `chat_completion` returns once the token was obtained. */
  function Completion(reply: ChatReply): (r: Option<string>)
    ensures reply.ChatFailed? ==> r == None
    ensures r.Some? ==> reply.ChatOk? && reply.choices.Some? && reply.choices.value != []
                        && r == reply.choices.value[0].content
    ensures reply.ChatOk? && reply.choices.Some? && reply.choices.value != [] ==> r == reply.choices.value[0].content
  {
    match reply
    case ChatFailed => None
    case ChatOk(_, choices, _) =>
      if choices.Some? && |choices.value| > 0 then choices.value[0].content else None
  }

  /** A reply whose thread id is stored. */
  predicate CarriesThread(reply: ChatReply)
  {
    reply.ChatOk? && Present(reply.threadId)
  }

  /**
   * The session store after one call: the read of the old thread (which drops an
   * expired entry), then the reply's thread id, if any, whether or not there are choices.
   */
  function SessionAfter(store: Store, conversationId: string, now: real, reply: ChatReply, ttl: real): (r: Store)
    ensures CarriesThread(reply) ==>
              conversationId in r && r[conversationId] == ThreadRecord(reply.threadId.value, reply.receivedAt + ttl)
    ensures !CarriesThread(reply) ==> r == AfterLookup(store, conversationId, now)
    ensures forall c :: c != conversationId ==> (c in r <==> c in store)
    ensures forall c :: c != conversationId && c in store ==> r[c] == store[c]
  {
    var read := AfterLookup(store, conversationId, now);
    if CarriesThread(reply) then Saved(read, conversationId, reply.threadId.value, reply.receivedAt, ttl) else read
  }

  /**
   * Thread continuity: the thread id a reply carries is sent back as the thread
   * header on every later call for that conversation before the entry expires.
   */
  lemma ThreadContinuity(store: Store, c: string, now: real, reply: ChatReply, ttl: real, later: real, token: string)
    requires CarriesThread(reply) && later < reply.receivedAt + ttl
    ensures Lookup(SessionAfter(store, c, now, reply, ttl), c, later) == reply.threadId
    ensures HeaderValue(RequestHeaders(token, Lookup(SessionAfter(store, c, now, reply, ttl), c, later)), ThreadHeader)
            == reply.threadId
  {
  }

  /** A failed call or a reply without a thread id never adds a thread to the store. */
  lemma NoThreadNoSave(store: Store, c: string, now: real, reply: ChatReply, ttl: real)
    requires !CarriesThread(reply)
    ensures c in SessionAfter(store, c, now, reply, ttl) ==> c in store && SessionAfter(store, c, now, reply, ttl)[c] == store[c]
  {
  }

  /** What one `chat_completion` call does: what it posted, what it returned or raised, and both caches after it. */
  datatype ChatOutcome = ChatOutcome(
    request: Option<ChatRequest>,
    result: Result<Option<string>, TokenError>,
    store: Store,
    tokens: TokenState)

  /**
   * `chat_completion` over the caches' contents: a token (its failure raises before
   * the store is read), the request with the stored thread id, the completion, and
   * the session update.
   */
  function ChatStep(tokens: TokenState, buffer: real, store: Store, ttl: real, conversationId: string,
                    userMessage: string, context: Value, now: real, iam: IamReply, reply: ChatReply): ChatOutcome
  {
    var (bearer, tokens') := TokenStep(tokens, now, buffer, iam);
    if bearer.Err? then ChatOutcome(None, Err(bearer.error), store, tokens')
    else
      ChatOutcome(Some(ChatRequest(RequestHeaders(bearer.value, Lookup(store, conversationId, now)),
                                   RequestPayload(userMessage, context))),
                  Ok(Completion(reply)), SessionAfter(store, conversationId, now, reply, ttl), tokens')
  }

  /**
   * The cases of `chat_completion`: it raises exactly when the token must be renewed
   * and the renewal fails, and then posts nothing and leaves both caches as they
   * were; otherwise it posts the bearer header of the cached or renewed token with
   * the stored thread id and the payload, returns the completion, and applies the
   * session update.
   */
  lemma ChatStepCases(tokens: TokenState, buffer: real, store: Store, ttl: real, conversationId: string,
                      userMessage: string, context: Value, now: real, iam: IamReply, reply: ChatReply)
    ensures var c := ChatStep(tokens, buffer, store, ttl, conversationId, userMessage, context, now, iam, reply);
      var refresh := NeedsRefresh(tokens.token, tokens.expiresAt, now, buffer);
      && (c.result.Err? <==> refresh && Refresh(iam).Err?)
      && (c.result.Err? ==> c.request == None && c.result == Err(Refresh(iam).error) && c.store == store && c.tokens == tokens)
      && (!refresh ==> c.tokens == tokens)
      && (refresh && Refresh(iam).Ok? ==> c.tokens == TokenState(Some(Refresh(iam).value.0), Refresh(iam).value.1))
      && (c.result.Ok? ==>
            && c.tokens.token.Some?
            && c.result.value == Completion(reply)
            && c.request == Some(ChatRequest(RequestHeaders(c.tokens.token.value, Lookup(store, conversationId, now)),
                                             RequestPayload(userMessage, context)))
            && c.store == SessionAfter(store, conversationId, now, reply, ttl))
  {
  }

  class WatsonxOrchestrate {
    const chatSession: ChatMemorySessionManager
    const tokenManager: WatsonxTokenManager

    constructor (chatSession: ChatMemorySessionManager, tokenManager: WatsonxTokenManager)
      ensures this.chatSession == chatSession && this.tokenManager == tokenManager
    {
      this.chatSession := chatSession;
      this.tokenManager := tokenManager;
    }

    /**
     * `chat_completion`. `request` is what was posted; a token failure raises before
     * the session store is read and nothing is posted.
     */
    method ChatCompletion(conversationId: string, userMessage: string, context: Value, now: real,
                          iam: IamReply, reply: ChatReply)
      returns (request: Option<ChatRequest>, r: Result<Option<string>, TokenError>)
      modifies chatSession, tokenManager
      ensures ChatOutcome(request, r, chatSession.store, TokenState(tokenManager.token, tokenManager.expiresAt))
              == ChatStep(TokenState(old(tokenManager.token), old(tokenManager.expiresAt)), tokenManager.buffer,
                          old(chatSession.store), chatSession.expireSeconds, conversationId, userMessage, context, now, iam, reply)
      ensures r.Err? <==> NeedsRefresh(old(tokenManager.token), old(tokenManager.expiresAt), now, tokenManager.buffer)
                          && Refresh(iam).Err?
    {
      var token := tokenManager.GetToken(now, iam);
      if token.Err? {
        return None, Err(token.error);
      }
      var threadId := chatSession.GetThread(conversationId, now);
      var headers := RequestHeaders(token.value, threadId);
      request := Some(ChatRequest(headers, RequestPayload(userMessage, context)));
      match reply
      case ChatFailed =>
        r := Ok(None);
      case ChatOk(newThreadId, choices, receivedAt) =>
        if Present(newThreadId) {
          chatSession.SaveThread(conversationId, newThreadId.value, receivedAt);
        }
        if choices.Some? && |choices.value| > 0 {
          r := Ok(choices.value[0].content);
        } else {
          r := Ok(None);
        }
    }
  }
}
