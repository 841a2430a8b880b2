/**
  The request-building core of the Anthropic provider adapter: how a
  provider-agnostic chat message list and keyword options become the vendor
  request payload, and how the adapter's credential is chosen.
 */
module Anthropic {
  import opened Wrappers

  // ---------------------------------------------------------------------------
  // Messages
  // ---------------------------------------------------------------------------

  /** A chat message dictionary. `role` is read with `get`, so it may be absent;
      `content` is read with indexing, so an absent key raises `KeyError`. */
  datatype Message = Message(role: Option<string>, content: Option<string>)

  /** The exception raised while building a request. */
  datatype Error = KeyError(key: string)

  /** The user turn substituted for an empty conversation. */
  const Hello := Message(Some("user"), Some("Hello"))

  predicate IsSystem(m: Message) {
    m.role == Some("system")
  }

  /** Python truthiness of an optional string: present and non-empty. */
  predicate Truthy(s: Option<string>) {
    s.Some? && s.value != ""
  }

  /** Message `i` is the last message of `ms` whose role is "system". */
  ghost predicate IsLastSystem(ms: seq<Message>, i: int) {
    0 <= i < |ms| && IsSystem(ms[i]) && forall j :: i < j < |ms| ==> !IsSystem(ms[j])
  }

  // ---------------------------------------------------------------------------
  // Partitioning the messages
  // ---------------------------------------------------------------------------

  /** What the partitioning loop leaves behind: the captured system content
      (`None` when no system message was seen) and the conversational turns. */
  datatype Partitioned = Partitioned(system: Option<string>, conversation: seq<Message>)

  /** The state of the partitioning loop after it has consumed `ms`, defined on
      the last message so that it follows the loop one step at a time. */
  function Split(ms: seq<Message>): Result<Partitioned, Error>
    decreases |ms|
  {
    if ms == [] then Ok(Partitioned(None, []))
    else
      var last := ms[|ms| - 1];
      match Split(ms[..|ms| - 1])
      case Err(e) => Err(e)
      case Ok(p) =>
        if IsSystem(last) then
          if last.content.Some? then Ok(p.(system := last.content)) else Err(KeyError("content"))
        else Ok(p.(conversation := p.conversation + [last]))
  }

  /** Reference definition of the forwarded turns: the non-system messages of
      `ms`, in order. */
  function Conversation(ms: seq<Message>): seq<Message>
    decreases |ms|
  {
    if ms == [] then []
    else (if IsSystem(ms[0]) then [] else [ms[0]]) + Conversation(ms[1..])
  }

  /** Once the loop has raised on a prefix, it raises on the whole list. */
  lemma {:induction false} SplitErrPersists(ms: seq<Message>, i: nat)
    requires i <= |ms| && Split(ms[..i]).Err?
    ensures Split(ms) == Split(ms[..i])
    decreases |ms|
  {
    if i == |ms| {
      assert ms[..i] == ms;
    } else {
      var init := ms[..|ms| - 1];
      assert init[..i] == ms[..i];
      SplitErrPersists(init, i);
    }
  }

  /** Partitioning raises exactly when some system message has no content. */
  lemma {:induction false} SplitOkIff(ms: seq<Message>)
    ensures Split(ms).Ok? <==> forall i :: 0 <= i < |ms| && IsSystem(ms[i]) ==> ms[i].content.Some?
    ensures Split(ms).Err? ==> Split(ms).error == KeyError("content")
    decreases |ms|
  {
    if ms != [] {
      var init := ms[..|ms| - 1];
      SplitOkIff(init);
      assert forall i :: 0 <= i < |init| ==> init[i] == ms[i];
    }
  }

  /** The captured system content is that of the last system message; it is
      absent exactly when there is no system message. */
  lemma {:induction false} SplitSystem(ms: seq<Message>)
    requires Split(ms).Ok?
    ensures Split(ms).value.system.Some? <==> exists i :: IsLastSystem(ms, i)
    ensures forall i :: IsLastSystem(ms, i) ==> Split(ms).value.system == ms[i].content
    decreases |ms|
  {
    if ms != [] {
      var n := |ms|;
      var init := ms[..n - 1];
      var last := ms[n - 1];
      assert Split(init).Ok?;
      SplitSystem(init);
      assert forall i :: 0 <= i < n - 1 ==> init[i] == ms[i];
      if IsSystem(last) {
        assert IsLastSystem(ms, n - 1);
        forall i | IsLastSystem(ms, i) ensures i == n - 1 {
        }
      } else {
        forall i | 0 <= i < n - 1 ensures IsLastSystem(ms, i) <==> IsLastSystem(init, i) {
        }
        forall i | IsLastSystem(ms, i) ensures IsLastSystem(init, i) {
          assert i != n - 1;
        }
        if Split(ms).value.system.Some? {
          var i :| IsLastSystem(init, i);
          assert IsLastSystem(ms, i);
        }
      }
    }
  }

  lemma {:induction false} ConversationAppend(a: seq<Message>, b: seq<Message>)
    ensures Conversation(a + b) == Conversation(a) + Conversation(b)
    decreases |a|
  {
    if a == [] {
      assert a + b == b;
    } else {
      assert (a + b)[1..] == a[1..] + b;
      ConversationAppend(a[1..], b);
    }
  }

  /** The forwarded turns hold exactly the non-system messages of the input. */
  lemma {:induction false} ConversationMembers(ms: seq<Message>)
    ensures forall m :: m in Conversation(ms) <==> m in ms && !IsSystem(m)
    decreases |ms|
  {
    if ms != [] {
      ConversationMembers(ms[1..]);
      assert ms == [ms[0]] + ms[1..];
    }
  }

  /** The forwarded turns are empty exactly when every message is a system one. */
  lemma {:induction false} ConversationEmpty(ms: seq<Message>)
    ensures Conversation(ms) == [] <==> forall i :: 0 <= i < |ms| ==> IsSystem(ms[i])
    decreases |ms|
  {
    if ms != [] {
      ConversationEmpty(ms[1..]);
      assert forall i :: 1 <= i < |ms| ==> ms[1..][i - 1] == ms[i];
    }
  }

  /** A list without system messages is forwarded unchanged. */
  lemma {:induction false} ConversationNoSystem(ms: seq<Message>)
    requires forall i :: 0 <= i < |ms| ==> !IsSystem(ms[i])
    ensures Conversation(ms) == ms
    decreases |ms|
  {
    if ms != [] {
      ConversationNoSystem(ms[1..]);
    }
  }

  /** The turns kept by the loop are the reference conversation. */
  lemma {:induction false} SplitConversation(ms: seq<Message>)
    requires Split(ms).Ok?
    ensures Split(ms).value.conversation == Conversation(ms)
    decreases |ms|
  {
    if ms != [] {
      var init := ms[..|ms| - 1];
      var last := ms[|ms| - 1];
      assert Split(init).Ok?;
      SplitConversation(init);
      assert ms == init + [last];
      ConversationAppend(init, [last]);
    }
  }

  /** The partitioning loop of `_raw_gen` and `_raw_gen_stream`: one pass that
      overwrites the system content on every system message and appends every
      other message to the conversation. */
  method Partition(messages: seq<Message>) returns (r: Result<Partitioned, Error>)
    ensures r == Split(messages)
  {
    var systemContent: Option<string> := None;
    var userMessages: seq<Message> := [];
    for i := 0 to |messages|
      invariant Split(messages[..i]) == Ok(Partitioned(systemContent, userMessages))
    {
      var m := messages[i];
      assert messages[..i + 1][..i] == messages[..i];
      if m.role == Some("system") {
        if m.content.None? {
          SplitErrPersists(messages, i + 1);
          return Err(KeyError("content"));
        }
        systemContent := m.content;
      } else {
        userMessages := userMessages + [m];
      }
    }
    assert messages[..|messages|] == messages;
    return Ok(Partitioned(systemContent, userMessages));
  }

  /** An empty conversation is replaced by the single turn `Hello`. */
  function WithFallback(conversation: seq<Message>): (r: seq<Message>)
    ensures r != []
    ensures conversation != [] ==> r == conversation
    ensures conversation == [] ==> r == [Hello]
  {
    if conversation == [] then [Hello] else conversation
  }

  // ---------------------------------------------------------------------------
  // Options and payload
  // ---------------------------------------------------------------------------

  /** The keyword options forwarded to the vendor. */
  const AllowedOptions: set<string> := {"temperature", "top_p"}

  /** The keyword options cut down to the allow-list, values unchanged. */
  function FilterOptions<V>(kwargs: map<string, V>): (r: map<string, V>)
    ensures r.Keys == kwargs.Keys * AllowedOptions
    ensures forall k :: k in r ==> r[k] == kwargs[k]
  {
    map k | k in kwargs && k in AllowedOptions :: kwargs[k]
  }

  /** Keys outside the allow-list have no influence on the filtered options. */
  lemma FilterOptionsIgnoresOthers<V>(a: map<string, V>, b: map<string, V>)
    requires forall k :: k in AllowedOptions ==> (k in a <==> k in b)
    requires forall k :: k in AllowedOptions && k in a ==> a[k] == b[k]
    ensures FilterOptions(a) == FilterOptions(b)
  {
  }

  /** The vendor request: `model`, `max_tokens`, `messages`, the allow-listed
      options merged in at top level, and `system` when present. */
  datatype Payload<V> = Payload(
    model: string,
    maxTokens: int,
    messages: seq<Message>,
    options: map<string, V>,
    system: Option<string>)

  /** The top-level keys of the request dictionary. */
  function PayloadKeys<V>(p: Payload<V>): set<string> {
    {"model", "max_tokens", "messages"} + p.options.Keys + (if p.system.Some? then {"system"} else {})
  }

  /** The payload that the request-building block produces, or the error it raises. */
  function RequestPayload<V>(model: string, messages: seq<Message>, maxTokens: int, kwargs: map<string, V>)
    : Result<Payload<V>, Error>
  {
    match Split(messages)
    case Err(e) => Err(e)
    case Ok(p) =>
      var base := Payload(model, maxTokens, WithFallback(p.conversation), FilterOptions(kwargs), None);
      Ok(if Truthy(p.system) then base.(system := p.system) else base)
  }

  /** The request-building block (lines 23-36, repeated as 45-58): partition,
      fall back, filter, assemble, and add `system` in place when truthy. */
  method BuildRequest<V>(model: string, messages: seq<Message>, maxTokens: int, kwargs: map<string, V>)
    returns (r: Result<Payload<V>, Error>)
    ensures r == RequestPayload(model, messages, maxTokens, kwargs)
  {
    var parts := Partition(messages);
    if parts.Err? {
      return Err(parts.error);
    }
    var systemContent := parts.value.system;
    var userMessages := parts.value.conversation;
    if userMessages == [] {
      userMessages := [Hello];
    }
    var kwargsClean := FilterOptions(kwargs);
    var createKwargs := Payload(model, maxTokens, userMessages, kwargsClean, None);
    if systemContent.Some? && systemContent.value != "" {
      createKwargs := createKwargs.(system := systemContent);
    }
    return Ok(createKwargs);
  }

  /** Building a request raises `KeyError("content")` exactly when some system
      message lacks content. */
  lemma RequestPayloadErr<V>(model: string, messages: seq<Message>, maxTokens: int, kwargs: map<string, V>)
    ensures RequestPayload(model, messages, maxTokens, kwargs).Err? <==>
      exists i :: 0 <= i < |messages| && IsSystem(messages[i]) && messages[i].content.None?
    ensures RequestPayload(model, messages, maxTokens, kwargs).Err? ==>
      RequestPayload(model, messages, maxTokens, kwargs).error == KeyError("content")
  {
    SplitOkIff(messages);
  }

  /** What every successfully built payload holds. */
  lemma RequestPayloadFields<V>(model: string, messages: seq<Message>, maxTokens: int, kwargs: map<string, V>)
    requires RequestPayload(model, messages, maxTokens, kwargs).Ok?
    ensures var p := RequestPayload(model, messages, maxTokens, kwargs).value;
      && p.model == model
      && p.maxTokens == maxTokens
      && p.messages == (if Conversation(messages) == [] then [Hello] else Conversation(messages))
      && p.messages != []
      && (forall m :: m in p.messages ==> !IsSystem(m))
      && p.options.Keys == kwargs.Keys * AllowedOptions
      && (forall k :: k in p.options ==> p.options[k] == kwargs[k])
      && (p.system.Some? <==> exists i :: IsLastSystem(messages, i) && messages[i].content != Some(""))
      && (forall i :: IsLastSystem(messages, i) && messages[i].content != Some("") ==> p.system == messages[i].content)
  {
    SplitConversation(messages);
    SplitSystem(messages);
    ConversationMembers(messages);
    SplitOkIff(messages);
    var p := RequestPayload(model, messages, maxTokens, kwargs).value;
    var s := Split(messages).value.system;
    if s.Some? {
      var i :| IsLastSystem(messages, i);
      assert s == messages[i].content;
    }
  }

  /** The turn `Hello` is added exactly when the input has no non-system
      message; otherwise the non-system messages go out unchanged and in order. */
  lemma RequestPayloadFallback<V>(model: string, messages: seq<Message>, maxTokens: int, kwargs: map<string, V>)
    requires RequestPayload(model, messages, maxTokens, kwargs).Ok?
    ensures (forall i :: 0 <= i < |messages| ==> IsSystem(messages[i])) ==>
      RequestPayload(model, messages, maxTokens, kwargs).value.messages == [Hello]
    ensures (exists i :: 0 <= i < |messages| && !IsSystem(messages[i])) ==>
      RequestPayload(model, messages, maxTokens, kwargs).value.messages == Conversation(messages)
    ensures (forall i :: 0 <= i < |messages| ==> !IsSystem(messages[i])) ==>
      RequestPayload(model, messages, maxTokens, kwargs).value.messages == (if messages == [] then [Hello] else messages)
  {
    RequestPayloadFields(model, messages, maxTokens, kwargs);
    ConversationEmpty(messages);
    if forall i :: 0 <= i < |messages| ==> !IsSystem(messages[i]) {
      ConversationNoSystem(messages);
    }
  }

  /** The `system` key is present exactly when the captured system content is truthy. */
  lemma RequestPayloadKeys<V>(model: string, messages: seq<Message>, maxTokens: int, kwargs: map<string, V>)
    requires RequestPayload(model, messages, maxTokens, kwargs).Ok?
    ensures var p := RequestPayload(model, messages, maxTokens, kwargs).value;
      PayloadKeys(p) == {"model", "max_tokens", "messages"} + kwargs.Keys * AllowedOptions
        + (if Truthy(Split(messages).value.system) then {"system"} else {})
  {
  }

  /** A lone empty system message is dropped from the conversation and yields
      no `system` key. */
  lemma EmptySystemDropped<V>(model: string, maxTokens: int, kwargs: map<string, V>)
    ensures RequestPayload(model, [Message(Some("system"), Some(""))], maxTokens, kwargs)
      == Ok(Payload(model, maxTokens, [Hello], FilterOptions(kwargs), None))
  {
  }

  /** The worked example: a system instruction and one user turn. */
  lemma TerseExample(model: string)
    ensures var noOptions: map<string, int> := map[];
      RequestPayload(model, [Message(Some("system"), Some("Be terse.")), Message(Some("user"), Some("Hi"))], 100, noOptions)
      == Ok(Payload(model, 100, [Message(Some("user"), Some("Hi"))], noOptions, Some("Be terse.")))
  {
    var ms := [Message(Some("system"), Some("Be terse.")), Message(Some("user"), Some("Hi"))];
    var noOptions: map<string, int> := map[];
    assert ms[..1] == [ms[0]];
    assert ms[..1][..0] == [];
    assert Split(ms[..1]) == Ok(Partitioned(Some("Be terse."), []));
    assert !IsSystem(ms[1]);
    assert [] + [ms[1]] == [ms[1]];
    assert Split(ms) == Ok(Partitioned(Some("Be terse."), [ms[1]]));
    assert FilterOptions(noOptions) == noOptions;
  }

  // ---------------------------------------------------------------------------
  // Credentials and the adapter
  // ---------------------------------------------------------------------------

  /** The configured credentials the adapter falls back on. */
  datatype Settings = Settings(anthropicApiKey: Option<string>, apiKey: Option<string>)

  /** Python's `a or b`: `a` when truthy, else `b`. */
  function Or(a: Option<string>, b: Option<string>): Option<string> {
    if Truthy(a) then a else b
  }

  /** The credential chain `api_key or ANTHROPIC_API_KEY or API_KEY`. */
  function ResolveApiKey(explicit: Option<string>, provider: Option<string>, generic: Option<string>)
    : (r: Option<string>)
    ensures Truthy(r) <==> Truthy(explicit) || Truthy(provider) || Truthy(generic)
    ensures Truthy(explicit) ==> r == explicit
    ensures !Truthy(explicit) && Truthy(provider) ==> r == provider
    ensures !Truthy(explicit) && !Truthy(provider) ==> r == generic
  {
    Or(Or(explicit, provider), generic)
  }

  /** The request the adapter hands to the vendor client: a one-shot `create`
      or a `stream`, with the client's credential and the payload. */
  datatype VendorCall<V> =
    | Create(apiKey: Option<string>, payload: Payload<V>)
    | Stream(apiKey: Option<string>, payload: Payload<V>)

  /** `max_tokens` as the caller gave it, or its default 2048 when omitted. */
  function MaxTokensOrDefault(maxTokens: Option<int>): int {
    maxTokens.GetOr(2048)
  }

  class AnthropicLLM {
    const apiKey: Option<string>
    const userApiKey: Option<string>

    /** Resolves the credential once; `user_api_key` is kept but never used. */
    constructor (apiKey: Option<string>, userApiKey: Option<string>, settings: Settings)
      ensures this.apiKey == ResolveApiKey(apiKey, settings.anthropicApiKey, settings.apiKey)
      ensures this.userApiKey == userApiKey
    {
      this.apiKey := ResolveApiKey(apiKey, settings.anthropicApiKey, settings.apiKey);
      this.userApiKey := userApiKey;
    }

    /** `_raw_gen`: builds the request, then either delegates to the streaming
        path with the resolved `max_tokens` or issues a one-shot `create`. */
    method RawGen<V>(model: string, messages: seq<Message>, stream: bool, maxTokens: Option<int>, kwargs: map<string, V>)
      returns (r: Result<VendorCall<V>, Error>)
      ensures var req := RequestPayload(model, messages, MaxTokensOrDefault(maxTokens), kwargs);
        && (r.Ok? <==> req.Ok?)
        && (r.Err? ==> r.error == req.error)
        && (r.Ok? ==> r.value.payload == req.value && r.value.apiKey == apiKey && r.value.Stream? == stream)
    {
      var mt := MaxTokensOrDefault(maxTokens);
      var req := BuildRequest(model, messages, mt, kwargs);
      if req.Err? {
        return Err(req.error);
      }
      if stream {
        r := RawGenStream(model, messages, Some(mt), kwargs);
        return;
      }
      return Ok(Create(apiKey, req.value));
    }

    /** `_raw_gen_stream`: builds the same request and opens a vendor stream on it. */
    method RawGenStream<V>(model: string, messages: seq<Message>, maxTokens: Option<int>, kwargs: map<string, V>)
      returns (r: Result<VendorCall<V>, Error>)
      ensures var req := RequestPayload(model, messages, MaxTokensOrDefault(maxTokens), kwargs);
        && (r.Ok? <==> req.Ok?)
        && (r.Err? ==> r.error == req.error)
        && (r.Ok? ==> r.value == Stream(apiKey, req.value))
    {
      var req := BuildRequest(model, messages, MaxTokensOrDefault(maxTokens), kwargs);
      if req.Err? {
        return Err(req.error);
      }
      return Ok(Stream(apiKey, req.value));
    }

    /** The blocking and streaming paths build the same request: a one-shot
        `create` and a direct stream carry equal payloads, and asking the
        blocking entry point to stream is the same as calling the streaming one. */
    method ComparePaths<V>(model: string, messages: seq<Message>, maxTokens: Option<int>, kwargs: map<string, V>)
      returns (blocking: Result<VendorCall<V>, Error>, delegated: Result<VendorCall<V>, Error>,
               streamed: Result<VendorCall<V>, Error>)
      ensures blocking.Ok? <==> streamed.Ok?
      ensures blocking.Err? ==> blocking == streamed
      ensures blocking.Ok? ==> blocking.value == Create(apiKey, streamed.value.payload)
      ensures delegated == streamed
    {
      blocking := RawGen(model, messages, false, maxTokens, kwargs);
      delegated := RawGen(model, messages, true, maxTokens, kwargs);
      streamed := RawGenStream(model, messages, maxTokens, kwargs);
    }
  }
}
