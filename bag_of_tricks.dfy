/** The tiered store of `src/bagOfTricks.mjs`: a Momento cache in front of an
    S3 bucket (`load`, `save`) and the conversation memory that `chat` keeps
    in Momento lists around each Bedrock call.

    The services are maps; what their SDKs and the JSON runtime do is in a
    `Codec`; every call whose outcome the code cannot control (a cache read
    or write, an S3 read or write, a list fetch or append, the model call) is
    an outcome handed in by the caller. Time-to-live expiry is `Evict`. */
module BagOfTricks {
  import opened Js

  /** `params.transform`: `'json'`, `'binary'`, and anything else reads as text. */
  datatype Transform = Text | Json | Binary

  /** What `load` returns: a string, a parsed JSON value or a `Uint8Array`. */
  datatype Loaded = TextValue(text: string) | JsonValue(json: JsValue) | BinaryValue(bytes: seq<byte>)

  /** The conversions done by code the model cannot see. */
  datatype Codec = Codec(
    parse: string -> Option<JsValue>,   // `JSON.parse`; `None` stands for a SyntaxError
    stringify: JsValue -> string,       // `JSON.stringify`
    coerce: JsValue -> string,          // how the SDKs store a body that is not a string
    encode: string -> seq<byte>)        // the bytes of a text, as `valueUint8Array` and `transformToByteArray` give them

  /** An S3 object: its text and whether it carries the `public-read` ACL. */
  datatype StoredObject = StoredObject(body: string, publicRead: bool)

  datatype Role = User | Assistant
  /** A content block of a Bedrock message; only text blocks have a `text`. */
  datatype ContentBlock = TextBlock(text: string) | OtherBlock
  datatype Message = Message(role: Role, content: seq<ContentBlock>)

  /** `max_tokens` of every request. */
  const MaxTokens: nat := 10000

  /** The body of an `InvokeModelCommand`. */
  datatype Request = Request(messages: seq<Message>, system: Option<string>, maxTokens: nat)
  /** The decoded reply of the model, or a rejected `bedrock.send`. */
  datatype Invocation = Invoked(content: seq<ContentBlock>) | InvokeFailed

  /** Whether a service call answered or came back with an error response. */
  datatype CallStatus = Succeeded | Errored

  datatype LoadEnv = LoadEnv(cacheGet: CallStatus, storeGet: CallStatus)
  datatype SaveEnv = SaveEnv(storePut: CallStatus, cacheSet: CallStatus)
  datatype ChatEnv = ChatEnv(listFetch: CallStatus, model: Request -> Invocation, listAppend: CallStatus)

  /** The contents of both services: Momento items, S3 objects, Momento lists. */
  datatype Tiers = Tiers(cache: map<string, string>, store: map<string, StoredObject>, lists: map<string, seq<Message>>)

  /** A new state of the services and what the operation returned or threw. */
  datatype Step<+T> = Step(tiers: Tiers, result: Result<T>)

  // ---------------------------------------------------------------------------
  // load

  /** A text as the requested transform returns it. */
  function Decode(text: string, transform: Transform, codec: Codec): (r: Result<Loaded>)
    ensures transform == Text ==> r == Ok(TextValue(text))
  {
    match transform
    case Json => (match codec.parse(text) case Some(v) => Ok(JsonValue(v)) case None => Err(SyntaxError))
    case Binary => Ok(BinaryValue(codec.encode(text)))
    case Text => Ok(TextValue(text))
  }

  /** The value `load` returns for a key the bucket does not hold. */
  function Default(transform: Transform): Loaded
  {
    match transform
    case Json => JsonValue(JsObject(map[]))
    case Binary => BinaryValue([])
    case Text => TextValue("")
  }

  /** `load`: a cache hit decoded; otherwise the S3 object decoded, the default
      for a missing key, or the S3 error rethrown. A cache error counts as a miss. */
  function LoadFrom(t: Tiers, codec: Codec, key: string, transform: Transform, env: LoadEnv): (r: Result<Loaded>)
    ensures transform == Text && r.Ok? ==> r.value.TextValue?
  {
    if key in t.cache && env.cacheGet == Succeeded then Decode(t.cache[key], transform, codec)
    else if env.storeGet == Errored then Err(StoreFailure)
    else if key in t.store then Decode(t.store[key].body, transform, codec)
    else Ok(Default(transform))
  }

  /** A cache hit never reads the bucket: the result is the same whatever it holds. */
  lemma LoadHitIgnoresStore(t: Tiers, store: map<string, StoredObject>, codec: Codec, key: string,
                            transform: Transform, env: LoadEnv)
    requires key in t.cache && env.cacheGet == Succeeded
    ensures LoadFrom(t, codec, key, transform, env) == LoadFrom(t.(store := store), codec, key, transform, env)
    ensures LoadFrom(t, codec, key, transform, env) == Decode(t.cache[key], transform, codec)
  {
  }

  // ---------------------------------------------------------------------------
  // save

  /** The test of line 160: `typeof value === 'object'`, not `null`, not an array. */
  predicate StringifiedBySave(v: JsValue)
  {
    TypeOf(v) == "object" && !v.JsNull? && !IsArray(v)
  }

  /** Exactly plain objects and typed arrays are stringified. */
  lemma StringifiedKinds(v: JsValue)
    ensures StringifiedBySave(v) <==> v.JsObject? || v.JsBytes?
  {
  }

  /** `value` after lines 159-162. */
  function Prepare(v: JsValue, codec: Codec): (p: JsValue)
    ensures StringifiedBySave(v) ==> p == JsString(codec.stringify(v))
    ensures !StringifiedBySave(v) ==> p == v
  {
    if StringifiedBySave(v) then JsString(codec.stringify(v)) else v
  }

  /** The text both services hold for a body: a string as it is. */
  function WireText(body: JsValue, codec: Codec): (s: string)
    ensures body.JsString? ==> s == body.s
  {
    if body.JsString? then body.s else codec.coerce(body)
  }

  /** `save`: the S3 put first, and only after it succeeded the cache set, whose
      failure is logged and does not fail the call. */
  function SaveOn(t: Tiers, codec: Codec, key: string, value: JsValue, isPublic: bool, env: SaveEnv): Step<()>
  {
    var body := WireText(Prepare(value, codec), codec);
    if env.storePut == Errored then Step(t, Err(StoreFailure))
    else
      var cache := if env.cacheSet == Succeeded then t.cache[key := body] else t.cache;
      Step(Tiers(cache, t.store[key := StoredObject(body, isPublic)], t.lists), Ok(()))
  }

  /** A failed S3 put throws and leaves both tiers as they were. */
  lemma SaveFailedPutChangesNothing(t: Tiers, codec: Codec, key: string, value: JsValue, isPublic: bool, env: SaveEnv)
    requires env.storePut == Errored
    ensures SaveOn(t, codec, key, value, isPublic, env) == Step(t, Err(StoreFailure))
  {
  }

  /** A successful save writes the key and nothing else; the cache keeps its old
      entry when the cache set fails. */
  lemma SaveWritesOnlyItsKey(t: Tiers, codec: Codec, key: string, value: JsValue, isPublic: bool, env: SaveEnv)
    requires env.storePut == Succeeded
    ensures var s := SaveOn(t, codec, key, value, isPublic, env);
            var body := WireText(Prepare(value, codec), codec);
            s.result == Ok(())
            && s.tiers.store == t.store[key := StoredObject(body, isPublic)]
            && s.tiers.cache == (if env.cacheSet == Succeeded then t.cache[key := body] else t.cache)
            && s.tiers.lists == t.lists
            && (forall k :: k != key ==> (k in s.tiers.store <==> k in t.store) && (k in s.tiers.cache <==> k in t.cache))
  {
  }

  /** After a successful save, a text load of the key gives back what was
      written when the cache entry was updated or has been evicted since; the
      bucket answers for the cache. A string is written as it is. */
  lemma SaveThenLoad(t: Tiers, codec: Codec, key: string, value: JsValue, isPublic: bool,
                     cacheSet: CallStatus, evicted: bool, cacheGet: CallStatus)
    requires cacheSet == Succeeded || evicted
    ensures var s := SaveOn(t, codec, key, value, isPublic, SaveEnv(Succeeded, cacheSet));
            var after := if evicted then s.tiers.(cache := s.tiers.cache - {key}) else s.tiers;
            LoadFrom(after, codec, key, Text, LoadEnv(cacheGet, Succeeded))
              == Ok(TextValue(WireText(Prepare(value, codec), codec)))
    ensures value.JsString? ==> WireText(Prepare(value, codec), codec) == value.s
  {
  }

  /** A plain object comes back from a JSON load when the runtime's JSON
      round-trips it. */
  lemma SaveThenLoadJson(t: Tiers, codec: Codec, key: string, value: JsValue, isPublic: bool,
                         cacheSet: CallStatus, evicted: bool, cacheGet: CallStatus)
    requires value.JsObject?
    requires codec.parse(codec.stringify(value)) == Some(value)
    requires cacheSet == Succeeded || evicted
    ensures var s := SaveOn(t, codec, key, value, isPublic, SaveEnv(Succeeded, cacheSet));
            var after := if evicted then s.tiers.(cache := s.tiers.cache - {key}) else s.tiers;
            LoadFrom(after, codec, key, Json, LoadEnv(cacheGet, Succeeded)) == Ok(JsonValue(value))
  {
  }

  /** When the cache set fails, an earlier cache entry survives and a load that
      hits it returns the stale text instead of what was saved. */
  lemma SaveLeavesStaleCache(t: Tiers, codec: Codec, key: string, value: string, isPublic: bool)
    requires key in t.cache && t.cache[key] != value
    ensures var s := SaveOn(t, codec, key, JsString(value), isPublic, SaveEnv(Succeeded, Errored));
            s.result == Ok(()) && s.tiers.store[key].body == value
            && LoadFrom(s.tiers, codec, key, Text, LoadEnv(Succeeded, Succeeded)) == Ok(TextValue(t.cache[key]))
            && t.cache[key] != value
  {
  }

  // ---------------------------------------------------------------------------
  // chat

  /** The history `chat` sends: the cached list on a hit, empty on a miss, on a
      fetch error, or without a (truthy) `chatId`. */
  function FetchedHistory(t: Tiers, chatId: Option<string>, fetch: CallStatus): seq<Message>
  {
    if IsTruthy(chatId) && fetch == Succeeded && chatId.value in t.lists then t.lists[chatId.value] else []
  }

  /** The list as Momento holds it: an absent list is an empty one. */
  function StoredHistory(t: Tiers, id: string): seq<Message>
  {
    if id in t.lists then t.lists[id] else []
  }

  /** The user turn of line 44. */
  function UserTurn(message: string): Message
  {
    Message(User, [TextBlock(message)])
  }

  /** The request of lines 47-57; a falsy system message is left out. */
  function ChatRequest(t: Tiers, message: string, chatId: Option<string>, systemMessage: Option<string>,
                       fetch: CallStatus): Request
  {
    Request(FetchedHistory(t, chatId, fetch) + [UserTurn(message)],
            if IsTruthy(systemMessage) then systemMessage else None,
            MaxTokens)
  }

  /** `answer.content[0].text`: a TypeError on an empty content list, `undefined`
      for a block that is not text. */
  function ReplyText(content: seq<ContentBlock>): (r: Result<Option<string>>)
    ensures r.Err? <==> |content| == 0
    ensures |content| > 0 && content[0].TextBlock? ==> r == Ok(Some(content[0].text))
  {
    if |content| == 0 then Err(TypeError)
    else match content[0]
      case TextBlock(s) => Ok(Some(s))
      case OtherBlock => Ok(None)
  }

  /** `chat`: the model receives the fetched history and the new user turn; once
      it answered, the user turn and the assistant turn are appended to the
      conversation's list, when there is a `chatId` and the append succeeds. */
  function ChatOn(t: Tiers, message: string, chatId: Option<string>, systemMessage: Option<string>,
                  env: ChatEnv): Step<Option<string>>
  {
    match env.model(ChatRequest(t, message, chatId, systemMessage, env.listFetch))
    case InvokeFailed => Step(t, Err(ModelFailure))
    case Invoked(content) =>
      match ReplyText(content)
      case Err(e) => Step(t, Err(e))
      case Ok(text) =>
        var lists :=
          if IsTruthy(chatId) && env.listAppend == Succeeded
          then t.lists[chatId.value := StoredHistory(t, chatId.value) + [UserTurn(message), Message(Assistant, content)]]
          else t.lists;
        Step(t.(lists := lists), Ok(text))
  }

  /** `chat` never touches the scalar cache or the bucket. */
  lemma ChatKeepsCacheAndStore(t: Tiers, message: string, chatId: Option<string>, systemMessage: Option<string>, env: ChatEnv)
    ensures ChatOn(t, message, chatId, systemMessage, env).tiers.cache == t.cache
    ensures ChatOn(t, message, chatId, systemMessage, env).tiers.store == t.store
  {
  }

  /** Without a `chatId` no history is read or written: the model sees only
      the new turn. */
  lemma ChatWithoutIdIsStateless(t: Tiers, message: string, chatId: Option<string>, systemMessage: Option<string>, env: ChatEnv)
    requires !IsTruthy(chatId)
    ensures ChatRequest(t, message, chatId, systemMessage, env.listFetch).messages == [UserTurn(message)]
    ensures ChatOn(t, message, chatId, systemMessage, env).tiers == t
  {
  }

  /** A failed history fetch sends an empty history. */
  lemma ChatFetchErrorSendsOnlyTurn(t: Tiers, message: string, chatId: Option<string>, systemMessage: Option<string>)
    ensures ChatRequest(t, message, chatId, systemMessage, Errored).messages == [UserTurn(message)]
  {
  }

  /** An exchange on a conversation whose list the model saw appends exactly
      the user turn and the assistant turn, after the earlier messages in
      their order; the reply is the first text block. */
  lemma ChatAppendsExchange(t: Tiers, message: string, id: string, systemMessage: Option<string>,
                            env: ChatEnv, content: seq<ContentBlock>)
    requires id != "" && env.listFetch == Succeeded && env.listAppend == Succeeded
    requires env.model(ChatRequest(t, message, Some(id), systemMessage, Succeeded)) == Invoked(content)
    requires |content| > 0
    ensures var s := ChatOn(t, message, Some(id), systemMessage, env);
            ChatRequest(t, message, Some(id), systemMessage, Succeeded).messages == StoredHistory(t, id) + [UserTurn(message)]
            && s.tiers.lists[id] == StoredHistory(t, id) + [UserTurn(message), Message(Assistant, content)]
            && (content[0].TextBlock? ==> s.result == Ok(Some(content[0].text)))
            && (!content[0].TextBlock? ==> s.result == Ok(None))
            && (forall other :: other != id ==> (other in s.tiers.lists <==> other in t.lists))
            && (forall other :: other != id && other in t.lists ==> s.tiers.lists[other] == t.lists[other])
  {
  }

  /** Histories only grow at the tail: every earlier list is a prefix of its
      successor. Only the list of the call's own `chatId` can change, and
      none does when the append fails (it is only logged). */
  lemma ChatHistoryAppendOnly(t: Tiers, message: string, chatId: Option<string>, systemMessage: Option<string>, env: ChatEnv)
    ensures var after := ChatOn(t, message, chatId, systemMessage, env).tiers.lists;
            forall id :: id in t.lists ==> id in after && t.lists[id] <= after[id]
    ensures var after := ChatOn(t, message, chatId, systemMessage, env).tiers.lists;
            forall id :: id in after ==> id in t.lists || (IsTruthy(chatId) && id == chatId.value)
    ensures var after := ChatOn(t, message, chatId, systemMessage, env).tiers.lists;
            forall id :: id in t.lists && !(IsTruthy(chatId) && id == chatId.value) ==> after[id] == t.lists[id]
    ensures env.listAppend == Errored ==> ChatOn(t, message, chatId, systemMessage, env).tiers.lists == t.lists
  {
  }

  // ---------------------------------------------------------------------------
  // the services as one object

  class TieredStore {
    /** Momento items, by key, as text. */
    var cache: map<string, string>
    /** S3 objects, by key. */
    var store: map<string, StoredObject>
    /** Momento lists of conversation messages, by chat id. */
    var lists: map<string, seq<Message>>
    const codec: Codec

    function State(): Tiers
      reads this
    {
      Tiers(cache, store, lists)
    }

    constructor (codec: Codec)
      ensures State() == Tiers(map[], map[], map[]) && this.codec == codec
    {
      this.codec := codec;
      cache, store, lists := map[], map[], map[];
    }

    /** The cache drops a key (its time to live ran out or it was evicted). */
    method Evict(key: string)
      modifies this
      ensures cache == old(cache) - {key} && lists == old(lists) - {key} && store == old(store)
    {
      cache := cache - {key};
      lists := lists - {key};
    }

    /** `load` (lines 94-141). */
    method Load(key: string, transform: Transform, env: LoadEnv) returns (r: Result<Loaded>)
      ensures r == LoadFrom(State(), codec, key, transform, env)
      ensures key in cache && env.cacheGet == Succeeded ==> r == Decode(cache[key], transform, codec)
      ensures !(key in cache && env.cacheGet == Succeeded) ==>
                r == (if env.storeGet == Errored then Err(StoreFailure)
                      else if key in store then Decode(store[key].body, transform, codec)
                      else Ok(Default(transform)))
    {
      if key in cache && env.cacheGet == Succeeded {
        var cached := cache[key];
        match transform
        case Json =>
          var parsed := codec.parse(cached);
          if parsed.None? { return Err(SyntaxError); }
          return Ok(JsonValue(parsed.value));
        case Binary => return Ok(BinaryValue(codec.encode(cached)));
        case Text => return Ok(TextValue(cached));
      }
      // cache miss (or a cache error)
      if env.storeGet == Errored {
        return Err(StoreFailure);
      }
      if key !in store {
        // NoSuchKey: the default for the transform
        match transform
        case Json => return Ok(JsonValue(JsObject(map[])));
        case Binary => return Ok(BinaryValue([]));
        case Text => return Ok(TextValue(""));
      }
      var output := store[key].body;
      match transform
      case Json =>
        var parsed := codec.parse(output);
        if parsed.None? { return Err(SyntaxError); }
        return Ok(JsonValue(parsed.value));
      case Binary => return Ok(BinaryValue(codec.encode(output)));
      case Text => return Ok(TextValue(output));
    }

    /** `save` (lines 158-180). */
    method Save(key: string, value: JsValue, isPublic: bool, env: SaveEnv) returns (r: Result<()>)
      modifies this
      ensures var s := SaveOn(old(State()), codec, key, value, isPublic, env);
              State() == s.tiers && r == s.result
      ensures var body := WireText(Prepare(value, codec), codec);
              if env.storePut == Errored then r == Err(StoreFailure) && State() == old(State())
              else r == Ok(()) && store == old(store)[key := StoredObject(body, isPublic)]
                   && cache == (if env.cacheSet == Succeeded then old(cache)[key := body] else old(cache))
                   && lists == old(lists)
    {
      var v := value;
      if TypeOf(v) == "object" && !v.JsNull? && !IsArray(v) {
        v := JsString(codec.stringify(v));
      }
      var body := WireText(v, codec);
      if env.storePut == Errored {
        return Err(StoreFailure);
      }
      store := store[key := StoredObject(body, isPublic)];
      if env.cacheSet == Succeeded {
        cache := cache[key := body];
      }
      // a cache-set error is only logged
      return Ok(());
    }

    /** `chat` (lines 28-73). */
    method Chat(message: string, chatId: Option<string>, systemMessage: Option<string>, env: ChatEnv)
      returns (r: Result<Option<string>>)
      modifies this
      ensures var s := ChatOn(old(State()), message, chatId, systemMessage, env);
              State() == s.tiers && r == s.result
      ensures cache == old(cache) && store == old(store)
    {
      var messages: seq<Message> := [];
      if IsTruthy(chatId) {
        if env.listFetch == Succeeded && chatId.value in lists {
          messages := lists[chatId.value];
        }
        // a miss keeps the empty history; an error is only logged
      }
      var newMessage := UserTurn(message);
      messages := messages + [newMessage];
      var system := if IsTruthy(systemMessage) then systemMessage else None;
      var response := env.model(Request(messages, system, MaxTokens));
      if response.InvokeFailed? {
        return Err(ModelFailure);
      }
      var content := response.content;
      if |content| == 0 {
        return Err(TypeError);
      }
      var modelResponse := if content[0].TextBlock? then Some(content[0].text) else None;
      if IsTruthy(chatId) && env.listAppend == Succeeded {
        var prior := if chatId.value in lists then lists[chatId.value] else [];
        lists := lists[chatId.value := prior + [newMessage, Message(Assistant, content)]];
      }
      return Ok(modelResponse);
    }
  }
}
