/**
 * services/geminiService.ts: the process-wide chat session with the hosted model.
 *
 * The SDK is opaque here. A `Client` stands for `new GoogleGenAI({ apiKey })`, a
 * `ChatSession` for the result of `ai.chats.create(...)`, and what the SDK does
 * with one `chat.sendMessageStream({ message })` call is an input, `SdkReply`:
 * either it throws while opening, or it hands back a finite list of response
 * chunks that ends normally or with an error.
 */
module Service {
  import opened Wrappers
  import JsText

  datatype Client = Client(apiKey: string)
  datatype ChatSession = ChatSession(client: Client)

  /** One `GenerateContentResponse`; its `text` may be `undefined`. */
  datatype Chunk = Chunk(text: Option<string>)

  /** How iterating the SDK's response ends: exhausted, or by throwing `error`. */
  datatype Ending = Exhausted | Broken(error: string)

  /** The SDK's streamed response: `chunks` arrive in order, then `ending` happens. */
  datatype ResponseStream = ResponseStream(chunks: seq<Chunk>, ending: Ending)

  /** What one `chat.sendMessageStream` call does. */
  datatype SdkReply = Refused(error: string) | Opened(stream: ResponseStream)

  /** Errors `sendMessageStream` throws: its own, or the SDK's passed on unchanged. */
  datatype ServiceError = InitFailed | SdkError(cause: string)

  /** The two nullable fields `ai` and `chat`, as a value. */
  datatype Session = Session(ai: Option<Client>, chat: Option<ChatSession>)

  const NoSession := Session(None, None)

  /** The text of the error a caller catches. */
  function ErrorMessage(e: ServiceError): string {
    match e
    case InitFailed => "Failed to initialize chat service."
    case SdkError(cause) => cause
  }

  /** JavaScript truthiness of `process.env.API_KEY`: defined and not the empty string. */
  predicate Truthy(apiKey: Option<string>) {
    apiKey.Some? && apiKey.value != ""
  }

  /** The two fields are set together or not at all. */
  predicate Consistent(s: Session) {
    s.ai.Some? <==> s.chat.Some?
  }

  /** The fields after one `initialize()` call, with `apiKey` the environment's key at that moment. */
  function Initialized(s: Session, apiKey: Option<string>): Session {
    if s.ai.Some? then s
    else if !Truthy(apiKey) then s
    else Session(Some(Client(apiKey.value)), Some(ChatSession(Client(apiKey.value))))
  }

  /** The fields after `initialize()` has been called once per key in `keys`, in order. */
  function InitializedAll(s: Session, keys: seq<Option<string>>): Session
    decreases |keys|
  {
    if keys == [] then s else InitializedAll(Initialized(s, keys[0]), keys[1..])
  }

  /** The first key in `keys` that is truthy, if any. */
  function FirstTruthy(keys: seq<Option<string>>): Option<string> {
    if keys == [] then None
    else if Truthy(keys[0]) then keys[0]
    else FirstTruthy(keys[1..])
  }

  /** `initialize()` is idempotent: a second call with the same key changes nothing. */
  lemma InitializeIdempotent(s: Session, apiKey: Option<string>)
    ensures Initialized(Initialized(s, apiKey), apiKey) == Initialized(s, apiKey)
  {
  }

  /**
   * The chat session is created at most once: starting from no session, any
   * number of `initialize()` calls leave exactly the session built from the
   * first truthy key seen, and no session if none was truthy.
   */
  lemma {:induction false} SessionCreatedOnce(keys: seq<Option<string>>)
    ensures InitializedAll(NoSession, keys) ==
      match FirstTruthy(keys)
      case None => NoSession
      case Some(k) => Session(Some(Client(k)), Some(ChatSession(Client(k))))
  {
    if keys != [] {
      if Truthy(keys[0]) {
        SessionKept(Initialized(NoSession, keys[0]), keys[1..]);
      } else {
        SessionCreatedOnce(keys[1..]);
      }
    }
  }

  /** Once `ai` is set, further `initialize()` calls change nothing. */
  lemma {:induction false} SessionKept(s: Session, keys: seq<Option<string>>)
    requires s.ai.Some?
    ensures InitializedAll(s, keys) == s
    decreases |keys|
  {
    if keys != [] {
      SessionKept(Initialized(s, keys[0]), keys[1..]);
    }
  }

  /** The texts the generator yields: the chunks whose `text` is truthy, in order. */
  function NonEmptyTexts(chunks: seq<Chunk>): (r: seq<string>)
    ensures |r| <= |chunks|
    ensures forall i :: 0 <= i < |r| ==> r[i] != ""
  {
    if chunks == [] then []
    else
      var rest := NonEmptyTexts(chunks[1..]);
      if chunks[0].text.Some? && chunks[0].text.value != "" then [chunks[0].text.value] + rest else rest
  }

  /** Each chunk's text as concatenated by a consumer that treats `undefined` as "". */
  function RawTexts(chunks: seq<Chunk>): seq<string> {
    seq(|chunks|, i requires 0 <= i < |chunks| => if chunks[i].text.Some? then chunks[i].text.value else "")
  }

  /** Filtering is done chunk by chunk: it distributes over splitting the response. */
  lemma {:induction false} NonEmptyTextsAppend(a: seq<Chunk>, b: seq<Chunk>)
    ensures NonEmptyTexts(a + b) == NonEmptyTexts(a) + NonEmptyTexts(b)
    decreases |a|
  {
    if a != [] {
      assert (a + b)[1..] == a[1..] + b;
      NonEmptyTextsAppend(a[1..], b);
    } else {
      assert a + b == b;
    }
  }

  /**
   * Dropping the empty and undefined texts does not change the text a consumer
   * accumulates: the yielded texts concatenate to all chunk texts concatenated.
   */
  lemma {:induction false} DroppedTextsAreEmpty(chunks: seq<Chunk>)
    ensures JsText.Concat(NonEmptyTexts(chunks)) == JsText.Concat(RawTexts(chunks))
    decreases |chunks|
  {
    if chunks != [] {
      var c, tail := chunks[0], chunks[1..];
      var head := if c.text.Some? && c.text.value != "" then [c.text.value] else [];
      assert NonEmptyTexts(chunks) == head + NonEmptyTexts(tail);
      assert RawTexts(chunks) == RawTexts([c]) + RawTexts(tail);
      assert JsText.Concat(head) == JsText.Concat(RawTexts([c])) by {
        assert JsText.Concat(RawTexts([c])) == JsText.Concat([]) + RawTexts([c])[0];
      }
      DroppedTextsAreEmpty(tail);
      JsText.ConcatAppend(head, NonEmptyTexts(tail));
      JsText.ConcatAppend(RawTexts([c]), RawTexts(tail));
    }
  }

  /**
   * The async generator returned by `sendMessageStream`, run to its end: it
   * yields every truthy chunk text in order, and rethrows the SDK's error if
   * the response breaks off.
   */
  method YieldTexts(stream: ResponseStream) returns (yielded: seq<string>, thrown: Option<string>)
    ensures yielded == NonEmptyTexts(stream.chunks)
    ensures thrown == (if stream.ending.Broken? then Some(stream.ending.error) else None)
  {
    yielded := [];
    var i := 0;
    while i < |stream.chunks|
      invariant 0 <= i <= |stream.chunks|
      invariant yielded == NonEmptyTexts(stream.chunks[..i])
    {
      var chunk := stream.chunks[i];
      assert stream.chunks[..i + 1] == stream.chunks[..i] + [chunk];
      NonEmptyTextsAppend(stream.chunks[..i], [chunk]);
      if chunk.text.Some? && chunk.text.value != "" {
        yielded := yielded + [chunk.text.value];
      }
      i := i + 1;
    }
    assert stream.chunks[..i] == stream.chunks;
    thrown := if stream.ending.Broken? then Some(stream.ending.error) else None;
  }

  /** The `GeminiService` singleton. */
  class GeminiService {
    var ai: Option<Client>
    var chat: Option<ChatSession>

    /** The fields as a value. */
    function State(): Session
      reads this
    {
      Session(ai, chat)
    }

    predicate Valid()
      reads this
    {
      Consistent(State())
    }

    /** Both fields start as `null`. */
    constructor ()
      ensures State() == NoSession && Valid()
    {
      ai := None;
      chat := None;
    }

    /**
     * `initialize()`: returns at once when `ai` is set; logs and returns when
     * the key is missing or empty; otherwise creates the client and the chat
     * session from the key.
     */
    method Initialize(apiKey: Option<string>)
      requires Valid()
      modifies this
      ensures Valid() && State() == Initialized(old(State()), apiKey)
      ensures old(ai).Some? ==> ai == old(ai) && chat == old(chat)
      ensures old(ai).None? && !Truthy(apiKey) ==> ai.None? && chat.None?
      ensures old(ai).None? && Truthy(apiKey) ==>
        ai == Some(Client(apiKey.value)) && chat == Some(ChatSession(Client(apiKey.value)))
    {
      if ai.Some? {
        return;
      }
      if !Truthy(apiKey) {
        return;
      }
      var client := Client(apiKey.value);
      ai := Some(client);
      chat := Some(ChatSession(client));
    }

    /**
     * `sendMessageStream(message)`: initializes only when `chat` is unset,
     * throws "Failed to initialize chat service." when it is still unset
     * without opening a stream, passes an error thrown while opening on
     * unchanged, and otherwise returns the (not yet iterated) response.
     */
    method SendMessageStream(message: string, apiKey: Option<string>, reply: SdkReply)
      returns (r: Result<ResponseStream, ServiceError>)
      requires Valid()
      modifies this
      ensures Valid()
      ensures State() == (if old(chat).None? then Initialized(old(State()), apiKey) else old(State()))
      ensures chat.None? ==> r == Failure(InitFailed) && ErrorMessage(r.error) == "Failed to initialize chat service."
      ensures chat.Some? && reply.Refused? ==> r == Failure(SdkError(reply.error))
      ensures chat.Some? && reply.Opened? ==> r == Success(reply.stream)
    {
      if chat.None? {
        Initialize(apiKey);
      }
      if chat.None? {
        return Failure(InitFailed);
      }
      match reply
      case Refused(error) =>
        r := Failure(SdkError(error));
      case Opened(stream) =>
        r := Success(stream);
    }
  }
}
