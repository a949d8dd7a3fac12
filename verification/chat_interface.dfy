/**
 * components/ChatInterface.tsx: the conversation state of the chat screen and
 * `handleSendMessage`, which appends the user's message, streams the model's
 * reply into a placeholder message and falls back to a fixed apology on failure.
 */
module Chat {
  import opened Wrappers
  import opened Types
  import opened JsText
  import opened Service

  const WelcomeText: string := "Hello there. I'm here to listen. How are you feeling today?"
  const FallbackText: string := "I'm having a little trouble connecting right now. Please try again in a moment."

  /** The one message the conversation starts with. */
  const Welcome: Message := Message("welcome", Model, WelcomeText, None)

  /** The two object spreads applied to the placeholder: `{ ...msg, text }` and `{ ...msg, isStreaming: false }`. */
  datatype Patch = SetText(text: string) | EndStreaming

  function Apply(m: Message, p: Patch): Message {
    match p
    case SetText(t) => m.(text := t)
    case EndStreaming => m.(isStreaming := Some(false))
  }

  /** `prev.map(msg => msg.id === id ? patched : msg)`. */
  function UpdateById(ms: seq<Message>, id: string, p: Patch): (r: seq<Message>)
    ensures |r| == |ms|
  {
    if ms == [] then []
    else [if ms[0].id == id then Apply(ms[0], p) else ms[0]] + UpdateById(ms[1..], id, p)
  }

  /** Every message with the id is patched and every other message is kept, in place. */
  lemma {:induction false} UpdateByIdAt(ms: seq<Message>, id: string, p: Patch, i: nat)
    requires i < |ms|
    ensures UpdateById(ms, id, p)[i] == if ms[i].id == id then Apply(ms[i], p) else ms[i]
    decreases i
  {
    if i > 0 {
      UpdateByIdAt(ms[1..], id, p, i - 1);
    }
  }

  /** No message of `ms` carries `id`. */
  predicate FreshId(id: string, ms: seq<Message>) {
    forall i :: 0 <= i < |ms| ==> ms[i].id != id
  }

  /** The guard of `handleSendMessage`: the input is not blank and no send is in flight. */
  predicate Accepts(inputText: string, isLoading: bool) {
    Trim(inputText) != "" && !isLoading
  }

  function UserMessage(id: string, text: string): Message {
    Message(id, User, text, None)
  }

  /** The model's message while its reply is still arriving. */
  function Placeholder(id: string, text: string): Message {
    Message(id, Model, text, Some(true))
  }

  function FallbackMessage(id: string): Message {
    Message(id, Model, FallbackText, None)
  }

  /** What the component receives for one send: the texts that arrived, and whether an error was caught. */
  datatype Delivery = Delivery(texts: seq<string>, failed: bool)

  /**
   * The delivery of one send, given the service's fields before the call, the
   * environment key and what the SDK does: no texts and a failure when no
   * session can be made or the SDK refuses to open the stream; otherwise the
   * generator's texts, and a failure exactly when the response breaks off.
   */
  function Delivered(s: Session, apiKey: Option<string>, reply: SdkReply): Delivery {
    var s' := if s.chat.None? then Initialized(s, apiKey) else s;
    if s'.chat.None? then Delivery([], true)
    else match reply
      case Refused(_) => Delivery([], true)
      case Opened(stream) => Delivery(NonEmptyTexts(stream.chunks), stream.ending.Broken?)
  }

  /** The list while the reply streams, once the chunks `soFar` have arrived. */
  function InFlight(prev: seq<Message>, user: Message, botId: string, soFar: seq<string>): seq<Message> {
    prev + [user, Placeholder(botId, Concat(soFar))]
  }

  /**
   * The list after an accepted send. On success the placeholder holds all the
   * texts and stops streaming. On failure the placeholder is left as it was,
   * still streaming, and a separate fallback message follows it.
   */
  function AfterSend(prev: seq<Message>, user: Message, botId: string, fallbackId: string, d: Delivery): seq<Message> {
    if d.failed then InFlight(prev, user, botId, d.texts) + [FallbackMessage(fallbackId)]
    else prev + [user, Message(botId, Model, Concat(d.texts), Some(false))]
  }

  /** One more chunk rewrites only the placeholder, whose text becomes the longer concatenation. */
  lemma RetextPlaceholder(prev: seq<Message>, user: Message, botId: string, soFar: seq<string>, chunk: string)
    requires FreshId(botId, prev) && user.id != botId
    ensures Concat(soFar + [chunk]) == Concat(soFar) + chunk
    ensures UpdateById(InFlight(prev, user, botId, soFar), botId, SetText(Concat(soFar) + chunk))
         == InFlight(prev, user, botId, soFar + [chunk])
  {
    assert (soFar + [chunk])[..|soFar|] == soFar;
    var before := InFlight(prev, user, botId, soFar);
    var after := InFlight(prev, user, botId, soFar + [chunk]);
    var r := UpdateById(before, botId, SetText(Concat(soFar) + chunk));
    forall i | 0 <= i < |after| ensures r[i] == after[i] {
      UpdateByIdAt(before, botId, SetText(Concat(soFar) + chunk), i);
      if i < |prev| {
        assert before[i] == prev[i] == after[i];
      }
    }
  }

  /** Finishing the stream clears only the placeholder's streaming flag. */
  lemma FinishPlaceholder(prev: seq<Message>, user: Message, botId: string, fallbackId: string, texts: seq<string>)
    requires FreshId(botId, prev) && user.id != botId
    ensures UpdateById(InFlight(prev, user, botId, texts), botId, EndStreaming)
         == AfterSend(prev, user, botId, fallbackId, Delivery(texts, false))
  {
    var before := InFlight(prev, user, botId, texts);
    var after := AfterSend(prev, user, botId, fallbackId, Delivery(texts, false));
    var r := UpdateById(before, botId, EndStreaming);
    forall i | 0 <= i < |after| ensures r[i] == after[i] {
      UpdateByIdAt(before, botId, EndStreaming, i);
      if i < |prev| {
        assert before[i] == prev[i] == after[i];
      }
    }
  }

  /**
   * An accepted send only appends: the earlier messages are kept as a prefix,
   * followed by the user's message and the model's message, plus the fallback
   * message when the send failed.
   */
  lemma SendAppendsOnly(prev: seq<Message>, user: Message, botId: string, fallbackId: string, d: Delivery)
    ensures var r := AfterSend(prev, user, botId, fallbackId, d);
      && prev <= r
      && |r| == |prev| + (if d.failed then 3 else 2)
      && r[|prev|] == user
      && r[|prev| + 1].id == botId && r[|prev| + 1].role == Model && r[|prev| + 1].text == Concat(d.texts)
  {
  }

  /**
   * Each failed send leaves one more message marked as streaming forever (its
   * placeholder); a successful send adds none. So two failed sends leave two
   * streaming messages in the list.
   */
  lemma FailedSendLeavesStreaming(prev: seq<Message>, user: Message, botId: string, fallbackId: string, d: Delivery)
    requires !IsStreaming(user)
    ensures StreamingCount(AfterSend(prev, user, botId, fallbackId, d)) == StreamingCount(prev) + (if d.failed then 1 else 0)
  {
    var model := if d.failed then Placeholder(botId, Concat(d.texts)) else Message(botId, Model, Concat(d.texts), Some(false));
    var pair := [user, model];
    assert pair[..1] == [user] && [user][..0] == [];
    assert StreamingCount([user]) == 0;
    assert StreamingCount(pair) == (if d.failed then 1 else 0);
    if d.failed {
      var tail := pair + [FallbackMessage(fallbackId)];
      assert tail[..2] == pair;
      assert AfterSend(prev, user, botId, fallbackId, d) == prev + tail;
      StreamingCountAppend(prev, tail);
    } else {
      assert AfterSend(prev, user, botId, fallbackId, d) == prev + pair;
      StreamingCountAppend(prev, pair);
    }
  }

  /** The placeholder's final text is every text the SDK produced, undefined and empty ones contributing nothing. */
  lemma DeliveredTextIsWholeReply(s: Session, apiKey: Option<string>, stream: ResponseStream)
    requires Consistent(s) && (s.chat.Some? || Truthy(apiKey))
    ensures Delivered(s, apiKey, Opened(stream)).failed == stream.ending.Broken?
    ensures Concat(Delivered(s, apiKey, Opened(stream)).texts) == Concat(RawTexts(stream.chunks))
  {
    DroppedTextsAreEmpty(stream.chunks);
  }

  /** Without a session and without a usable key, a send ends with one fallback message and an empty streaming placeholder. */
  lemma MissingKeyFallsBack(prev: seq<Message>, user: Message, botId: string, fallbackId: string,
                            apiKey: Option<string>, reply: SdkReply)
    requires !Truthy(apiKey)
    ensures AfterSend(prev, user, botId, fallbackId, Delivered(NoSession, apiKey, reply))
         == prev + [user, Placeholder(botId, ""), FallbackMessage(fallbackId)]
  {
  }

  /** A reply streamed as "Hello", " there", "!" that ends normally leaves "Hello there!" in a finished model message. */
  lemma HelloThereScenario(prev: seq<Message>, user: Message, botId: string, fallbackId: string,
                           s: Session, apiKey: Option<string>)
    requires Consistent(s) && (s.chat.Some? || Truthy(apiKey))
    ensures var stream := ResponseStream([Chunk(Some("Hello")), Chunk(Some(" there")), Chunk(Some("!"))], Exhausted);
      AfterSend(prev, user, botId, fallbackId, Delivered(s, apiKey, Opened(stream)))
        == prev + [user, Message(botId, Model, "Hello there!", Some(false))]
  {
    var chunks := [Chunk(Some("Hello")), Chunk(Some(" there")), Chunk(Some("!"))];
    var texts := ["Hello", " there", "!"];
    assert NonEmptyTexts(chunks) == texts;
    assert texts[..2] == ["Hello", " there"] && texts[..2][..1] == ["Hello"] && ["Hello"][..0] == [];
    assert Concat(texts) == "Hello there!";
  }

  /**
   * A reply that breaks off after "I " keeps "I " in the placeholder, which
   * stays marked as streaming, and adds the fallback message after it.
   */
  lemma BrokenReplyScenario(prev: seq<Message>, user: Message, botId: string, fallbackId: string,
                            s: Session, apiKey: Option<string>, error: string)
    requires s.chat.Some?
    ensures var stream := ResponseStream([Chunk(Some("I "))], Broken(error));
      AfterSend(prev, user, botId, fallbackId, Delivered(s, apiKey, Opened(stream)))
        == prev + [user, Message(botId, Model, "I ", Some(true)), Message(fallbackId, Model, FallbackText, None)]
  {
    assert NonEmptyTexts([Chunk(Some("I "))]) == ["I "];
    assert ["I "][..0] == [];
    assert Concat(["I "]) == "I ";
  }

  /**
   * What `sendMessageStream` returned decides the delivery: an error thrown by
   * it (no session, or the SDK refusing) is a failure before any text, and a
   * returned response delivers the generator's texts.
   */
  lemma ResponseDecidesDelivery(s0: Session, s1: Session, apiKey: Option<string>, reply: SdkReply,
                                r: Result<ResponseStream, ServiceError>)
    requires s1 == (if s0.chat.None? then Initialized(s0, apiKey) else s0)
    requires s1.chat.None? ==> r == Failure(InitFailed)
    requires s1.chat.Some? && reply.Refused? ==> r == Failure(SdkError(reply.error))
    requires s1.chat.Some? && reply.Opened? ==> r == Success(reply.stream)
    ensures r.Failure? ==> Delivered(s0, apiKey, reply) == Delivery([], true)
    ensures r.Success? ==>
      Delivered(s0, apiKey, reply) == Delivery(NonEmptyTexts(r.value.chunks), r.value.ending.Broken?)
  {
  }

  /** The list after each of the chunks `texts`, in order of arrival. */
  ghost function Progress(prev: seq<Message>, user: Message, botId: string, texts: seq<string>): seq<seq<Message>> {
    seq(|texts|, k requires 0 <= k < |texts| => InFlight(prev, user, botId, texts[..k + 1]))
  }

  /**
   * The lists handed to `setMessages` during one accepted send: the user's
   * message appended, the empty placeholder appended, one list per chunk, and
   * the final list.
   */
  ghost function Renders(prev: seq<Message>, user: Message, botId: string, texts: seq<string>,
                         last: seq<Message>): seq<seq<Message>> {
    [prev + [user], InFlight(prev, user, botId, [])] + Progress(prev, user, botId, texts) + [last]
  }

  /**
   * The view follows the reply chunk by chunk: the k-th list after the
   * user's message shows the placeholder holding exactly the first k - 1
   * chunks, and the list only reaches its final form at the end.
   */
  lemma RendersShowEachChunk(prev: seq<Message>, user: Message, botId: string, texts: seq<string>, last: seq<Message>)
    ensures var renders := Renders(prev, user, botId, texts, last);
      && |renders| == |texts| + 3
      && renders[0] == prev + [user] && renders[|renders| - 1] == last
      && forall k :: 1 <= k <= |texts| + 1 ==> renders[k] == InFlight(prev, user, botId, texts[..k - 1])
  {
  }

  /** The state cells of the component. */
  class ChatInterface {
    var messages: seq<Message>
    var inputText: string
    var isLoading: bool

    /** The initial state: the welcome message, an empty input, not loading. */
    constructor ()
      ensures messages == [Welcome] && inputText == "" && !isLoading
    {
      messages := [Welcome];
      inputText := "";
      isLoading := false;
    }

    /** The input field's `onChange`. */
    method OnInputChange(value: string)
      modifies this
      ensures inputText == value && messages == old(messages) && isLoading == old(isLoading)
    {
      inputText := value;
    }

    /**
     * The `for await` loop of `handleSendMessage`: each chunk is added to the
     * accumulated text and the placeholder is rewritten with it. The ghost
     * result `steps` is the list after each chunk.
     */
    method StreamReply(ghost prev: seq<Message>, ghost user: Message, botId: string, chunks: seq<string>)
      returns (ghost steps: seq<seq<Message>>)
      requires FreshId(botId, prev) && user.id != botId
      requires messages == InFlight(prev, user, botId, [])
      requires isLoading
      modifies this`messages
      ensures messages == InFlight(prev, user, botId, chunks)
      ensures steps == Progress(prev, user, botId, chunks)
    {
      steps := [];
      var accumulatedText := "";
      var i := 0;
      while i < |chunks|
        invariant 0 <= i <= |chunks|
        invariant accumulatedText == Concat(chunks[..i])
        invariant messages == InFlight(prev, user, botId, chunks[..i])
        invariant |steps| == i
        invariant forall k :: 0 <= k < i ==> steps[k] == InFlight(prev, user, botId, chunks[..k + 1])
      {
        assert chunks[..i + 1] == chunks[..i] + [chunks[i]];
        RetextPlaceholder(prev, user, botId, chunks[..i], chunks[i]);
        accumulatedText := accumulatedText + chunks[i];
        messages := UpdateById(messages, botId, SetText(accumulatedText));
        steps := steps + [messages];
        i := i + 1;
      }
      assert chunks[..i] == chunks;
    }

    /**
     * The `try`/`catch` of `handleSendMessage`, entered with the user's message
     * `user` just appended to `prev`: appends the placeholder, opens the stream
     * and rewrites the placeholder once per chunk, then marks it finished, or,
     * when anything throws, appends the fallback message. The ghost result
     * `steps` is every list handed to `setMessages` here, in order.
     */
    method Respond(service: GeminiService, apiKey: Option<string>, reply: SdkReply,
                   ghost prev: seq<Message>, user: Message, botId: string, fallbackId: string)
      returns (ghost steps: seq<seq<Message>>)
      requires service.Valid()
      requires messages == prev + [user]
      requires isLoading && inputText == ""
      requires FreshId(botId, prev) && user.id != botId
      modifies this`messages, service
      ensures service.Valid()
      ensures var d := Delivered(old(service.State()), apiKey, reply);
        && messages == AfterSend(prev, user, botId, fallbackId, d)
        && service.State() == (if old(service.chat).None? then Initialized(old(service.State()), apiKey) else old(service.State()))
        && [prev + [user]] + steps == Renders(prev, user, botId, d.texts, messages)
    {
      ghost var s0 := service.State();
      messages := messages + [Placeholder(botId, "")];
      assert messages == InFlight(prev, user, botId, []);
      var failed := true;
      ghost var texts: seq<string> := [];
      ghost var progress: seq<seq<Message>> := [];
      var response := service.SendMessageStream(user.text, apiKey, reply);
      ResponseDecidesDelivery(s0, service.State(), apiKey, reply, response);
      if response.Success? {
        var chunks, thrown := YieldTexts(response.value);
        texts := chunks;
        progress := StreamReply(prev, user, botId, chunks);
        failed := thrown.Some?;
        if !failed {
          FinishPlaceholder(prev, user, botId, fallbackId, chunks);
          messages := UpdateById(messages, botId, EndStreaming);
        }
      }
      if failed {
        messages := messages + [FallbackMessage(fallbackId)];
      }
      assert Delivery(texts, failed) == Delivered(s0, apiKey, reply);
      steps := [InFlight(prev, user, botId, [])] + progress + [messages];
    }

    /**
     * `handleSendMessage`, run to completion against the service. The ids
     * stand for the `Date.now()` values of the source; the placeholder's id
     * must be new, since the per-chunk updates find the placeholder by id.
     * The ghost result `renders` is every list handed to `setMessages`, in order.
     */
    method HandleSendMessage(service: GeminiService, apiKey: Option<string>, reply: SdkReply,
                             userId: string, botId: string, fallbackId: string)
      returns (ghost renders: seq<seq<Message>>)
      requires service.Valid()
      requires FreshId(botId, messages) && botId != userId
      modifies this, service
      ensures service.Valid()
      ensures !Accepts(old(inputText), old(isLoading)) ==>
        && messages == old(messages) && inputText == old(inputText) && isLoading == old(isLoading)
        && service.State() == old(service.State()) && renders == []
      ensures Accepts(old(inputText), old(isLoading)) ==>
        var user := UserMessage(userId, old(inputText));
        var d := Delivered(old(service.State()), apiKey, reply);
        && messages == AfterSend(old(messages), user, botId, fallbackId, d)
        && inputText == "" && !isLoading
        && service.State() == (if old(service.chat).None? then Initialized(old(service.State()), apiKey) else old(service.State()))
        && renders == Renders(old(messages), user, botId, d.texts, messages)
    {
      renders := [];
      if Trim(inputText) == "" || isLoading {
        return;
      }
      ghost var prev := messages;
      var userMessage := UserMessage(userId, inputText);
      messages := messages + [userMessage];
      inputText := "";
      isLoading := true;
      ghost var steps := Respond(service, apiKey, reply, prev, userMessage, botId, fallbackId);
      renders := [prev + [userMessage]] + steps;
      isLoading := false;
    }
  }
}
