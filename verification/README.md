# MindfulBot chat front-end, modelled in Dafny

This project models the logic of a small React chat front-end for a hosted
language model (Gemini). It has three pieces of sequential state:

- **The conversation** (`components/ChatInterface.tsx`). The chat screen holds
  the message list, the input text and a busy flag. `handleSendMessage` first
  checks that the input is not blank and no send is in flight. It then appends
  the user's message and an empty, streaming `model` placeholder. It rewrites
  the placeholder's text once per incoming chunk, found by id. At the end it
  either marks the placeholder finished or, on any error, appends a separate
  fixed fallback message. The busy flag is always cleared.
- **The service session** (`services/geminiService.ts`). There are two
  nullable fields, `ai` and `chat`. `initialize` does nothing once `ai` is set,
  and does nothing when the API key is missing or empty. `sendMessageStream`
  initializes lazily and throws when the session is still missing. The stream
  it returns yields only the non-empty chunk texts, in order.
- **The view switch** (`App.tsx`). It toggles between `landing` and `chat`,
  with one transition in each direction.

Files:

- `wrappers.dfy`: `Option` (for `undefined`/`null`) and `Result` (for thrown errors).
- `types.dfy`: the `Message` record of `types.ts`, and a count of streaming messages.
- `js_text.dfy`: `String.prototype.trim` over ECMAScript's WhiteSpace and
  LineTerminator code points, and the text accumulated by `acc += chunk`.
- `gemini_service.dfy`: class `GeminiService` (fields `ai`, `chat`) and the
  chunk-filtering generator `YieldTexts`.
- `chat_interface.dfy`: class `ChatInterface` (fields `messages`, `inputText`,
  `isLoading`), the pure list updaters (`[...prev, x]`, and `prev.map` by id)
  and the specification of one send (`Delivered`, `InFlight`, `AfterSend`,
  `Renders`).
- `app.dfy`: class `App` (field `currentView`, plus the mounted chat component).

The SDK is opaque. A `Client` stands for `new GoogleGenAI({ apiKey })` and a
`ChatSession` for `ai.chats.create(...)`. What one `chat.sendMessageStream`
call does is an input, `SdkReply`. Either it throws while opening
(`Refused`), or it returns a list of response chunks, each with an optional
`text`, that ends normally (`Exhausted`) or by throwing (`Broken`). A failure
after k chunks is therefore a response with k chunks that ends `Broken`. The
environment key `process.env.API_KEY` is an `Option<string>` parameter. The
`Date.now()` ids are parameters supplied by the caller. The placeholder's id
must not occur in the list yet and must differ from the user message's id,
because the per-chunk update finds the placeholder by id.

One send is modelled as one sequential run. `HandleSendMessage` checks the
guard and appends the user's message. `Respond` is the `try`/`catch` part: it
appends the placeholder, calls the service, and then either finalizes the
placeholder or appends the fallback. `StreamReply` is the `for await` loop.
Each method states its new state through specification functions:

- `AfterSend` gives the final list.
- `InFlight` gives the list after k chunks.
- `Renders` gives every list handed to `setMessages`, returned as a ghost
  result.

Two behaviours of the code worth stating:

- On failure the code does not overwrite or finish the placeholder. It appends
  a third message, the fallback, and the placeholder keeps its partial text and
  `isStreaming: true` (components/ChatInterface.tsx:75-84).
  `FailedSendLeavesStreaming` shows the consequence: every failed send leaves
  one more message marked as streaming, so more than one message can be marked
  as streaming at once.
- After going back to the landing page, the chat component is unmounted,
  because `App` renders exactly one of the two pages. Returning to the chat
  mounts a new component with only the welcome message
  (`RoundTripResetsConversation`).

## Model

| member | source | states |
|---|---|---|
| JsText.TrimStartSpec | components/ChatInterface.tsx:32 | `trimStart` keeps a suffix that is empty or starts with a non-space, and everything it removes is white space |
| JsText.TrimEndSpec | components/ChatInterface.tsx:32 | `trimEnd` keeps a prefix that is empty or ends with a non-space, and everything it removes is white space |
| JsText.TrimSpec | components/ChatInterface.tsx:32 | `trim` yields an infix of the input with white space only before and after it, and neither end of the result is white space |
| JsText.TrimEmptyIffBlank | components/ChatInterface.tsx:32 | `!inputText.trim()` holds exactly when every character of the input is white space (both directions) |
| JsText.ConcatAppend | components/ChatInterface.tsx:53-56 | the text accumulated over two runs of chunks is the first run's text followed by the second's |
| JsText.ConcatGrows | components/ChatInterface.tsx:53-56 | the accumulated text only grows: after k chunks it is a prefix of the text after all chunks |
| Service.InitializeIdempotent | services/geminiService.ts:15-35 | calling `initialize` twice with the same key leaves the same fields as calling it once |
| Service.SessionKept | services/geminiService.ts:16 | once `ai` is set, any number of further `initialize` calls change nothing |
| Service.SessionCreatedOnce | services/geminiService.ts:15-35 | starting with both fields null, any run of `initialize` calls ends with the client and session built from the first truthy key, or with both null if there was none |
| Service.NonEmptyTexts | services/geminiService.ts:50-58 | the yielded texts are never empty and are no more numerous than the response chunks |
| Service.NonEmptyTextsAppend | services/geminiService.ts:50-58 | filtering works chunk by chunk and keeps order: the texts of a split response are the texts of each part, concatenated in order |
| Service.DroppedTextsAreEmpty | services/geminiService.ts:50-58 | dropping undefined and empty texts does not change the concatenated reply text |
| Service.YieldTexts | services/geminiService.ts:50-58 | the generator yields exactly the truthy chunk texts in order, and rethrows the SDK's error exactly when the response breaks off |
| Service.GeminiService.constructor | services/geminiService.ts:11-13 | both `ai` and `chat` start null |
| Service.GeminiService.Initialize | services/geminiService.ts:15-35 | returns unchanged once `ai` is set; leaves both fields null when the key is missing or empty; otherwise sets both from the key |
| Service.GeminiService.SendMessageStream | services/geminiService.ts:37-64 | initializes only when `chat` is null; if `chat` is still null, fails with `InitFailed`, whose message is "Failed to initialize chat service.", and opens no stream; an SDK error while opening is passed on unchanged; otherwise returns the SDK's response |
| Chat.UpdateById | components/ChatInterface.tsx:57-63 | the `prev.map` updater keeps the list's length |
| Chat.UpdateByIdAt | components/ChatInterface.tsx:57-63 | the `prev.map` updater patches exactly the messages with the id and leaves every other message unchanged in its place |
| Chat.RetextPlaceholder | components/ChatInterface.tsx:53-63 | with a fresh placeholder id, one more chunk changes only the placeholder, whose text becomes the concatenation of all chunks so far; length and all other messages are unchanged |
| Chat.FinishPlaceholder | components/ChatInterface.tsx:67-73 | finalizing changes only the placeholder, which keeps the full text and gets `isStreaming` false |
| Chat.SendAppendsOnly | components/ChatInterface.tsx:34-50 | an accepted send keeps the old list as a prefix; the user message comes next, then the model message with the concatenated text; the list grows by 2, or by 3 on failure |
| Chat.FailedSendLeavesStreaming | components/ChatInterface.tsx:75-84 | a failed send adds exactly one message that stays marked as streaming, and a successful send adds none |
| Chat.DeliveredTextIsWholeReply | components/ChatInterface.tsx:52-64 | with a session available, the placeholder's text is every chunk text the SDK sent, concatenated, and the send fails exactly when the response breaks off |
| Chat.MissingKeyFallsBack | components/ChatInterface.tsx:44-84 | with no session and no usable key, a send ends with the user message, an empty streaming placeholder and one fallback message |
| Chat.HelloThereScenario | components/ChatInterface.tsx:53-73 | chunks "Hello", " there", "!" ending normally leave "Hello there!" in a finished model message |
| Chat.BrokenReplyScenario | components/ChatInterface.tsx:53-84 | a reply breaking off after "I " leaves "I " in a placeholder still marked streaming, followed by the fallback |
| Chat.ResponseDecidesDelivery | components/ChatInterface.tsx:52-55 | an error from `sendMessageStream` means a failure before any chunk; a returned response delivers the generator's texts, and a failure exactly when it breaks off |
| Chat.RendersShowEachChunk | components/ChatInterface.tsx:40-73 | the lists handed to `setMessages` come in order: user message, empty placeholder, one list per chunk with the placeholder holding exactly the chunks so far, and then the final list |
| Chat.ChatInterface.constructor | components/ChatInterface.tsx:11-19 | the state starts as the single `model` welcome message with id `'welcome'` and the fixed greeting, empty input, and not loading |
| Chat.ChatInterface.OnInputChange | components/ChatInterface.tsx:163 | the input field's change handler sets `inputText` and nothing else |
| Chat.ChatInterface.StreamReply | components/ChatInterface.tsx:53-64 | runs with `isLoading` set and changes only the message list; after the loop the placeholder holds the concatenation of all chunks, and the list after each chunk is recorded in order |
| Chat.ChatInterface.Respond | components/ChatInterface.tsx:42-84 | entered with `isLoading` true and the input cleared, and changing only the message list (so the flag stays set and the input stays empty while the reply streams), the `try`/`catch` appends the placeholder and ends in the list `AfterSend` gives for the delivered outcome; the service is initialized lazily |
| Chat.ChatInterface.HandleSendMessage | components/ChatInterface.tsx:30-88 | a blank input or a busy flag changes nothing; otherwise the list becomes `AfterSend` (the untrimmed input as the user message, the append-only growth, the placeholder finished or followed by the fallback), the input is cleared, `isLoading` is true for the whole `try` block (it is the precondition of `Respond`, whose frame is the message list) and ends false |
| AppView.App.constructor | App.tsx:6 | the initial view is `'landing'` with no chat component mounted |
| AppView.App.OnStartChat | App.tsx:11 | the view becomes `'chat'`; coming from the landing page, a new chat component is mounted in its initial state |
| AppView.App.OnBack | App.tsx:13 | the view becomes `'landing'` and the chat component is unmounted |
| AppView.App.Rendered | App.tsx:10-14 | exactly one page is shown: the landing page when the view is `'landing'`, and the mounted chat component otherwise |
| AppView.RoundTripResetsConversation | App.tsx:10-14 | after a message has been sent, going back and into the chat again leaves only the welcome message |

## Left out

- The JSX rendering, CSS class selection and auto-scroll of `components/ChatInterface.tsx` (lines 20-28 and 90-182): presentation only.
- `components/LandingPage.tsx`: static markup with a single button callback, which is modelled as `App.OnStartChat`.
- The Gemini SDK (`GoogleGenAI`, `chats.create`, `chat.sendMessageStream`): a foreign network client. It is replaced by opaque `Client`/`ChatSession` values and the `SdkReply` input. The model does not capture how a reply depends on the message or on the conversation history.
- `async`/`await`, `for await` and React's batching of state updates: one send is a sequential run. The generator is run to its end before the loop consumes its texts. This gives the same list updates in the same order, because the generator has no other visible effect. Two submits that race through the `isLoading` value captured by React are not modelled.
- `new GoogleGenAI(...)` and `ai.chats.create(...)` are assumed never to throw, so `ai` and `chat` are always set together (`Service.Consistent`). In the source `ai` is assigned before `chats.create` runs (services/geminiService.ts:25-28). If `chats.create` threw, `ai` would stay set and `chat` null. Every later `initialize` would then return at once, and every later send would fail with "Failed to initialize chat service.". The model does not capture this state.
- `Date.now()` ids: wall-clock time. They are caller-supplied parameters. The model does not capture that the fallback's id can equal an earlier id within the same millisecond.
- `console.error` logging, the `SYSTEM_INSTRUCTION` text, the model name and the `temperature: 0.7` float: values that are only passed through.
- `ChatSessionConfig` in `types.ts`: unused.
- JavaScript strings are UTF-16 code units; here they are sequences of Unicode characters. This makes no difference to `trim`, whose white-space characters all lie in the Basic Multilingual Plane.
