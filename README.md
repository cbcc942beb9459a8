# Image conversation engine: a Dafny model

This project models the logic of a browser app where the user uploads one
image and chats about it with a hosted multimodal model. The app streams
the model's replies into a transcript. Three parts are modelled:

- **The conversation engine** (`App.tsx`). It has six state fields: `imageFile`,
  `imageUrl`, `chat`, `messages`, `loading` and `error`. Three handlers change
  them: `resetState`, `handleImageUpload` and `handleSendMessage`. Module
  `App` holds the class `App.Conversation`, which has those fields and one
  method per handler. Each method's new state is tied to a transition
  function on the `App.State` value: `AfterReset`, `AfterUpload` or
  `AfterSend`. `App.Inv` is a state invariant. It holds initially and every
  handler keeps it.
- **The transcript panel's pure rules** (`components/DescriptionDisplay.tsx`).
  These are the chat input's submit guard and send-button rule, the
  `lastModelMessage` selector, the copy and play actions, the `renderContent`
  case analysis, and what the panel renders. They live in module
  `DescriptionDisplay`.
- **The data-URL payload step of `toBase64`** (`utils/fileUtils.ts`). This is
  `result.split(',')[1]` plus the emptiness check. It lives in module `DataUrl`.

The engine's effects on the browser and on the model service are recorded
in the state:
- Object URLs are numbered handles. `urlsCreated` counts them, and `revoked`
  logs every `URL.revokeObjectURL`.
- Chats are numbered handles, counted by `chatsCreated`.
- `requests` logs every `sendMessageStream` call. It records the first turn
  (text and image) or a later turn (text only).

What the outside world answers is an input to a send:
- The FileReader result is either a data URL or a read error.
- The service's behaviour is either a rejected `sendMessageStream` or an
  opened stream. An opened stream carries its chunks and an optional
  mid-stream failure.

A send is one sequential step. Its `for await` loop is
`App.Conversation.StreamReply`. That loop adds each chunk to the text of
the last message only. It is proved to leave
`old(messages) + [Message(Model, Concat(chunks))]`.

The invariant `App.Inv` states the following:
- Every created URL except the current one has been revoked exactly once.
- The current URL has not been revoked.
- A staged image passed both upload checks.
- A chat exists only with a staged image and a non-empty transcript.
- Chats are used in creation order. Each chat's first request carries the
  image, and every later request on that chat is text only.
- Every `model` message directly follows a `user` message.

In these places the code behaves differently from what one might expect.
The model follows the code each time.
- An upload always resets first. A rejected file therefore also clears the
  image staged before it.
- A zero-length image cannot be sent. Browsers give its data URL either as
  `data:` with no comma, or as a header ending in a comma with an empty
  field after it. The code rejects both forms, so the first send fails with
  "Failed to read base64 data from file." (`DataUrl.NoCommaRejected`,
  `DataUrl.EmptyFieldRejected`, `App.ToBase64`).
- The code does no base64 encoding itself, so no encode/decode round trip is
  claimed.
- The chat is stored before the first request is made. If that request
  fails, the chat stays set, and every later send is text only. The image
  then never reaches the model in a successful request
  (`App.ChatKeptAfterFirstRequestFails`).
- A reader error rejects with an event, which is not an `Error`. It
  therefore surfaces as the fixed default message
  (`App.ReaderErrorShowsDefault`).
- The panel's skeleton branch is never shown by this app. The user's
  message is appended in the same update that sets `loading`
  (`App.PendingWhileSending`, `App.SettledView`).

## Model

| member | source | states |
|---|---|---|
| `DataUrl.Split` | utils/fileUtils.ts:15 | `split(',')` yields at least one field, and no field contains a comma |
| `DataUrl.JoinSplit` | utils/fileUtils.ts:15 | joining the fields with commas gives back the original string, so splitting loses nothing |
| `DataUrl.SplitNoComma` | utils/fileUtils.ts:15 | a string without a comma splits into itself alone |
| `DataUrl.SplitFirstField` | utils/fileUtils.ts:15 | a comma-free prefix followed by a comma becomes the first field, and the rest is split on its own |
| `DataUrl.SplitJoin` | utils/fileUtils.ts:15 | splitting the comma-join of comma-free fields gives back exactly those fields (the inverse of `JoinSplit`) |
| `DataUrl.Payload` | utils/fileUtils.ts:15-20 | an accepted payload is non-empty and contains no comma |
| `DataUrl.PayloadIsSecondField` | utils/fileUtils.ts:15-16 | for every string, the payload is the field between the first and second comma; it is present exactly when that field exists and is non-empty |
| `DataUrl.PayloadOfDataUrl` | utils/fileUtils.ts:12-15 | for `data:<mime>;base64,<payload>` with a comma-free, non-empty payload, the result is exactly the payload |
| `DataUrl.NoCommaRejected` | utils/fileUtils.ts:15-19 | a result with no comma is rejected |
| `DataUrl.EmptyFieldRejected` | utils/fileUtils.ts:16-19 | an empty field after the first comma is rejected, including the data URL of an empty file |
| `DescriptionDisplay.Trim` | components/DescriptionDisplay.tsx:23 | `trim()` is empty exactly when every character is JavaScript white space; otherwise it starts and ends with a non-space |
| `DescriptionDisplay.TrimIsCore` | components/DescriptionDisplay.tsx:23 | the trimmed text is the part of the input after its leading white space, followed only by white space |
| `DescriptionDisplay.TrimIdempotent` | components/DescriptionDisplay.tsx:23-24 | trimming the trimmed text changes nothing |
| `DescriptionDisplay.HandleSubmit` | components/DescriptionDisplay.tsx:21-27 | sends exactly when the input is enabled and has a non-space character; then it sends the trimmed text and clears the box; otherwise the box is kept |
| `DescriptionDisplay.SendButtonDisabled` | components/DescriptionDisplay.tsx:49 | the send button is disabled exactly when the input is disabled or holds only white space |
| `DescriptionDisplay.SubmitMatchesButton` | components/DescriptionDisplay.tsx:49 | the send button is enabled exactly when a submit would send |
| `DescriptionDisplay.SubmitClearsInput` | components/DescriptionDisplay.tsx:24-25 | submitting again right after a send does nothing |
| `DescriptionDisplay.ModelMessages` | components/DescriptionDisplay.tsx:138 | the filter keeps every `model` message of the transcript, keeps nothing else, and never grows the list |
| `DescriptionDisplay.LastModelText` | components/DescriptionDisplay.tsx:138 | a non-empty `lastModelMessage` is the text of some `model` message in the transcript |
| `DescriptionDisplay.LastModelTextIsLastModel` | components/DescriptionDisplay.tsx:138 | `lastModelMessage` is the text of the last message whose role is `model` |
| `DescriptionDisplay.LastModelTextWithoutModel` | components/DescriptionDisplay.tsx:138 | with no `model` message, `lastModelMessage` is `''` |
| `DescriptionDisplay.CopyAction` | components/DescriptionDisplay.tsx:163-168 | copy writes the last model text exactly when that text is non-empty |
| `DescriptionDisplay.PlayToggle` | components/DescriptionDisplay.tsx:155-161 | while speech is playing, the toggle cancels it; otherwise it speaks the last model text if that text is non-empty, and does nothing if not |
| `DescriptionDisplay.RenderContent` | components/DescriptionDisplay.tsx:170-200 | the `return null` fallback is unreachable |
| `DescriptionDisplay.RenderContentCases` | components/DescriptionDisplay.tsx:170-200 | Skeleton iff loading with an empty transcript; Welcome iff no image and not the skeleton case; initial prompt iff an image, an empty transcript and not loading; transcript iff an image and messages, with the pending bubble exactly when loading |
| `DescriptionDisplay.Render` | components/DescriptionDisplay.tsx:202-231 | the content is `renderContent`'s choice; the error box appears iff the error is a non-empty string, and it shows that error; the chat input appears iff there is an image and is disabled iff loading; copy and play buttons appear only with non-empty model text |
| `DescriptionDisplay.ActionsInertWithoutModelText` | components/DescriptionDisplay.tsx:155-168 | without model text, copy does nothing, play does nothing when not playing, and neither button is shown |
| `App.ToBase64` | utils/fileUtils.ts:11-22 | a loaded data URL resolves exactly when it has a payload, and the resolved value is that payload (`split(',')[1]`), non-empty and comma-free; otherwise it rejects with the `Error` "Failed to read base64 data from file."; a reader error rejects with a value that is not an `Error` |
| `App.ErrorText` | App.tsx:92 | an `Error`'s message is shown as it is; any other thrown value shows the fixed default message |
| `App.ConcatAppend` | App.tsx:83-90 | concatenating chunk lists distributes over list append, so appending chunks one at a time builds their in-order concatenation |
| `App.AfterReset` | App.tsx:22-32 | reset clears image, URL, chat, transcript, error and loading; it revokes the current URL if there is one; it makes no chat or request |
| `App.AfterUpload` | App.tsx:34-51 | upload resets first. A non-`image/` type is refused with the invalid-type error; a size over 4 × 1024 × 1024 with the too-large error; a refused file stages nothing and creates no object URL. An acceptable file is staged with a fresh URL, an empty transcript, no chat and no error. No chat is created and no request sent |
| `App.Receive` | App.tsx:75-92 | a stream that does not open adds no message and records its error; an opened stream adds one `model` message holding the chunks in order, and records a mid-stream failure; nothing else changes |
| `App.Attempt` | App.tsx:61-92 | the `try` block keeps the transcript and request log as prefixes, adding at most one message, one request and one chat; with an existing chat it creates none; the image, URLs and `loading` are untouched |
| `App.AfterSend` | App.tsx:53-96 | a send while loading or without an image changes nothing; a permitted send strictly extends the transcript (never rolls it back), leaves `loading` false, issues at most one request, and leaves the image and URLs alone |
| `App.Inv` | App.tsx:15-96 | in every reachable state the current URL has not been revoked, and an existing chat is the one the last request went to |
| `App.InitialInv` | App.tsx:15-20 | the initial state satisfies the invariant |
| `App.ResetKeepsInv` | App.tsx:22-32 | reset preserves the invariant |
| `App.UploadKeepsInv` | App.tsx:34-51 | upload preserves the invariant |
| `App.SendKeepsInv` | App.tsx:53-96 | a send preserves the invariant: transcript shape, request shape, chat ownership, and loading false afterwards |
| `App.ResetReleasesEveryUrl` | App.tsx:22-27 | the URL being revoked was not revoked before; after reset every created URL is revoked, none twice |
| `App.UploadSizeBoundary` | App.tsx:42-45 | an image of exactly 4 MiB is staged; one byte more is refused with the too-large error |
| `App.SendIgnoredWhenBusyOrEmpty` | App.tsx:54 | a send while loading or with no staged image changes nothing |
| `App.SendAppendsUserTurn` | App.tsx:56-59 | a permitted send keeps the old messages, appends the user's message right after them, adds at most one `model` reply, leaves loading false, and does not touch the image or its URL |
| `App.FirstSendCreatesChat` | App.tsx:65-75 | the first send creates exactly one chat, stores it, and sends the text with the encoded image and its MIME type, whatever the stream does next |
| `App.EncodingFailureSendsNothing` | App.tsx:65-67 | if the image cannot be encoded, no chat is created and nothing is sent; only the user's message is added and the error is recorded |
| `App.ReaderErrorShowsDefault` | App.tsx:91-92 | a reader error surfaces as the fixed default message |
| `App.LaterSendReusesChat` | App.tsx:76-79 | a later send keeps the chat, creates none, and sends the text only |
| `App.ReplyIsChunksInOrder` | App.tsx:81-92 | once the stream opens, the transcript gains the user message and one `model` message whose text is all chunks in order; a mid-stream failure keeps the partial text and records the error |
| `App.OpenFailureKeepsUserMessage` | App.tsx:75-95 | when the stream does not open, the user's message stays, no placeholder is added, the error is recorded and loading is false |
| `App.ChatKeptAfterFirstRequestFails` | App.tsx:71-79 | after a failed first request the chat stays set, and the next send is text-only on that chat with no new chat created |
| `App.HolaMundoConversation` | App.tsx:53-96 | a first turn streaming "Hola" and " mundo" leaves the user message then the model message "Hola mundo", after one request carrying text and image; the second turn is text-only on the same chat |
| `App.SettledView` | App.tsx:129-135 | between sends the panel shows the welcome with no image, the initial prompt with an image and no messages, and otherwise the transcript with no pending bubble |
| `App.PendingWhileSending` | App.tsx:56-58 | during a send the panel shows the transcript with the pending bubble, never the skeleton |
| `App.LastModelMessageIsReply` | App.tsx:81-90 | after a reply streams in, the panel's `lastModelMessage` is the concatenation of its chunks |
| `App.Conversation.constructor` | App.tsx:15-20 | the initial values of the six state fields, with nothing created yet |
| `App.Conversation.ResetState` | App.tsx:22-32 | the fields are updated as `AfterReset` says, and the invariant is preserved |
| `App.Conversation.HandleImageUpload` | App.tsx:34-51 | calls reset, then validates the file and stages it; the fields end as `AfterUpload` says, and the invariant is preserved |
| `App.Conversation.StreamReply` | App.tsx:81-90 | appends an empty `model` message, then adds each chunk to the last message's text; earlier messages are unchanged and the last text is the chunks in order |
| `App.Conversation.HandleSendMessage` | App.tsx:53-96 | guard, optimistic user message, lazy chat creation, the request, the stream, the catch and the finally; the fields end as `AfterSend` says, and the invariant is preserved |

## Left out

- Rendering: JSX, styling, the textarea auto-resize (components/DescriptionDisplay.tsx:29-34) and scroll-into-view (components/DescriptionDisplay.tsx:140-142) are display-only.
- Speech synthesis: the `useSpeechSynthesis` hook and cancel-on-new-messages (components/DescriptionDisplay.tsx:57-95, 151-153) are host capabilities. `PlayToggle` models only which action the toggle chooses.
- Clipboard and timers: the clipboard write and the 2-second `copied` flag (components/DescriptionDisplay.tsx:144-149, 165-166) are host APIs. `CopyAction` models only which text is copied.
- components/ImageUploader.tsx is drag-and-drop and file-input glue. It forwards the first file and ignores drops while disabled.
- Uploads and resets during a send: the UI disables both while `loading` (App.tsx:115, 120). Here a send is one step, so nothing can interleave with it.
- Late chunks after a reset, and other async interleavings: the code has no guard, and this is a concurrency concern.
- The SDK: `GoogleGenAI`, the API key and the model name `gemini-2.5-flash` are not modelled. A chat is a numbered handle, and a call is an entry in `requests`.
- A synchronous throw from `ai.chats.create` is not modelled.
- A chunk whose `text` is `undefined` is not modelled; chunks are strings.
- FileReader and base64: the data URL the reader produces is an input, and so is a reader error.
- Object URLs: `URL.createObjectURL` is modelled as the next numbered handle.
- React mechanics: stale closure values between renders, batching, and the StrictMode double call of state updaters are not modelled.
- `ChatInput`'s `message` state is modelled as a value: `HandleSubmit` returns the input box's new content instead of updating a component.
