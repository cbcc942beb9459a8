/**
 * The conversation engine of App.tsx: six pieces of state changed by three
 * handlers (`resetState`, `handleImageUpload`, `handleSendMessage`).
 *
 * The browser and the model service are represented by what the engine
 * does to them: object URLs are numbered handles (`urlsCreated` counts them,
 * `revoked` logs each `URL.revokeObjectURL`), chats are numbered handles
 * (`chatsCreated`), and `requests` logs each `sendMessageStream` call. What
 * the service and the FileReader answer is given to a send as its outcome.
 */
module App {
  import opened Wrappers
  import opened Messages
  import DataUrl
  import DescriptionDisplay

  const MaxFileSizeMb: nat := 4
  const MaxFileSizeBytes: nat := MaxFileSizeMb * 1024 * 1024

  const InvalidTypeError: string := "Tipo de archivo no válido. Por favor, sube una imagen."
  const TooLargeError: string := "El archivo es demasiado grande. El tamaño máximo es de 4MB."
  const UnknownSendError: string := "Ocurrió un error desconocido al enviar el mensaje."

  /** The parts of a browser `File` the engine looks at. */
  datatype File = File(mimeType: string, size: nat)

  type UrlHandle = nat
  type ChatHandle = nat

  /** A value thrown inside the send: an `Error` with its message, or anything else. */
  datatype Thrown = ErrorObject(message: string) | OtherValue

  /** What the FileReader delivers: `onload` with its data URL, or `onerror` with an event. */
  datatype FileRead = Loaded(dataUrl: string) | ReadFailed

  /** What `sendMessageStream` does: reject, or open a stream of chunks that ends or fails. */
  datatype Stream =
    | OpenFailed(thrown: Thrown)
    | Opened(chunks: seq<string>, failure: Option<Thrown>)

  /** One `sendMessageStream` call: the first turn carries text and image, later ones text. */
  datatype Request =
    | FirstTurn(chat: ChatHandle, text: string, mimeType: string, data: string)
    | FollowUp(chat: ChatHandle, text: string)

  /** The six React state fields, followed by the effects on the browser and the service. */
  datatype State = State(
    imageFile: Option<File>,
    imageUrl: Option<UrlHandle>,
    chat: Option<ChatHandle>,
    messages: seq<Message>,
    loading: bool,
    error: Option<string>,
    urlsCreated: nat,
    revoked: seq<UrlHandle>,
    chatsCreated: nat,
    requests: seq<Request>)

  function Initial(): State {
    State(None, None, None, [], false, None, 0, [], 0, [])
  }

  predicate StartsWith(s: string, prefix: string) {
    |prefix| <= |s| && s[..|prefix|] == prefix
  }

  /** The file passes both checks of `handleImageUpload`. */
  predicate Acceptable(file: File) {
    StartsWith(file.mimeType, "image/") && file.size <= MaxFileSizeBytes
  }

  /** `err instanceof Error ? err.message : <default>`. */
  function ErrorText(t: Thrown): (msg: string)
    ensures t.ErrorObject? ==> msg == t.message
    ensures t.OtherValue? ==> msg == UnknownSendError
  {
    match t
    case ErrorObject(message) => message
    case OtherValue => UnknownSendError
  }

  /** `toBase64`: the payload of the data URL, or what its promise is rejected with. */
  function ToBase64(read: FileRead): (r: Result<string, Thrown>)
    ensures r.Success? ==> r.value != "" && ',' !in r.value
    ensures read.ReadFailed? ==> r == Failure(OtherValue)
    ensures read.Loaded? ==> (r.Success? <==> DataUrl.Payload(read.dataUrl).Some?)
    ensures read.Loaded? && r.Success? ==> DataUrl.Payload(read.dataUrl) == Some(r.value)
    ensures read.Loaded? && r.Failure? ==> r.error == ErrorObject(DataUrl.ReadError)
  {
    match read
    case ReadFailed => Failure(OtherValue)
    case Loaded(url) =>
      match DataUrl.Payload(url)
      case Some(data) => Success(data)
      case None => Failure(ErrorObject(DataUrl.ReadError))
  }

  /** The chunks' texts one after another. */
  function Concat(chunks: seq<string>): string {
    if chunks == [] then "" else chunks[0] + Concat(chunks[1..])
  }

  lemma {:induction false} ConcatAppend(a: seq<string>, b: seq<string>)
    ensures Concat(a + b) == Concat(a) + Concat(b)
    decreases |a|
  {
    if a == [] {
      assert a + b == b;
    } else {
      ConcatAppend(a[1..], b);
      assert (a + b)[1..] == a[1..] + b;
    }
  }

  lemma ConcatOne(chunk: string)
    ensures Concat([chunk]) == chunk
  {
  }

  // ---------------------------------------------------------------------------
  // The handlers as transitions of the state

  /** `resetState`: revoke the current URL if any, and clear everything. */
  function AfterReset(s: State): (r: State)
    ensures r.imageFile == None && r.imageUrl == None && r.chat == None
    ensures r.messages == [] && r.error == None && !r.loading
    ensures r.revoked == if s.imageUrl.Some? then s.revoked + [s.imageUrl.value] else s.revoked
    ensures r.urlsCreated == s.urlsCreated && r.chatsCreated == s.chatsCreated && r.requests == s.requests
  {
    s.(imageFile := None,
       imageUrl := None,
       revoked := if s.imageUrl.Some? then s.revoked + [s.imageUrl.value] else s.revoked,
       messages := [],
       error := None,
       loading := false,
       chat := None)
  }

  /** `handleImageUpload`: reset, then reject a non-image or too large file, or stage it with a new URL. */
  function AfterUpload(s: State, file: File): (r: State)
    ensures r.messages == [] && r.chat == None && !r.loading
    ensures r.revoked == AfterReset(s).revoked && r.requests == s.requests
    ensures r.chatsCreated == s.chatsCreated
    ensures !Acceptable(file) ==> r.imageFile == None && r.imageUrl == None && r.urlsCreated == s.urlsCreated
    ensures r.imageFile.Some? <==> Acceptable(file)
    ensures !StartsWith(file.mimeType, "image/") ==> r.error == Some(InvalidTypeError) && r.imageUrl == None
    ensures StartsWith(file.mimeType, "image/") && file.size > MaxFileSizeBytes ==>
              r.error == Some(TooLargeError) && r.imageUrl == None
    ensures Acceptable(file) ==>
              r.imageFile == Some(file) && r.imageUrl == Some(s.urlsCreated)
              && r.urlsCreated == s.urlsCreated + 1 && r.error == None
  {
    var cleared := AfterReset(s);
    if !StartsWith(file.mimeType, "image/") then
      cleared.(error := Some(InvalidTypeError))
    else if file.size > MaxFileSizeBytes then
      cleared.(error := Some(TooLargeError))
    else
      cleared.(imageFile := Some(file),
               imageUrl := Some(cleared.urlsCreated),
               urlsCreated := cleared.urlsCreated + 1)
  }

  /** The part of a send after its request was issued: placeholder, chunks, failure. */
  function Receive(s: State, stream: Stream): (r: State)
    ensures stream.OpenFailed? ==> r.messages == s.messages && r.error == Some(ErrorText(stream.thrown))
    ensures stream.Opened? ==> r.messages == s.messages + [Message(Model, Concat(stream.chunks))]
    ensures stream.Opened? ==> r.error == if stream.failure.Some? then Some(ErrorText(stream.failure.value)) else s.error
    ensures r.(messages := s.messages, error := s.error) == s
  {
    match stream
    case OpenFailed(t) => s.(error := Some(ErrorText(t)))
    case Opened(chunks, failure) =>
      s.(messages := s.messages + [Message(Model, Concat(chunks))],
         error := if failure.Some? then Some(ErrorText(failure.value)) else s.error)
  }

  /** The `try` block of a send whose user message is already appended. */
  function Attempt(s: State, text: string, read: FileRead, stream: Stream): (r: State)
    requires s.imageFile.Some?
    ensures s.messages <= r.messages && |r.messages| <= |s.messages| + 1
    ensures s.requests <= r.requests && |r.requests| <= |s.requests| + 1
    ensures r.chatsCreated <= s.chatsCreated + 1
    ensures r.imageFile == s.imageFile && r.imageUrl == s.imageUrl && r.loading == s.loading
    ensures r.urlsCreated == s.urlsCreated && r.revoked == s.revoked
    ensures s.chat.Some? ==> r.chat == s.chat && r.chatsCreated == s.chatsCreated
  {
    if s.chat.None? then
      match ToBase64(read)
      case Failure(t) => s.(error := Some(ErrorText(t)))
      case Success(data) =>
        var c := s.chatsCreated;
        Receive(s.(chat := Some(c),
                   chatsCreated := c + 1,
                   requests := s.requests + [FirstTurn(c, text, s.imageFile.value.mimeType, data)]),
                stream)
    else
      Receive(s.(requests := s.requests + [FollowUp(s.chat.value, text)]), stream)
  }

  /** `handleSendMessage(text)` for a given FileReader result and service behaviour. */
  function AfterSend(s: State, text: string, read: FileRead, stream: Stream): (r: State)
    ensures s.loading || s.imageFile.None? ==> r == s
    ensures !r.loading <==> !s.loading
    ensures s.messages < r.messages <==> !s.loading && s.imageFile.Some?
    ensures r.imageFile == s.imageFile && r.imageUrl == s.imageUrl
    ensures r.urlsCreated == s.urlsCreated && r.revoked == s.revoked
    ensures s.requests <= r.requests && |r.requests| <= |s.requests| + 1
  {
    if s.loading || s.imageFile.None? then s
    else
      var started := s.(messages := s.messages + [Message(User, text)], loading := true, error := None);
      Attempt(started, text, read, stream).(loading := false)
  }

  // ---------------------------------------------------------------------------
  // What every reachable state satisfies

  /** Every created URL but the current one was revoked, each exactly once. */
  ghost predicate UrlsAccounted(s: State) {
    && (forall i, j :: 0 <= i < j < |s.revoked| ==> s.revoked[i] != s.revoked[j])
    && (forall k :: 0 <= k < |s.revoked| ==> s.revoked[k] < s.urlsCreated)
    && (s.imageUrl.Some? ==> s.imageUrl.value < s.urlsCreated)
    && (forall u: nat :: u < s.urlsCreated ==> (u in s.revoked <==> s.imageUrl != Some(u)))
  }

  /** Chats are used in creation order; each one's first request carries the image, the rest text only. */
  ghost predicate RequestsShaped(requests: seq<Request>, chatsCreated: nat) {
    && (requests == [] <==> chatsCreated == 0)
    && (requests != [] ==> requests[0].FirstTurn? && requests[0].chat == 0
                           && requests[|requests| - 1].chat == chatsCreated - 1)
    && (forall i :: 0 < i < |requests| ==>
          (requests[i].FirstTurn? && requests[i].chat == requests[i - 1].chat + 1)
          || (requests[i].FollowUp? && requests[i].chat == requests[i - 1].chat))
  }

  /** Every `model` message answers the `user` message just before it, and the first message is the user's. */
  ghost predicate TurnShaped(messages: seq<Message>) {
    && (messages != [] ==> messages[0].role == User)
    && (forall i :: 0 < i < |messages| && messages[i].role == Model ==> messages[i - 1].role == User)
  }

  ghost predicate Inv(s: State)
    ensures Inv(s) && s.imageUrl.Some? ==> s.imageUrl.value !in s.revoked
    ensures Inv(s) && s.chat.Some? ==> s.requests != [] && s.requests[|s.requests| - 1].chat == s.chat.value
  {
    && !s.loading
    && (s.imageFile.Some? <==> s.imageUrl.Some?)
    && (s.imageFile.Some? ==> Acceptable(s.imageFile.value))
    && (s.imageFile.None? ==> s.messages == [] && s.chat == None)
    && (s.chat.Some? ==> s.messages != [] && s.chat.value + 1 == s.chatsCreated)
    && UrlsAccounted(s)
    && RequestsShaped(s.requests, s.chatsCreated)
    && TurnShaped(s.messages)
  }

  lemma InitialInv()
    ensures Inv(Initial())
  {
  }

  lemma ResetKeepsInv(s: State)
    requires Inv(s)
    ensures Inv(AfterReset(s))
  {
  }

  lemma UploadKeepsInv(s: State, file: File)
    requires Inv(s)
    ensures Inv(AfterUpload(s, file))
  {
  }

  lemma SendKeepsInv(s: State, text: string, read: FileRead, stream: Stream)
    requires Inv(s)
    ensures Inv(AfterSend(s, text, read, stream))
  {
  }

  // ---------------------------------------------------------------------------
  // Properties of the handlers

  /** A reset releases the current URL, which was not released before, so every URL ever created is now released once. */
  lemma ResetReleasesEveryUrl(s: State)
    requires Inv(s)
    ensures s.imageUrl.Some? ==> s.imageUrl.value !in s.revoked
    ensures forall u: nat :: u < s.urlsCreated ==> u in AfterReset(s).revoked
    ensures forall i, j :: 0 <= i < j < |AfterReset(s).revoked| ==> AfterReset(s).revoked[i] != AfterReset(s).revoked[j]
  {
  }

  /** The size ceiling is inclusive: an image of exactly 4 MiB is staged, one byte more is refused. */
  lemma UploadSizeBoundary(s: State, mimeType: string)
    requires StartsWith(mimeType, "image/")
    ensures AfterUpload(s, File(mimeType, 4194304)).imageFile == Some(File(mimeType, 4194304))
    ensures AfterUpload(s, File(mimeType, 4194305)).error == Some(TooLargeError)
    ensures AfterUpload(s, File(mimeType, 4194305)).imageFile == None
  {
  }

  /** A send while loading or without a staged image changes nothing. */
  lemma SendIgnoredWhenBusyOrEmpty(s: State, text: string, read: FileRead, stream: Stream)
    requires s.loading || s.imageFile.None?
    ensures AfterSend(s, text, read, stream) == s
  {
  }

  /**
   * A permitted send appends the user's message right after the old
   * transcript, keeps the old messages, adds at most the model's reply, and
   * ends with `loading` false; the staged image and its URL are untouched.
   */
  lemma SendAppendsUserTurn(s: State, text: string, read: FileRead, stream: Stream)
    requires !s.loading && s.imageFile.Some?
    ensures var r := AfterSend(s, text, read, stream);
      && |s.messages| + 1 <= |r.messages| <= |s.messages| + 2
      && r.messages[..|s.messages| + 1] == s.messages + [Message(User, text)]
      && (|r.messages| == |s.messages| + 2 ==> r.messages[|s.messages| + 1].role == Model)
      && !r.loading
      && r.imageFile == s.imageFile && r.imageUrl == s.imageUrl
      && r.urlsCreated == s.urlsCreated && r.revoked == s.revoked
  {
  }

  /**
   * The first send of a conversation creates exactly one chat, stores it
   * before the stream opens, and sends the text with the image; it does so
   * whatever the stream then does.
   */
  lemma FirstSendCreatesChat(s: State, text: string, read: FileRead, stream: Stream)
    requires !s.loading && s.imageFile.Some? && s.chat.None?
    requires ToBase64(read).Success?
    ensures var r := AfterSend(s, text, read, stream);
      && r.chat == Some(s.chatsCreated)
      && r.chatsCreated == s.chatsCreated + 1
      && r.requests == s.requests + [FirstTurn(s.chatsCreated, text, s.imageFile.value.mimeType, ToBase64(read).value)]
  {
  }

  /** When the image cannot be encoded, no chat is created, nothing is sent, and only the user's message stays. */
  lemma EncodingFailureSendsNothing(s: State, text: string, read: FileRead, stream: Stream)
    requires !s.loading && s.imageFile.Some? && s.chat.None?
    requires ToBase64(read).Failure?
    ensures var r := AfterSend(s, text, read, stream);
      && r.chat == None && r.chatsCreated == s.chatsCreated && r.requests == s.requests
      && r.messages == s.messages + [Message(User, text)]
      && r.error == Some(ErrorText(ToBase64(read).error))
  {
  }

  /** A reader error is not an `Error`, so it surfaces as the fixed default message. */
  lemma ReaderErrorShowsDefault(s: State, text: string, stream: Stream)
    requires !s.loading && s.imageFile.Some? && s.chat.None?
    ensures AfterSend(s, text, ReadFailed, stream).error == Some(UnknownSendError)
  {
  }

  /** Later sends reuse the chat, create none, and send the text only. */
  lemma LaterSendReusesChat(s: State, text: string, read: FileRead, stream: Stream)
    requires !s.loading && s.imageFile.Some? && s.chat.Some?
    ensures var r := AfterSend(s, text, read, stream);
      && r.chat == s.chat
      && r.chatsCreated == s.chatsCreated
      && r.requests == s.requests + [FollowUp(s.chat.value, text)]
  {
  }

  /**
   * Once the stream opens, the transcript gains the user's message and one
   * `model` message whose text is the chunks in order; a failure in the
   * middle keeps the text received so far and records the error.
   */
  lemma ReplyIsChunksInOrder(s: State, text: string, read: FileRead, chunks: seq<string>, failure: Option<Thrown>)
    requires !s.loading && s.imageFile.Some?
    requires s.chat.Some? || ToBase64(read).Success?
    ensures var r := AfterSend(s, text, read, Opened(chunks, failure));
      && r.messages == s.messages + [Message(User, text), Message(Model, Concat(chunks))]
      && r.error == (if failure.Some? then Some(ErrorText(failure.value)) else None)
  {
  }

  /** A stream that does not open leaves the user's message in place and records the error. */
  lemma OpenFailureKeepsUserMessage(s: State, text: string, read: FileRead, thrown: Thrown)
    requires !s.loading && s.imageFile.Some?
    requires s.chat.Some? || ToBase64(read).Success?
    ensures var r := AfterSend(s, text, read, OpenFailed(thrown));
      && r.messages == s.messages + [Message(User, text)]
      && r.error == Some(ErrorText(thrown))
      && !r.loading
  {
  }

  /**
   * The quirk of storing the chat before the first request: when that
   * request fails, the chat stays, and the next send goes out as text only,
   * so the image is never delivered in a successful request on this chat.
   */
  lemma ChatKeptAfterFirstRequestFails(s: State, text: string, read: FileRead, thrown: Thrown,
                                       text2: string, read2: FileRead, stream2: Stream)
    requires !s.loading && s.imageFile.Some? && s.chat.None?
    requires ToBase64(read).Success?
    ensures var r1 := AfterSend(s, text, read, OpenFailed(thrown));
      && r1.chat == Some(s.chatsCreated)
      && r1.error == Some(ErrorText(thrown))
      && AfterSend(r1, text2, read2, stream2).requests == r1.requests + [FollowUp(s.chatsCreated, text2)]
      && AfterSend(r1, text2, read2, stream2).chatsCreated == r1.chatsCreated
  {
  }

  /**
   * A two-turn conversation on a freshly staged PNG: the first reply streams
   * in as "Hola" and " mundo", then a text-only follow-up on the same chat.
   */
  lemma HolaMundoConversation(s0: State, read2: FileRead)
    requires s0.imageFile == Some(File("image/png", 1024)) && !s0.loading
    requires s0.chat == None && s0.messages == []
    ensures var s1 := AfterSend(s0, "hello", Loaded("data:image/png;base64,QUJD"), Opened(["Hola", " mundo"], None));
      var s2 := AfterSend(s1, "again", read2, Opened(["Otra"], None));
      && s1.messages == [Message(User, "hello"), Message(Model, "Hola mundo")]
      && s1.requests == s0.requests + [FirstTurn(s0.chatsCreated, "hello", "image/png", "QUJD")]
      && s1.error == None && !s1.loading
      && s2.messages == s1.messages + [Message(User, "again"), Message(Model, "Otra")]
      && s2.requests == s1.requests + [FollowUp(s0.chatsCreated, "again")]
      && s2.chatsCreated == s0.chatsCreated + 1
  {
    var read := Loaded("data:image/png;base64,QUJD");
    PayloadOfDataUrlLiteral();
    assert ToBase64(read) == Success("QUJD");
    var s1 := AfterSend(s0, "hello", read, Opened(["Hola", " mundo"], None));
    FirstSendCreatesChat(s0, "hello", read, Opened(["Hola", " mundo"], None));
    ReplyIsChunksInOrder(s0, "hello", read, ["Hola", " mundo"], None);
    HolaMundoChunks();
    LaterSendReusesChat(s1, "again", read2, Opened(["Otra"], None));
    ReplyIsChunksInOrder(s1, "again", read2, ["Otra"], None);
    ConcatOne("Otra");
  }

  lemma HolaMundoChunks()
    ensures Concat(["Hola", " mundo"]) == "Hola mundo"
  {
  }

  lemma PayloadOfDataUrlLiteral()
    ensures DataUrl.Payload("data:image/png;base64,QUJD") == Some("QUJD")
  {
    DataUrl.PayloadOfDataUrl("image/png", "QUJD");
    assert "data:" + "image/png" + ";base64," + "QUJD" == "data:image/png;base64,QUJD";
  }

  // ---------------------------------------------------------------------------
  // The engine as the panel sees it (App.tsx passes `hasImage={!!imageUrl}`)

  /** Between sends the panel shows the welcome, the initial prompt, or the transcript with no pending bubble. */
  lemma SettledView(s: State)
    requires Inv(s)
    ensures DescriptionDisplay.RenderContent(s.messages, s.loading, s.imageUrl.Some?) ==
      if s.imageUrl.None? then DescriptionDisplay.Welcome
      else if s.messages == [] then DescriptionDisplay.InitialPrompt
      else DescriptionDisplay.Transcript(s.messages, false)
  {
  }

  /**
   * While a send is in flight the transcript already holds the user's
   * message, so the panel shows it with the pending bubble and never the
   * skeleton, whatever has streamed in so far.
   */
  lemma PendingWhileSending(s: State, text: string, reply: seq<Message>)
    requires Inv(s) && s.imageFile.Some?
    ensures var during := s.messages + [Message(User, text)] + reply;
      DescriptionDisplay.RenderContent(during, true, s.imageUrl.Some?) == DescriptionDisplay.Transcript(during, true)
  {
  }

  /** After a reply has streamed in, the panel's last model message is that reply. */
  lemma LastModelMessageIsReply(s: State, text: string, read: FileRead, chunks: seq<string>, failure: Option<Thrown>)
    requires !s.loading && s.imageFile.Some?
    requires s.chat.Some? || ToBase64(read).Success?
    ensures DescriptionDisplay.LastModelText(AfterSend(s, text, read, Opened(chunks, failure)).messages) == Concat(chunks)
  {
  }

  // ---------------------------------------------------------------------------
  // The App component's state, changed in place by its handlers

  class Conversation {
    var imageFile: Option<File>
    var imageUrl: Option<UrlHandle>
    var chat: Option<ChatHandle>
    var messages: seq<Message>
    var loading: bool
    var error: Option<string>
    // effects on the browser and the model service
    var urlsCreated: nat
    var revoked: seq<UrlHandle>
    var chatsCreated: nat
    var requests: seq<Request>

    function Snapshot(): State
      reads this
    {
      State(imageFile, imageUrl, chat, messages, loading, error,
            urlsCreated, revoked, chatsCreated, requests)
    }

    /** The initial `useState` values. */
    constructor ()
      ensures Snapshot() == Initial()
    {
      imageFile, imageUrl, chat, messages, loading, error := None, None, None, [], false, None;
      urlsCreated, revoked, chatsCreated, requests := 0, [], 0, [];
    }

    method ResetState()
      modifies this
      ensures Snapshot() == AfterReset(old(Snapshot()))
      ensures old(Inv(Snapshot())) ==> Inv(Snapshot())
    {
      ghost var before := Snapshot();
      imageFile := None;
      if imageUrl.Some? {
        revoked := revoked + [imageUrl.value];
      }
      imageUrl := None;
      messages := [];
      error := None;
      loading := false;
      chat := None;
      assert Snapshot() == AfterReset(before);
      if Inv(before) {
        ResetKeepsInv(before);
      }
    }

    method HandleImageUpload(file: File)
      modifies this
      ensures Snapshot() == AfterUpload(old(Snapshot()), file)
      ensures old(Inv(Snapshot())) ==> Inv(Snapshot())
    {
      ghost var before := Snapshot();
      ResetState();
      if !StartsWith(file.mimeType, "image/") {
        error := Some(InvalidTypeError);
      } else if file.size > MaxFileSizeBytes {
        error := Some(TooLargeError);
      } else {
        var newImageUrl := urlsCreated;
        urlsCreated := urlsCreated + 1;
        imageFile := Some(file);
        imageUrl := Some(newImageUrl);
      }
      if Inv(before) {
        UploadKeepsInv(before, file);
      }
    }

    /**
     * The stream once open: an empty `model` message, then each chunk added
     * to the text of the last message only.
     */
    method StreamReply(chunks: seq<string>)
      modifies this`messages
      ensures messages == old(messages) + [Message(Model, Concat(chunks))]
    {
      ghost var prefix := messages;
      messages := messages + [Message(Model, "")];
      var i := 0;
      while i < |chunks|
        invariant 0 <= i <= |chunks|
        invariant messages == prefix + [Message(Model, Concat(chunks[..i]))]
      {
        var last := messages[|messages| - 1];
        assert messages[..|messages| - 1] == prefix;
        messages := messages[..|messages| - 1] + [last.(text := last.text + chunks[i])];
        ConcatOne(chunks[i]);
        ConcatAppend(chunks[..i], [chunks[i]]);
        assert chunks[..i + 1] == chunks[..i] + [chunks[i]];
        i := i + 1;
      }
      assert chunks[..i] == chunks;
    }

    method HandleSendMessage(text: string, read: FileRead, stream: Stream)
      modifies this
      ensures Snapshot() == AfterSend(old(Snapshot()), text, read, stream)
      ensures old(Inv(Snapshot())) ==> Inv(Snapshot())
    {
      ghost var before := Snapshot();
      if loading || imageFile.None? {
        return;
      }
      messages := messages + [Message(User, text)];
      loading := true;
      error := None;
      ghost var started := Snapshot();

      var thrown: Option<Thrown> := None;
      var issued := false;
      if chat.None? {
        // first message: encode the image, create the chat, send text and image
        var encoded := ToBase64(read);
        if encoded.Failure? {
          thrown := Some(encoded.error);
        } else {
          var newChat := chatsCreated;
          chatsCreated := chatsCreated + 1;
          chat := Some(newChat);
          requests := requests + [FirstTurn(newChat, text, imageFile.value.mimeType, encoded.value)];
          issued := true;
        }
      } else {
        // later messages: text only, on the existing chat
        requests := requests + [FollowUp(chat.value, text)];
        issued := true;
      }
      ghost var sent := Snapshot();
      assert !issued ==> thrown.Some? && Attempt(started, text, read, stream) == sent.(error := Some(ErrorText(thrown.value)));
      assert issued ==> thrown.None? && Attempt(started, text, read, stream) == Receive(sent, stream);

      if issued {
        match stream
        case OpenFailed(t) =>
          thrown := Some(t);
        case Opened(chunks, failure) =>
          StreamReply(chunks);
          thrown := failure;
      }
      assert issued ==> Receive(sent, stream) == Snapshot().(error := if thrown.Some? then Some(ErrorText(thrown.value)) else None);

      if thrown.Some? {
        error := Some(ErrorText(thrown.value));
      }
      loading := false;
      if Inv(before) {
        SendKeepsInv(before, text, read, stream);
      }
    }
  }
}
