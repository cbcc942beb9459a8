/**
 * The pure parts of the transcript panel (components/DescriptionDisplay.tsx):
 * the chat input's submit guard and send-button rule, the `lastModelMessage`
 * selector, the copy and play actions, and which content the panel shows.
 */
module DescriptionDisplay {
  import opened Wrappers
  import opened Messages

  // ---------------------------------------------------------------------------
  // String.prototype.trim

  /** The characters JavaScript's trim removes: WhiteSpace and LineTerminator. */
  predicate IsWhiteSpace(c: char) {
    var n := c as int;
    n == 0x09 || n == 0x0A || n == 0x0B || n == 0x0C || n == 0x0D || n == 0x20
    || n == 0xA0 || n == 0x1680 || (0x2000 <= n <= 0x200A) || n == 0x2028
    || n == 0x2029 || n == 0x202F || n == 0x205F || n == 0x3000 || n == 0xFEFF
  }

  /** How many white-space characters open `s`. */
  function LeadingSpace(s: string): (n: nat)
    ensures n <= |s|
    ensures forall k :: 0 <= k < n ==> IsWhiteSpace(s[k])
    ensures n < |s| ==> !IsWhiteSpace(s[n])
  {
    if s == [] || !IsWhiteSpace(s[0]) then 0 else 1 + LeadingSpace(s[1..])
  }

  /** How many white-space characters close `s`. */
  function TrailingSpace(s: string): (n: nat)
    ensures n <= |s|
    ensures forall k :: |s| - n <= k < |s| ==> IsWhiteSpace(s[k])
    ensures n < |s| ==> !IsWhiteSpace(s[|s| - 1 - n])
  {
    if s == [] || !IsWhiteSpace(s[|s| - 1]) then 0 else 1 + TrailingSpace(s[..|s| - 1])
  }

  /** `s.trim()`. */
  function Trim(s: string): (t: string)
    ensures |t| <= |s|
    ensures t == "" <==> forall k :: 0 <= k < |s| ==> IsWhiteSpace(s[k])
    ensures t != "" ==> !IsWhiteSpace(t[0]) && !IsWhiteSpace(t[|t| - 1])
  {
    var u := s[LeadingSpace(s)..];
    var t := u[..|u| - TrailingSpace(u)];
    assert forall k :: 0 <= k < |u| ==> u[k] == s[LeadingSpace(s) + k];
    t
  }

  /**
   * The trimmed text is the part of `s` after its leading white space, and
   * everything after it is white space too.
   */
  lemma TrimIsCore(s: string)
    ensures LeadingSpace(s) + |Trim(s)| <= |s|
    ensures Trim(s) == s[LeadingSpace(s)..LeadingSpace(s) + |Trim(s)|]
    ensures forall k :: LeadingSpace(s) + |Trim(s)| <= k < |s| ==> IsWhiteSpace(s[k])
  {
  }

  /** Trimming twice is trimming once. */
  lemma TrimIdempotent(s: string)
    ensures Trim(Trim(s)) == Trim(s)
  {
  }

  // ---------------------------------------------------------------------------
  // ChatInput

  /** What a submit does: the text handed to `onSubmit`, if any, and the input box afterwards. */
  datatype Submission = Submission(sent: Option<string>, input: string)

  /** `handleSubmit`: submit the trimmed text when it is non-empty and the input is enabled, then clear the box. */
  function HandleSubmit(input: string, disabled: bool): (r: Submission)
    ensures r.sent.Some? <==> !disabled && exists k :: 0 <= k < |input| && !IsWhiteSpace(input[k])
    ensures r.sent.Some? ==> r.sent.value == Trim(input) && r.input == ""
    ensures r.sent.Some? ==> !IsWhiteSpace(r.sent.value[0]) && !IsWhiteSpace(r.sent.value[|r.sent.value| - 1])
    ensures r.sent.None? ==> r.input == input
  {
    if Trim(input) != "" && !disabled then Submission(Some(Trim(input)), "")
    else Submission(None, input)
  }

  /** The send button's `disabled={disabled || !message.trim()}`. */
  function SendButtonDisabled(disabled: bool, input: string): (off: bool)
    ensures off <==> disabled || forall k :: 0 <= k < |input| ==> IsWhiteSpace(input[k])
  {
    disabled || Trim(input) == ""
  }

  /** The send button is enabled exactly when a submit would send something. */
  lemma SubmitMatchesButton(input: string, disabled: bool)
    ensures HandleSubmit(input, disabled).sent.Some? <==> !SendButtonDisabled(disabled, input)
  {
  }

  /** A sent message is never sent again as it is: submitting the cleared box does nothing. */
  lemma SubmitClearsInput(input: string, disabled: bool)
    requires HandleSubmit(input, disabled).sent.Some?
    ensures HandleSubmit(HandleSubmit(input, disabled).input, disabled).sent == None
  {
  }

  // ---------------------------------------------------------------------------
  // lastModelMessage

  /** `messages.filter(m => m.role === 'model')`. */
  function ModelMessages(messages: seq<Message>): (r: seq<Message>)
    ensures |r| <= |messages|
    ensures forall k :: 0 <= k < |r| ==> r[k].role == Model
    ensures forall k :: 0 <= k < |messages| && messages[k].role == Model ==> messages[k] in r
    ensures forall m :: m in r ==> m in messages
  {
    if messages == [] then []
    else
      var last := messages[|messages| - 1];
      ModelMessages(messages[..|messages| - 1]) + if last.role == Model then [last] else []
  }

  /** `messages.filter(m => m.role === 'model').pop()?.text || ''`. */
  function LastModelText(messages: seq<Message>): (text: string)
    ensures text != "" ==> Message(Model, text) in messages
  {
    var models := ModelMessages(messages);
    if models == [] then "" else models[|models| - 1].text
  }

  /** The selector is the text of the last message whose role is `model`. */
  lemma {:induction false} LastModelTextIsLastModel(messages: seq<Message>, k: nat)
    requires k < |messages| && messages[k].role == Model
    requires forall j :: k < j < |messages| ==> messages[j].role == User
    ensures LastModelText(messages) == messages[k].text
    decreases |messages|
  {
    if k < |messages| - 1 {
      var init := messages[..|messages| - 1];
      LastModelTextIsLastModel(init, k);
      assert ModelMessages(messages) == ModelMessages(init);
    }
  }

  /** With no `model` message the selector is the empty string. */
  lemma {:induction false} LastModelTextWithoutModel(messages: seq<Message>)
    requires forall j :: 0 <= j < |messages| ==> messages[j].role == User
    ensures LastModelText(messages) == ""
    decreases |messages|
  {
    if messages != [] {
      LastModelTextWithoutModel(messages[..|messages| - 1]);
    }
  }

  // ---------------------------------------------------------------------------
  // Header actions

  /** `handleCopy`: the text written to the clipboard, if any. */
  function CopyAction(lastModelMessage: string): (copied: Option<string>)
    ensures copied.Some? <==> lastModelMessage != ""
    ensures copied.Some? ==> copied.value == lastModelMessage
  {
    if lastModelMessage != "" then Some(lastModelMessage) else None
  }

  datatype PlayAction = CancelSpeech | Speak(text: string) | NoAction

  /** `handlePlayToggle`: stop speech while playing, otherwise speak the last model message if there is one. */
  function PlayToggle(isPlaying: bool, lastModelMessage: string): (a: PlayAction)
    ensures a == CancelSpeech <==> isPlaying
    ensures a.Speak? <==> !isPlaying && lastModelMessage != ""
    ensures a.Speak? ==> a.text == lastModelMessage
  {
    if isPlaying then CancelSpeech
    else if lastModelMessage != "" then Speak(lastModelMessage)
    else NoAction
  }

  // ---------------------------------------------------------------------------
  // What the panel shows

  /** The branches of `renderContent`; `Nothing` is its final `return null`. */
  datatype Content =
    | Skeleton
    | Welcome
    | InitialPrompt
    | Transcript(bubbles: seq<Message>, pending: bool)
    | Nothing

  /** `renderContent`, its checks in source order. */
  function RenderContent(messages: seq<Message>, loading: bool, hasImage: bool): (c: Content)
    ensures c != Nothing
  {
    if loading && |messages| == 0 then Skeleton
    else if !hasImage then Welcome
    else if hasImage && |messages| == 0 && !loading then InitialPrompt
    else if |messages| > 0 then Transcript(messages, loading && |messages| > 0)
    else Nothing
  }

  /** Each view, by the state that selects it. */
  lemma RenderContentCases(messages: seq<Message>, loading: bool, hasImage: bool)
    ensures RenderContent(messages, loading, hasImage) == Skeleton <==> loading && messages == []
    ensures RenderContent(messages, loading, hasImage) == Welcome <==> !hasImage && !(loading && messages == [])
    ensures RenderContent(messages, loading, hasImage) == InitialPrompt <==> hasImage && messages == [] && !loading
    ensures RenderContent(messages, loading, hasImage) == Transcript(messages, loading) <==> hasImage && messages != []
  {
  }

  /** The whole panel: content, error box, header buttons and chat input. */
  datatype Panel = Panel(
    content: Content,
    errorBox: Option<string>,
    copyButton: bool,
    playButton: bool,
    chatInput: Option<bool>)  // Some(disabled) when the input is rendered

  /** What `DescriptionDisplay` renders for its props. */
  function Render(messages: seq<Message>, loading: bool, error: Option<string>, hasImage: bool,
                  speechSupported: bool): (p: Panel)
    ensures p.content == RenderContent(messages, loading, hasImage) && p.content != Nothing
    ensures p.errorBox.Some? ==> p.errorBox == error
    ensures p.errorBox.Some? <==> error.Some? && error.value != ""
    ensures p.chatInput.Some? <==> hasImage
    ensures p.chatInput.Some? ==> p.chatInput.value == loading
    ensures p.copyButton <==> LastModelText(messages) != ""
    ensures p.playButton <==> speechSupported && LastModelText(messages) != ""
  {
    var last := LastModelText(messages);
    Panel(
      RenderContent(messages, loading, hasImage),
      if error.Some? && error.value != "" then error else None,
      last != "",
      speechSupported && last != "",
      if hasImage then Some(loading) else None)
  }

  /** Without model text, copying and playing do nothing and neither button is shown. */
  lemma ActionsInertWithoutModelText(messages: seq<Message>, loading: bool, error: Option<string>,
                                     hasImage: bool, speechSupported: bool)
    requires LastModelText(messages) == ""
    ensures CopyAction(LastModelText(messages)) == None
    ensures PlayToggle(false, LastModelText(messages)) == NoAction
    ensures !Render(messages, loading, error, hasImage, speechSupported).copyButton
    ensures !Render(messages, loading, error, hasImage, speechSupported).playButton
  {
  }
}
