/**
 * The chat session of `ClippyApp`: the message log, the input box, the
 * loading flag and the settings, with the handlers that change them
 * (`addMessage`, `handleCommand`, `callAI`, `handleSend`, `handleClipboard`,
 * the settings inputs) and `exportChat`.
 *
 * Each React state setter is taken as an immediate update, in program order.
 * The two persistence effects write the whole log and the whole settings
 * object to storage after every change; `storedHistory` and `storedSettings`
 * are those two stored blobs, and `Valid()` says they are always current.
 * Requests handed to the network are recorded in `sent`, URLs handed to the
 * browser in `launched`.
 */
module Session {
  import opened Wrappers
  import opened Text
  import opened Messages
  import opened Commands
  import opened Provider
  import Transcript

  const NoTextProvided: string := "No text provided."
  const ClipboardLabel: string := "[Clipboard]: "
  const Ellipsis: string := "..."
  const PreviewLength: nat := 50
  const SummarizeInstruction: string := "Summarize this text concisely:\n"

  /** The assistant's answer to an evaluated arithmetic command. */
  function ResultMessage(value: string): (m: Message)
    ensures m.role == Assistant
    ensures StartsWith(m.content, ResultPrefix) && m.content[|ResultPrefix|..] == value
  {
    Message(Assistant, ResultPrefix + value)
  }

  /** The requests a call outcome sends: none or one. */
  function Requests(o: CallOutcome): (rs: seq<Request>)
    ensures |rs| <= 1
    ensures rs == [] <==> o.request.None?
    ensures o.request.Some? ==> rs == [o.request.value]
  {
    match o.request
    case Some(r) => [r]
    case None => []
  }

  /** The text `handleClipboard` works on: what the clipboard gave, or when
      that is empty (read refused or nothing copied) what was pasted into the
      prompt; empty when the prompt was cancelled or left empty. */
  function ClipboardText(clipboard: string, manualPaste: Option<string>): (text: string)
    ensures clipboard != "" ==> text == clipboard
    ensures clipboard == "" && manualPaste.Some? ==> text == manualPaste.value
    ensures clipboard == "" && manualPaste.None? ==> text == ""
  {
    if clipboard != "" then clipboard
    else if manualPaste.Some? && manualPaste.value != "" then manualPaste.value
    else ""
  }

  /** The user entry shown for a clipboard summary: a label, at most the
      first 50 characters of the text, and an ellipsis. */
  function ClipboardPreview(text: string): (p: string)
    ensures |p| == |ClipboardLabel| + (if |text| < PreviewLength then |text| else PreviewLength) + |Ellipsis|
    ensures p[..|ClipboardLabel|] == ClipboardLabel
    ensures p[|p| - |Ellipsis|..] == Ellipsis
    ensures StartsWith(text, p[|ClipboardLabel|..|p| - |Ellipsis|])
  {
    var shown := Prefix(text, PreviewLength);
    var p := ClipboardLabel + shown + Ellipsis;
    assert p[|ClipboardLabel|..|p| - |Ellipsis|] == shown;
    p
  }

  /** With no key, a send the interpreter declines adds to the log one user
      entry and one system entry and no assistant entry. */
  lemma MissingKeySendCounts(log: seq<Message>, settings: AppSettings, text: string, response: Response)
    requires settings.apiKey == ""
    ensures var after := log + [Message(User, text), Provider.CallAI(settings, text, response).appended];
            && CountRole(after, User) == CountRole(log, User) + 1
            && CountRole(after, System) == CountRole(log, System) + 1
            && CountRole(after, Assistant) == CountRole(log, Assistant)
  {
    var added := [Message(User, text), Message(System, MissingKeyText)];
    CountRoleAppend(log, added, User);
    CountRoleAppend(log, added, System);
    CountRoleAppend(log, added, Assistant);
    assert added[..1] == [Message(User, text)];
    assert [Message(User, text)][..0] == [];
  }

  class ChatSession {
    var messages: seq<Message>
    var input: string
    var isLoading: bool
    var settings: AppSettings
    var storedHistory: seq<Message>
    var storedSettings: AppSettings
    var sent: seq<Request>
    var launched: seq<string>

    /** Storage always holds the current log and settings. */
    ghost predicate Valid()
      reads this
    {
      storedHistory == messages && storedSettings == settings
    }

    /** Mounting: the stored settings and history are loaded once (the
        settings only when no demo key is compiled in). */
    constructor (savedSettings: Option<AppSettings>, savedHistory: Option<seq<Message>>)
      ensures Valid()
      ensures settings == LoadSettings(savedSettings, DemoModeApiKey)
      ensures savedHistory.Some? ==> messages == savedHistory.value
      ensures savedHistory.None? ==> messages == []
      ensures input == "" && !isLoading && sent == [] && launched == []
    {
      settings := LoadSettings(savedSettings, DemoModeApiKey);
      messages := if savedHistory.Some? then savedHistory.value else [];
      input := "";
      isLoading := false;
      sent := [];
      launched := [];
      storedSettings := settings;
      storedHistory := messages;
    }

    /** Typing into the input box. */
    method SetInput(text: string)
      requires Valid()
      modifies this
      ensures Valid()
      ensures input == text
      ensures messages == old(messages) && isLoading == old(isLoading) && settings == old(settings)
      ensures sent == old(sent) && launched == old(launched)
    {
      input := text;
    }

    /** `addMessage`: append one entry at the end of the log. */
    method AddMessage(role: Role, content: string)
      requires Valid()
      modifies this
      ensures Valid()
      ensures messages == old(messages) + [Message(role, content)]
      ensures input == old(input) && isLoading == old(isLoading) && settings == old(settings)
      ensures sent == old(sent) && launched == old(launched)
    {
      messages := messages + [Message(role, content)];
      storedHistory := messages;
    }

    /** `handleCommand` once `Classify` has decided: carry out a local
        command; answers whether the input was one. */
    method HandleCommand(command: Command) returns (handled: bool)
      requires Valid()
      modifies this
      ensures Valid()
      ensures handled <==> command != NotACommand
      ensures match command
              case OpenUrl(url) => messages == old(messages) && launched == old(launched) + [url]
              case ClearLog => messages == [] && launched == old(launched)
              case Evaluated(v) => messages == old(messages) + [ResultMessage(v)] && launched == old(launched)
              case NotACommand => messages == old(messages) && launched == old(launched)
      ensures input == old(input) && isLoading == old(isLoading) && settings == old(settings)
      ensures sent == old(sent)
    {
      match command
      case OpenUrl(url) =>
        launched := launched + [url];
        handled := true;
      case ClearLog =>
        messages := [];
        storedHistory := messages;
        handled := true;
      case Evaluated(v) =>
        AddMessage(Assistant, ResultPrefix + v);
        handled := true;
      case NotACommand =>
        handled := false;
    }

    /** `callAI`: with no key, post the missing-key notice and clear the
        loading flag without sending anything; otherwise send the request for
        the configured provider and post what its answer becomes. */
    method CallAI(text: string, response: Response)
      requires Valid()
      modifies this
      ensures Valid()
      ensures var o := Provider.CallAI(settings, text, response);
              && messages == old(messages) + [o.appended]
              && sent == old(sent) + Requests(o)
      ensures isLoading == (if settings.apiKey == "" then false else old(isLoading))
      ensures input == old(input) && settings == old(settings) && launched == old(launched)
    {
      if settings.apiKey == "" {
        AddMessage(System, MissingKeyText);
        isLoading := false;
        return;
      }
      var request := BuildRequest(settings, text);
      sent := sent + [request];
      var reply := Reply(settings.provider, response);
      AddMessage(reply.role, reply.content);
    }

    /** `handleSend`: ignore a blank input; otherwise clear the box, post the
        text as the user, and either run it as a local command or ask the
        language model with the loading flag raised for the call. */
    method HandleSend(eval: string -> Option<string>, response: Response)
      requires Valid()
      modifies this
      ensures Valid()
      ensures settings == old(settings)
      ensures Trim(old(input)) == [] ==>
                && messages == old(messages) && input == old(input) && isLoading == old(isLoading)
                && sent == old(sent) && launched == old(launched)
      ensures Trim(old(input)) != [] ==>
                && input == ""
                && SubmitEffect(old(input), eval, response, old(messages), old(sent), old(launched), old(isLoading))
    {
      if Trim(input) == [] {
        return;
      }
      var text := input;
      input := "";
      Submit(text, eval, response);
    }

    /** What a non-blank send of `text` has done, from the log, requests,
        URLs and loading flag it started with: the text is logged as the
        user, then the command it classifies as is carried out, or the
        language model is asked and the loading flag ends down. */
    ghost predicate SubmitEffect(text: string, eval: string -> Option<string>, response: Response,
                                 oldMessages: seq<Message>, oldSent: seq<Request>, oldLaunched: seq<string>, oldLoading: bool)
      reads this
    {
      var logged := oldMessages + [Message(User, text)];
      match Classify(text, eval)
      case OpenUrl(url) =>
        && messages == logged && launched == oldLaunched + [url]
        && sent == oldSent && isLoading == oldLoading
      case ClearLog =>
        && messages == [] && launched == oldLaunched
        && sent == oldSent && isLoading == oldLoading
      case Evaluated(v) =>
        && messages == logged + [ResultMessage(v)] && launched == oldLaunched
        && sent == oldSent && isLoading == oldLoading
      case NotACommand =>
        var o := Provider.CallAI(settings, text, response);
        && messages == logged + [o.appended] && launched == oldLaunched
        && sent == oldSent + Requests(o) && !isLoading
    }

    /** The part of `handleSend` after the input box is cleared. */
    method Submit(text: string, eval: string -> Option<string>, response: Response)
      requires Valid()
      modifies this
      ensures Valid()
      ensures settings == old(settings) && input == old(input)
      ensures SubmitEffect(text, eval, response, old(messages), old(sent), old(launched), old(isLoading))
    {
      AddMessage(User, text);
      var handled := HandleCommand(Classify(text, eval));
      if !handled {
        isLoading := true;
        CallAI(text, response);
        isLoading := false;
      }
    }

    /** `handleClipboard`: with no text, post a system notice; otherwise post
        a preview of the text as the user and ask the language model for a
        summary, with the loading flag raised for the call. */
    method HandleClipboard(clipboard: string, manualPaste: Option<string>, response: Response)
      requires Valid()
      modifies this
      ensures Valid()
      ensures var text := ClipboardText(clipboard, manualPaste);
              && (text == "" ==>
                    && messages == old(messages) + [Message(System, NoTextProvided)]
                    && sent == old(sent) && isLoading == old(isLoading))
              && (text != "" ==>
                    var o := Provider.CallAI(settings, SummarizeInstruction + text, response);
                    && messages == old(messages) + [Message(User, ClipboardPreview(text)), o.appended]
                    && sent == old(sent) + Requests(o) && !isLoading)
      ensures input == old(input) && settings == old(settings) && launched == old(launched)
    {
      var text := clipboard;
      if text == "" {
        if manualPaste.Some? && manualPaste.value != "" {
          text := manualPaste.value;
        }
      }
      if text == "" {
        AddMessage(System, NoTextProvided);
        return;
      }
      AddMessage(User, ClipboardLabel + Prefix(text, PreviewLength) + Ellipsis);
      isLoading := true;
      CallAI(SummarizeInstruction + text, response);
      isLoading := false;
    }

    /** `exportChat`: the transcript and the name of the file it is offered as. */
    method ExportChat() returns (fileName: string, text: string)
      ensures fileName == Transcript.FileName
      ensures text == Transcript.Render(messages)
    {
      fileName := Transcript.FileName;
      var log := messages;
      text := "";
      var i := 0;
      while i < |log|
        invariant 0 <= i <= |log|
        invariant text == Transcript.Render(log[..i])
      {
        Transcript.RenderStep(log, i, text);
        text := if i == 0 then Transcript.Block(log[i])
                else text + Transcript.Separator + Transcript.Block(log[i]);
        i := i + 1;
      }
      assert log[..i] == log;
    }

    /** Reopening the widget: a session mounted from what this one stored
        has the same settings and the same log. */
    method Reopen() returns (next: ChatSession)
      requires Valid()
      ensures next.Valid()
      ensures next.settings == settings && next.messages == messages
      ensures next.input == "" && !next.isLoading
    {
      SettingsRoundTrip(storedSettings);
      next := new ChatSession(Some(storedSettings), Some(storedHistory));
    }

    /** Editing the API key in the settings panel. */
    method UpdateApiKey(key: string)
      requires Valid()
      modifies this
      ensures Valid()
      ensures settings == old(settings).(apiKey := key)
      ensures messages == old(messages) && input == old(input) && isLoading == old(isLoading)
      ensures sent == old(sent) && launched == old(launched)
    {
      settings := settings.(apiKey := key);
      storedSettings := settings;
    }

    /** Editing the system prompt in the settings panel. */
    method UpdateSystemPrompt(prompt: string)
      requires Valid()
      modifies this
      ensures Valid()
      ensures settings == old(settings).(systemPrompt := prompt)
      ensures messages == old(messages) && input == old(input) && isLoading == old(isLoading)
      ensures sent == old(sent) && launched == old(launched)
    {
      settings := settings.(systemPrompt := prompt);
      storedSettings := settings;
    }

    /** Choosing a theme in the settings panel. */
    method SelectTheme(theme: Theme)
      requires Valid()
      modifies this
      ensures Valid()
      ensures settings == old(settings).(theme := theme)
      ensures messages == old(messages) && input == old(input) && isLoading == old(isLoading)
      ensures sent == old(sent) && launched == old(launched)
    {
      settings := settings.(theme := theme);
      storedSettings := settings;
    }
  }

  /** The arithmetic scenario: with a key set, sending "2+2" when the engine
      evaluates it to 4 logs the question and "Result: 4" and sends nothing. */
  method ArithmeticIsAnsweredLocally(eval: string -> Option<string>, response: Response)
    requires eval("2+2") == Some("4")
  {
    var session := new ChatSession(Some(InitialSettings.(apiKey := "sk-test")), None);
    session.SetInput("2+2");
    TwoPlusTwo(eval);
    assert !AllSpace("2+2") by { assert !IsSpace("2+2"[0]); }
    TrimEmptyIffAllSpace("2+2");
    assert ResultMessage("4") == Message(Assistant, "Result: 4");
    session.HandleSend(eval, response);
    assert session.messages == [Message(User, "2+2")] + [ResultMessage("4")];
    assert session.sent == [] && !session.isLoading;
  }

  /** The missing-key scenario: a question sent with no key gets the notice
      as a system entry and nothing reaches the network. */
  method MissingKeyIsReportedLocally(eval: string -> Option<string>, response: Response)
    requires eval("hello") == None
  {
    var session := new ChatSession(None, None);
    session.SetInput("hello");
    assert !AllSpace("hello") by { assert !IsSpace("hello"[0]); }
    TrimEmptyIffAllSpace("hello");
    assert Normalize("hello") == "hello" by { NormalizeKeepsNormalText("hello"); }
    assert !StartsWith("hello", OpenPrefix);
    assert Classify("hello", eval) == NotACommand;
    session.HandleSend(eval, response);
    assert session.messages == [Message(User, "hello"), Message(System, MissingKeyText)];
    assert session.sent == [] && !session.isLoading;
  }
}
