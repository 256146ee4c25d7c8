/**
 * The settings and the remote language-model call of App.tsx (`callAI`).
 *
 * The call itself (`fetch` and `res.json()`) is outside the model: a request
 * is a value describing what would be posted, and the decoded answer is a
 * `Response` given as input. What is modelled is the missing-key short
 * circuit, the choice of protocol by provider, and how the answer becomes the
 * one chat message `callAI` appends.
 */
module Provider {
  import opened Wrappers
  import opened Messages

  datatype ProviderKind = OpenAI | Gemini

  datatype Theme = Motate | Light

  datatype AppSettings = AppSettings(
    provider: ProviderKind,
    apiKey: string,
    systemPrompt: string,
    userContext: string,
    theme: Theme)

  /** A key compiled into the build; when non-empty, stored settings are ignored. */
  const DemoModeApiKey: string := ""

  const DefaultSystemPrompt: string :=
    "You are Clippy, a helpful, witty, and slightly sarcastic desktop assistant. Keep answers concise."

  const InitialSettings: AppSettings := AppSettings(
    OpenAI,
    DemoModeApiKey,
    DefaultSystemPrompt,
    "I am a Software Engineer intern applicant. I like efficient code.",
    Motate)

  const MissingKeyText: string := "Please enter API Key in Settings."
  const ApiErrorText: string := "API Error"

  const OpenAIEndpoint: string := "https://api.openai.com/v1/chat/completions"
  const OpenAIModel: string := "gpt-3.5-turbo"
  const GeminiEndpointPrefix: string :=
    "https://generativelanguage.googleapis.com/v1beta/models/gemini-1.5-flash:generateContent?key="
  const BearerPrefix: string := "Bearer "
  const UserLabel: string := "\nUser: "

  /** What `callAI` posts: an OpenAI chat completion with a system and a user
      message and a bearer token, or a Gemini generate-content call with one
      text part and the key in the query string. */
  datatype Request =
    | ChatCompletion(endpoint: string, authorization: string, model: string, systemContent: string, userContent: string)
    | GenerateContent(endpoint: string, text: string)

  /** The request for `text` under `settings`. */
  function BuildRequest(settings: AppSettings, text: string): (r: Request)
    ensures r.ChatCompletion? <==> settings.provider == OpenAI
    ensures r.ChatCompletion? ==>
              && r.endpoint == OpenAIEndpoint && r.model == OpenAIModel
              && |r.authorization| == |BearerPrefix| + |settings.apiKey|
              && r.authorization[..|BearerPrefix|] == BearerPrefix
              && r.authorization[|BearerPrefix|..] == settings.apiKey
              && r.systemContent == settings.systemPrompt && r.userContent == text
    ensures r.GenerateContent? ==>
              && |r.endpoint| == |GeminiEndpointPrefix| + |settings.apiKey|
              && |r.text| == |settings.systemPrompt| + |UserLabel| + |text|
              && r.endpoint[..|GeminiEndpointPrefix|] == GeminiEndpointPrefix
              && r.endpoint[|GeminiEndpointPrefix|..] == settings.apiKey
              && r.text[..|settings.systemPrompt|] == settings.systemPrompt
              && r.text[|settings.systemPrompt|..|settings.systemPrompt| + |UserLabel|] == UserLabel
              && r.text[|settings.systemPrompt| + |UserLabel|..] == text
  {
    match settings.provider
    case OpenAI =>
      ChatCompletion(OpenAIEndpoint, BearerPrefix + settings.apiKey, OpenAIModel, settings.systemPrompt, text)
    case Gemini =>
      GenerateContent(GeminiEndpointPrefix + settings.apiKey, settings.systemPrompt + UserLabel + text)
  }

  /** What reading the provider's reply path of a decoded body gives:
      - `Found`: the last field holds this text;
      - `Unset`: every step of the path is there but the last field is
        `undefined` or `null`, which the engine reads without complaint;
      - `Broken`: a step before the last field is missing (`choices`,
        `candidates`, the first element, `message`, `content` or `parts`),
        and reading through it raises a TypeError with this message. */
  datatype ReplyPath =
    | Found(text: string)
    | Unset
    | Broken(typeError: string)

  /** The decoded answer to a request, or the failure that prevented one.
      - `Thrown`: `fetch` or `res.json()` rejected with this message;
      - `ErrorBody`: the body has an `error` object, with its `message`
        (empty when that message is missing or empty);
      - `ReplyBody`: no `error`; `choiceContent` is what reading
        `choices[0].message.content` gives and `candidateText` what reading
        `candidates[0].content.parts[0].text` gives. */
  datatype Response =
    | Thrown(message: string)
    | ErrorBody(message: string)
    | ReplyBody(choiceContent: ReplyPath, candidateText: ReplyPath)

  /** The reply path of `provider`'s protocol. */
  function ReplyField(provider: ProviderKind, response: Response): (field: ReplyPath)
    requires response.ReplyBody?
    ensures provider == OpenAI ==> field == response.choiceContent
    ensures provider == Gemini ==> field == response.candidateText
  {
    if provider == OpenAI then response.choiceContent else response.candidateText
  }

  /** The chat entry an answer becomes: whatever the provider's reply path
      reads, as the assistant, when reading it does not throw; otherwise the
      error text as a system message. An unset reply is posted as an empty
      assistant entry. */
  function Reply(provider: ProviderKind, response: Response): (m: Message)
    ensures m.role != User
    ensures m.role == Assistant <==> response.ReplyBody? && !ReplyField(provider, response).Broken?
    ensures response.ReplyBody? && ReplyField(provider, response).Found? ==>
              m.content == ReplyField(provider, response).text
    ensures response.ReplyBody? && ReplyField(provider, response).Unset? ==> m.content == ""
    ensures response.ReplyBody? && ReplyField(provider, response).Broken? ==>
              m.content == ReplyField(provider, response).typeError
    ensures response.Thrown? ==> m.content == response.message
    ensures response.ErrorBody? ==>
              m.content == if response.message == "" then ApiErrorText else response.message
  {
    match response
    case Thrown(message) => Message(System, message)
    case ErrorBody(message) => Message(System, if message == "" then ApiErrorText else message)
    case ReplyBody(_, _) =>
      match ReplyField(provider, response)
      case Found(reply) => Message(Assistant, reply)
      case Unset => Message(Assistant, "")
      case Broken(typeError) => Message(System, typeError)
  }

  /** What one `callAI(text)` does: the request it sends, if any, and the one
      message it appends. */
  datatype CallOutcome = CallOutcome(request: Option<Request>, appended: Message)

  function CallAI(settings: AppSettings, text: string, response: Response): (o: CallOutcome)
    ensures o.request.None? <==> settings.apiKey == ""
    ensures settings.apiKey == "" ==> o.appended == Message(System, MissingKeyText)
    ensures o.request.Some? ==> o.request.value == BuildRequest(settings, text)
    ensures o.request.Some? ==> o.appended == Reply(settings.provider, response)
    ensures o.appended.role != User
  {
    if settings.apiKey == "" then CallOutcome(None, Message(System, MissingKeyText))
    else CallOutcome(Some(BuildRequest(settings, text)), Reply(settings.provider, response))
  }

  /** Without a key nothing is sent and no assistant reply appears, whatever
      the provider and whatever the network would have answered. */
  lemma MissingKeyNeverReachesProvider(settings: AppSettings, text: string, response: Response)
    requires settings.apiKey == ""
    ensures CallAI(settings, text, response).request == None
    ensures CallAI(settings, text, response).appended.role == System
  {
  }

  /** A failed request, a provider-reported error, or a reply path broken
      before its last field never becomes an assistant message. */
  lemma ErrorsBecomeSystemMessages(settings: AppSettings, text: string, response: Response)
    requires !(response.ReplyBody? && !ReplyField(settings.provider, response).Broken?)
    ensures CallAI(settings, text, response).appended.role == System
  {
  }

  /** The settings the widget starts with: the stored ones when there are
      any and no demo key is compiled in, the built-in defaults otherwise. */
  function LoadSettings(saved: Option<AppSettings>, demoKey: string): (s: AppSettings)
    ensures demoKey != "" ==> s == InitialSettings
    ensures saved.None? ==> s == InitialSettings
    ensures saved.Some? && demoKey == "" ==> s == saved.value
  {
    if saved.Some? && demoKey == "" then saved.value else InitialSettings
  }

  /** Settings saved and loaded again come back unchanged in this build,
      which has no demo key. */
  lemma SettingsRoundTrip(s: AppSettings)
    ensures LoadSettings(Some(s), DemoModeApiKey) == s
  {
  }
}
