/** The chat messages, the provider table, and the pure construction of a
    chat-completion request: the composed user turn, the message list sent
    to the provider, the header map and the request body. */
module Request {

  datatype Role = System | User | Assistant

  datatype Message = Message(role: Role, content: string)

  datatype ProviderConfig = ProviderConfig(baseUrl: string, model: string, headers: map<string, string>)

  const DeepSeekName: string := "DeepSeek Direct"
  const OpenRouterName: string := "OpenRouter"

  /** `API_PROVIDERS`: the two providers, with their endpoint, model and extra headers. */
  const Providers: map<string, ProviderConfig> := map[
    DeepSeekName := ProviderConfig("https://api.deepseek.com/v1", "deepseek-chat", map[]),
    OpenRouterName := ProviderConfig(
      "https://openrouter.ai/api/v1",
      "deepseek/deepseek-chat-v3-0324:free",
      map["HTTP-Referer" := "http://localhost:8501", "X-Title" := "DeepSeek Chat App"])
  ]

  /** Neither provider overrides the two fixed headers, and OpenRouter alone
      sends extra ones: its referer and its title. */
  lemma ProviderTable()
    ensures Providers.Keys == {DeepSeekName, OpenRouterName}
    ensures forall p :: p in Providers ==>
      AuthorizationHeader !in Providers[p].headers && ContentTypeHeader !in Providers[p].headers
    ensures Providers[DeepSeekName].headers == map[]
    ensures Providers[OpenRouterName].headers.Keys == {"HTTP-Referer", "X-Title"}
  {
  }

  const AuthorizationHeader: string := "Authorization"
  const ContentTypeHeader: string := "Content-Type"

  /** The content of the user turn: the attached file's text, a newline and
      the prompt when a file with text is attached, the prompt alone otherwise. */
  function FullPrompt(fileContent: string, prompt: string): (r: string)
    ensures fileContent == [] ==> r == prompt
    ensures fileContent != [] ==>
      && |r| == |fileContent| + 1 + |prompt|
      && r[..|fileContent|] == fileContent
      && r[|fileContent|] == '\n'
      && r[|fileContent| + 1..] == prompt
  {
    if fileContent != [] then fileContent + "\n" + prompt else prompt
  }

  /** The messages sent to the provider: the system preamble, then the whole log. */
  function RequestMessages(preamble: string, log: seq<Message>): (r: seq<Message>)
    ensures |r| == |log| + 1
    ensures r[0] == Message(System, preamble)
    ensures r[1..] == log
  {
    [Message(System, preamble)] + log
  }

  /** The fixed headers merged with the provider's extra ones; because the
      extra headers are unpacked last, they win on a shared name. */
  function Headers(apiKey: string, extra: map<string, string>): (h: map<string, string>)
    ensures h.Keys == {AuthorizationHeader, ContentTypeHeader} + extra.Keys
    ensures forall k :: k in extra ==> h[k] == extra[k]
    ensures AuthorizationHeader !in extra ==> h[AuthorizationHeader] == "Bearer " + apiKey
    ensures ContentTypeHeader !in extra ==> h[ContentTypeHeader] == "application/json"
  {
    map[AuthorizationHeader := "Bearer " + apiKey, ContentTypeHeader := "application/json"] + extra
  }

  /** The JSON body; the two sampling parameters are passed through untouched. */
  datatype RequestBody = RequestBody(
    model: string,
    messages: seq<Message>,
    temperature: real,
    frequencyPenalty: real,
    stream: bool)

  datatype ChatRequest = ChatRequest(url: string, headers: map<string, string>, body: RequestBody)

  /** The POST the app sends for a given provider and log. */
  function BuildRequest(provider: string, apiKey: string, preamble: string, log: seq<Message>,
                        temperature: real, repPenalty: real): (r: ChatRequest)
    requires provider in Providers
    ensures r.url == Providers[provider].baseUrl + "/chat/completions"
    ensures r.headers.Keys == {AuthorizationHeader, ContentTypeHeader} + Providers[provider].headers.Keys
    ensures r.headers[AuthorizationHeader] == "Bearer " + apiKey
    ensures r.headers[ContentTypeHeader] == "application/json"
    ensures forall k :: k in Providers[provider].headers ==> r.headers[k] == Providers[provider].headers[k]
    ensures r.body.model == Providers[provider].model
    ensures |r.body.messages| == |log| + 1
    ensures r.body.messages[0] == Message(System, preamble) && r.body.messages[1..] == log
    ensures r.body.temperature == temperature && r.body.frequencyPenalty == repPenalty
    ensures r.body.stream
  {
    var config := Providers[provider];
    ChatRequest(
      config.baseUrl + "/chat/completions",
      Headers(apiKey, config.headers),
      RequestBody(config.model, RequestMessages(preamble, log), temperature, repPenalty, true))
  }
}
