/**
 * The four backend adapters: the request envelope each one posts and the
 * property path its reply text is read from. The transport itself is not
 * part of the model.
 */
module Adapters {
  import opened Wrappers
  import opened Config
  import opened JsValue
  import opened Providers

  datatype Role = System | User

  datatype ChatMessage = ChatMessage(role: Role, content: string)

  /** The headers of the three posts made with axios. */
  datatype Headers = Headers(contentType: string, authorization: string)

  datatype AlibabaInput = AlibabaInput(messages: seq<ChatMessage>)

  datatype AlibabaParameters = AlibabaParameters(temperature: Temperature, maxTokens: int)

  /**
   * One request envelope per backend, with the field names and nesting of
   * its body: `max_tokens` for OpenAI and Tencent, `max_output_tokens` and
   * no model for Baidu, `parameters.max_tokens` and `input.messages` for
   * Alibaba. The OpenAI client takes its key and base URL at construction.
   */
  datatype Request =
    | OpenAIChat(baseURL: string, apiKey: Option<string>, model: string, messages: seq<ChatMessage>,
        maxTokens: int, temperature: Temperature)
    | BaiduChat(url: string, messages: seq<ChatMessage>, temperature: Temperature, maxOutputTokens: int,
        headers: Headers)
    | AlibabaGeneration(url: string, model: string, input: AlibabaInput, parameters: AlibabaParameters,
        headers: Headers)
    | TencentChat(url: string, model: string, messages: seq<ChatMessage>, temperature: Temperature,
        maxTokens: int, headers: Headers)

  /** `Bearer ${apiKey}`: an unset key is written as `undefined`. */
  function Bearer(apiKey: Option<string>): string {
    "Bearer " + apiKey.GetOr("undefined")
  }

  function JsonHeaders(apiKey: Option<string>): Headers {
    Headers("application/json", Bearer(apiKey))
  }

  function OpenAIRequest(settings: Settings, prompt: string): Request {
    OpenAIChat(settings.openai.baseURL, settings.openai.apiKey, settings.openai.model,
      [ChatMessage(System, settings.prompts.systemPrompt), ChatMessage(User, prompt)],
      settings.openai.maxTokens, settings.openai.temperature)
  }

  function BaiduRequest(settings: Settings, prompt: string): Request {
    var baidu := settings.alternativeApis.baidu;
    BaiduChat(baidu.endpoint, [ChatMessage(User, prompt)], settings.openai.temperature,
      settings.openai.maxTokens, JsonHeaders(baidu.apiKey))
  }

  function AlibabaRequest(settings: Settings, prompt: string): Request {
    var alibaba := settings.alternativeApis.alibaba;
    AlibabaGeneration(alibaba.endpoint, alibaba.model, AlibabaInput([ChatMessage(User, prompt)]),
      AlibabaParameters(settings.openai.temperature, settings.openai.maxTokens), JsonHeaders(alibaba.apiKey))
  }

  function TencentRequest(settings: Settings, prompt: string): Request {
    var tencent := settings.alternativeApis.tencent;
    TencentChat(tencent.endpoint, tencent.model, [ChatMessage(User, prompt)], settings.openai.temperature,
      settings.openai.maxTokens, JsonHeaders(tencent.apiKey))
  }

  /** Which backend an envelope is addressed to. */
  function Target(r: Request): Provider {
    match r
    case OpenAIChat(_, _, _, _, _, _) => OpenAI
    case BaiduChat(_, _, _, _, _) => Baidu
    case AlibabaGeneration(_, _, _, _, _) => Alibaba
    case TencentChat(_, _, _, _, _, _) => Tencent
  }

  /** The chat messages an envelope carries, wherever its body keeps them. */
  function Messages(r: Request): seq<ChatMessage> {
    match r
    case OpenAIChat(_, _, _, messages, _, _) => messages
    case BaiduChat(_, messages, _, _, _) => messages
    case AlibabaGeneration(_, _, input, _, _) => input.messages
    case TencentChat(_, _, messages, _, _, _) => messages
  }

  /** The reply-length limit, whatever the backend calls it. */
  function TokenLimit(r: Request): int {
    match r
    case OpenAIChat(_, _, _, _, maxTokens, _) => maxTokens
    case BaiduChat(_, _, _, maxOutputTokens, _) => maxOutputTokens
    case AlibabaGeneration(_, _, _, parameters, _) => parameters.maxTokens
    case TencentChat(_, _, _, _, maxTokens, _) => maxTokens
  }

  function TemperatureOf(r: Request): Temperature {
    match r
    case OpenAIChat(_, _, _, _, _, temperature) => temperature
    case BaiduChat(_, _, temperature, _, _) => temperature
    case AlibabaGeneration(_, _, _, parameters, _) => parameters.temperature
    case TencentChat(_, _, _, temperature, _, _) => temperature
  }

  /** The model the body names; the Baidu body names none. */
  function ModelOf(r: Request): Option<string> {
    match r
    case OpenAIChat(_, _, model, _, _, _) => Some(model)
    case BaiduChat(_, _, _, _, _) => None
    case AlibabaGeneration(_, model, _, _, _) => Some(model)
    case TencentChat(_, model, _, _, _, _) => Some(model)
  }

  /**
   * Where the envelope is posted: for OpenAI the base URL the client is
   * built with (the client appends its own `/chat/completions` path), the
   * fixed endpoint otherwise.
   */
  function Address(r: Request): string {
    match r
    case OpenAIChat(baseURL, _, _, _, _, _) => baseURL
    case BaiduChat(url, _, _, _, _) => url
    case AlibabaGeneration(url, _, _, _, _) => url
    case TencentChat(url, _, _, _, _, _) => url
  }

  /** The key the backend is authenticated with. */
  function Credential(r: Request): Option<string> {
    match r
    case OpenAIChat(_, apiKey, _, _, _, _) => apiKey
    case BaiduChat(_, _, _, _, headers) => Some(headers.authorization)
    case AlibabaGeneration(_, _, _, _, headers) => Some(headers.authorization)
    case TencentChat(_, _, _, _, _, headers) => Some(headers.authorization)
  }

  /** The adapter the dispatch switch picks for a backend. */
  function BuildRequest(p: Provider, settings: Settings, prompt: string): (r: Request)
    ensures Target(r) == p
    ensures Messages(r) ==
      (if p == OpenAI then [ChatMessage(System, settings.prompts.systemPrompt)] else [])
      + [ChatMessage(User, prompt)]
    ensures TokenLimit(r) == settings.openai.maxTokens
    ensures TemperatureOf(r) == settings.openai.temperature
    ensures ModelOf(r) == match p
      case OpenAI => Some(settings.openai.model)
      case Baidu => None
      case Alibaba => Some(settings.alternativeApis.alibaba.model)
      case Tencent => Some(settings.alternativeApis.tencent.model)
    ensures Address(r) == match p
      case OpenAI => settings.openai.baseURL
      case Baidu => settings.alternativeApis.baidu.endpoint
      case Alibaba => settings.alternativeApis.alibaba.endpoint
      case Tencent => settings.alternativeApis.tencent.endpoint
    ensures Credential(r) == match p
      case OpenAI => settings.openai.apiKey
      case Baidu => Some(Bearer(settings.alternativeApis.baidu.apiKey))
      case Alibaba => Some(Bearer(settings.alternativeApis.alibaba.apiKey))
      case Tencent => Some(Bearer(settings.alternativeApis.tencent.apiKey))
    ensures !r.OpenAIChat? ==> r.headers.contentType == "application/json"
  {
    match p
    case OpenAI => OpenAIRequest(settings, prompt)
    case Baidu => BaiduRequest(settings, prompt)
    case Alibaba => AlibabaRequest(settings, prompt)
    case Tencent => TencentRequest(settings, prompt)
  }

  /**
   * Every backend receives the same prompt as its one user message, placed
   * last, and only OpenAI also receives the system prompt, placed first.
   */
  lemma SamePromptEverywhere(p: Provider, q: Provider, settings: Settings, prompt: string)
    ensures var m := Messages(BuildRequest(p, settings, prompt));
      var n := Messages(BuildRequest(q, settings, prompt));
      m[|m| - 1] == n[|n| - 1] == ChatMessage(User, prompt)
    ensures forall i | 0 <= i < |Messages(BuildRequest(p, settings, prompt))| ::
      Messages(BuildRequest(p, settings, prompt))[i].role == System <==> p == OpenAI && i == 0
  {
  }

  /** The property path the reply text is read through. */
  function ReplyPath(p: Provider): seq<Step> {
    match p
    case OpenAI => [Prop(Choices), First, Prop(Message), Prop(Content)]
    case Baidu => [Prop(Result)]
    case Alibaba => [Prop(Output), Prop(Text)]
    case Tencent => [Prop(Choices), First, Prop(Message), Prop(Content)]
  }

  /**
   * The value the adapter returns for a parsed reply body: a property read
   * on `undefined` or `null` along the way throws a TypeError.
   */
  function ExtractReply(p: Provider, data: Value): (r: Result<Value, string>)
    ensures data.Undefined? || data.Null? ==> r.Failure?
    ensures p == Baidu && data.Obj? ==>
      r == Success(if "result" in data.fields then data.fields["result"] else Undefined)
  {
    assert ReplyPath(Baidu)[1..] == [];
    ReadPath(data, ReplyPath(p))
  }

  /** The reply body a backend sends when it answers `text` in the documented shape. */
  function CanonicalReply(p: Provider, text: string): Value {
    Nest(ReplyPath(p), Str(text))
  }

  /**
   * Each adapter reads the answer out of any reply in its backend's
   * documented shape, whatever other fields and items the reply carries.
   */
  lemma ExtractShapedReply(p: Provider, data: Value, text: string)
    requires Reaches(data, ReplyPath(p), Str(text))
    ensures ExtractReply(p, data) == Success(Str(text))
  {
    ReadReaches(data, ReplyPath(p), Str(text));
  }

  /** The smallest reply of that shape is one of them. */
  lemma ExtractCanonicalReply(p: Provider, text: string)
    ensures Reaches(CanonicalReply(p, text), ReplyPath(p), Str(text))
    ensures ExtractReply(p, CanonicalReply(p, text)) == Success(Str(text))
  {
    NestReaches(ReplyPath(p), Str(text));
    ExtractShapedReply(p, CanonicalReply(p, text), text);
  }

  /**
   * A reply without the expected fields: Baidu's adapter returns
   * `undefined`, the others throw reading a property of `undefined`.
   */
  lemma ExtractFromEmptyObject(p: Provider)
    ensures ExtractReply(p, Obj(map[])) == match p
      case OpenAI => Failure(ReadError("undefined", First))
      case Baidu => Success(Undefined)
      case Alibaba => Failure(ReadError("undefined", Prop(Text)))
      case Tencent => Failure(ReadError("undefined", First))
  {
    var path := ReplyPath(p);
    assert ReadStep(Obj(map[]), path[0]) == Success(Undefined);
    assert ReadPath(Obj(map[]), path) == ReadPath(Undefined, path[1..]);
    if p == Baidu {
      assert path[1..] == [];
    } else {
      assert ReadPath(Undefined, path[1..]) == Failure(ReadError("undefined", path[1]));
    }
  }
}
