/**
 * The `AIService` object: the name of the backend in use, the three
 * provider operations, and `generateEvaluation`, which builds the prompt,
 * dispatches to the adapter of the current backend and reads the reply.
 * The network is a parameter: `transport` stands for the post an adapter
 * makes and yields the parsed reply body or the error it threw.
 */
module AiService {
  import opened Wrappers
  import opened Config
  import opened JsValue
  import opened Providers
  import opened Prompt
  import opened Adapters

  /** The service's one piece of state. It may hold a name that is not a backend. */
  datatype Service = Service(currentProvider: string)

  function UnsupportedMessage(name: string): string {
    "不支持的AI提供商: " + name
  }

  /** The service as loaded: `AI_PROVIDER`, or "openai" when that is unset or empty, unchecked. */
  function Construct(env: Env): (s: Service)
    ensures "AI_PROVIDER" in env && env["AI_PROVIDER"] != "" ==> s.currentProvider == env["AI_PROVIDER"]
    ensures !("AI_PROVIDER" in env && env["AI_PROVIDER"] != "") ==> s.currentProvider == "openai"
  {
    Service(StringSetting(env, "AI_PROVIDER", "openai"))
  }

  /** The service after `setProvider`, and the message it threw, if it threw. */
  datatype Switch = Switch(service: Service, error: Option<string>)

  /** `setProvider(name)`: only the four backend names are taken; anything else throws. */
  function SetProvider(s: Service, name: string): (r: Switch)
    ensures r.error.None? <==> name in GetSupportedProviders(s)
    ensures r.error.None? ==> GetCurrentProvider(r.service) == name
    ensures r.error.Some? ==> r.service == s && r.error.value == UnsupportedMessage(name)
  {
    if Parse(name).Some? then Switch(Service(name), None) else Switch(s, Some(UnsupportedMessage(name)))
  }

  function GetCurrentProvider(s: Service): string {
    s.currentProvider
  }

  /** `getSupportedProviders()`: every backend's name once, in declaration order. */
  function GetSupportedProviders(s: Service): (r: seq<string>)
    ensures r == [Name(OpenAI), Name(Baidu), Name(Alibaba), Name(Tencent)]
    ensures forall name :: name in r <==> Parse(name).Some?
  {
    SupportedNames
  }

  /** What the post yields: the parsed reply body, or the error it threw. */
  datatype Reply = Delivered(data: Value) | TransportFailed(message: string)

  /** The error `generateEvaluation` rethrows. */
  datatype ServiceError =
    | Unsupported(message: string)
    | TransportError(message: string)
    | ReplyUnreadable(message: string)

  /** The envelope that was posted, if any, and what the call returned or threw. */
  datatype Attempt = Attempt(sent: Option<Request>, outcome: Result<Value, ServiceError>)

  /** The reply turned into the adapter's return value or the error it throws. */
  function Receive(p: Provider, reply: Reply): (r: Result<Value, ServiceError>)
    ensures reply.TransportFailed? ==> r == Failure(TransportError(reply.message))
    ensures reply.Delivered? && ExtractReply(p, reply.data).Success? ==> r == Success(ExtractReply(p, reply.data).value)
    ensures reply.Delivered? && ExtractReply(p, reply.data).Failure? ==> r == Failure(ReplyUnreadable(ExtractReply(p, reply.data).error))
  {
    match reply
    case TransportFailed(m) => Failure(TransportError(m))
    case Delivered(data) =>
      match ExtractReply(p, data)
      case Success(v) => Success(v)
      case Failure(e) => Failure(ReplyUnreadable(e))
  }

  /** `generateEvaluation(content, rating)`. */
  function GenerateEvaluation(s: Service, settings: Settings, content: string, rating: string,
                              transport: Request -> Reply): (a: Attempt)
    ensures a.sent.Some? <==> s.currentProvider in GetSupportedProviders(s)
    ensures a.sent.None? ==> a.outcome == Failure(Unsupported(UnsupportedMessage(s.currentProvider)))
    ensures a.sent.Some? ==>
      a.sent.value == BuildRequest(Target(a.sent.value), settings, BuildPrompt(settings.prompts, content, rating))
    ensures a.sent.Some? ==> Name(Target(a.sent.value)) == s.currentProvider
    ensures a.sent.Some? ==> a.outcome == Receive(Target(a.sent.value), transport(a.sent.value))
  {
    match Parse(s.currentProvider)
    case None => Attempt(None, Failure(Unsupported(UnsupportedMessage(s.currentProvider))))
    case Some(p) =>
      var request := BuildRequest(p, settings, BuildPrompt(settings.prompts, content, rating));
      Attempt(Some(request), Receive(p, transport(request)))
  }

  /** Each backend name is routed to that backend's own adapter. */
  lemma DispatchRoutes(p: Provider, settings: Settings, content: string, rating: string, transport: Request -> Reply)
    ensures GenerateEvaluation(Service(Name(p)), settings, content, rating, transport).sent
      == Some(BuildRequest(p, settings, BuildPrompt(settings.prompts, content, rating)))
  {
    ParseName(p);
  }

  /**
   * The constructor lets any name through; the call then throws before any
   * envelope is built.
   */
  lemma ConstructDoesNotValidate(env: Env, content: string, rating: string, settings: Settings,
                                 transport: Request -> Reply)
    requires "AI_PROVIDER" in env && env["AI_PROVIDER"] != "" && env["AI_PROVIDER"] !in SupportedNames
    ensures Construct(env).currentProvider == env["AI_PROVIDER"]
    ensures GenerateEvaluation(Construct(env), settings, content, rating, transport)
      == Attempt(None, Failure(Unsupported(UnsupportedMessage(env["AI_PROVIDER"]))))
  {
  }

  /**
   * The envelope sent carries the prompt the source builds, for every rating
   * except a name an object inherits and the map does not hold.
   */
  lemma SentPromptAsWritten(p: Provider, settings: Settings, content: string, rating: string,
                            transport: Request -> Reply)
    requires rating in settings.prompts.ratingPrompts || InheritedMemberText(rating).None?
    ensures GenerateEvaluation(Service(Name(p)), settings, content, rating, transport).sent
      == Some(BuildRequest(p, settings, BuildPromptAsWritten(settings.prompts, content, rating)))
  {
    DispatchRoutes(p, settings, content, rating, transport);
    AppendixAsWrittenAgrees(settings.prompts, content, rating);
  }

  /** After a successful switch, the next call goes to the backend switched to. */
  lemma SwitchThenGenerate(s: Service, p: Provider, settings: Settings, content: string, rating: string,
                           transport: Request -> Reply)
    ensures SetProvider(s, Name(p)).error.None?
    ensures GenerateEvaluation(SetProvider(s, Name(p)).service, settings, content, rating, transport).sent
      == Some(BuildRequest(p, settings, BuildPrompt(settings.prompts, content, rating)))
  {
    ParseName(p);
    DispatchRoutes(p, settings, content, rating, transport);
  }

  /** A rejected switch leaves the next call exactly as it was. */
  lemma RejectedSwitchKeepsBehaviour(s: Service, name: string, settings: Settings, content: string, rating: string,
                                     transport: Request -> Reply)
    requires name !in SupportedNames
    ensures GenerateEvaluation(SetProvider(s, name).service, settings, content, rating, transport)
      == GenerateEvaluation(s, settings, content, rating, transport)
  {
  }

  /**
   * The call posts once and does not retry: its outcome depends on the
   * transport only through the answer to the one envelope it sends.
   */
  lemma OutcomeDependsOnlyOnSentEnvelope(s: Service, settings: Settings, content: string, rating: string,
                                         t1: Request -> Reply, t2: Request -> Reply)
    requires var a := GenerateEvaluation(s, settings, content, rating, t1);
      a.sent.Some? ==> t1(a.sent.value) == t2(a.sent.value)
    ensures GenerateEvaluation(s, settings, content, rating, t1) == GenerateEvaluation(s, settings, content, rating, t2)
  {
  }

  /**
   * A backend that answers `text` in its documented shape, with whatever
   * other fields besides, makes the call return `text`.
   */
  lemma WellFormedReplyIsReturned(p: Provider, settings: Settings, content: string, rating: string,
                                  text: string, transport: Request -> Reply)
    requires forall r :: transport(r).Delivered? && Reaches(transport(r).data, ReplyPath(Target(r)), Str(text))
    ensures GenerateEvaluation(Service(Name(p)), settings, content, rating, transport).outcome == Success(Str(text))
  {
    ParseName(p);
    var request := BuildRequest(p, settings, BuildPrompt(settings.prompts, content, rating));
    ExtractShapedReply(p, transport(request).data, text);
  }

  /** A transport error is rethrown as it was. */
  lemma TransportErrorRethrown(p: Provider, settings: Settings, content: string, rating: string,
                               message: string, transport: Request -> Reply)
    requires forall r :: transport(r) == TransportFailed(message)
    ensures GenerateEvaluation(Service(Name(p)), settings, content, rating, transport).outcome
      == Failure(TransportError(message))
  {
    ParseName(p);
  }
}
