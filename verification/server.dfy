/**
 * The three JSON routes of the web server as pure handlers from the parsed
 * request body and the service state to a status and a response body.
 */
module Server {
  import opened Wrappers
  import opened JsString
  import opened Config
  import JsValue
  import opened Providers
  import opened Prompt
  import opened Adapters
  import opened AiService

  /**
   * A field of the parsed request body: missing, a string, or some other
   * JSON value, given by its JavaScript truthiness and by `String(value)`.
   * `shown` is `None` for an object whose conversion to a string throws, such
   * as `{"toString": 1}`: its own `toString` is not callable and `valueOf`
   * gives back the object itself.
   */
  datatype BodyField = Absent | Text(s: string) | Other(truthy: bool, shown: Option<string>)

  predicate Truthy(f: BodyField) {
    match f
    case Absent => false
    case Text(s) => s != ""
    case Other(truthy, _) => truthy
  }

  /**
   * The field converted to a string, as a template literal or `replace`
   * converts it, or `None` when that conversion throws a TypeError.
   */
  function Shown(f: BodyField): Option<string> {
    match f
    case Absent => Some("undefined")
    case Text(s) => Some(s)
    case Other(_, shown) => shown
  }

  /** The message of the TypeError V8 throws when an object has no string form. */
  const ConversionError: string := "Cannot convert object to primitive value"

  datatype ResponseBody =
    | ErrorBody(error: string)
      /** `{success: true, evaluation}` */
    | EvaluationBody(evaluation: JsValue.Value)
    | ConfigBody(currentProvider: string, supportedProviders: seq<string>, evaluationConfig: EvaluationSettings)
      /** `{success: true, message, currentProvider}` */
    | SwitchedBody(message: string, currentProvider: string)

  datatype Response = Response(status: int, body: ResponseBody)

  const EmptyContentError: string := "课堂内容不能为空"
  const MissingRatingError: string := "请选择评价等级"
  const GenericError: string := "生成评价时出现错误，请稍后重试"

  function SwitchedMessage(name: string): string {
    "AI提供商已切换到: " + name
  }

  /** The notes are missing: falsy, or a string that trims to nothing. */
  predicate ContentMissing(content: BodyField) {
    !Truthy(content) || (content.Text? && AllWhiteSpace(content.s))
  }

  /** The response, and the service call made on the way, if one was. */
  datatype Exchange = Exchange(response: Response, attempt: Option<Attempt>)

  /**
   * `POST /api/generate-evaluation`. A truthy non-string `content` has no
   * `trim` method: the TypeError is caught like any other failure. A rating
   * without a string form makes `replace` throw while the prompt is built,
   * before any envelope exists, so no attempt is recorded and the route
   * answers 500 as for any other failure.
   */
  function HandleGenerate(s: Service, settings: Settings, content: BodyField, rating: BodyField,
                          transport: Request -> Reply): (x: Exchange)
    ensures x.attempt.Some? <==> content.Text? && !ContentMissing(content) && Truthy(rating) && Shown(rating).Some?
    ensures !ContentMissing(content) && content.Text? && Truthy(rating) && Shown(rating).None? ==>
      x.response == Response(500, ErrorBody(GenericError))
    ensures ContentMissing(content) ==> x.response == Response(400, ErrorBody(EmptyContentError))
    ensures !ContentMissing(content) && content.Text? && !Truthy(rating) ==>
      x.response == Response(400, ErrorBody(MissingRatingError))
    ensures !ContentMissing(content) && content.Other? ==> x.response == Response(500, ErrorBody(GenericError))
    ensures x.attempt.Some? ==>
      x.attempt.value == GenerateEvaluation(s, settings, content.s, Shown(rating).value, transport)
    ensures x.attempt.Some? && x.attempt.value.outcome.Success? ==>
      x.response == Response(200, EvaluationBody(x.attempt.value.outcome.value))
    ensures x.attempt.Some? && x.attempt.value.outcome.Failure? ==>
      x.response == Response(500, ErrorBody(GenericError))
  {
    match content
    case Absent => Exchange(Response(400, ErrorBody(EmptyContentError)), None)
    case Other(truthy, _) =>
      if !truthy then Exchange(Response(400, ErrorBody(EmptyContentError)), None)
      else Exchange(Response(500, ErrorBody(GenericError)), None)
    case Text(c) =>
      if c == "" || Trim(c) == "" then Exchange(Response(400, ErrorBody(EmptyContentError)), None)
      else if !Truthy(rating) then Exchange(Response(400, ErrorBody(MissingRatingError)), None)
      else if Shown(rating).None? then Exchange(Response(500, ErrorBody(GenericError)), None)
      else
        var attempt := GenerateEvaluation(s, settings, c, Shown(rating).value, transport);
        match attempt.outcome
        case Success(evaluation) => Exchange(Response(200, EvaluationBody(evaluation)), Some(attempt))
        case Failure(_) => Exchange(Response(500, ErrorBody(GenericError)), Some(attempt))
  }

  /** Every response is 200 with an evaluation, 400 with one of the two validation messages, or 500. */
  lemma GenerateStatuses(s: Service, settings: Settings, content: BodyField, rating: BodyField,
                         transport: Request -> Reply)
    ensures var r := HandleGenerate(s, settings, content, rating, transport).response;
      (r.status == 200 && r.body.EvaluationBody?)
      || (r.status == 400 && (r.body == ErrorBody(EmptyContentError) || r.body == ErrorBody(MissingRatingError)))
      || r == Response(500, ErrorBody(GenericError))
  {
  }

  /** A request the guards reject gets the same response whatever the backend would do. */
  lemma ValidationIgnoresBackend(s: Service, settings: Settings, content: BodyField, rating: BodyField,
                                 t1: Request -> Reply, t2: Request -> Reply)
    requires ContentMissing(content) || !Truthy(rating)
    ensures HandleGenerate(s, settings, content, rating, t1) == HandleGenerate(s, settings, content, rating, t2)
  {
  }

  /** Two failing calls give the same response: the cause is not exposed. */
  lemma FailureHidesCause(s: Service, settings: Settings, content: BodyField, rating: BodyField,
                          t1: Request -> Reply, t2: Request -> Reply)
    requires HandleGenerate(s, settings, content, rating, t1).attempt.Some?
    requires HandleGenerate(s, settings, content, rating, t1).attempt.value.outcome.Failure?
    requires HandleGenerate(s, settings, content, rating, t2).attempt.value.outcome.Failure?
    ensures HandleGenerate(s, settings, content, rating, t1).response
      == HandleGenerate(s, settings, content, rating, t2).response
  {
  }

  /**
   * Notes with surrounding white space reach the backend as they were sent,
   * not trimmed.
   */
  lemma ContentReachesBackendUntrimmed(p: Provider, settings: Settings, ws: string, notes: string, rating: string,
                                       transport: Request -> Reply)
    requires AllWhiteSpace(ws) && ws != "" && |notes| > 0 && !IsWhiteSpace(notes[0]) && rating != ""
    ensures var a := HandleGenerate(Service(Name(p)), settings, Text(ws + notes), Text(rating), transport).attempt;
      a.Some? && a.value.sent.Some?
      && Messages(a.value.sent.value)[|Messages(a.value.sent.value)| - 1]
        == ChatMessage(User, BuildPrompt(settings.prompts, ws + notes, rating))
  {
    var c := ws + notes;
    assert c[|ws|] == notes[0];
    ContentReachesBackend(p, settings, c, rating, transport);
  }

  /** Notes that are not blank, with a rating, are what the prompt is built from. */
  lemma ContentReachesBackend(p: Provider, settings: Settings, c: string, rating: string,
                              transport: Request -> Reply)
    requires !AllWhiteSpace(c) && rating != ""
    ensures var a := HandleGenerate(Service(Name(p)), settings, Text(c), Text(rating), transport).attempt;
      a.Some? && a.value.sent.Some?
      && Messages(a.value.sent.value)[|Messages(a.value.sent.value)| - 1]
        == ChatMessage(User, BuildPrompt(settings.prompts, c, rating))
  {
    var x := HandleGenerate(Service(Name(p)), settings, Text(c), Text(rating), transport);
    assert x.attempt == Some(GenerateEvaluation(Service(Name(p)), settings, c, rating, transport));
    DispatchRoutes(p, settings, c, rating, transport);
    SamePromptEverywhere(p, p, settings, BuildPrompt(settings.prompts, c, rating));
  }

  /** The switch response, and the service state after it. */
  datatype SwitchExchange = SwitchExchange(response: Response, service: Service)

  /**
   * `POST /api/switch-provider`. A non-string provider is never one of the
   * four names. Building the message for one without a string form throws
   * the TypeError instead, and the route answers with its message.
   */
  function HandleSwitch(s: Service, provider: BodyField): (x: SwitchExchange)
    ensures x.response.status == 200 <==> provider.Text? && provider.s in SupportedNames
    ensures x.response.status == 200 ==>
      x.response.body == SwitchedBody(SwitchedMessage(provider.s), provider.s)
      && GetCurrentProvider(x.service) == provider.s
    ensures x.response.status != 200 && Shown(provider).Some? ==>
      x.response == Response(400, ErrorBody(UnsupportedMessage(Shown(provider).value))) && x.service == s
    ensures Shown(provider).None? ==> x.response == Response(400, ErrorBody(ConversionError)) && x.service == s
  {
    match provider
    case Text(name) =>
      var sw := SetProvider(s, name);
      if sw.error.None? then
        SwitchExchange(Response(200, SwitchedBody(SwitchedMessage(name), GetCurrentProvider(sw.service))), sw.service)
      else
        SwitchExchange(Response(400, ErrorBody(sw.error.value)), s)
    case _ =>
      match Shown(provider)
      case Some(shown) => SwitchExchange(Response(400, ErrorBody(UnsupportedMessage(shown))), s)
      case None => SwitchExchange(Response(400, ErrorBody(ConversionError)), s)
  }

  /** `GET /api/config`. */
  function HandleConfig(s: Service, settings: Settings): (r: Response)
    ensures r.status == 200 && r.body.ConfigBody?
    ensures r.body.currentProvider == GetCurrentProvider(s)
    ensures r.body.supportedProviders == SupportedNames
    ensures r.body.evaluationConfig == settings.evaluation
  {
    Response(200, ConfigBody(GetCurrentProvider(s), GetSupportedProviders(s), settings.evaluation))
  }

  /**
   * The configuration route reports a successful switch, and a rejected
   * switch leaves its report as it was.
   */
  lemma ConfigReflectsSwitch(s: Service, settings: Settings, provider: BodyField)
    ensures var x := HandleSwitch(s, provider);
      x.response.status == 200 ==> provider.Text? && HandleConfig(x.service, settings).body.currentProvider == provider.s
    ensures var x := HandleSwitch(s, provider);
      x.response.status != 200 ==> HandleConfig(x.service, settings) == HandleConfig(s, settings)
  {
  }

  /** After switching to a backend, generation requests go to it. */
  lemma SwitchRoutesGeneration(s: Service, p: Provider, settings: Settings, notes: string, rating: string,
                               transport: Request -> Reply)
    requires !AllWhiteSpace(notes) && rating != ""
    ensures var x := HandleSwitch(s, Text(Name(p)));
      var a := HandleGenerate(x.service, settings, Text(notes), Text(rating), transport).attempt;
      a.Some? && a.value.sent == Some(BuildRequest(p, settings, BuildPrompt(settings.prompts, notes, rating)))
  {
    ParseName(p);
    SwitchThenGenerate(s, p, settings, notes, rating, transport);
  }
}
