/**
 * The settings record of config.js: every field is read from the process
 * environment with a fallback, next to the fixed endpoints and models of
 * the alternative backends.
 */
module Config {
  import opened Wrappers
  import opened JsString

  /** The process environment; a name that is not a key is unset. */
  type Env = map<string, string>

  predicate IsDigit(c: char, radix: nat) {
    if radix == 16 then ('0' <= c <= '9') || ('a' <= c <= 'f') || ('A' <= c <= 'F')
    else '0' <= c <= '9'
  }

  function DigitValue(c: char): nat {
    if '0' <= c <= '9' then c as int - '0' as int
    else if 'a' <= c <= 'f' then c as int - 'a' as int + 10
    else if 'A' <= c <= 'F' then c as int - 'A' as int + 10
    else 0
  }

  /** The length of the longest prefix of `s` written in digits of `radix`. */
  function DigitRun(s: string, radix: nat): (n: nat)
    ensures n <= |s|
    ensures forall i | 0 <= i < n :: IsDigit(s[i], radix)
    ensures n < |s| ==> !IsDigit(s[n], radix)
  {
    if |s| > 0 && IsDigit(s[0], radix) then 1 + DigitRun(s[1..], radix) else 0
  }

  /** The number a string of digits denotes, most significant digit first. */
  function DigitsValue(ds: string, radix: nat): nat {
    if |ds| == 0 then 0 else DigitsValue(ds[..|ds| - 1], radix) * radix + DigitValue(ds[|ds| - 1])
  }

  /** The digits after a sign: a `0x` or `0X` prefix selects base 16; the longest run of digits is read. */
  function ParseUnsigned(u: string): Option<nat> {
    var hex := |u| >= 2 && u[0] == '0' && (u[1] == 'x' || u[1] == 'X');
    var radix := if hex then 16 else 10;
    var digits := if hex then u[2..] else u;
    var n := DigitRun(digits, radix);
    if n == 0 then None else Some(DigitsValue(digits[..n], radix))
  }

  /** Text that starts with no white space: one optional sign, then the digits. */
  function ParseSigned(t: string): Option<int> {
    if |t| > 0 && t[0] == '-' then
      match ParseUnsigned(t[1..])
      case Some(m) => Some(-(m as int))
      case None => None
    else if |t| > 0 && t[0] == '+' then ParseUnsigned(t[1..])
    else ParseUnsigned(t)
  }

  /** `parseInt(s)` without a radix, `None` standing for NaN: leading white space is skipped. */
  function ParseInt(s: string): Option<int> {
    ParseSigned(TrimStart(s))
  }

  /** The decimal numeral of `n`: what `String(n)` gives for a safe integer. */
  function DecimalString(n: nat): (r: string)
    ensures |r| > 0
    ensures forall i | 0 <= i < |r| :: IsDigit(r[i], 10)
  {
    if n < 10 then [('0' as int + n) as char]
    else DecimalString(n / 10) + [('0' as int + n % 10) as char]
  }

  lemma {:induction false} DigitsValueOfDecimal(n: nat)
    ensures DigitsValue(DecimalString(n), 10) == n
  {
    if n >= 10 {
      DigitsValueOfDecimal(n / 10);
      var s := DecimalString(n);
      assert s[..|s| - 1] == DecimalString(n / 10);
    }
  }

  /** A numeral other than 0 does not start with the digit 0. */
  lemma {:induction false} DecimalLeadingDigit(n: nat)
    ensures n != 0 ==> DecimalString(n)[0] != '0'
  {
    if n >= 10 {
      DecimalLeadingDigit(n / 10);
      assert DecimalString(n)[0] == DecimalString(n / 10)[0];
    }
  }

  /**
   * Text that may follow the numeral of `n` without changing what `parseInt`
   * reads: nothing, or a character that is not a decimal digit; after the
   * numeral 0 that character must not be `x` or `X` either, since `0x`
   * selects base 16.
   */
  predicate NumeralEnd(n: nat, rest: string) {
    |rest| == 0 || (!IsDigit(rest[0], 10) && (n != 0 || (rest[0] != 'x' && rest[0] != 'X')))
  }

  lemma DigitRunStopsAt(s: string, radix: nat, k: nat)
    requires k <= |s|
    requires forall i | 0 <= i < k :: IsDigit(s[i], radix)
    requires k == |s| || !IsDigit(s[k], radix)
    ensures DigitRun(s, radix) == k
  {
  }

  /** Without a `0x` prefix the digits are read in base 10. */
  lemma ParseUnsignedDecimal(u: string)
    requires !(|u| >= 2 && u[0] == '0' && (u[1] == 'x' || u[1] == 'X'))
    ensures var n := DigitRun(u, 10); ParseUnsigned(u) == if n == 0 then None else Some(DigitsValue(u[..n], 10))
  {
  }

  lemma ParseUnsignedOfDecimal(n: nat, rest: string)
    requires NumeralEnd(n, rest)
    ensures ParseUnsigned(DecimalString(n) + rest) == Some(n)
  {
    var d := DecimalString(n);
    var u := d + rest;
    DecimalLeadingDigit(n);
    assert |u| >= 2 ==> !(u[0] == '0' && (u[1] == 'x' || u[1] == 'X')) by {
      if |u| >= 2 && |d| >= 2 {
        assert u[1] == d[1] && IsDigit(d[1], 10);
      } else if |u| >= 2 {
        assert u[0] == d[0] && u[1] == rest[0];
      }
    }
    ParseUnsignedDecimal(u);
    assert forall i | 0 <= i < |d| :: u[i] == d[i];
    assert |d| < |u| ==> u[|d|] == rest[0];
    DigitRunStopsAt(u, 10, |d|);
    assert u[..|d|] == d;
    DigitsValueOfDecimal(n);
  }

  /** A leading minus sign negates what the digits after it denote. */
  lemma ParseSignedMinus(u: string)
    ensures ParseSigned("-" + u) == match ParseUnsigned(u) case Some(m) => Some(-(m as int)) case None => None
  {
    assert ("-" + u)[1..] == u;
  }

  lemma ParseSignedOfNegative(m: nat, rest: string)
    requires NumeralEnd(m, rest)
    ensures ParseSigned("-" + (DecimalString(m) + rest)) == Some(-(m as int))
  {
    ParseSignedMinus(DecimalString(m) + rest);
    ParseUnsignedOfDecimal(m, rest);
  }

  lemma ParseSignedOfNonNegative(n: nat, rest: string)
    requires NumeralEnd(n, rest)
    ensures ParseSigned(DecimalString(n) + rest) == Some(n)
  {
    var d := DecimalString(n);
    assert (d + rest)[0] == d[0] && IsDigit(d[0], 10);
    ParseUnsignedOfDecimal(n, rest);
  }

  /** ParseInt reads back a decimal numeral, whatever non-digit text follows it. */
  lemma {:induction false} ParseIntOfDecimal(n: nat, rest: string)
    requires NumeralEnd(n, rest)
    ensures ParseInt(DecimalString(n) + rest) == Some(n)
  {
    var d := DecimalString(n);
    var s := d + rest;
    assert s[0] == d[0];
    assert IsDigit(d[0], 10);
    ParseSignedOfNonNegative(n, rest);
    TrimStartOfNonSpace(s);
  }

  /** ParseInt reads back a negative decimal numeral, whatever non-digit text follows it. */
  lemma {:induction false} ParseIntOfNegativeDecimal(m: nat, rest: string)
    requires NumeralEnd(m, rest)
    ensures ParseInt("-" + (DecimalString(m) + rest)) == Some(-(m as int))
  {
    var s := "-" + (DecimalString(m) + rest);
    ParseSignedOfNegative(m, rest);
    assert s[0] == '-';
    TrimStartOfNonSpace(s);
  }

  /** Leading white space does not change what ParseInt reads. */
  lemma ParseIntSkipsWhiteSpace(ws: string, s: string)
    requires AllWhiteSpace(ws)
    ensures ParseInt(ws + s) == ParseInt(s)
  {
    TrimStartSkips(ws, s);
  }

  /** `parseInt(process.env[name]) || default`: NaN and 0 both fall back. */
  function IntSetting(env: Env, name: string, default: int): (r: int)
    ensures default != 0 ==> r != 0
    ensures name !in env ==> r == default
    ensures name in env && ParseInt(env[name]).None? ==> r == default
    ensures name in env && ParseInt(env[name]).Some? && ParseInt(env[name]).value != 0 ==> r == ParseInt(env[name]).value
    ensures name in env && ParseInt(env[name]) == Some(0) ==> r == default
  {
    if name !in env then default
    else
      match ParseInt(env[name])
      case Some(n) => if n != 0 then n else default
      case None => default
  }

  /** A variable holding a non-zero numeral, perhaps followed by other text, sets the field to it. */
  lemma IntSettingOfNumeral(env: Env, name: string, default: int, n: nat, rest: string)
    requires n != 0
    requires name in env && env[name] == DecimalString(n) + rest
    requires NumeralEnd(n, rest)
    ensures IntSetting(env, name, default) == n
  {
    ParseIntOfDecimal(n, rest);
  }

  /** A variable holding the numeral 0 falls back to the default. */
  lemma IntSettingOfZero(env: Env, name: string, default: int, rest: string)
    requires name in env && env[name] == "0" + rest
    requires NumeralEnd(0, rest)
    ensures IntSetting(env, name, default) == default
  {
    ParseIntOfDecimal(0, rest);
  }

  /** A blank variable falls back to the default. */
  lemma IntSettingOfBlank(env: Env, name: string, default: int)
    requires name in env && AllWhiteSpace(env[name])
    ensures IntSetting(env, name, default) == default
  {
    TrimStartOfBlank(env[name]);
  }

  /** `process.env[name] || default`: an unset or empty variable falls back. */
  function StringSetting(env: Env, name: string, default: string): (r: string)
    ensures default != "" ==> r != ""
    ensures name in env && env[name] != "" ==> r == env[name]
    ensures name !in env || env[name] == "" ==> r == default
  {
    if name in env && env[name] != "" then env[name] else default
  }

  /** `process.env[name]` read as it is: unset is `undefined`, the empty string is kept. */
  function OptionalSetting(env: Env, name: string): Option<string> {
    if name in env then Some(env[name]) else None
  }

  /**
   * `parseFloat(process.env.OPENAI_TEMPERATURE) || 0.7`, kept unevaluated:
   * the model only passes it through to the backends.
   */
  datatype Temperature = Temperature(raw: Option<string>)

  datatype OpenAISettings = OpenAISettings(
    apiKey: Option<string>, model: string, maxTokens: int, temperature: Temperature, baseURL: string)

  datatype PromptSettings = PromptSettings(
    systemPrompt: string, mainPrompt: string, ratingPrompts: map<string, string>)

  datatype BaiduSettings = BaiduSettings(
    apiKey: Option<string>, secretKey: Option<string>, endpoint: string, model: string)

  datatype BackendSettings = BackendSettings(apiKey: Option<string>, endpoint: string, model: string)

  datatype AlternativeApis = AlternativeApis(
    baidu: BaiduSettings, alibaba: BackendSettings, tencent: BackendSettings)

  datatype EvaluationSettings = EvaluationSettings(
    minContentLength: int, maxContentLength: int, defaultWordCount: int, enableCustomRating: bool)

  datatype Settings = Settings(
    openai: OpenAISettings, prompts: PromptSettings, alternativeApis: AlternativeApis,
    evaluation: EvaluationSettings)

  const DefaultModel: string := "gpt-3.5-turbo"
  const DefaultMaxTokens: int := 500
  const DefaultBaseURL: string := "https://api.openai.com/v1"
  const DefaultSystemPrompt: string := "你是一名专业的教育评价专家，擅长为学生提供详细、建设性的课堂表现评价。"

  const BaiduEndpoint: string := "https://aip.baidubce.com/rpc/2.0/ai_custom/v1/wenxinworkshop/chat/completions"
  const BaiduModel: string := "ernie-bot-turbo"
  const AlibabaEndpoint: string := "https://dashscope.aliyuncs.com/api/v1/services/aigc/text-generation/generation"
  const AlibabaModel: string := "qwen-turbo"
  const TencentEndpoint: string := "https://hunyuan.tencentcloudapi.com/"
  const TencentModel: string := "hunyuan-lite"

  const DefaultMinContentLength: int := 10
  const DefaultMaxContentLength: int := 500
  const DefaultWordCount: int := 250

  /** The default template around its two placeholders. */
  const PromptIntro: string :=
    "作为一名专业的教育评价专家，请根据以下课堂内容和评价等级"
    + "，生成一份具体、详细的学生课堂表现评价："
    + "\n"
    + "\n课堂内容："

  const PromptMiddle: string := "\n评价等级："

  const RequirementsSection: string :=
    "\n"
    + "\n评价要求："
    + RequirementOne
    + RequirementTwo
    + RequirementThree
    + RequirementFour

  const RequirementOne: string := "\n1. **必须紧密结合课程内容**：分析学生对本节课具体知识点的掌握情况"
  const RequirementTwo: string := "\n2. **具体化评价**：基于课堂中的具体表现、回答、互动等实际情况进行评价"
  const RequirementThree: string := "\n3. **知识点导向**：明确指出学生在哪些知识点上表现良好，哪些需要加强"
  const RequirementFour: string := "\n4. **实例支撑**：如果可能，引用学生在课堂中的具体表现作为评价依据"

  const StructureSection: string := StructureOutline + StructureDetails

  const StructureOutline: string :=
    "\n"
    + "\n评价结构："
    + "\n- 开头：简要总结学生在本节课的整体表现"
    + "\n- 主体：详细分析学生对具体知识点的掌握情况"

  const StructureDetails: string :=
    "\n  * 重点知识理解程度"
    + "\n  * 课堂互动参与情况"
    + "\n  * 问题回答质量"
    + "\n  * 学习态度表现"
    + "\n- 结尾：基于本节课内容给出具体的改进建议"

  const LanguageSection: string :=
    "\n"
    + "\n语言要求："
    + "\n- 专业且具体，避免空泛的套话"
    + "\n- 紧密结合课程内容，体现专业性"
    + "\n- 字数控制在250-350字之间"
    + "\n- 语调积极正面，鼓励学生进步"
    + "\n"
    + "\n请直接输出评价内容，不要包含标题或格式标记。"

  const PromptRules: string := RequirementsSection + StructureSection + LanguageSection

  const ContentToken: string := "{content}"
  const RatingToken: string := "{rating}"

  const DefaultMainPrompt: string := PromptIntro + ContentToken + PromptMiddle + RatingToken + PromptRules

  /** Where the default template holds each placeholder. */
  const ContentTokenAt: nat := |PromptIntro|
  const RatingTokenAt: nat := |PromptIntro| + |ContentToken| + |PromptMiddle|

  /** The four rating labels, in the order the map literal lists them. */
  const Excellent: string := "优秀"
  const Good: string := "良好"
  const Average: string := "一般"
  const Poor: string := "待改进"

  const DefaultExcellentGuidance: string := "该学生在本节课表现优秀，请重点分析其对具体知识点的掌握情况，突出其在课堂中的优秀表现（如准确回答问题、积极参与讨论、创新思维等），并基于本节课内容给出进一步提升的具体建议。"
  const DefaultGoodGuidance: string := "该学生在本节课表现良好，请分析其对课程知识点的掌握情况，平衡地评价其优点（如基本理解、适度参与等）和需要改进的地方，并基于本节课的具体内容给出针对性的改进建议。"
  const DefaultAverageGuidance: string := "该学生在本节课表现一般，请具体分析其在课程知识点掌握上的不足之处，指出其在课堂互动、问题回答等方面的具体问题，并基于本节课内容给出具体的改进建议和鼓励。"
  const DefaultPoorGuidance: string := "该学生在本节课需要改进，请温和地分析其在课程知识点理解上的具体问题，指出其在课堂参与、学习态度等方面的不足，并基于本节课内容给出详细的改进方案和鼓励。"

  /** `ratingPrompts`: one guidance text per rating label, each overridable by a variable. */
  function RatingPrompts(env: Env): (m: map<string, string>)
    ensures m.Keys == {Excellent, Good, Average, Poor}
    ensures forall grade | grade in m :: m[grade] != ""
    ensures m[Excellent] == StringSetting(env, "EXCELLENT_PROMPT", DefaultExcellentGuidance)
    ensures m[Good] == StringSetting(env, "GOOD_PROMPT", DefaultGoodGuidance)
    ensures m[Average] == StringSetting(env, "AVERAGE_PROMPT", DefaultAverageGuidance)
    ensures m[Poor] == StringSetting(env, "POOR_PROMPT", DefaultPoorGuidance)
  {
    map[
      Excellent := StringSetting(env, "EXCELLENT_PROMPT", DefaultExcellentGuidance),
      Good := StringSetting(env, "GOOD_PROMPT", DefaultGoodGuidance),
      Average := StringSetting(env, "AVERAGE_PROMPT", DefaultAverageGuidance),
      Poor := StringSetting(env, "POOR_PROMPT", DefaultPoorGuidance)
    ]
  }

  /** The settings record config.js exports for the environment `env`. */
  function LoadSettings(env: Env): (s: Settings)
    ensures s.openai.maxTokens != 0 && s.openai.model != "" && s.openai.baseURL != ""
    ensures s.openai.apiKey.Some? <==> "OPENAI_API_KEY" in env
    ensures s.prompts.systemPrompt != "" && s.prompts.mainPrompt != ""
    ensures s.prompts.ratingPrompts.Keys == {Excellent, Good, Average, Poor}
    ensures forall grade | grade in s.prompts.ratingPrompts :: s.prompts.ratingPrompts[grade] != ""
    ensures s.alternativeApis.baidu.endpoint == BaiduEndpoint && s.alternativeApis.baidu.model == BaiduModel
    ensures s.alternativeApis.alibaba.endpoint == AlibabaEndpoint && s.alternativeApis.alibaba.model == AlibabaModel
    ensures s.alternativeApis.tencent.endpoint == TencentEndpoint && s.alternativeApis.tencent.model == TencentModel
    ensures s.evaluation.minContentLength != 0 && s.evaluation.maxContentLength != 0
    ensures s.evaluation.defaultWordCount != 0
    ensures s.evaluation.enableCustomRating <==> "ENABLE_CUSTOM_RATING" in env && env["ENABLE_CUSTOM_RATING"] == "true"
    ensures s.openai.apiKey == OptionalSetting(env, "OPENAI_API_KEY")
    ensures s.openai.model == StringSetting(env, "OPENAI_MODEL", DefaultModel)
    ensures s.openai.maxTokens == IntSetting(env, "OPENAI_MAX_TOKENS", 500)
    ensures s.openai.baseURL == StringSetting(env, "OPENAI_BASE_URL", DefaultBaseURL)
    ensures s.prompts.systemPrompt == StringSetting(env, "SYSTEM_PROMPT", DefaultSystemPrompt)
    ensures s.prompts.mainPrompt == StringSetting(env, "MAIN_PROMPT", DefaultMainPrompt)
    ensures s.evaluation.minContentLength == IntSetting(env, "MIN_CONTENT_LENGTH", 10)
    ensures s.evaluation.maxContentLength == IntSetting(env, "MAX_CONTENT_LENGTH", 500)
    ensures s.evaluation.defaultWordCount == IntSetting(env, "DEFAULT_WORD_COUNT", 250)
    ensures s.openai.temperature == Temperature(OptionalSetting(env, "OPENAI_TEMPERATURE"))
    ensures s.prompts.ratingPrompts == RatingPrompts(env)
    ensures s.alternativeApis.baidu.apiKey == OptionalSetting(env, "BAIDU_API_KEY")
    ensures s.alternativeApis.baidu.secretKey == OptionalSetting(env, "BAIDU_SECRET_KEY")
    ensures s.alternativeApis.alibaba.apiKey == OptionalSetting(env, "ALIBABA_API_KEY")
    ensures s.alternativeApis.tencent.apiKey == OptionalSetting(env, "TENCENT_API_KEY")
  {
    Settings(
      OpenAISettings(
        OptionalSetting(env, "OPENAI_API_KEY"),
        StringSetting(env, "OPENAI_MODEL", DefaultModel),
        IntSetting(env, "OPENAI_MAX_TOKENS", DefaultMaxTokens),
        Temperature(OptionalSetting(env, "OPENAI_TEMPERATURE")),
        StringSetting(env, "OPENAI_BASE_URL", DefaultBaseURL)),
      PromptSettings(
        StringSetting(env, "SYSTEM_PROMPT", DefaultSystemPrompt),
        StringSetting(env, "MAIN_PROMPT", DefaultMainPrompt),
        RatingPrompts(env)),
      AlternativeApis(
        BaiduSettings(OptionalSetting(env, "BAIDU_API_KEY"), OptionalSetting(env, "BAIDU_SECRET_KEY"),
          BaiduEndpoint, BaiduModel),
        BackendSettings(OptionalSetting(env, "ALIBABA_API_KEY"), AlibabaEndpoint, AlibabaModel),
        BackendSettings(OptionalSetting(env, "TENCENT_API_KEY"), TencentEndpoint, TencentModel)),
      EvaluationSettings(
        IntSetting(env, "MIN_CONTENT_LENGTH", DefaultMinContentLength),
        IntSetting(env, "MAX_CONTENT_LENGTH", DefaultMaxContentLength),
        IntSetting(env, "DEFAULT_WORD_COUNT", DefaultWordCount),
        "ENABLE_CUSTOM_RATING" in env && env["ENABLE_CUSTOM_RATING"] == "true"))
  }

  /** With nothing set, every field takes its documented default. */
  lemma EmptyEnvironmentDefaults()
    ensures LoadSettings(map[]).openai == OpenAISettings(None, "gpt-3.5-turbo", 500, Temperature(None), "https://api.openai.com/v1")
    ensures LoadSettings(map[]).prompts.mainPrompt == DefaultMainPrompt
    ensures LoadSettings(map[]).prompts.ratingPrompts
      == map[Excellent := DefaultExcellentGuidance, Good := DefaultGoodGuidance,
             Average := DefaultAverageGuidance, Poor := DefaultPoorGuidance]
    ensures LoadSettings(map[]).evaluation == EvaluationSettings(10, 500, 250, false)
  {
    EmptyEnvironmentOpenAI();
    EmptyEnvironmentRatingPrompts();
    EmptyEnvironmentEvaluation();
  }

  lemma EmptyEnvironmentEvaluation()
    ensures LoadSettings(map[]).evaluation == EvaluationSettings(10, 500, 250, false)
  {
  }

  lemma EmptyEnvironmentOpenAI()
    ensures LoadSettings(map[]).openai == OpenAISettings(None, "gpt-3.5-turbo", 500, Temperature(None), "https://api.openai.com/v1")
  {
  }

  lemma EmptyEnvironmentRatingPrompts()
    ensures RatingPrompts(map[])
      == map[Excellent := DefaultExcellentGuidance, Good := DefaultGoodGuidance,
             Average := DefaultAverageGuidance, Poor := DefaultPoorGuidance]
  {
  }

  lemma NoBraceInIntro()
    ensures '{' !in PromptIntro && '{' !in PromptMiddle
  {
  }

  lemma NoBraceInRequirementOne()
    ensures '{' !in RequirementOne
  {
  }

  lemma NoBraceInRequirementTwo()
    ensures '{' !in RequirementTwo
  {
  }

  lemma NoBraceInRequirementThree()
    ensures '{' !in RequirementThree
  {
  }

  lemma NoBraceInRequirementFour()
    ensures '{' !in RequirementFour
  {
  }

  lemma NoBraceInRequirements()
    ensures '{' !in RequirementsSection
  {
    NoBraceInRequirementOne();
    NoBraceInRequirementTwo();
    NoBraceInRequirementThree();
    NoBraceInRequirementFour();
  }

  lemma NoBraceInStructureOutline()
    ensures '{' !in StructureOutline
  {
  }

  lemma NoBraceInStructureDetails()
    ensures '{' !in StructureDetails
  {
  }

  lemma NoBraceInStructure()
    ensures '{' !in StructureSection
  {
    NoBraceInStructureOutline();
    NoBraceInStructureDetails();
  }

  lemma NoBraceInLanguage()
    ensures '{' !in LanguageSection
  {
  }

  lemma NoBraceInTemplateText()
    ensures '{' !in PromptIntro && '{' !in PromptMiddle && '{' !in PromptRules
  {
    NoBraceInIntro();
    NoBraceInRequirements();
    NoBraceInStructure();
    NoBraceInLanguage();
  }

  /** Where each character of `a + b + c + d + e` comes from. */
  lemma CharOfFive(a: string, b: string, c: string, d: string, e: string, i: nat)
    requires i < |a + b + c + d + e|
    ensures var t := a + b + c + d + e;
      && (i < |a| ==> t[i] == a[i])
      && (|a| <= i < |a| + |b| ==> t[i] == b[i - |a|])
      && (|a| + |b| <= i < |a| + |b| + |c| ==> t[i] == c[i - |a| - |b|])
      && (|a| + |b| + |c| <= i < |a| + |b| + |c| + |d| ==> t[i] == d[i - |a| - |b| - |c|])
      && (|a| + |b| + |c| + |d| <= i ==> t[i] == e[i - |a| - |b| - |c| - |d|])
  {
  }

  /** In `a + b + c + d + e`, a `{` can only start `b` or `d` when no other piece holds one. */
  lemma BraceInFive(a: string, b: string, c: string, d: string, e: string, i: nat)
    requires i < |a + b + c + d + e|
    requires |b| > 0 && |d| > 0
    requires '{' !in a && '{' !in b[1..] && '{' !in c && '{' !in d[1..] && '{' !in e
    ensures (a + b + c + d + e)[i] == '{' ==> i == |a| || i == |a| + |b| + |c|
  {
    CharOfFive(a, b, c, d, e, i);
    if i < |a| {
      assert a[i] in a;
    } else if |a| < i < |a| + |b| {
      assert b[1..][i - |a| - 1] == b[i - |a|];
    } else if |a| + |b| <= i < |a| + |b| + |c| {
      assert c[i - |a| - |b|] in c;
    } else if |a| + |b| + |c| < i < |a| + |b| + |c| + |d| {
      assert d[1..][i - |a| - |b| - |c| - 1] == d[i - |a| - |b| - |c|];
    } else if |a| + |b| + |c| + |d| <= i {
      assert e[i - |a| - |b| - |c| - |d|] in e;
    }
  }

  /**
   * Two placeholders that open with `{` and differ in their second character,
   * set between brace-free text, each occur exactly once: where they were put.
   */
  lemma PlaceholdersInFive(a: string, b: string, c: string, d: string, e: string)
    requires |b| >= 2 && |d| >= 2 && b[0] == '{' && d[0] == '{' && b[1] != d[1]
    requires '{' !in a && '{' !in b[1..] && '{' !in c && '{' !in d[1..] && '{' !in e
    ensures var t := a + b + c + d + e;
      && FirstOccurrence(t, b, |a|) && (forall i: nat :: OccursAt(t, b, i) ==> i == |a|)
      && FirstOccurrence(t, d, |a| + |b| + |c|) && (forall i: nat :: OccursAt(t, d, i) ==> i == |a| + |b| + |c|)
  {
    var t := a + b + c + d + e;
    var k := |a| + |b| + |c|;
    assert t[|a|..|a| + |b|] == b;
    assert t[k..k + |d|] == d;
    CharOfFive(a, b, c, d, e, |a| + 1);
    CharOfFive(a, b, c, d, e, k + 1);
    forall j: nat | OccursAt(t, b, j)
      ensures j == |a|
    {
      assert t[j] == t[j..j + |b|][0];
      assert t[j + 1] == t[j..j + |b|][1];
      BraceInFive(a, b, c, d, e, j);
    }
    forall j: nat | OccursAt(t, d, j)
      ensures j == k
    {
      assert t[j] == t[j..j + |d|][0];
      assert t[j + 1] == t[j..j + |d|][1];
      BraceInFive(a, b, c, d, e, j);
    }
  }

  lemma PlaceholderTails()
    ensures '{' !in ContentToken[1..] && '{' !in RatingToken[1..]
  {
  }

  /**
   * The default template holds exactly one `{content}` and exactly one
   * `{rating}`, the content placeholder first.
   */
  lemma DefaultMainPromptPlaceholders()
    ensures FirstOccurrence(DefaultMainPrompt, ContentToken, ContentTokenAt)
    ensures forall i: nat :: OccursAt(DefaultMainPrompt, ContentToken, i) ==> i == ContentTokenAt
    ensures FirstOccurrence(DefaultMainPrompt, RatingToken, RatingTokenAt)
    ensures forall i: nat :: OccursAt(DefaultMainPrompt, RatingToken, i) ==> i == RatingTokenAt
    ensures ContentTokenAt < RatingTokenAt
  {
    NoBraceInTemplateText();
    PlaceholderTails();
    PlaceholdersInFive(PromptIntro, ContentToken, PromptMiddle, RatingToken, PromptRules);
  }
}
