/**
 * The question-and-answer loop of the setup wizard: which answer each
 * question accepts, what it stores, and how far it moves on; and the
 * opening yes/no question.
 */
module Wizard {
  import opened Wrappers
  import opened JsString
  import opened EnvFile

  /** One question: the key it sets, its default, the accepted answers if they are fixed, and whether it may be left empty. */
  datatype ConfigOption = ConfigOption(key: string, default: string, options: Option<seq<string>>, required: bool)

  const ProviderOption: ConfigOption :=
    ConfigOption("AI_PROVIDER", "openai", Some(["openai", "baidu", "alibaba", "tencent"]), true)
  const ApiKeyOption: ConfigOption := ConfigOption("OPENAI_API_KEY", "", None, false)
  const ModelOption: ConfigOption :=
    ConfigOption("OPENAI_MODEL", "gpt-3.5-turbo", Some(["gpt-3.5-turbo", "gpt-4", "gpt-4-turbo"]), true)
  const PortOption: ConfigOption := ConfigOption("PORT", "3000", None, true)

  /** How many questions `configOptions` holds. */
  const QuestionCount: nat := 4

  /** Entry `i` of `configOptions`, without the question text. */
  function Question(i: nat): ConfigOption
    requires i < QuestionCount
  {
    if i == 0 then ProviderOption
    else if i == 1 then ApiKeyOption
    else if i == 2 then ModelOption
    else PortOption
  }

  /** The index of the next question and the configuration gathered so far. */
  datatype Wizard = Wizard(index: nat, config: Entries)

  /** Why an answer was not taken; the same question is asked again. */
  datatype Reask = InvalidOption | Required

  /** The answer as the wizard reads it: trimmed, with an empty answer taking a non-empty default. */
  function Effective(option: ConfigOption, answer: string): (v: string)
    ensures !AllWhiteSpace(answer) ==> v == Trim(answer)
    ensures AllWhiteSpace(answer) ==> v == option.default
  {
    var value := Trim(answer);
    if value == "" && option.default != "" then option.default else value
  }

  /** The value may be stored for the option. */
  predicate Acceptable(option: ConfigOption, value: string) {
    (option.options.None? || value in option.options.value) && (!option.required || value != "")
  }

  /** How many questions an accepted answer moves on: choosing a backend other than OpenAI skips its two questions. */
  function Advance(option: ConfigOption, value: string): nat {
    if option.key == "AI_PROVIDER" && value != "openai" then 3 else 1
  }

  /** The wizard has asked every question. */
  predicate Finished(w: Wizard) {
    w.index >= QuestionCount
  }

  /** One answer to the current question: the next state, or the same state and the reason it is asked again. */
  function Answer(w: Wizard, answer: string): (Wizard, Option<Reask>)
    requires !Finished(w) && UniqueKeys(w.config)
  {
    var option := Question(w.index);
    var value := Effective(option, answer);
    if option.options.Some? && value !in option.options.value then (w, Some(InvalidOption))
    else if option.required && value == "" then (w, Some(Required))
    else
      (Wizard(w.index + Advance(option, value), Put(w.config, option.key, value)), None)
  }

  /**
   * An answer is asked again exactly when its effective value is not
   * acceptable, and then nothing changes; otherwise the index moves on and
   * the value is stored under the question's key, every other key keeping
   * its value.
   */
  lemma AnswerSpec(w: Wizard, answer: string)
    requires !Finished(w) && UniqueKeys(w.config)
    ensures var r := Answer(w, answer);
      && (r.1.Some? <==> !Acceptable(Question(w.index), Effective(Question(w.index), answer)))
      && (r.1.Some? ==> r.0 == w)
      && (r.1.None? ==>
        var option := Question(w.index);
        var value := Effective(option, answer);
        r.0.index == w.index + Advance(option, value)
        && UniqueKeys(r.0.config)
        && Lookup(r.0.config, option.key) == Some(value)
        && forall k | k != option.key :: Lookup(r.0.config, k) == Lookup(w.config, k))
  {
  }

  /** One of the first `n` questions has key `key` and accepts `value`. */
  predicate Asked(n: nat, key: string, value: string) {
    exists j | 0 <= j < n && j < QuestionCount :: Question(j).key == key && Acceptable(Question(j), value)
  }

  /** The wizard's states from the start: every stored value was acceptable for a question already passed. */
  predicate Consistent(w: Wizard) {
    && w.index <= QuestionCount
    && UniqueKeys(w.config)
    && forall i | 0 <= i < |w.config| :: Asked(w.index, w.config[i].0, w.config[i].1)
  }

  const Start: Wizard := Wizard(0, [])

  /** Every answer keeps the wizard consistent, and the index never passes the last question. */
  lemma AnswerKeepsConsistent(w: Wizard, answer: string)
    requires Consistent(w) && !Finished(w)
    ensures Consistent(Answer(w, answer).0)
  {
    AnswerSpec(w, answer);
    var r := Answer(w, answer);
    if r.1.None? {
      var option := Question(w.index);
      StepKeepsConsistent(w, r.0, option, Effective(option, answer));
    }
  }

  /** Storing an accepted value for the current question and moving on keeps the wizard consistent. */
  lemma StepKeepsConsistent(w: Wizard, next: Wizard, option: ConfigOption, value: string)
    requires Consistent(w) && !Finished(w) && option == Question(w.index) && Acceptable(option, value)
    requires next.index == w.index + Advance(option, value) && UniqueKeys(next.config)
    requires Lookup(next.config, option.key) == Some(value)
    requires forall k | k != option.key :: Lookup(next.config, k) == Lookup(w.config, k)
    ensures Consistent(next)
  {
    assert w.index == 0 || Advance(option, value) == 1;
    forall i | 0 <= i < |next.config|
      ensures Asked(next.index, next.config[i].0, next.config[i].1)
    {
      if next.config[i].0 == option.key {
        EntryAnswered(w, next, option, value, i);
      } else {
        EntryKept(w, next, option.key, i);
      }
    }
  }

  /** The entry for the question just answered holds its accepted value. */
  lemma EntryAnswered(w: Wizard, next: Wizard, option: ConfigOption, value: string, i: nat)
    requires w.index < next.index && w.index < QuestionCount && option == Question(w.index)
    requires Acceptable(option, value)
    requires UniqueKeys(next.config) && i < |next.config| && next.config[i].0 == option.key
    requires Lookup(next.config, option.key) == Some(value)
    ensures Asked(next.index, next.config[i].0, next.config[i].1)
  {
    UniqueLookup(next.config, i);
  }

  /** Any other entry was already there, justified by an earlier question. */
  lemma EntryKept(w: Wizard, next: Wizard, key: string, i: nat)
    requires Consistent(w) && w.index <= next.index
    requires UniqueKeys(next.config) && i < |next.config| && next.config[i].0 != key
    requires forall k | k != key :: Lookup(next.config, k) == Lookup(w.config, k)
    ensures Asked(next.index, next.config[i].0, next.config[i].1)
  {
    var k := next.config[i].0;
    UniqueLookup(next.config, i);
    assert Lookup(w.config, k) == Some(next.config[i].1);
    var i0 := LookupIndex(w.config, k);
    assert Asked(w.index, w.config[i0].0, w.config[i0].1);
  }

  /** In a configuration with unique keys, an entry is what looking up its key gives. */
  lemma UniqueLookup(cfg: Entries, i: nat)
    requires UniqueKeys(cfg) && i < |cfg|
    ensures Lookup(cfg, cfg[i].0) == Some(cfg[i].1)
  {
    var r := Lookup(cfg, cfg[i].0);
    var j :| 0 <= j < |cfg| && cfg[j] == (cfg[i].0, r.value);
    assert j == i;
  }

  /** The position of a key that is present. */
  function LookupIndex(cfg: Entries, key: string): (i: nat)
    requires UniqueKeys(cfg) && Lookup(cfg, key).Some?
    ensures i < |cfg| && cfg[i] == (key, Lookup(cfg, key).value)
  {
    var i :| 0 <= i < |cfg| && cfg[i] == (key, Lookup(cfg, key).value);
    i
  }

  /** The wizard fed a list of answers, one per question asked, until it finishes or they run out. */
  function Run(w: Wizard, answers: seq<string>): (r: Wizard)
    requires Consistent(w)
    ensures Consistent(r)
    ensures w.index <= r.index
    ensures Finished(w) ==> r == w
    decreases |answers|
  {
    if |answers| == 0 || Finished(w) then w
    else
      AnswerKeepsConsistent(w, answers[0]);
      Run(Answer(w, answers[0]).0, answers[1..])
  }

  /** An answer the current question takes moves the wizard on and stores the value. */
  lemma AnswerTaken(w: Wizard, answer: string, option: ConfigOption, value: string)
    requires !Finished(w) && UniqueKeys(w.config) && Question(w.index) == option
    requires Effective(option, answer) == value && Acceptable(option, value)
    ensures Answer(w, answer).1 == None
    ensures Answer(w, answer).0.index == w.index + Advance(option, value)
    ensures Answer(w, answer).0.config == Put(w.config, option.key, value)
  {
  }

  /** A blank answer stands for the question's default. */
  lemma BlankAnswer(option: ConfigOption, answer: string)
    requires AllWhiteSpace(answer)
    ensures Effective(option, answer) == option.default
  {
  }

  /** Feeding answers to an unfinished wizard is answering the first and feeding the rest. */
  lemma RunStep(w: Wizard, answers: seq<string>, next: Wizard)
    requires Consistent(w) && !Finished(w) && |answers| > 0
    requires Answer(w, answers[0]).0 == next
    ensures Consistent(next)
    ensures Run(w, answers) == Run(next, answers[1..])
  {
    AnswerKeepsConsistent(w, answers[0]);
  }

  /** A finished wizard ignores further answers. */
  lemma RunDone(w: Wizard, answers: seq<string>)
    requires Consistent(w) && Finished(w)
    ensures Run(w, answers) == w
  {
  }

  /** A new key goes at the end of a configuration. */
  lemma PutNew(cfg: Entries, key: string, value: string)
    requires UniqueKeys(cfg) && key != "__proto__" && forall i | 0 <= i < |cfg| :: cfg[i].0 != key
    ensures Put(cfg, key, value) == cfg + [(key, value)]
  {
  }

  /** Four blank answers (pressing Enter at every question) take every default and finish. */
  lemma DefaultsFinish(a0: string, a1: string, a2: string, a3: string)
    requires AllWhiteSpace(a0) && AllWhiteSpace(a1) && AllWhiteSpace(a2) && AllWhiteSpace(a3)
    ensures Run(Start, [a0, a1, a2, a3]) == Wizard(4, [
      ("AI_PROVIDER", "openai"), ("OPENAI_API_KEY", ""), ("OPENAI_MODEL", "gpt-3.5-turbo"), ("PORT", "3000")])
  {
    var answers := [a0, a1, a2, a3];
    var w1 := Answer(Start, a0).0;
    RunStep(Start, answers, w1);
    DefaultStep1(a0);
    var w2 := Answer(w1, a1).0;
    RunStep(w1, answers[1..], w2);
    DefaultStep2(a1);
    var w3 := Answer(w2, a2).0;
    RunStep(w2, answers[2..], w3);
    DefaultStep3(a2);
    var w4 := Answer(w3, a3).0;
    RunStep(w3, answers[3..], w4);
    DefaultStep4(a3);
    RunDone(w4, answers[4..]);
  }

  /**
   * A blank answer to a question whose default it accepts, with the key not
   * yet stored, appends the default under that key and moves on.
   */
  lemma BlankStep(w: Wizard, answer: string, option: ConfigOption, next: nat)
    requires !Finished(w) && UniqueKeys(w.config) && Question(w.index) == option
    requires AllWhiteSpace(answer) && Acceptable(option, option.default)
    requires option.key != "__proto__" && forall i | 0 <= i < |w.config| :: w.config[i].0 != option.key
    requires next == w.index + Advance(option, option.default)
    ensures Answer(w, answer).0 == Wizard(next, w.config + [(option.key, option.default)])
  {
    BlankAnswer(option, answer);
    AnswerTaken(w, answer, option, option.default);
    PutNew(w.config, option.key, option.default);
  }

  lemma DefaultStep1(answer: string)
    requires AllWhiteSpace(answer)
    ensures Answer(Start, answer).0 == Wizard(1, [("AI_PROVIDER", "openai")])
  {
    assert ProviderOption.options.value[0] == "openai";
    BlankStep(Start, answer, ProviderOption, 1);
    assert [] + [("AI_PROVIDER", "openai")] == [("AI_PROVIDER", "openai")];
  }

  lemma DefaultStep2(answer: string)
    requires AllWhiteSpace(answer)
    ensures Answer(Wizard(1, [("AI_PROVIDER", "openai")]), answer).0 ==
      Wizard(2, [("AI_PROVIDER", "openai"), ("OPENAI_API_KEY", "")])
  {
    var w := Wizard(1, [("AI_PROVIDER", "openai")]);
    assert Question(1) == ApiKeyOption;
    assert w.config[0].0 != ApiKeyOption.key;
    BlankStep(w, answer, ApiKeyOption, 2);
  }

  lemma DefaultStep3(answer: string)
    requires AllWhiteSpace(answer)
    ensures Answer(Wizard(2, [("AI_PROVIDER", "openai"), ("OPENAI_API_KEY", "")]), answer).0 ==
      Wizard(3, [("AI_PROVIDER", "openai"), ("OPENAI_API_KEY", ""), ("OPENAI_MODEL", "gpt-3.5-turbo")])
  {
    var w := Wizard(2, [("AI_PROVIDER", "openai"), ("OPENAI_API_KEY", "")]);
    assert Question(2) == ModelOption;
    assert ModelOption.options.value[0] == "gpt-3.5-turbo";
    assert w.config[0].0 != ModelOption.key && w.config[1].0 != ModelOption.key;
    BlankStep(w, answer, ModelOption, 3);
  }

  lemma DefaultStep4(answer: string)
    requires AllWhiteSpace(answer)
    ensures Answer(Wizard(3, [("AI_PROVIDER", "openai"), ("OPENAI_API_KEY", ""), ("OPENAI_MODEL", "gpt-3.5-turbo")]), answer).0 ==
      Wizard(4, [("AI_PROVIDER", "openai"), ("OPENAI_API_KEY", ""), ("OPENAI_MODEL", "gpt-3.5-turbo"), ("PORT", "3000")])
  {
    var w := Wizard(3, [("AI_PROVIDER", "openai"), ("OPENAI_API_KEY", ""), ("OPENAI_MODEL", "gpt-3.5-turbo")]);
    assert Question(3) == PortOption;
    assert w.config[0].0 != PortOption.key && w.config[1].0 != PortOption.key && w.config[2].0 != PortOption.key;
    BlankStep(w, answer, PortOption, 4);
  }

  /** Choosing another backend skips the OpenAI key and model questions: one more answer finishes. */
  lemma OtherBackendSkipsOpenAIQuestions(answer: string, port: string)
    requires Trim(answer) in ["baidu", "alibaba", "tencent"] && !AllWhiteSpace(port)
    ensures Run(Start, [answer, port]) == Wizard(4, [("AI_PROVIDER", Trim(answer)), ("PORT", Trim(port))])
  {
    var answers := [answer, port];
    BackendAccepted(Trim(answer));
    var w1 := Answer(Start, answer).0;
    RunStep(Start, answers, w1);
    BackendStep(answer);
    var w2 := Answer(w1, port).0;
    RunStep(w1, answers[1..], w2);
    PortStep(Trim(answer), port);
    RunDone(w2, answers[2..]);
  }

  lemma BackendStep(answer: string)
    requires !AllWhiteSpace(answer)
    requires Acceptable(ProviderOption, Trim(answer)) && Trim(answer) != "openai"
    ensures Answer(Start, answer).0 == Wizard(3, [("AI_PROVIDER", Trim(answer))])
  {
    var v := Trim(answer);
    assert Effective(ProviderOption, answer) == v;
    AnswerTaken(Start, answer, ProviderOption, v);
    assert Advance(ProviderOption, v) == 3;
    PutNew([], "AI_PROVIDER", v);
  }

  lemma PortStep(backend: string, port: string)
    requires !AllWhiteSpace(port)
    ensures Answer(Wizard(3, [("AI_PROVIDER", backend)]), port).0 == Wizard(4, [("AI_PROVIDER", backend), ("PORT", Trim(port))])
  {
    var c1 := [("AI_PROVIDER", backend)];
    AnswerTaken(Wizard(3, c1), port, PortOption, Trim(port));
    PutNew(c1, "PORT", Trim(port));
  }

  lemma BackendAccepted(backend: string)
    requires backend in ["baidu", "alibaba", "tencent"]
    ensures Acceptable(ProviderOption, backend) && backend != "openai"
  {
    assert ProviderOption.options.value == ["openai", "baidu", "alibaba", "tencent"];
  }

  /** `answer.toLowerCase()` is "y" or "yes". */
  predicate WantsReconfigure(answer: string) {
    LowerAsciiLetters(answer) == "y" || LowerAsciiLetters(answer) == "yes"
  }

  /** Exactly the case variants of "y" and "yes" ask to reconfigure. */
  lemma WantsReconfigureExactly(answer: string)
    ensures WantsReconfigure(answer) <==>
      answer in {"y", "Y", "yes", "yeS", "yEs", "yES", "Yes", "YeS", "YEs", "YES"}
  {
    var l := LowerAsciiLetters(answer);
    if |answer| == 1 {
      assert answer == [answer[0]];
      assert l == "y" <==> answer[0] == 'y' || answer[0] == 'Y';
    } else if |answer| == 3 {
      assert answer == [answer[0], answer[1], answer[2]];
      assert l == "yes" <==> l[0] == 'y' && l[1] == 'e' && l[2] == 's';
    }
  }
}
