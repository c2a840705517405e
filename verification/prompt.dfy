/**
 * `buildPrompt`: the user message every backend receives. The template's
 * first `{content}` is replaced by the classroom notes, then the first
 * `{rating}` of the result by the rating label, and the label's guidance
 * text is appended when there is one.
 */
module Prompt {
  import opened Wrappers
  import opened JsString
  import opened Config

  /** Put between the substituted template and the rating's guidance. */
  const GuidanceLabel: string := "\n\n特别说明："

  /** The two placeholder passes; the second runs on the output of the first. */
  function Substitute(template: string, content: string, rating: string): string {
    ReplaceFirst(ReplaceFirst(template, ContentToken, content), RatingToken, rating)
  }

  /**
   * The text appended after the substituted template: the label and the
   * guidance when `rating` names a non-empty entry of the map itself.
   */
  function Appendix(ratingPrompts: map<string, string>, rating: string): (r: string)
    ensures r != "" <==> rating in ratingPrompts && ratingPrompts[rating] != ""
    ensures r != "" ==> r == GuidanceLabel + ratingPrompts[rating]
  {
    if rating in ratingPrompts && ratingPrompts[rating] != "" then GuidanceLabel + ratingPrompts[rating] else ""
  }

  function BuildPrompt(prompts: PromptSettings, content: string, rating: string): (r: string)
    ensures rating in prompts.ratingPrompts && prompts.ratingPrompts[rating] != "" ==>
      r == Substitute(prompts.mainPrompt, content, rating) + GuidanceLabel + prompts.ratingPrompts[rating]
    ensures !(rating in prompts.ratingPrompts && prompts.ratingPrompts[rating] != "") ==>
      r == Substitute(prompts.mainPrompt, content, rating)
  {
    Substitute(prompts.mainPrompt, content, rating) + Appendix(prompts.ratingPrompts, rating)
  }

  /** A placeholder-shaped pattern first occurs where `s` first has a `{`. */
  lemma FirstBraceOccurrence(s: string, pat: string, k: nat)
    requires |pat| > 0 && pat[0] == '{' && OccursAt(s, pat, k)
    requires forall j | 0 <= j < k :: s[j] != '{'
    ensures FirstOccurrence(s, pat, k)
  {
    forall j: nat | j < k
      ensures !OccursAt(s, pat, j)
    {
      if j + |pat| <= |s| {
        assert s[j..j + |pat|][0] == s[j] != pat[0];
      }
    }
  }

  /** A placeholder preceded by no `{` is the occurrence `replace` picks. */
  lemma ReplaceAfterBraceFreeHead(head: string, pat: string, tail: string, rep: string)
    requires |pat| > 0 && pat[0] == '{' && '{' !in head && '$' !in rep
    ensures ReplaceFirst(head + pat + tail, pat, rep) == head + rep + tail
  {
    var s := head + pat + tail;
    var k := |head|;
    assert s[k..k + |pat|] == pat;
    forall j | 0 <= j < k
      ensures s[j] != '{'
    {
      assert s[j] == head[j];
    }
    FirstBraceOccurrence(s, pat, k);
    assert s[..k] == head;
    assert s[k + |pat|..] == tail;
  }

  lemma Assoc5(a: string, b: string, c: string, d: string, e: string)
    ensures a + b + c + d + e == a + b + (c + d + e)
  {
  }

  lemma Regroup(a: string, b: string, c: string, d: string, e: string)
    ensures a + (b + c + d) + e == (a + b) + c + (d + e)
  {
  }

  lemma Flatten(a: string, b: string, c: string, d: string, m: string, r: string, l: string)
    ensures (a + b) + c + (d + (m + r + l)) == a + b + c + d + m + r + l
  {
  }

  /**
   * For a template shaped like the default one, notes free of `{` and `$`
   * and a `$`-free rating fill the two placeholders in place.
   */
  lemma {:induction false} SubstituteInOrder(intro: string, middle: string, rules: string, content: string, rating: string)
    requires '{' !in intro && '{' !in middle && '{' !in content && '$' !in content && '$' !in rating
    ensures Substitute(intro + ContentToken + middle + RatingToken + rules, content, rating)
      == intro + content + middle + rating + rules
  {
    Assoc5(intro, ContentToken, middle, RatingToken, rules);
    ReplaceAfterBraceFreeHead(intro, ContentToken, middle + RatingToken + rules, content);
    assert intro + content + (middle + RatingToken + rules) == (intro + content + middle) + RatingToken + rules;
    ReplaceAfterBraceFreeHead(intro + content + middle, RatingToken, rules, rating);
  }

  /**
   * For a template shaped like the default one, a `{rating}` inside the notes
   * is the occurrence the rating replaces; the template's own is kept.
   */
  lemma {:induction false} SubstituteRatingInContent(
    intro: string, middle: string, rules: string, before: string, after: string, rating: string)
    requires '{' !in intro && '{' !in before && '$' !in before && '$' !in after && '$' !in rating
    ensures Substitute(intro + ContentToken + middle + RatingToken + rules, before + RatingToken + after, rating)
      == intro + before + rating + after + middle + RatingToken + rules
  {
    var content := before + RatingToken + after;
    var rest := middle + RatingToken + rules;
    Assoc5(intro, ContentToken, middle, RatingToken, rules);
    ReplaceAfterBraceFreeHead(intro, ContentToken, rest, content);
    Regroup(intro, before, RatingToken, after, rest);
    ReplaceAfterBraceFreeHead(intro + before, RatingToken, after + rest, rating);
    Flatten(intro, before, rating, after, middle, RatingToken, rules);
  }

  /**
   * With the default template, notes free of `{` and `$`, and a `$`-free
   * rating, the prompt is the template with both placeholders filled in,
   * followed by the rating's guidance.
   */
  lemma BuildPromptOnDefaultTemplate(prompts: PromptSettings, content: string, rating: string)
    requires prompts.mainPrompt == DefaultMainPrompt
    requires '{' !in content && '$' !in content && '$' !in rating
    ensures BuildPrompt(prompts, content, rating)
      == PromptIntro + content + PromptMiddle + rating + PromptRules + Appendix(prompts.ratingPrompts, rating)
  {
    NoBraceInIntro();
    SubstituteInOrder(PromptIntro, PromptMiddle, PromptRules, content, rating);
  }

  /**
   * With the default template, a `{rating}` inside the notes is the one the
   * rating replaces, and the template's own placeholder reaches the backend.
   */
  lemma RatingPlaceholderInsideContent(prompts: PromptSettings, before: string, after: string, rating: string)
    requires prompts.mainPrompt == DefaultMainPrompt
    requires '{' !in before && '$' !in before && '$' !in after && '$' !in rating
    ensures BuildPrompt(prompts, before + RatingToken + after, rating)
      == PromptIntro + before + rating + after + PromptMiddle + RatingToken + PromptRules
        + Appendix(prompts.ratingPrompts, rating)
  {
    NoBraceInIntro();
    SubstituteRatingInContent(PromptIntro, PromptMiddle, PromptRules, before, after, rating);
  }

  /** A template without placeholders is sent as it is, followed by the guidance. */
  lemma BuildPromptWithoutPlaceholders(prompts: PromptSettings, content: string, rating: string)
    requires !Contains(prompts.mainPrompt, ContentToken) && !Contains(prompts.mainPrompt, RatingToken)
    ensures BuildPrompt(prompts, content, rating) == prompts.mainPrompt + Appendix(prompts.ratingPrompts, rating)
  {
  }

  /**
   * The text a property read on a plain object literal yields, converted to a
   * string, for a key the object does not own but inherits from
   * `Object.prototype`; `None` when nothing is inherited under that key.
   */
  function InheritedMemberText(key: string): (r: Option<string>)
    ensures r.Some? ==> r.value != ""
  {
    if key == "constructor" then Some("function Object() { [native code] }")
    else if key == "__proto__" then Some("[object Object]")
    else if key in ObjectPrototypeMethods then Some("function " + key + "() { [native code] }")
    else None
  }

  const ObjectPrototypeMethods: seq<string> := [
    "__defineGetter__", "__defineSetter__", "hasOwnProperty", "__lookupGetter__",
    "__lookupSetter__", "isPrototypeOf", "propertyIsEnumerable", "toString",
    "valueOf", "toLocaleString"]

  /**
   * The appendix as the source computes it: `ratingPrompts[rating]` also
   * finds the members every object inherits, and those are truthy.
   */
  function AppendixAsWritten(ratingPrompts: map<string, string>, rating: string): string {
    if rating in ratingPrompts then
      (if ratingPrompts[rating] != "" then GuidanceLabel + ratingPrompts[rating] else "")
    else
      match InheritedMemberText(rating)
      case Some(text) => GuidanceLabel + text
      case None => ""
  }

  function BuildPromptAsWritten(prompts: PromptSettings, content: string, rating: string): string {
    Substitute(prompts.mainPrompt, content, rating) + AppendixAsWritten(prompts.ratingPrompts, rating)
  }

  /** The two readings differ only on the names an object inherits. */
  lemma AppendixAsWrittenAgrees(prompts: PromptSettings, content: string, rating: string)
    requires rating in prompts.ratingPrompts || InheritedMemberText(rating).None?
    ensures AppendixAsWritten(prompts.ratingPrompts, rating) == Appendix(prompts.ratingPrompts, rating)
    ensures BuildPromptAsWritten(prompts, content, rating) == BuildPrompt(prompts, content, rating)
  {
  }

  /**
   * A rating the map does not own but every object inherits gets that
   * member's text appended, where the intended prompt has no guidance.
   */
  lemma InheritedRatingLeaks(prompts: PromptSettings, content: string, rating: string)
    requires rating !in prompts.ratingPrompts && InheritedMemberText(rating).Some?
    ensures BuildPromptAsWritten(prompts, content, rating)
      == BuildPrompt(prompts, content, rating) + GuidanceLabel + InheritedMemberText(rating).value
    ensures Appendix(prompts.ratingPrompts, rating) == ""
  {
    var s := Substitute(prompts.mainPrompt, content, rating);
    var t := InheritedMemberText(rating).value;
    assert AppendixAsWritten(prompts.ratingPrompts, rating) == GuidanceLabel + t;
    assert s + "" == s;
    assert s + (GuidanceLabel + t) == s + GuidanceLabel + t;
  }

  lemma ToStringIsInherited()
    ensures InheritedMemberText("toString") == Some("function " + "toString" + "() { [native code] }")
  {
    assert ObjectPrototypeMethods[7] == "toString";
  }

  /**
   * The rating "toString" has no guidance, yet the source appends the
   * source text of `Object.prototype.toString` as if it were guidance.
   */
  lemma InheritedRatingLeaksIntoPrompt(prompts: PromptSettings, content: string)
    requires prompts.ratingPrompts.Keys == {Excellent, Good, Average, Poor}
    ensures BuildPromptAsWritten(prompts, content, "toString")
      == BuildPrompt(prompts, content, "toString") + GuidanceLabel + ("function " + "toString" + "() { [native code] }")
    ensures Appendix(prompts.ratingPrompts, "toString") == ""
  {
    assert "toString" !in prompts.ratingPrompts;
    ToStringIsInherited();
    InheritedRatingLeaks(prompts, content, "toString");
  }
}
