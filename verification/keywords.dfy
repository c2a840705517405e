/**
 * The quality analysis the API test script applies to a generated
 * evaluation: the fixed keyword extractor, the relevant-keyword filter, the
 * length band and the suggestion-word check.
 */
module Keywords {
  import opened JsString

  const MathKeywords: seq<string> := ["二次函数", "顶点", "对称轴", "开口", "抛物线", "方程", "最值"]
  const LearningKeywords: seq<string> := ["理解", "掌握", "应用", "计算", "分析", "问题", "回答"]

  /** Every keyword the extractor looks for, in the order it looks. */
  const AllKeywords: seq<string> := MathKeywords + LearningKeywords

  function Last<T>(xs: seq<T>): T
    requires |xs| > 0
  {
    xs[|xs| - 1]
  }

  function Init<T>(xs: seq<T>): seq<T>
    requires |xs| > 0
  {
    xs[..|xs| - 1]
  }

  /** `xs` is `ys` with some elements deleted, the rest kept in order. */
  predicate SubList<T(==)>(xs: seq<T>, ys: seq<T>)
    decreases |ys|
  {
    if |xs| == 0 then true
    else if |ys| == 0 then false
    else (Last(xs) == Last(ys) && SubList(Init(xs), Init(ys))) || SubList(xs, Init(ys))
  }

  predicate NoDuplicates<T(==)>(xs: seq<T>) {
    forall i, j | 0 <= i < j < |xs| :: xs[i] != xs[j]
  }

  lemma {:induction false} SubListLength<T>(xs: seq<T>, ys: seq<T>)
    requires SubList(xs, ys)
    ensures |xs| <= |ys|
    decreases |ys|
  {
    if |xs| > 0 {
      if Last(xs) == Last(ys) && SubList(Init(xs), Init(ys)) {
        SubListLength(Init(xs), Init(ys));
      } else {
        SubListLength(xs, Init(ys));
      }
    }
  }

  lemma {:induction false} SubListMembers<T>(xs: seq<T>, ys: seq<T>)
    requires SubList(xs, ys)
    ensures forall x | x in xs :: x in ys
    decreases |ys|
  {
    if |xs| > 0 {
      if Last(xs) == Last(ys) && SubList(Init(xs), Init(ys)) {
        SubListMembers(Init(xs), Init(ys));
        assert xs == Init(xs) + [Last(xs)];
        assert ys == Init(ys) + [Last(ys)];
      } else {
        SubListMembers(xs, Init(ys));
        assert ys == Init(ys) + [Last(ys)];
      }
    }
  }

  /** Deleting from a list, then deleting again, is deleting from it. */
  lemma {:induction false} SubListTransitive<T>(xs: seq<T>, ys: seq<T>, zs: seq<T>)
    requires SubList(xs, ys) && SubList(ys, zs)
    ensures SubList(xs, zs)
    decreases |zs|
  {
    if |xs| > 0 {
      SubListLength(ys, zs);
      if Last(ys) == Last(zs) && SubList(Init(ys), Init(zs)) {
        if Last(xs) == Last(ys) && SubList(Init(xs), Init(ys)) {
          SubListTransitive(Init(xs), Init(ys), Init(zs));
        } else {
          SubListTransitive(xs, Init(ys), Init(zs));
        }
      } else {
        SubListTransitive(xs, ys, Init(zs));
      }
    }
  }

  /** The elements of `xs` that `keep` accepts, in order (`xs.filter(keep)`). */
  function Filter<T>(xs: seq<T>, keep: T -> bool): (r: seq<T>)
    ensures SubList(r, xs)
    ensures forall x | x in r :: x in xs && keep(x)
    ensures forall x | x in xs && keep(x) :: x in r
    decreases |xs|
  {
    if |xs| == 0 then []
    else
      var init := Filter(Init(xs), keep);
      assert xs == Init(xs) + [Last(xs)];
      if keep(Last(xs)) then
        assert Init(init + [Last(xs)]) == init;
        init + [Last(xs)]
      else init
  }

  /** The filter keeps every copy of an accepted element and no copy of a rejected one. */
  lemma {:induction false} FilterMultiplicity<T>(xs: seq<T>, keep: T -> bool, x: T)
    ensures multiset(Filter(xs, keep))[x] == if keep(x) then multiset(xs)[x] else 0
    decreases |xs|
  {
    if |xs| > 0 {
      FilterMultiplicity(Init(xs), keep, x);
      assert xs == Init(xs) + [Last(xs)];
      assert multiset(xs) == multiset(Init(xs)) + multiset{Last(xs)};
      var init := Filter(Init(xs), keep);
      if keep(Last(xs)) {
        assert multiset(init + [Last(xs)]) == multiset(init) + multiset{Last(xs)};
      }
    }
  }

  lemma {:induction false} FilterAppend<T>(xs: seq<T>, ys: seq<T>, keep: T -> bool)
    ensures Filter(xs + ys, keep) == Filter(xs, keep) + Filter(ys, keep)
    decreases |ys|
  {
    if |ys| == 0 {
      assert xs + ys == xs;
    } else {
      FilterAppend(xs, Init(ys), keep);
      assert Init(xs + ys) == xs + Init(ys);
      assert Last(xs + ys) == Last(ys);
    }
  }

  /** Where `x` first occurs in `xs`. */
  function FirstIndex<T(==)>(xs: seq<T>, x: T): (k: nat)
    requires x in xs
    ensures k < |xs| && xs[k] == x
    ensures forall i | 0 <= i < k :: xs[i] != x
    decreases |xs|
  {
    assert xs == Init(xs) + [Last(xs)];
    if x in Init(xs) then FirstIndex(Init(xs), x) else |xs| - 1
  }

  /** `[...new Set(xs)]`: the first occurrence of each element, in order. */
  function Dedup<T(==)>(xs: seq<T>): (r: seq<T>)
    ensures NoDuplicates(r)
    ensures SubList(r, xs)
    ensures forall x | x in r :: x in xs
    ensures forall x | x in xs :: x in r
    decreases |xs|
  {
    if |xs| == 0 then []
    else
      var d := Dedup(Init(xs));
      assert xs == Init(xs) + [Last(xs)];
      if Last(xs) in d then d
      else
        assert Init(d + [Last(xs)]) == d;
        d + [Last(xs)]
  }

  /** Dropping the last element keeps where the earlier elements first occur. */
  lemma FirstIndexInit<T>(xs: seq<T>, y: T)
    requires |xs| > 0 && y in Init(xs)
    ensures y in xs && FirstIndex(xs, y) == FirstIndex(Init(xs), y) < |xs| - 1
  {
    assert xs == Init(xs) + [Last(xs)];
  }

  /** One step of `Dedup`: the last element is added unless it occurred before. */
  lemma DedupStep<T>(xs: seq<T>)
    requires |xs| > 0
    ensures Last(xs) in Init(xs) ==> Dedup(xs) == Dedup(Init(xs))
    ensures Last(xs) !in Init(xs) ==> Dedup(xs) == Dedup(Init(xs)) + [Last(xs)]
    ensures Last(xs) !in Init(xs) ==> FirstIndex(xs, Last(xs)) == |xs| - 1
  {
  }

  /** `Dedup` lists the elements in the order of their first occurrences. */
  lemma {:induction false} DedupFirstOccurrenceOrder<T>(xs: seq<T>)
    ensures var r := Dedup(xs);
      forall i, j | 0 <= i < j < |r| :: r[i] in xs && r[j] in xs && FirstIndex(xs, r[i]) < FirstIndex(xs, r[j])
    decreases |xs|
  {
    if |xs| > 0 {
      var d := Dedup(Init(xs));
      var r := Dedup(xs);
      DedupFirstOccurrenceOrder(Init(xs));
      DedupStep(xs);
      forall i, j | 0 <= i < j < |r|
        ensures r[i] in xs && r[j] in xs && FirstIndex(xs, r[i]) < FirstIndex(xs, r[j])
      {
        assert r[i] == d[i] && d[i] in Init(xs);
        FirstIndexInit(xs, d[i]);
        if j < |d| {
          assert r[j] == d[j] && d[j] in Init(xs);
          FirstIndexInit(xs, d[j]);
        } else {
          assert r[j] == Last(xs);
        }
      }
    }
  }

  /** A list without repeats is its own `Set`. */
  lemma {:induction false} DedupOfDistinct<T>(xs: seq<T>)
    requires NoDuplicates(xs)
    ensures Dedup(xs) == xs
    decreases |xs|
  {
    if |xs| > 0 {
      DedupOfDistinct(Init(xs));
      assert Last(xs) !in Init(xs);
      assert Init(xs) + [Last(xs)] == xs;
    }
  }

  /** The test `text.includes(k)` as a function of `k`. */
  function InText(text: string): string -> bool {
    k => Contains(text, k)
  }

  /** Pushes, in order, the words of `list` that `text` contains. */
  method PushContained(text: string, keywords: seq<string>, list: seq<string>) returns (r: seq<string>)
    ensures r == keywords + Filter(list, InText(text))
  {
    r := keywords;
    for i := 0 to |list|
      invariant r == keywords + Filter(list[..i], InText(text))
    {
      assert Init(list[..i + 1]) == list[..i];
      if Contains(text, list[i]) {
        r := r + [list[i]];
      }
    }
    assert list[..|list|] == list;
  }

  /** What deduplicating the matches of `all` in `text` gives, for any word list `all`. */
  lemma DedupOfMatches(text: string, all: seq<string>)
    ensures var r := Dedup(Filter(all, InText(text)));
      && (forall k :: k in r <==> k in all && Contains(text, k))
      && SubList(r, all)
      && |r| <= |all|
  {
    var keywords := Filter(all, InText(text));
    var r := Dedup(keywords);
    SubListTransitive(r, keywords, all);
    SubListLength(r, all);
  }

  /** The extractor for any two word lists: the words `text` contains, the first list's first, without repeats. */
  method ExtractFrom(text: string, first: seq<string>, second: seq<string>) returns (r: seq<string>)
    ensures r == Dedup(Filter(first + second, InText(text)))
    ensures forall k :: k in r <==> k in first + second && Contains(text, k)
    ensures SubList(r, first + second)
    ensures NoDuplicates(r)
    ensures |r| <= |first + second|
  {
    var keywords := PushContained(text, [], first);
    keywords := PushContained(text, keywords, second);
    FilterAppend(first, second, InText(text));
    assert keywords == Filter(first + second, InText(text));
    r := Dedup(keywords);
    DedupOfMatches(text, first + second);
  }

  /** `extractKeywords(text)`: the fixed keywords the text contains, maths first, without repeats. */
  method ExtractKeywords(text: string) returns (r: seq<string>)
    ensures r == Dedup(Filter(AllKeywords, InText(text)))
    ensures forall k :: k in r <==> k in AllKeywords && Contains(text, k)
    ensures SubList(r, AllKeywords)
    ensures NoDuplicates(r)
    ensures |r| <= 14
  {
    r := ExtractFrom(text, MathKeywords, LearningKeywords);
  }

  /** A filter that accepts none of the elements leaves nothing. */
  lemma {:induction false} FilterNone<T>(xs: seq<T>, keep: T -> bool)
    requires forall x | x in xs :: !keep(x)
    ensures Filter(xs, keep) == []
    decreases |xs|
  {
    if |xs| > 0 {
      assert Last(xs) in xs;
      assert forall x | x in Init(xs) :: x in xs;
      FilterNone(Init(xs), keep);
    }
  }

  /** No keyword is empty, so the empty text has none. */
  lemma KeywordsNonEmpty()
    ensures forall i | 0 <= i < |AllKeywords| :: |AllKeywords[i]| > 0
  {
    assert forall i | 0 <= i < |MathKeywords| :: |MathKeywords[i]| > 0;
    assert forall i | 0 <= i < |LearningKeywords| :: |LearningKeywords[i]| > 0;
  }

  /** The empty text yields no keywords. */
  method ExtractFromEmptyText() returns (r: seq<string>)
    ensures r == []
  {
    r := ExtractKeywords("");
    KeywordsNonEmpty();
    assert forall k | k in AllKeywords :: !InText("")(k);
    FilterNone(AllKeywords, InText(""));
  }

  /** Some evaluation keyword contains `k` or is contained in it. */
  predicate Related(k: string, evaluationKeywords: seq<string>) {
    exists j | 0 <= j < |evaluationKeywords| ::
      Contains(evaluationKeywords[j], k) || Contains(k, evaluationKeywords[j])
  }

  /** The content keywords that some evaluation keyword relates to, in content order. */
  function RelevantKeywords(contentKeywords: seq<string>, evaluationKeywords: seq<string>): (r: seq<string>)
    ensures SubList(r, contentKeywords)
    ensures forall k :: k in r <==> k in contentKeywords && Related(k, evaluationKeywords)
  {
    Filter(contentKeywords, k => Related(k, evaluationKeywords))
  }

  /** Every content keyword also found in the evaluation is relevant. */
  lemma SharedKeywordsAreRelevant(contentKeywords: seq<string>, evaluationKeywords: seq<string>, k: string)
    requires k in contentKeywords && k in evaluationKeywords
    ensures k in RelevantKeywords(contentKeywords, evaluationKeywords)
  {
    var j :| 0 <= j < |evaluationKeywords| && evaluationKeywords[j] == k;
    assert OccursAt(k, k, 0);
    assert Contains(evaluationKeywords[j], k);
  }

  /** The length check: between 200 and 400 UTF-16 code units. */
  predicate LengthInBand(evaluation: string) {
    200 <= Utf16Length(evaluation) <= 400
  }

  /** For text inside the Basic Multilingual Plane, such as Chinese prose, the band counts characters. */
  lemma LengthInBandOfBmp(evaluation: string)
    requires forall i | 0 <= i < |evaluation| :: evaluation[i] as int <= 0xFFFF
    ensures LengthInBand(evaluation) <==> 200 <= |evaluation| <= 400
  {
  }

  /** Whatever its characters, a text under 100 or over 400 characters misses the band. */
  lemma LengthOutOfBand(evaluation: string)
    requires |evaluation| < 100 || |evaluation| > 400
    ensures !LengthInBand(evaluation)
  {
  }

  /** The suggestion check: the text contains 建议, 改进 or 加强. */
  predicate HasSuggestions(evaluation: string) {
    Contains(evaluation, "建议") || Contains(evaluation, "改进") || Contains(evaluation, "加强")
  }

  /** A text that contains `pat` still does after more text is put around it. */
  lemma ContainsWithin(before: string, s: string, after: string, pat: string)
    requires Contains(s, pat)
    ensures Contains(before + s + after, pat)
  {
    var i :| 0 <= i <= |s| - |pat| && OccursAt(s, pat, i);
    var t := before + s + after;
    assert t[|before| + i..|before| + i + |pat|] == s[i..i + |pat|];
    assert OccursAt(t, pat, |before| + i);
  }

  /** Adding text around an evaluation never removes its suggestions. */
  lemma SuggestionsSurviveAdditions(before: string, evaluation: string, after: string)
    requires HasSuggestions(evaluation)
    ensures HasSuggestions(before + evaluation + after)
  {
    if Contains(evaluation, "建议") {
      ContainsWithin(before, evaluation, after, "建议");
    } else if Contains(evaluation, "改进") {
      ContainsWithin(before, evaluation, after, "改进");
    } else {
      ContainsWithin(before, evaluation, after, "加强");
    }
  }
}
