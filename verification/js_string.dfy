/**
 * The parts of JavaScript's String API the application relies on, over
 * `string` (a sequence of Unicode scalar values): `includes`, `indexOf`,
 * `trim`, `split`, `length`, and `replace` with a string pattern.
 */
module JsString {
  import opened Wrappers

  /** `pat` occurs in `s` starting at index `i`. */
  predicate OccursAt(s: string, pat: string, i: nat) {
    i + |pat| <= |s| && s[i..i + |pat|] == pat
  }

  /** `s.includes(pat)`. */
  predicate Contains(s: string, pat: string) {
    exists i | 0 <= i <= |s| - |pat| :: OccursAt(s, pat, i)
  }

  /** `i` is where `pat` first occurs in `s`. */
  predicate FirstOccurrence(s: string, pat: string, i: nat) {
    OccursAt(s, pat, i) && forall j: nat :: j < i ==> !OccursAt(s, pat, j)
  }

  lemma FirstOccurrenceUnique(s: string, pat: string, i: nat, j: nat)
    requires FirstOccurrence(s, pat, i) && FirstOccurrence(s, pat, j)
    ensures i == j
  {
  }

  /** The first index at or after `from` where `pat` occurs in `s`. */
  function IndexOfFrom(s: string, pat: string, from: nat): (r: Option<nat>)
    ensures r.Some? ==> from <= r.value && OccursAt(s, pat, r.value)
    ensures forall j: nat :: from <= j && OccursAt(s, pat, j) ==> r.Some? && r.value <= j
    decreases |s| - from
  {
    if from + |pat| > |s| then None
    else if s[from..from + |pat|] == pat then Some(from)
    else IndexOfFrom(s, pat, from + 1)
  }

  /** `s.indexOf(pat)`, with `None` standing for -1. */
  function IndexOf(s: string, pat: string): (r: Option<nat>)
    ensures r.Some? <==> Contains(s, pat)
    ensures r.Some? ==> FirstOccurrence(s, pat, r.value)
  {
    IndexOfFrom(s, pat, 0)
  }

  /** A character `trim` removes: ECMAScript WhiteSpace or LineTerminator. */
  predicate IsWhiteSpace(c: char) {
    || c == '\t' || c == '\n' || c == '\U{000B}' || c == '\U{000C}' || c == '\r' || c == ' '
    || c == '\U{00A0}' || c == '\U{1680}' || ('\U{2000}' <= c <= '\U{200A}')
    || c == '\U{2028}' || c == '\U{2029}' || c == '\U{202F}' || c == '\U{205F}'
    || c == '\U{3000}' || c == '\U{FEFF}'
  }

  predicate AllWhiteSpace(s: string) {
    forall i | 0 <= i < |s| :: IsWhiteSpace(s[i])
  }

  /** `s.trimStart()`. */
  function TrimStart(s: string): (r: string)
    ensures |r| <= |s| && r == s[|s| - |r|..]
    ensures AllWhiteSpace(s[..|s| - |r|])
    ensures |r| > 0 ==> !IsWhiteSpace(r[0])
  {
    if |s| > 0 && IsWhiteSpace(s[0]) then TrimStart(s[1..]) else s
  }

  /** Leading white space does not change what `trimStart` leaves. */
  lemma {:induction false} TrimStartSkips(ws: string, s: string)
    requires AllWhiteSpace(ws)
    ensures TrimStart(ws + s) == TrimStart(s)
    decreases |ws|
  {
    if |ws| == 0 {
      assert ws + s == s;
    } else {
      assert (ws + s)[0] == ws[0];
      assert (ws + s)[1..] == ws[1..] + s;
      TrimStartSkips(ws[1..], s);
    }
  }

  lemma TrimStartOfBlank(ws: string)
    requires AllWhiteSpace(ws)
    ensures TrimStart(ws) == ""
  {
    TrimStartSkips(ws, "");
    assert ws + "" == ws;
  }

  lemma TrimStartOfNonSpace(s: string)
    requires |s| > 0 && !IsWhiteSpace(s[0])
    ensures TrimStart(s) == s
  {
  }

  /** `s.trimEnd()`. */
  function TrimEnd(s: string): (r: string)
    ensures |r| <= |s| && r == s[..|r|]
    ensures AllWhiteSpace(s[|r|..])
    ensures |r| > 0 ==> !IsWhiteSpace(r[|r| - 1])
  {
    if |s| > 0 && IsWhiteSpace(s[|s| - 1]) then TrimEnd(s[..|s| - 1]) else s
  }

  /** `s.trim()`: the slice of `s` left after removing white space at both ends. */
  function Trim(s: string): (r: string)
    ensures |r| == 0 <==> AllWhiteSpace(s)
    ensures |r| > 0 ==> !IsWhiteSpace(r[0]) && !IsWhiteSpace(r[|r| - 1])
    ensures exists a, b :: 0 <= a <= b <= |s| && r == s[a..b] && AllWhiteSpace(s[..a]) && AllWhiteSpace(s[b..])
  {
    TrimBothEnds(s);
    TrimEnd(TrimStart(s))
  }

  /** What `trimEnd` leaves of what `trimStart` leaves is a slice with white space on both sides. */
  lemma TrimBothEnds(s: string)
    ensures var r := TrimEnd(TrimStart(s));
      && (|r| == 0 <==> AllWhiteSpace(s))
      && (|r| > 0 ==> !IsWhiteSpace(r[0]) && !IsWhiteSpace(r[|r| - 1]))
      && exists a, b :: 0 <= a <= b <= |s| && r == s[a..b] && AllWhiteSpace(s[..a]) && AllWhiteSpace(s[b..])
  {
    var t := TrimStart(s);
    var a := |s| - |t|;
    var r := TrimEnd(t);
    var b := a + |r|;
    assert r == s[a..b];
    assert s[b..] == t[|r|..];
    WhiteSpaceAround(s, a, b);
    assert |r| > 0 ==> s[a] == r[0];
    assert 0 <= a <= b <= |s| && r == s[a..b] && AllWhiteSpace(s[..a]) && AllWhiteSpace(s[b..]);
  }

  /** Nothing is left between white space at both ends only when all of `s` is white space. */
  lemma WhiteSpaceAround(s: string, a: nat, b: nat)
    requires a <= b <= |s| && AllWhiteSpace(s[..a]) && AllWhiteSpace(s[b..])
    ensures a == b ==> AllWhiteSpace(s)
  {
    if a == b {
      forall i | 0 <= i < |s| ensures IsWhiteSpace(s[i]) {
        if i < a { assert s[i] == s[..a][i]; } else { assert s[i] == s[b..][i - b]; }
      }
    }
  }

  /** `parts.join(sep)`. */
  function Join(parts: seq<string>, sep: char): string
    requires |parts| > 0
  {
    if |parts| == 1 then parts[0] else parts[0] + [sep] + Join(parts[1..], sep)
  }

  /** `s.split(sep)` for a one-character separator: the pieces between separators. */
  function Split(s: string, sep: char): (r: seq<string>)
    ensures |r| > 0
    ensures forall k | 0 <= k < |r| :: sep !in r[k]
    ensures Join(r, sep) == s
  {
    if |s| == 0 then [""]
    else
      var rest := Split(s[1..], sep);
      if s[0] == sep then
        assert ([""] + rest)[1..] == rest;
        [""] + rest
      else
        var r := [[s[0]] + rest[0]] + rest[1..];
        assert r[1..] == rest[1..];
        assert |rest| > 1 ==> Join(rest, sep) == rest[0] + [sep] + Join(rest[1..], sep);
        r
  }

  lemma {:induction false} SplitWithoutSeparator(a: string, sep: char)
    requires sep !in a
    ensures Split(a, sep) == [a]
    decreases |a|
  {
    if |a| > 0 {
      SplitWithoutSeparator(a[1..], sep);
      assert [a[0]] + a[1..] == a;
    }
  }

  lemma {:induction false} SplitAtFirstSeparator(a: string, sep: char, b: string)
    requires sep !in a
    ensures Split(a + [sep] + b, sep) == [a] + Split(b, sep)
    decreases |a|
  {
    if |a| == 0 {
      assert (a + [sep] + b)[1..] == b;
    } else {
      SplitAtFirstSeparator(a[1..], sep, b);
      assert (a + [sep] + b)[1..] == a[1..] + [sep] + b;
      assert [a[0]] + a[1..] == a;
    }
  }

  /** `split` undoes `join` when no piece contains the separator. */
  lemma {:induction false} SplitJoin(parts: seq<string>, sep: char)
    requires |parts| > 0
    requires forall k | 0 <= k < |parts| :: sep !in parts[k]
    ensures Split(Join(parts, sep), sep) == parts
    decreases |parts|
  {
    if |parts| == 1 {
      SplitWithoutSeparator(parts[0], sep);
    } else {
      SplitJoin(parts[1..], sep);
      SplitAtFirstSeparator(parts[0], sep, Join(parts[1..], sep));
      assert [parts[0]] + parts[1..] == parts;
    }
  }

  /**
   * GetSubstitution for a string pattern, which has no capture groups: the
   * text `replace` inserts for the replacement `rep`. `$$` stands for `$`,
   * `$&` for the matched text, `` $` `` for the text before the match and
   * `$'` for the text after it; any other `$` stands for itself.
   */
  function Expand(rep: string, matched: string, before: string, after: string): (r: string)
    ensures '$' !in rep ==> r == rep
    decreases |rep|
  {
    if |rep| == 0 then ""
    else if rep[0] == '$' && |rep| >= 2 && rep[1] == '$' then "$" + Expand(rep[2..], matched, before, after)
    else if rep[0] == '$' && |rep| >= 2 && rep[1] == '&' then matched + Expand(rep[2..], matched, before, after)
    else if rep[0] == '$' && |rep| >= 2 && rep[1] == '`' then before + Expand(rep[2..], matched, before, after)
    else if rep[0] == '$' && |rep| >= 2 && rep[1] == '\'' then after + Expand(rep[2..], matched, before, after)
    else
      assert '$' !in rep ==> '$' !in rep[1..];
      [rep[0]] + Expand(rep[1..], matched, before, after)
  }

  /**
   * `s.replace(pat, rep)` with a string pattern: only the first occurrence
   * of `pat` is replaced, by the expansion of `rep`.
   */
  function ReplaceFirst(s: string, pat: string, rep: string): (r: string)
    ensures !Contains(s, pat) ==> r == s
    ensures forall i: nat :: FirstOccurrence(s, pat, i) ==>
      r == s[..i] + Expand(rep, pat, s[..i], s[i + |pat|..]) + s[i + |pat|..]
    ensures forall i: nat :: FirstOccurrence(s, pat, i) && '$' !in rep ==>
      r == s[..i] + rep + s[i + |pat|..]
  {
    match IndexOf(s, pat)
    case None => s
    case Some(i) =>
      assert forall j: nat :: FirstOccurrence(s, pat, j) ==> j == i by {
        forall j: nat | FirstOccurrence(s, pat, j) ensures j == i {
          FirstOccurrenceUnique(s, pat, i, j);
        }
      }
      s[..i] + Expand(rep, pat, s[..i], s[i + |pat|..]) + s[i + |pat|..]
  }

  /** `s.length`: UTF-16 code units, two for a character outside the Basic Multilingual Plane. */
  function Utf16Length(s: string): (n: nat)
    ensures |s| <= n <= 2 * |s|
    ensures (forall i | 0 <= i < |s| :: s[i] as int <= 0xFFFF) ==> n == |s|
  {
    if |s| == 0 then 0
    else
      assert (forall i | 0 <= i < |s| :: s[i] as int <= 0xFFFF) ==> (forall i | 0 <= i < |s[1..]| :: s[1..][i] as int <= 0xFFFF);
      (if s[0] as int > 0xFFFF then 2 else 1) + Utf16Length(s[1..])
  }

  /** A character outside the Basic Multilingual Plane takes a surrogate pair, any other one code unit. */
  lemma Utf16LengthOfChar(c: char)
    ensures Utf16Length([c]) == if c as int > 0xFFFF then 2 else 1
  {
    assert [c][1..] == [];
  }

  /** The code units of a concatenation are those of its parts. */
  lemma {:induction false} Utf16LengthAppend(s: string, t: string)
    ensures Utf16Length(s + t) == Utf16Length(s) + Utf16Length(t)
    decreases |s|
  {
    if |s| > 0 {
      assert (s + t)[0] == s[0];
      assert (s + t)[1..] == s[1..] + t;
      Utf16LengthAppend(s[1..], t);
    } else {
      assert s + t == t;
    }
  }

  function LowerAsciiLetter(c: char): char {
    if 'A' <= c <= 'Z' then (c as int + 32) as char else c
  }

  /** `s` with the ASCII capitals A-Z turned into lower case and every other character kept. */
  function LowerAsciiLetters(s: string): (r: string)
    ensures |r| == |s|
    ensures forall i | 0 <= i < |s| :: r[i] == LowerAsciiLetter(s[i])
  {
    seq(|s|, i requires 0 <= i < |s| => LowerAsciiLetter(s[i]))
  }
}
