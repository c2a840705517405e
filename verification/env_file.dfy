/**
 * The `.env` handling of the setup wizard: reading `KEY=value` lines into
 * the wizard's configuration object, writing each entry back over the first
 * line for its key, and the masked listing of the configuration. File
 * access is left to the caller: the text read is a parameter.
 */
module EnvFile {
  import opened Wrappers
  import opened JsString

  /**
   * The wizard's configuration object: its own string properties in
   * insertion order, each key once.
   */
  type Entries = seq<(string, string)>

  predicate UniqueKeys(cfg: Entries) {
    forall i, j | 0 <= i < j < |cfg| :: cfg[i].0 != cfg[j].0
  }

  function Keys(cfg: Entries): (ks: seq<string>)
    ensures |ks| == |cfg|
    ensures forall i | 0 <= i < |cfg| :: ks[i] == cfg[i].0
  {
    seq(|cfg|, i requires 0 <= i < |cfg| => cfg[i].0)
  }

  /** `cfg[key]` for an own property. */
  function Lookup(cfg: Entries, key: string): (r: Option<string>)
    ensures r.None? <==> key !in Keys(cfg)
    ensures r.Some? ==> exists i | 0 <= i < |cfg| :: cfg[i] == (key, r.value)
  {
    if |cfg| == 0 then None
    else if cfg[|cfg| - 1].0 == key then Some(cfg[|cfg| - 1].1)
    else
      assert Keys(cfg) == Keys(cfg[..|cfg| - 1]) + [cfg[|cfg| - 1].0];
      Lookup(cfg[..|cfg| - 1], key)
  }

  /**
   * `cfg[key] = value`: an existing key keeps its place and takes the new
   * value, a new key goes last, and `__proto__` is the accessor every object
   * inherits, which ignores a string.
   */
  function Put(cfg: Entries, key: string, value: string): (r: Entries)
    requires UniqueKeys(cfg)
    ensures UniqueKeys(r)
    ensures key == "__proto__" ==> r == cfg
    ensures key != "__proto__" ==> Lookup(r, key) == Some(value)
    ensures forall k | k != key :: Lookup(r, k) == Lookup(cfg, k)
    ensures key != "__proto__" && key !in Keys(cfg) ==> Keys(r) == Keys(cfg) + [key]
    ensures key == "__proto__" || key in Keys(cfg) ==> Keys(r) == Keys(cfg)
  {
    if key == "__proto__" then cfg
    else if key in Keys(cfg) then
      var i :| 0 <= i < |cfg| && cfg[i].0 == key;
      var r := cfg[i := (key, value)];
      assert Keys(r) == Keys(cfg);
      LookupUpdated(cfg, i, value);
      r
    else
      var r := cfg + [(key, value)];
      assert r[..|r| - 1] == cfg;
      assert Keys(r) == Keys(cfg) + [key];
      r
  }

  lemma {:induction false} LookupUpdated(cfg: Entries, i: nat, value: string)
    requires UniqueKeys(cfg) && i < |cfg|
    ensures Lookup(cfg[i := (cfg[i].0, value)], cfg[i].0) == Some(value)
    ensures forall k | k != cfg[i].0 :: Lookup(cfg[i := (cfg[i].0, value)], k) == Lookup(cfg, k)
    decreases |cfg|
  {
    var r := cfg[i := (cfg[i].0, value)];
    var n := |cfg| - 1;
    if i < n {
      assert r[..n] == cfg[..n][i := (cfg[i].0, value)];
      assert r[n] == cfg[n];
      LookupUpdated(cfg[..n], i, value);
    } else {
      assert r[..n] == cfg[..n];
      assert cfg[i].0 !in Keys(cfg[..n]);
    }
  }

  /** One line of the file as `loadExistingConfig` reads it: a trimmed key and value, or nothing. */
  function ParseLine(line: string): (r: Option<(string, string)>)
    ensures AllWhiteSpace(line) || (|line| > 0 && line[0] == '#') ==> r.None?
    ensures '=' !in line ==> r.None?
  {
    if Trim(line) == "" || (|line| > 0 && line[0] == '#') then None
    else
      var parts := Split(line, '=');
      if |parts| >= 2 && parts[0] != "" && parts[1] != "" then Some((Trim(parts[0]), Trim(parts[1])))
      else
        assert '=' !in line ==> parts == [line] by {
          if '=' !in line { SplitWithoutSeparator(line, '='); }
        }
        None
  }

  /**
   * A line `a=b` or `a=b=...`: the key is `a` and the value `b`, both
   * trimmed, and the line counts only when both are non-empty before trimming.
   */
  lemma ParseLineOfPair(a: string, b: string, c: string)
    requires '=' !in a && '=' !in b && (c == "" || c[0] == '=')
    requires !AllWhiteSpace(a + "=" + b + c) && (a == "" || a[0] != '#')
    ensures ParseLine(a + "=" + b + c) == if a != "" && b != "" then Some((Trim(a), Trim(b))) else None
  {
    var line := a + "=" + b + c;
    assert line == a + ['='] + (b + c);
    SplitAtFirstSeparator(a, '=', b + c);
    if c == "" {
      assert b + c == b;
      SplitWithoutSeparator(b, '=');
    } else {
      assert b + c == b + ['='] + c[1..];
      SplitAtFirstSeparator(b, '=', c[1..]);
    }
    assert line[0] != '#' by {
      if a == "" { assert line[0] == '='; } else { assert line[0] == a[0]; }
    }
  }

  /** The lines of the file, folded left to right into the configuration object. */
  function LoadLines(cfg: Entries, lines: seq<string>): (r: Entries)
    requires UniqueKeys(cfg)
    ensures UniqueKeys(r)
    decreases |lines|
  {
    if |lines| == 0 then cfg
    else
      var before := LoadLines(cfg, lines[..|lines| - 1]);
      match ParseLine(lines[|lines| - 1])
      case None => before
      case Some(kv) => Put(before, kv.0, kv.1)
  }

  /** `loadExistingConfig()`: a file that cannot be read leaves the object empty. */
  function LoadExistingConfig(file: Option<string>): (r: Entries)
    ensures UniqueKeys(r)
    ensures file.None? ==> r == []
    ensures file.Some? ==> forall k | k != "__proto__" :: Lookup(r, k) == LastValue(Split(file.value, '\n'), k)
  {
    match file
    case None => []
    case Some(text) =>
      LoadLinesLastWinsEverywhere(Split(text, '\n'));
      LoadLines([], Split(text, '\n'))
  }

  /** The value of the last line that parses with key `key`, if any. */
  function LastValue(lines: seq<string>, key: string): Option<string>
    decreases |lines|
  {
    if |lines| == 0 then None
    else
      match ParseLine(lines[|lines| - 1])
      case Some(kv) => if kv.0 == key then Some(kv.1) else LastValue(lines[..|lines| - 1], key)
      case None => LastValue(lines[..|lines| - 1], key)
  }

  /** A later line for the same key overrides an earlier one. */
  lemma {:induction false} LoadLinesLastWins(lines: seq<string>, key: string)
    requires key != "__proto__"
    ensures Lookup(LoadLines([], lines), key) == LastValue(lines, key)
    decreases |lines|
  {
    if |lines| > 0 {
      LoadLinesLastWins(lines[..|lines| - 1], key);
    }
  }

  /** Every key but `__proto__` takes the value of its last line. */
  lemma LoadLinesLastWinsEverywhere(lines: seq<string>)
    ensures forall k | k != "__proto__" :: Lookup(LoadLines([], lines), k) == LastValue(lines, k)
  {
    forall k | k != "__proto__"
      ensures Lookup(LoadLines([], lines), k) == LastValue(lines, k)
    {
      LoadLinesLastWins(lines, k);
    }
  }

  /** A line terminator of JavaScript regular expressions: where `.` stops and `^`, `$` match under `m`. */
  predicate IsLineTerminator(c: char) {
    c == '\n' || c == '\r' || c == '\U{2028}' || c == '\U{2029}'
  }

  /** A key as the wizard writes one: upper-case letters, digits and `_`, so it is also a literal pattern. */
  predicate PlainKey(key: string) {
    |key| > 0 && forall i | 0 <= i < |key| :: 'A' <= key[i] <= 'Z' || '0' <= key[i] <= '9' || key[i] == '_'
  }

  /** `^` under the `m` flag. */
  predicate LineStart(s: string, i: nat)
    requires i <= |s|
  {
    i == 0 || IsLineTerminator(s[i - 1])
  }

  /** A line of `s` starts with `KEY=` at index `i`. */
  predicate KeyLineAt(s: string, key: string, i: nat) {
    i <= |s| && LineStart(s, i) && OccursAt(s, key + "=", i)
  }

  /** The first index at or after `from` where a line starts with `KEY=`. */
  function FindKeyLine(s: string, key: string, from: nat): (r: Option<nat>)
    ensures r.Some? ==> from <= r.value && KeyLineAt(s, key, r.value)
    ensures forall j: nat :: from <= j && KeyLineAt(s, key, j) ==> r.Some? && r.value <= j
    decreases |s| + 1 - from
  {
    if from > |s| then None
    else if KeyLineAt(s, key, from) then Some(from)
    else FindKeyLine(s, key, from + 1)
  }

  /** `.*$` from index `i`: the end of the line `i` lies on. */
  function LineEnd(s: string, i: nat): (e: nat)
    requires i <= |s|
    ensures i <= e <= |s|
    ensures e < |s| ==> IsLineTerminator(s[e])
    ensures forall j | i <= j < e :: !IsLineTerminator(s[j])
    decreases |s| - i
  {
    if i == |s| || IsLineTerminator(s[i]) then i else LineEnd(s, i + 1)
  }

  lemma LineEndUnique(s: string, i: nat, e: nat)
    requires i <= e <= |s|
    requires e < |s| ==> IsLineTerminator(s[e])
    requires forall j | i <= j < e :: !IsLineTerminator(s[j])
    ensures LineEnd(s, i) == e
  {
  }

  /**
   * What the first line for `key` says after `KEY=`, which is the line
   * `saveConfig` rewrites.
   */
  function FirstLineValue(s: string, key: string): Option<string> {
    match FindKeyLine(s, key, 0)
    case None => None
    case Some(i) => Some(s[i + |key| + 1..LineEnd(s, i + |key| + 1)])
  }

  /**
   * One step of `saveConfig`: the first line for `key` becomes
   * `KEY=value`, or `\nKEY=value` is appended when there is none.
   */
  function Upsert(content: string, key: string, value: string): (r: string)
    requires PlainKey(key)
    ensures FindKeyLine(content, key, 0).None? ==> r == content + "\n" + key + "=" + value
    ensures FindKeyLine(content, key, 0).Some? && '$' !in value ==>
      var i := FindKeyLine(content, key, 0).value;
      r == content[..i] + (key + "=" + value) + content[LineEnd(content, i + |key| + 1)..]
  {
    match FindKeyLine(content, key, 0)
    case None => content + "\n" + key + "=" + value
    case Some(i) => ReplaceKeyLine(content, key, value, i)
  }

  /**
   * The replacement branch of `upsert`: the line from the match at `i` to the line's
   * end becomes `KEY=value`, read as a `replace` pattern, so `$` sequences expand.
   */
  function ReplaceKeyLine(content: string, key: string, value: string, i: nat): (r: string)
    requires PlainKey(key) && KeyLineAt(content, key, i)
    ensures '$' !in value ==> r == content[..i] + (key + "=" + value) + content[LineEnd(content, i + |key| + 1)..]
  {
    var e := LineEnd(content, i + |key| + 1);
    var line := key + "=" + value;
    assert '$' !in value ==> '$' !in line by {
      if '$' !in value {
        forall j | 0 <= j < |line| ensures line[j] != '$' {
          if j < |key| { assert line[j] == key[j]; } else if j > |key| { assert line[j] == value[j - |key| - 1]; }
        }
      }
    }
    content[..i] + Expand(line, content[i..e], content[..i], content[e..]) + content[e..]
  }

  /** No character of `KEY=` ends a line. */
  lemma KeyPatternHasNoTerminator(key: string, k: nat)
    requires PlainKey(key) && k < |key| + 1
    ensures !IsLineTerminator((key + "=")[k])
  {
    if k < |key| {
      assert (key + "=")[k] == key[k];
    }
  }

  /**
   * A `KEY=` line start in `r` before index `n` is one in `s` when the two
   * agree below `n` and a line of `r` ends just before or at `n`.
   */
  lemma KeyLinesBelow(s: string, r: string, key: string, n: nat, j: nat)
    requires PlainKey(key) && j < n <= |s| && n <= |r|
    requires r[..n] == s[..n]
    requires IsLineTerminator(r[n - 1]) || (n < |r| && IsLineTerminator(r[n]))
    ensures KeyLineAt(r, key, j) ==> KeyLineAt(s, key, j)
  {
    var m := |key| + 1;
    assert r[j] == r[..n][j] == s[j];
    if j > 0 {
      assert r[j - 1] == r[..n][j - 1] == s[j - 1];
    }
    if j + m <= n {
      var a, b := r[j..j + m], s[j..j + m];
      assert forall k | 0 <= k < m :: a[k] == r[..n][j + k] == b[k];
      assert a == b;
    } else if j + m <= |r| {
      if IsLineTerminator(r[n - 1]) {
        assert r[j..j + m][n - 1 - j] == r[n - 1];
        KeyPatternHasNoTerminator(key, n - 1 - j);
      } else {
        assert r[j..j + m][n - j] == r[n];
        KeyPatternHasNoTerminator(key, n - j);
      }
    }
  }

  /** The first `KEY=` line of `r` starts at `n` and holds `value` up to its end. */
  lemma FirstLineValueAt(r: string, key: string, value: string, n: nat)
    requires KeyLineAt(r, key, n)
    requires forall j: nat | j < n :: !KeyLineAt(r, key, j)
    requires forall j | 0 <= j < |value| :: !IsLineTerminator(value[j])
    requires n + |key| + 1 + |value| <= |r| && r[n + |key| + 1..n + |key| + 1 + |value|] == value
    requires n + |key| + 1 + |value| < |r| ==> IsLineTerminator(r[n + |key| + 1 + |value|])
    ensures FirstLineValue(r, key) == Some(value)
  {
    var p := n + |key| + 1;
    assert FindKeyLine(r, key, 0) == Some(n);
    forall j | p <= j < p + |value|
      ensures !IsLineTerminator(r[j])
    {
      assert r[j] == r[p..p + |value|][j - p];
    }
    LineEndUnique(r, p, p + |value|);
  }

  /** Read-back when the file had no line for the key and the line was appended. */
  lemma AppendReadBack(content: string, key: string, value: string)
    requires PlainKey(key)
    requires forall j | 0 <= j < |value| :: !IsLineTerminator(value[j])
    requires FindKeyLine(content, key, 0).None?
    ensures FirstLineValue(content + "\n" + key + "=" + value, key) == Some(value)
  {
    var r := content + "\n" + key + "=" + value;
    var m := |key| + 1;
    var n := |content| + 1;
    assert r[n - 1] == '\n';
    assert r[..n - 1] == content;
    assert r[n..n + m] == key + "=";
    forall j: nat | j < n
      ensures !KeyLineAt(r, key, j)
    {
      if j < n - 1 {
        KeyLinesBelow(content, r, key, n - 1, j);
      } else if j + m <= |r| {
        assert r[j..j + m][0] == r[n - 1];
        KeyPatternHasNoTerminator(key, 0);
      }
    }
    assert r[n + m..] == value;
    FirstLineValueAt(r, key, value, n);
  }

  /** Where the pieces of `head + pat + value + tail` sit. */
  lemma Pieces(head: string, pat: string, value: string, tail: string)
    ensures var r := head + pat + value + tail;
      && r[|head|..|head| + |pat|] == pat
      && r[|head| + |pat|..|head| + |pat| + |value|] == value
      && r[..|head|] == head
      && (|tail| > 0 ==> r[|head| + |pat| + |value|] == tail[0])
  {
    var r := head + pat + value + tail;
    assert r == head + (pat + (value + tail));
  }

  /** Read-back when the key's first line, at `i`, is rewritten in place and `tail` ends the line. */
  lemma ReplaceReadBackAt(content: string, key: string, value: string, i: nat, tail: string)
    requires PlainKey(key) && i <= |content|
    requires forall j | 0 <= j < |value| :: !IsLineTerminator(value[j])
    requires i > 0 ==> IsLineTerminator(content[i - 1])
    requires forall j: nat | j < i :: !KeyLineAt(content, key, j)
    requires tail == "" || IsLineTerminator(tail[0])
    ensures FirstLineValue(content[..i] + (key + "=") + value + tail, key) == Some(value)
  {
    var head := content[..i];
    var pat := key + "=";
    var r := head + pat + value + tail;
    Pieces(head, pat, value, tail);
    forall j: nat | j < i
      ensures !KeyLineAt(r, key, j)
    {
      KeyLinesBelow(content, r, key, i, j);
    }
    FirstLineValueAt(r, key, value, i);
  }

  lemma Associate(a: string, b: string, c: string)
    ensures a + b + c == a + (b + c)
  {
  }

  /** `a + (b + c) + d` read as `a + b + c + d`. */
  lemma Regroup(a: string, b: string, c: string, d: string)
    ensures a + (b + c) + d == a + b + c + d
  {
  }

  /** Read-back when the key's first line was rewritten in place. */
  lemma ReplaceReadBack(content: string, key: string, value: string, i: nat)
    requires PlainKey(key)
    requires forall j | 0 <= j < |value| :: !IsLineTerminator(value[j])
    requires FindKeyLine(content, key, 0) == Some(i)
    ensures FirstLineValue(content[..i] + (key + "=" + value) + content[LineEnd(content, i + |key| + 1)..], key)
      == Some(value)
  {
    var tail := content[LineEnd(content, i + |key| + 1)..];
    Regroup(content[..i], key + "=", value, tail);
    ReplaceReadBackAt(content, key, value, i, tail);
  }

  /** Writing a value without `$` and without line breaks, then reading the key's first line, gives the value back. */
  lemma UpsertReadBack(content: string, key: string, value: string)
    requires PlainKey(key) && '$' !in value
    requires forall j | 0 <= j < |value| :: !IsLineTerminator(value[j])
    ensures FirstLineValue(Upsert(content, key, value), key) == Some(value)
  {
    var found := FindKeyLine(content, key, 0);
    if found.None? {
      AppendedReadBack(content, key, value);
    } else {
      ReplacedReadBack(content, key, value, found.value);
    }
  }

  lemma AppendedReadBack(content: string, key: string, value: string)
    requires PlainKey(key) && FindKeyLine(content, key, 0).None?
    requires forall j | 0 <= j < |value| :: !IsLineTerminator(value[j])
    ensures FirstLineValue(Upsert(content, key, value), key) == Some(value)
  {
    AppendReadBack(content, key, value);
  }

  lemma ReplacedReadBack(content: string, key: string, value: string, i: nat)
    requires PlainKey(key) && '$' !in value && FindKeyLine(content, key, 0) == Some(i)
    requires forall j | 0 <= j < |value| :: !IsLineTerminator(value[j])
    ensures FirstLineValue(Upsert(content, key, value), key) == Some(value)
  {
    var x := content[..i] + (key + "=" + value) + content[LineEnd(content, i + |key| + 1)..];
    UpsertReplaces(content, key, value, i);
    assert Upsert(content, key, value) == x;
    ReplaceReadBack(content, key, value, i);
    assert FirstLineValue(x, key) == Some(value);
  }

  /** What the first `KEY=` line says, when it starts at `j`. */
  lemma FirstLineValueFound(s: string, key: string, j: nat, q: nat)
    requires FindKeyLine(s, key, 0) == Some(j) && q == j + |key| + 1
    ensures FirstLineValue(s, key) == Some(s[q..LineEnd(s, q)])
  {
  }

  /** A `KEY=` line of `p + [c] + z` starting at or before the terminator `c` is one of `p`. */
  lemma KeyLineInHead(p: string, c: char, z: string, key: string, j: nat)
    requires PlainKey(key) && IsLineTerminator(c) && j <= |p|
    ensures KeyLineAt(p + [c] + z, key, j) <==> KeyLineAt(p, key, j)
  {
    var s := p + [c] + z;
    var m := |key| + 1;
    if j > 0 {
      assert s[j - 1] == p[j - 1];
    }
    if j + m <= |p| {
      assert s[j..j + m] == p[j..j + m];
    } else if OccursAt(s, key + "=", j) {
      assert s[j..j + m][|p| - j] == s[|p|] == c;
      KeyPatternHasNoTerminator(key, |p| - j);
    }
  }

  /** A `KEY=` line of `p + [c] + z` starting after the terminator `c` is one of `z`, moved. */
  lemma KeyLineInTail(p: string, c: char, z: string, key: string, t: nat)
    requires IsLineTerminator(c)
    ensures KeyLineAt(p + [c] + z, key, |p| + 1 + t) <==> KeyLineAt(z, key, t)
  {
    var s := p + [c] + z;
    var n := |p| + 1;
    assert s[n - 1] == c;
    if t > 0 && t <= |z| {
      assert s[n + t - 1] == z[t - 1];
    }
    if t + |key| + 1 <= |z| {
      assert s[n + t..n + t + |key| + 1] == z[t..t + |key| + 1];
    }
  }

  /** A line of `p + [c] + z` that starts in `p` ends where it ends in `p`, at the latest at `c`. */
  lemma LineEndBefore(p: string, c: char, z: string, q: nat)
    requires IsLineTerminator(c) && q <= |p|
    ensures LineEnd(p + [c] + z, q) == LineEnd(p, q)
  {
    var s := p + [c] + z;
    var e := LineEnd(p, q);
    assert e < |p| ==> s[e] == p[e];
    assert s[|p|] == c;
    assert forall j | q <= j < e :: s[j] == p[j];
    LineEndUnique(s, q, e);
  }

  /** A line of `p + [c] + z` that starts past `c` ends where it ends in `z`, moved. */
  lemma LineEndPast(p: string, c: char, z: string, q: nat)
    requires q <= |z|
    ensures LineEnd(p + [c] + z, |p| + 1 + q) == |p| + 1 + LineEnd(z, q)
  {
    var s := p + [c] + z;
    var n := |p| + 1;
    var e := LineEnd(z, q);
    assert forall j | n + q <= j < n + e :: s[j] == z[j - n];
    assert n + e < |s| ==> s[n + e] == z[e];
    LineEndUnique(s, n + q, n + e);
  }

  /** Searching `p + [c] + z` from inside `p` finds the line `p` has, or goes on past `c`. */
  lemma {:induction false} FindKeyLineInHead(p: string, c: char, z: string, key: string, from: nat)
    requires PlainKey(key) && IsLineTerminator(c) && from <= |p| + 1
    ensures FindKeyLine(p + [c] + z, key, from) ==
      if FindKeyLine(p, key, from).Some? then FindKeyLine(p, key, from) else FindKeyLine(p + [c] + z, key, |p| + 1)
    decreases |p| + 1 - from
  {
    if from <= |p| {
      KeyLineInHead(p, c, z, key, from);
      FindKeyLineInHead(p, c, z, key, from + 1);
    }
  }

  /** Searching `p + [c] + z` past `c` finds the line `z` has, moved. */
  lemma {:induction false} FindKeyLineInTail(p: string, c: char, z: string, key: string, t: nat)
    requires IsLineTerminator(c) && t <= |z| + 1
    ensures FindKeyLine(p + [c] + z, key, |p| + 1 + t) ==
      match FindKeyLine(z, key, t)
      case Some(u) => Some(|p| + 1 + u)
      case None => None
    decreases |z| + 1 - t
  {
    if t <= |z| {
      KeyLineInTail(p, c, z, key, t);
      FindKeyLineInTail(p, c, z, key, t + 1);
    }
  }

  /** The first `KEY=` line of `p`, found before the terminator `c`, says the same in `p + [c] + z`. */
  lemma FirstLineValueKept(p: string, c: char, z: string, key: string, j: nat)
    requires IsLineTerminator(c)
    requires FindKeyLine(p, key, 0) == Some(j) && FindKeyLine(p + [c] + z, key, 0) == Some(j)
    ensures FirstLineValue(p + [c] + z, key) == FirstLineValue(p, key)
  {
    var s := p + [c] + z;
    var q := j + |key| + 1;
    FirstLineValueFound(s, key, j, q);
    FirstLineValueFound(p, key, j, q);
    LineEndBefore(p, c, z, q);
    SliceOfHead(p, c, z, q, LineEnd(p, q));
  }

  lemma SliceOfHead(p: string, c: char, z: string, a: nat, b: nat)
    requires a <= b <= |p|
    ensures (p + [c] + z)[a..b] == p[a..b]
  {
    var s := p + [c] + z;
    assert s[..|p|] == p;
  }

  /** A `KEY=` line before the terminator `c` is the first one of `p + [c] + z` when it is the first of `p`. */
  lemma FirstLineValueBefore(p: string, c: char, z: string, key: string, j: nat)
    requires PlainKey(key) && IsLineTerminator(c) && FindKeyLine(p, key, 0) == Some(j)
    ensures FirstLineValue(p + [c] + z, key) == FirstLineValue(p, key)
  {
    FindKeyLineInHead(p, c, z, key, 0);
    FirstLineValueKept(p, c, z, key, j);
  }

  /** The first `KEY=` line of `z`, found past the terminator `c`, says the same in `p + [c] + z`. */
  lemma FirstLineValueMoved(p: string, c: char, z: string, key: string, t: nat)
    requires IsLineTerminator(c)
    requires FindKeyLine(z, key, 0) == Some(t) && FindKeyLine(p + [c] + z, key, 0) == Some(|p| + 1 + t)
    ensures FirstLineValue(p + [c] + z, key) == FirstLineValue(z, key)
  {
    var s := p + [c] + z;
    var q := t + |key| + 1;
    FirstLineValueFound(s, key, |p| + 1 + t, |p| + 1 + q);
    FirstLineValueFound(z, key, t, q);
    LineEndPast(p, c, z, q);
    SliceOfTail(p, c, z, q, LineEnd(z, q));
  }

  lemma SliceOfTail(p: string, c: char, z: string, a: nat, b: nat)
    requires a <= b <= |z|
    ensures (p + [c] + z)[|p| + 1 + a..|p| + 1 + b] == z[a..b]
  {
    var s := p + [c] + z;
    assert s[|p| + 1..] == z;
  }

  /** With no `KEY=` line before the terminator `c`, the first one of `p + [c] + z` is the first of `z`. */
  lemma FirstLineValueAfter(p: string, c: char, z: string, key: string)
    requires PlainKey(key) && IsLineTerminator(c) && FindKeyLine(p, key, 0).None?
    ensures FirstLineValue(p + [c] + z, key) == FirstLineValue(z, key)
  {
    FindKeyLineInHead(p, c, z, key, 0);
    FindKeyLineInTail(p, c, z, key, 0);
    if FindKeyLine(z, key, 0).Some? {
      FirstLineValueMoved(p, c, z, key, FindKeyLine(z, key, 0).value);
    }
  }

  /**
   * Around a line terminator, the first `KEY=` line is the first one before
   * it, or when there is none, the first one after it.
   */
  lemma FirstLineValueAround(p: string, c: char, z: string, key: string)
    requires PlainKey(key) && IsLineTerminator(c)
    ensures FirstLineValue(p + [c] + z, key) ==
      if FindKeyLine(p, key, 0).Some? then FirstLineValue(p, key) else FirstLineValue(z, key)
  {
    var found := FindKeyLine(p, key, 0);
    if found.Some? {
      FirstLineValueBefore(p, c, z, key, found.value);
    } else {
      FirstLineValueAfter(p, c, z, key);
    }
  }

  /** Two plain keys that both start a line at the same index are the same key. */
  lemma DistinctKeyPatterns(s: string, key: string, other: string, j: nat)
    requires PlainKey(key) && PlainKey(other)
    ensures OccursAt(s, key + "=", j) && OccursAt(s, other + "=", j) ==> key == other
  {
    if OccursAt(s, key + "=", j) && OccursAt(s, other + "=", j) {
      var a, b := key + "=", other + "=";
      var k := if |key| < |other| then |key| else |other|;
      assert a[k] == s[j..j + |a|][k] == s[j + k] == s[j..j + |b|][k] == b[k];
      assert |key| == |other|;
      assert a == s[j..j + |a|] == b;
      assert key == a[..|key|] == b[..|other|] == other;
    }
  }

  /** One line without its terminator that does not start with `KEY=` holds no `KEY=` line. */
  lemma NoKeyLineInOneLine(u: string, key: string)
    requires PlainKey(key) && !OccursAt(u, key + "=", 0)
    requires forall j | 0 <= j < |u| :: !IsLineTerminator(u[j])
    ensures FirstLineValue(u, key).None?
  {
  }

  /**
   * Rewriting the line `KEY=...` that starts a text, with `tail` after it,
   * leaves what the first `OTHER=` line says, for another key.
   */
  lemma OtherKeyPastLine(line: string, tail: string, key: string, other: string)
    requires PlainKey(key) && PlainKey(other) && key != other
    requires OccursAt(line, key + "=", 0)
    requires forall j | 0 <= j < |line| :: !IsLineTerminator(line[j])
    requires tail == "" || IsLineTerminator(tail[0])
    ensures FirstLineValue(line + tail, other) == if tail == "" then None else FirstLineValue(tail[1..], other)
  {
    DistinctKeyPatterns(line, key, other, 0);
    NoKeyLineInOneLine(line, other);
    if tail == "" {
      assert line + tail == line;
    } else {
      assert line + tail == line + [tail[0]] + tail[1..];
      FirstLineValueAround(line, tail[0], tail[1..], other);
    }
  }

  /** Each character of `KEY=value` belongs to the key, the `=` or the value. */
  lemma PairLineHasNoTerminator(key: string, value: string)
    requires PlainKey(key)
    requires forall j | 0 <= j < |value| :: !IsLineTerminator(value[j])
    ensures OccursAt(key + "=" + value, key + "=", 0)
    ensures forall j | 0 <= j < |key + "=" + value| :: !IsLineTerminator((key + "=" + value)[j])
  {
    var line := key + "=" + value;
    assert line[..|key| + 1] == key + "=";
    forall j | 0 <= j < |line|
      ensures !IsLineTerminator(line[j])
    {
      if j <= |key| {
        assert line[j] == (key + "=")[j];
        KeyPatternHasNoTerminator(key, j);
      } else {
        assert line[j] == value[j - |key| - 1];
      }
    }
  }

  /** Appending a line for `key` leaves what the first line for any other key says. */
  lemma AppendKeepsOther(content: string, key: string, value: string, other: string)
    requires PlainKey(key) && PlainKey(other) && key != other
    requires forall j | 0 <= j < |value| :: !IsLineTerminator(value[j])
    ensures FirstLineValue(content + "\n" + key + "=" + value, other) == FirstLineValue(content, other)
  {
    var line := key + "=" + value;
    assert content + "\n" + key + "=" + value == content + ['\n'] + line;
    PairLineHasNoTerminator(key, value);
    DistinctKeyPatterns(line, key, other, 0);
    NoKeyLineInOneLine(line, other);
    FirstLineValueAround(content, '\n', line, other);
  }

  /** Text after a common head that ends a line says the same for `key` when the texts after it do. */
  lemma SameAfterHead(head: string, x: string, y: string, key: string)
    requires PlainKey(key) && (head == "" || IsLineTerminator(head[|head| - 1]))
    requires FirstLineValue(x, key) == FirstLineValue(y, key)
    ensures FirstLineValue(head + x, key) == FirstLineValue(head + y, key)
  {
    if head == "" {
      assert head + x == x && head + y == y;
    } else {
      var h := head[..|head| - 1];
      var c := head[|head| - 1];
      assert head == h + [c];
      assert head + x == h + [c] + x && head + y == h + [c] + y;
      FirstLineValueAround(h, c, x, key);
      FirstLineValueAround(h, c, y, key);
    }
  }

  /** The line for `key` from `i` to its end `e` starts with `KEY=`. */
  lemma KeyLineOpens(content: string, key: string, i: nat, e: nat)
    requires KeyLineAt(content, key, i) && i + |key| + 1 <= e <= |content|
    ensures OccursAt(content[i..e], key + "=", 0)
  {
    assert content[i..e][..|key| + 1] == content[i..i + |key| + 1];
  }

  /** The line for `key` from `i` to its end `e` holds no line terminator. */
  lemma KeyLineUnbroken(content: string, key: string, i: nat, e: nat)
    requires PlainKey(key) && KeyLineAt(content, key, i) && e == LineEnd(content, i + |key| + 1)
    ensures forall j | 0 <= j < |content[i..e]| :: !IsLineTerminator(content[i..e][j])
  {
    var was := content[i..e];
    forall j | 0 <= j < |was|
      ensures !IsLineTerminator(was[j])
    {
      if j <= |key| {
        assert was[j] == content[i..i + |key| + 1][j] == (key + "=")[j];
        KeyPatternHasNoTerminator(key, j);
      } else {
        assert was[j] == content[i + j];
      }
    }
  }

  /** The first line for `key`, from `i` to its end `e`: `KEY=...` with no terminator, then the rest of the text. */
  lemma KeyLinePieces(content: string, key: string, i: nat, e: nat)
    requires PlainKey(key) && KeyLineAt(content, key, i) && e == LineEnd(content, i + |key| + 1)
    ensures i <= e <= |content|
    ensures OccursAt(content[i..e], key + "=", 0)
    ensures forall j | 0 <= j < |content[i..e]| :: !IsLineTerminator(content[i..e][j])
    ensures content[e..] == "" || IsLineTerminator(content[e..][0])
    ensures content[..i] == "" || IsLineTerminator(content[..i][i - 1])
    ensures content == content[..i] + (content[i..e] + content[e..])
  {
    KeyLineOpens(content, key, i, e);
    KeyLineUnbroken(content, key, i, e);
    assert e < |content| ==> content[e..][0] == content[e];
    assert i > 0 ==> content[..i][i - 1] == content[i - 1];
    ThreePieces(content, i, e);
  }

  lemma ThreePieces(s: string, i: nat, e: nat)
    requires i <= e <= |s|
    ensures s == s[..i] + (s[i..e] + s[e..])
  {
    assert s[i..] == s[i..e] + s[e..];
  }

  /** The in-place case of an upsert, for a value without `$`. */
  lemma UpsertReplaces(content: string, key: string, value: string, i: nat)
    requires PlainKey(key) && '$' !in value && FindKeyLine(content, key, 0) == Some(i)
    ensures Upsert(content, key, value)
      == content[..i] + (key + "=" + value) + content[LineEnd(content, i + |key| + 1)..]
  {
    assert Upsert(content, key, value) == ReplaceKeyLine(content, key, value, i);
  }

  /**
   * Rewriting the first line for `key`, which starts at `i` and ends at `e`,
   * leaves what the first line for any other key says.
   */
  lemma ReplaceKeepsOther(content: string, key: string, value: string, other: string, i: nat, e: nat)
    requires PlainKey(key) && PlainKey(other) && key != other
    requires forall j | 0 <= j < |value| :: !IsLineTerminator(value[j])
    requires KeyLineAt(content, key, i) && e == LineEnd(content, i + |key| + 1)
    ensures FirstLineValue(content[..i] + (key + "=" + value) + content[e..], other)
      == FirstLineValue(content, other)
  {
    Associate(content[..i], key + "=" + value, content[e..]);
    KeyLinePieces(content, key, i, e);
    PairLineHasNoTerminator(key, value);
    OtherKeyPastLine(content[i..e], content[e..], key, other);
    OtherKeyPastLine(key + "=" + value, content[e..], key, other);
    SameAfterHead(content[..i], content[i..e] + content[e..], (key + "=" + value) + content[e..], other);
  }

  /** An upsert for `key` leaves what the first line for any other key says. */
  lemma UpsertKeepsOther(content: string, key: string, value: string, other: string)
    requires PlainKey(key) && PlainKey(other) && key != other && '$' !in value
    requires forall j | 0 <= j < |value| :: !IsLineTerminator(value[j])
    ensures FirstLineValue(Upsert(content, key, value), other) == FirstLineValue(content, other)
  {
    var found := FindKeyLine(content, key, 0);
    if found.None? {
      AppendKeepsOther(content, key, value, other);
    } else {
      var i := found.value;
      var e := LineEnd(content, i + |key| + 1);
      var x := content[..i] + (key + "=" + value) + content[e..];
      UpsertReplaces(content, key, value, i);
      assert Upsert(content, key, value) == x;
      ReplaceKeepsOther(content, key, value, other, i, e);
      assert FirstLineValue(x, other) == FirstLineValue(content, other);
    }
  }

  /** `saveConfig()`: every entry written in turn over the file's text. */
  function SaveConfig(content: string, cfg: Entries): (r: string)
    requires forall i | 0 <= i < |cfg| :: PlainKey(cfg[i].0)
    decreases |cfg|
  {
    if |cfg| == 0 then content
    else SaveConfig(Upsert(content, cfg[0].0, cfg[0].1), cfg[1..])
  }

  /** Writing one more entry is one more upsert over what the others wrote. */
  lemma {:induction false} SaveConfigSnoc(content: string, cfg: Entries, key: string, value: string)
    requires forall i | 0 <= i < |cfg| :: PlainKey(cfg[i].0)
    requires PlainKey(key)
    ensures SaveConfig(content, cfg + [(key, value)]) == Upsert(SaveConfig(content, cfg), key, value)
    decreases |cfg|
  {
    if |cfg| == 0 {
      assert cfg + [(key, value)] == [(key, value)];
    } else {
      assert (cfg + [(key, value)])[1..] == cfg[1..] + [(key, value)];
      SaveConfigSnoc(Upsert(content, cfg[0].0, cfg[0].1), cfg[1..], key, value);
    }
  }

  /** The entry written last reads back from the saved text. */
  lemma SaveConfigLastReadBack(content: string, cfg: Entries, key: string, value: string)
    requires forall i | 0 <= i < |cfg| :: PlainKey(cfg[i].0)
    requires PlainKey(key) && '$' !in value
    requires forall j | 0 <= j < |value| :: !IsLineTerminator(value[j])
    ensures FirstLineValue(SaveConfig(content, cfg + [(key, value)]), key) == Some(value)
  {
    SaveConfigSnoc(content, cfg, key, value);
    UpsertReadBack(SaveConfig(content, cfg), key, value);
  }

  /**
   * After saving, every entry reads back from the first line for its key,
   * when the keys are distinct and no value holds `$` or a line break.
   */
  lemma {:induction false} SaveConfigReadBack(content: string, cfg: Entries)
    requires UniqueKeys(cfg)
    requires forall i | 0 <= i < |cfg| :: PlainKey(cfg[i].0) && '$' !in cfg[i].1
    requires forall i, j | 0 <= i < |cfg| && 0 <= j < |cfg[i].1| :: !IsLineTerminator(cfg[i].1[j])
    ensures forall i | 0 <= i < |cfg| :: FirstLineValue(SaveConfig(content, cfg), cfg[i].0) == Some(cfg[i].1)
    decreases |cfg|
  {
    if |cfg| > 0 {
      var init := cfg[..|cfg| - 1];
      var (key, value) := cfg[|cfg| - 1];
      assert init + [(key, value)] == cfg;
      SaveConfigReadBack(content, init);
      SaveConfigSnoc(content, init, key, value);
      var before := SaveConfig(content, init);
      forall i | 0 <= i < |cfg|
        ensures FirstLineValue(SaveConfig(content, cfg), cfg[i].0) == Some(cfg[i].1)
      {
        if i < |init| {
          assert cfg[i] == init[i];
          UpsertKeepsOther(before, key, value, cfg[i].0);
        } else {
          UpsertReadBack(before, key, value);
        }
      }
    }
  }

  /** A key `showCurrentConfig` hides. */
  predicate Secret(key: string) {
    Contains(key, "KEY") || Contains(key, "SECRET")
  }

  const Mask: string := "********"

  /** `showCurrentConfig()`: one line per entry, in order, with secrets masked. */
  function ShowConfig(cfg: Entries): (lines: seq<string>)
    ensures |lines| == |cfg|
    ensures forall i | 0 <= i < |cfg| ::
      |lines[i]| == |cfg[i].0| + 5 + (if Secret(cfg[i].0) then 8 else |cfg[i].1|) &&
      lines[i][..|cfg[i].0| + 5] == "   " + cfg[i].0 + ": "
    ensures forall i | 0 <= i < |cfg| && !Secret(cfg[i].0) :: lines[i][|cfg[i].0| + 5..] == cfg[i].1
    ensures forall i | 0 <= i < |cfg| && Secret(cfg[i].0) ::
      forall j | |cfg[i].0| + 5 <= j < |lines[i]| :: lines[i][j] == '*'
  {
    seq(|cfg|, i requires 0 <= i < |cfg| => ShowLine(cfg[i].0, cfg[i].1))
  }

  /** One listed entry: three spaces, the key, `: `, then the value or the mask. */
  function ShowLine(key: string, value: string): (line: string)
    ensures |line| == |key| + 5 + (if Secret(key) then 8 else |value|)
    ensures line[..|key| + 5] == "   " + key + ": "
    ensures !Secret(key) ==> line[|key| + 5..] == value
    ensures Secret(key) ==> line[|key| + 5..] == Mask
  {
    var head := "   " + key + ": ";
    var tail := if Secret(key) then Mask else value;
    assert (head + tail)[..|head|] == head && (head + tail)[|head|..] == tail;
    head + tail
  }

  /** The listing reveals nothing of a secret's value: configurations that differ only there list the same. */
  lemma ShowConfigHidesSecrets(a: Entries, b: Entries)
    requires |a| == |b|
    requires forall i | 0 <= i < |a| :: a[i].0 == b[i].0 && (!Secret(a[i].0) ==> a[i].1 == b[i].1)
    ensures ShowConfig(a) == ShowConfig(b)
  {
  }

  /**
   * The listing shows every other value: for the same keys, two
   * configurations list the same exactly when their values agree wherever
   * the key is not secret.
   */
  lemma ShowConfigShowsPlainValues(a: Entries, b: Entries)
    requires |a| == |b| && forall i | 0 <= i < |a| :: a[i].0 == b[i].0
    ensures ShowConfig(a) == ShowConfig(b) <==> forall i | 0 <= i < |a| && !Secret(a[i].0) :: a[i].1 == b[i].1
  {
    if ShowConfig(a) == ShowConfig(b) {
      forall i | 0 <= i < |a| && !Secret(a[i].0)
        ensures a[i].1 == b[i].1
      {
        assert ShowConfig(a)[i] == ShowConfig(b)[i];
      }
    } else if forall i | 0 <= i < |a| && !Secret(a[i].0) :: a[i].1 == b[i].1 {
      ShowConfigHidesSecrets(a, b);
    }
  }
}
