/**
 * Character classes, trimming, ASCII case folding, substring search and
 * Windows-path helpers shared by the three implementations.
 * Case folding is ASCII-only: the model does not follow culture rules.
 */
module Text {
  import opened Wrappers

  /** char.IsWhiteSpace in .NET; also the class the .NET regex `\s` matches. */
  predicate IsDotNetSpace(c: char) {
    ('\t' <= c <= '\r') || c == ' ' || c == '\U{0085}' || c == '\U{00A0}' || c == '\U{1680}'
    || ('\U{2000}' <= c <= '\U{200A}') || c == '\U{2028}' || c == '\U{2029}'
    || c == '\U{202F}' || c == '\U{205F}' || c == '\U{3000}'
  }

  /** str.isspace in Python: the .NET set plus the four information separators. */
  predicate IsPySpace(c: char) {
    IsDotNetSpace(c) || ('\U{001C}' <= c <= '\U{001F}')
  }

  /** isspace in the "C" locale, and the white space NumberStyles.Integer allows around a number. */
  predicate IsAsciiSpace(c: char) {
    ('\t' <= c <= '\r') || c == ' '
  }

  /** The separators shlex.split breaks words at (shlex.whitespace). */
  predicate IsShlexSpace(c: char) {
    c == ' ' || c == '\t' || c == '\r' || c == '\n'
  }

  function TrimStart(s: string, ws: char -> bool): (r: string)
    ensures |r| <= |s|
  {
    if s != [] && ws(s[0]) then TrimStart(s[1..], ws) else s
  }

  /** TrimStart removes a run of white space from the front and stops at the first other char. */
  lemma {:induction false} TrimStartFacts(s: string, ws: char -> bool)
    ensures var r := TrimStart(s, ws);
      r == s[|s| - |r|..] && (r == [] || !ws(r[0])) && forall i :: 0 <= i < |s| - |r| ==> ws(s[i])
  {
    if s != [] && ws(s[0]) {
      TrimStartFacts(s[1..], ws);
    }
  }

  function TrimEnd(s: string, ws: char -> bool): (r: string)
    ensures |r| <= |s|
  {
    if s != [] && ws(s[|s| - 1]) then TrimEnd(s[..|s| - 1], ws) else s
  }

  /** TrimEnd removes a run of white space from the back and stops at the last other char. */
  lemma {:induction false} TrimEndFacts(s: string, ws: char -> bool)
    ensures var r := TrimEnd(s, ws);
      r == s[..|r|] && (r == [] || !ws(r[|r| - 1])) && forall i :: |r| <= i < |s| ==> ws(s[i])
  {
    if s != [] && ws(s[|s| - 1]) {
      TrimEndFacts(s[..|s| - 1], ws);
    }
  }

  function TrimWith(s: string, ws: char -> bool): string {
    TrimEnd(TrimStart(s, ws), ws)
  }

  /** String.Trim() in .NET. */
  function Trim(s: string): string {
    TrimWith(s, IsDotNetSpace)
  }

  /** str.strip() in Python. */
  function Strip(s: string): string {
    TrimWith(s, IsPySpace)
  }

  /** string.IsNullOrWhiteSpace for a non-null string. */
  predicate IsBlank(s: string) {
    forall i :: 0 <= i < |s| ==> IsDotNetSpace(s[i])
  }

  /** A string whose ends are not white space is its own trim. */
  lemma TrimWithFixed(s: string, ws: char -> bool)
    requires s == [] || (!ws(s[0]) && !ws(s[|s| - 1]))
    ensures TrimWith(s, ws) == s
  {
  }

  /** Trimming a trimmed string changes nothing. */
  lemma TrimWithIdempotent(s: string, ws: char -> bool)
    ensures TrimWith(TrimWith(s, ws), ws) == TrimWith(s, ws)
  {
    var t := TrimStart(s, ws);
    TrimStartFacts(s, ws);
    TrimEndFacts(t, ws);
    var r := TrimEnd(t, ws);
    if r != [] {
      assert r[0] == t[0];
    }
    TrimWithFixed(r, ws);
  }

  /** Trimming leaves nothing exactly when the string is blank. */
  lemma TrimEmptyIffBlank(s: string)
    ensures Trim(s) == [] <==> IsBlank(s)
  {
    var t := TrimStart(s, IsDotNetSpace);
    TrimStartFacts(s, IsDotNetSpace);
    TrimEndFacts(t, IsDotNetSpace);
    if t == [] {
      assert forall i :: 0 <= i < |s| ==> IsDotNetSpace(s[i]);
    } else {
      assert !IsDotNetSpace(t[0]);
      assert Trim(s) != [];
      assert s[|s| - |t|] == t[0];
    }
  }

  function LowerChar(c: char): char {
    if 'A' <= c <= 'Z' then ((c as int) + 32) as char else c
  }

  /** ASCII lower-casing: ToLower(), str.lower() and the folding of _wcsicmp, restricted to A-Z. */
  function Lower(s: string): (r: string)
    ensures |r| == |s|
  {
    seq(|s|, i requires 0 <= i < |s| => LowerChar(s[i]))
  }

  lemma LowerConcat(a: string, b: string)
    ensures Lower(a + b) == Lower(a) + Lower(b)
  {
  }

  predicate EqualsIgnoreCase(a: string, b: string) {
    Lower(a) == Lower(b)
  }

  predicate StartsWith(s: string, prefix: string) {
    |prefix| <= |s| && s[..|prefix|] == prefix
  }

  predicate EndsWith(s: string, suffix: string) {
    |suffix| <= |s| && s[|s| - |suffix|..] == suffix
  }

  predicate OccursAt(s: string, sub: string, i: int) {
    0 <= i && i + |sub| <= |s| && s[i..i + |sub|] == sub
  }

  /** Python's `sub in s` and C#'s s.Contains(sub), as ordinal substring search. */
  predicate Contains(s: string, sub: string) {
    exists i | 0 <= i <= |s| - |sub| :: OccursAt(s, sub, i)
  }

  lemma ContainsMiddle(a: string, b: string, c: string)
    ensures Contains(a + b + c, b)
  {
    assert OccursAt(a + b + c, b, |a|);
  }

  lemma EmptyContained(s: string)
    ensures Contains(s, "")
  {
    assert OccursAt(s, "", 0);
  }

  /** The first position of c in s. */
  function IndexOf(s: string, c: char): (r: Option<nat>)
    ensures r.None? <==> c !in s
    ensures r.Some? ==> r.value < |s| && s[r.value] == c && c !in s[..r.value]
  {
    if s == [] then None
    else if s[0] == c then Some(0)
    else match IndexOf(s[1..], c)
      case None => None
      case Some(k) => assert s[1..][..k] == s[1..k + 1]; Some(k + 1)
  }

  lemma {:induction false} IndexOfAfter(p: string, c: char, rest: string)
    requires c !in p
    ensures IndexOf(p + [c] + rest, c) == Some(|p|)
  {
    if p != [] {
      IndexOfAfter(p[1..], c, rest);
      assert (p + [c] + rest)[1..] == p[1..] + [c] + rest;
    }
  }

  /** The last position of a char satisfying p. */
  function LastIndexWhere(s: string, p: char -> bool): (r: Option<nat>)
    ensures r.None? <==> forall i :: 0 <= i < |s| ==> !p(s[i])
    ensures r.Some? ==> r.value < |s| && p(s[r.value]) && forall i :: r.value < i < |s| ==> !p(s[i])
  {
    if s == [] then None
    else if p(s[|s| - 1]) then Some(|s| - 1)
    else LastIndexWhere(s[..|s| - 1], p)
  }

  /** `sep.join(parts)` in Python. */
  function Join(sep: string, parts: seq<string>): string
    decreases |parts|
  {
    if parts == [] then ""
    else if |parts| == 1 then parts[0]
    else parts[0] + sep + Join(sep, parts[1..])
  }

  /** `s.replace(a, b)` for single characters. */
  function ReplaceChar(s: string, a: char, b: char): (r: string)
    ensures |r| == |s|
    ensures forall i :: 0 <= i < |s| ==> r[i] == if s[i] == a then b else s[i]
  {
    seq(|s|, i requires 0 <= i < |s| => if s[i] == a then b else s[i])
  }

  /** The longest prefix of s containing no shlex separator. */
  function TakeWord(s: string): (w: string)
    ensures |w| <= |s| && w == s[..|w|]
    ensures forall i :: 0 <= i < |w| ==> !IsShlexSpace(w[i])
    ensures |w| < |s| ==> IsShlexSpace(s[|w|])
  {
    if s == [] || IsShlexSpace(s[0]) then ""
    else
      var w := TakeWord(s[1..]);
      assert s == [s[0]] + s[1..];
      [s[0]] + w
  }

  /** shlex.split for input without quotes or escapes: the maximal runs of non-separators. */
  function Words(s: string): (r: seq<string>)
    ensures forall k :: 0 <= k < |r| ==> r[k] != [] && forall i :: 0 <= i < |r[k]| ==> !IsShlexSpace(r[k][i])
    decreases |s|
  {
    var t := TrimStart(s, IsShlexSpace);
    TrimStartFacts(s, IsShlexSpace);
    if t == [] then []
    else
      var w := TakeWord(t);
      [w] + Words(t[|w|..])
  }

  /** Separators of a Windows path as Path.GetFileName sees them. */
  predicate IsNameSeparator(c: char) {
    c == '\\' || c == '/' || c == ':'
  }

  /** Path.GetFileName on Windows (and PathFindFileName): the text after the last separator. */
  function FileName(path: string): (r: string)
    ensures EndsWith(path, r)
    ensures forall i :: 0 <= i < |r| ==> !IsNameSeparator(r[i])
  {
    match LastIndexWhere(path, IsNameSeparator)
    case None => path
    case Some(i) => path[i + 1..]
  }

  /** Path.GetFileNameWithoutExtension: the file name up to its last '.'. */
  function FileNameWithoutExtension(path: string): (r: string)
    ensures StartsWith(FileName(path), r)
    ensures '.' in FileName(path) ==> |r| < |FileName(path)| && FileName(path)[|r|] == '.'
    ensures '.' !in FileName(path) ==> r == FileName(path)
  {
    var name := FileName(path);
    match LastIndexWhere(name, c => c == '.')
    case None => name
    case Some(i) => name[..i]
  }

  /** Path.Combine(dir, file) on Windows for a file name that is not rooted. */
  function Combine(dir: string, file: string): (r: string)
    ensures EndsWith(r, file)
    ensures dir != [] ==> StartsWith(r, dir)
  {
    if dir == [] then file
    else if dir[|dir| - 1] == '\\' || dir[|dir| - 1] == '/' then dir + file
    else dir + "\\" + file
  }
}
