/**
 * The tray application's settings dialog (class SettingsForm): the
 * interval and executable-name validators, the case-insensitive game
 * list, and SaveSettings, which rewrites config.txt in place and appends
 * the game list.  The list box is a sequence of strings.
 */
module TraySettings {
  import opened Wrappers
  import opened Text
  import opened Numbers
  import opened TrayConfig

  const DefaultGameInterval: int := 15000
  const DefaultObsInterval: int := 5000
  const MinInterval: int := 1
  const WarningThreshold: int := 50

  // ---- Validators ----

  /** int.TryParse followed by the MinInterval bound; None is the error box. */
  function ValidateAndParseInterval(input: string): (r: Option<int>)
    ensures r.Some? ==> MinInterval <= r.value <= Int32Max
    ensures r.Some? ==> ParseInt32(input) == r
    ensures r.None? ==> ParseInt32(input).None? || ParseInt32(input).value < MinInterval
  {
    match ParseInt32(input)
    case Some(n) => if n >= MinInterval then Some(n) else None
    case None => None
  }

  /** Every interval the dialog can accept survives being written and read back. */
  lemma IntervalRoundTrip(n: int)
    requires MinInterval <= n <= Int32Max
    ensures ValidateAndParseInterval(IntToString(n)) == Some(n)
  {
    ParseInt32OfIntToString(n);
  }

  /** Zero and negative intervals are refused. */
  lemma IntervalBelowMinimumRefused(n: int)
    requires Int32Min <= n < MinInterval
    ensures ValidateAndParseInterval(IntToString(n)).None?
  {
    ParseInt32OfIntToString(n);
  }

  /** The characters of the class [a-zA-Z0-9\s\-_]. */
  predicate IsExeNameChar(c: char) {
    ('a' <= c <= 'z') || ('A' <= c <= 'Z') || ('0' <= c <= '9') || IsDotNetSpace(c) || c == '-' || c == '_'
  }

  /** s is one or more class characters followed by ".exe", and nothing else. */
  predicate IsClassThenExe(s: string) {
    |s| > 4 && s[|s| - 4..] == ".exe" && forall i :: 0 <= i < |s| - 4 ==> IsExeNameChar(s[i])
  }

  /**
   * Regex.IsMatch(s, @"^[a-zA-Z0-9\s\-_]+\.exe$"). The class has no '.', so
   * the "\.exe" can only be the last four characters before the end; .NET's
   * `$` also matches just before a final '\n'.
   */
  predicate MatchesExePattern(s: string) {
    IsClassThenExe(s) || (s != [] && s[|s| - 1] == '\n' && IsClassThenExe(s[..|s| - 1]))
  }

  /** name.EndsWith(suffix, StringComparison.OrdinalIgnoreCase). */
  predicate EndsWithIgnoreCase(name: string, suffix: string) {
    |suffix| <= |name| && EqualsIgnoreCase(name[|name| - |suffix|..], suffix)
  }

  /** The check behind the manual entry box of the process picker. */
  predicate IsValidGameExecutable(name: string) {
    if IsBlank(name) || !EndsWithIgnoreCase(name, ".exe") || |name| <= 4 then false
    else MatchesExePattern(name)
  }

  /**
   * A name is accepted exactly when it is longer than four characters, ends
   * in ".exe" in lower case, and everything before that is a letter, digit,
   * white space, '-' or '_'.
   */
  lemma ValidGameExecutableIff(name: string)
    ensures IsValidGameExecutable(name) <==> IsClassThenExe(name)
  {
    if IsClassThenExe(name) {
      assert name[|name| - 4..] == ".exe";
      assert Lower(name[|name| - 4..]) == Lower(".exe");
      assert !IsDotNetSpace(name[|name| - 1]);
    }
    if IsValidGameExecutable(name) {
      assert Lower(name[|name| - 4..])[3] == 'e';
      assert name[|name| - 1] != '\n';
    }
  }

  /** The ignore-case suffix test lets "GAME.EXE" through, but the pattern does not. */
  lemma UpperCaseExtensionRefused()
    ensures EndsWithIgnoreCase("GAME.EXE", ".exe")
    ensures !IsValidGameExecutable("GAME.EXE")
  {
    var s := "GAME.EXE";
    assert Lower(s[4..]) == ".exe";
    ValidGameExecutableIff(s);
    assert s[4..] != ".exe";
  }

  /** A second '.' in the name is outside the character class. */
  lemma DottedNameRefused()
    ensures !IsValidGameExecutable("a.b.exe")
  {
    ValidGameExecutableIff("a.b.exe");
    assert !IsExeNameChar("a.b.exe"[1]);
  }

  lemma PlainNameAccepted()
    ensures IsValidGameExecutable("my game-1_x.exe")
  {
    ValidGameExecutableIff("my game-1_x.exe");
  }

  /** The pattern alone would accept a trailing newline; the suffix test in front of it turns it away. */
  lemma TrailingNewlineRefused()
    ensures MatchesExePattern("game.exe\n")
    ensures !IsValidGameExecutable("game.exe\n")
  {
    var s := "game.exe\n";
    assert s[..|s| - 1] == "game.exe";
    assert IsClassThenExe("game.exe");
    ValidGameExecutableIff(s);
  }

  // ---- The game list ----

  /** Some item equals name after ToLower(). */
  predicate ContainsIgnoreCase(items: seq<string>, name: string) {
    exists i :: 0 <= i < |items| && Lower(items[i]) == Lower(name)
  }

  /** No two items are equal after ToLower(). */
  predicate CaseDistinct(items: seq<string>) {
    forall i, j :: 0 <= i < j < |items| ==> Lower(items[i]) != Lower(items[j])
  }

  /** The list after AddGameToList(name). */
  function WithGame(items: seq<string>, name: string): (r: seq<string>)
    ensures ContainsIgnoreCase(r, name)
    ensures forall i :: 0 <= i < |items| ==> i < |r| && r[i] == items[i]
  {
    if ContainsIgnoreCase(items, name) then items
    else
      assert Lower((items + [name])[|items|]) == Lower(name);
      items + [name]
  }

  /** Adding keeps the list free of case-insensitive duplicates. */
  lemma WithGameKeepsDistinct(items: seq<string>, name: string)
    requires CaseDistinct(items)
    ensures CaseDistinct(WithGame(items, name))
  {
  }

  /** Adding a name that differs only in case from one already added changes nothing. */
  lemma WithGameIgnoresCase(items: seq<string>, name: string, other: string)
    requires Lower(other) == Lower(name)
    ensures WithGame(WithGame(items, name), other) == WithGame(items, name)
  {
    var r := WithGame(items, name);
    var i :| 0 <= i < |r| && Lower(r[i]) == Lower(name);
    assert Lower(r[i]) == Lower(other);
  }

  /** Either the list grows by exactly name, or name was already there and nothing changes. */
  lemma WithGameEffect(items: seq<string>, name: string)
    ensures WithGame(items, name) == items <==> ContainsIgnoreCase(items, name)
    ensures WithGame(items, name) != items ==> WithGame(items, name) == items + [name]
  {
  }

  /** The list after RemoveAt(index). */
  function WithoutGame(items: seq<string>, index: nat): (r: seq<string>)
    requires index < |items|
    ensures |r| == |items| - 1
    ensures forall i :: 0 <= i < index ==> r[i] == items[i]
    ensures forall i :: index <= i < |r| ==> r[i] == items[i + 1]
  {
    items[..index] + items[index + 1..]
  }

  lemma WithoutGameKeepsDistinct(items: seq<string>, index: nat)
    requires index < |items| && CaseDistinct(items)
    ensures CaseDistinct(WithoutGame(items, index))
  {
    var r := WithoutGame(items, index);
    forall i, j | 0 <= i < j < |r| ensures Lower(r[i]) != Lower(r[j]) {
      var i' := if i < index then i else i + 1;
      var j' := if j < index then j else j + 1;
      assert r[i] == items[i'] && r[j] == items[j'];
    }
  }

  // ---- Saving ----

  /** The values SaveSettings writes. */
  datatype SavedValues = SavedValues(gameInterval: int, obsInterval: int, obsWorkingDir: string, addToStartup: bool)

  /** The lines of the old file that survive the Where(line => !line.EndsWith(".exe")). */
  function KeptLines(lines: seq<string>): (r: seq<string>)
    ensures |r| <= |lines|
    ensures forall i :: 0 <= i < |r| ==> !EndsWith(r[i], ".exe")
  {
    if lines == [] then []
    else (if EndsWith(lines[0], ".exe") then [] else [lines[0]]) + KeptLines(lines[1..])
  }

  /** A line survives exactly when it was in the file and does not end in ".exe". */
  lemma {:induction false} KeptLinesMembers(lines: seq<string>, line: string)
    ensures line in KeptLines(lines) <==> line in lines && !EndsWith(line, ".exe")
  {
    if lines != [] {
      KeptLinesMembers(lines[1..], line);
      assert lines == [lines[0]] + lines[1..];
    }
  }

  /** The text SaveSettings puts after KEY= for each key. */
  function ValueText(key: string, v: SavedValues): string {
    if key == GameIntervalKey then IntToString(v.gameInterval)
    else if key == ObsIntervalKey then IntToString(v.obsInterval)
    else if key == ObsDirKey then v.obsWorkingDir
    else if v.addToStartup then "1" else "0"
  }

  /** The key whose KEY= prefix the line starts with, tested in the order of the if-chain. */
  function LineKey(line: string): (r: Option<string>)
    ensures r.Some? ==> IsKey(r.value) && StartsWith(line, r.value + "=")
  {
    if StartsWith(line, GameIntervalKey + "=") then Some(GameIntervalKey)
    else if StartsWith(line, ObsIntervalKey + "=") then Some(ObsIntervalKey)
    else if StartsWith(line, ObsDirKey + "=") then Some(ObsDirKey)
    else if StartsWith(line, StartupKey + "=") then Some(StartupKey)
    else None
  }

  lemma StartsWithAt(line: string, prefix: string, k: nat)
    requires StartsWith(line, prefix) && k < |prefix|
    ensures line[k] == prefix[k]
  {
    assert line[..|prefix|][k] == line[k];
  }

  /** No line starts with two of the prefixes, so the order of the tests does not matter. */
  lemma LineKeyOf(line: string, key: string)
    requires IsKey(key) && StartsWith(line, key + "=")
    ensures LineKey(line) == Some(key)
  {
    var g := GameIntervalKey + "=";
    var o := ObsIntervalKey + "=";
    var d := ObsDirKey + "=";
    StartsWithAt(line, key + "=", 0);
    StartsWithAt(line, key + "=", 4);
    if StartsWith(line, g) { StartsWithAt(line, g, 0); }
    if StartsWith(line, o) { StartsWithAt(line, o, 0); StartsWithAt(line, o, 4); }
    if StartsWith(line, d) { StartsWithAt(line, d, 0); StartsWithAt(line, d, 4); }
  }

  /** One iteration of the for loop: a line starting with KEY= becomes KEY=<new value>. */
  function RewriteLine(line: string, v: SavedValues): string {
    match LineKey(line)
    case Some(key) => key + "=" + ValueText(key, v)
    case None => line
  }

  /** RewriteLine as the if-chain of the loop body. */
  lemma RewriteLineCases(line: string, v: SavedValues)
    ensures RewriteLine(line, v) ==
      if StartsWith(line, GameIntervalKey + "=") then GameIntervalKey + "=" + IntToString(v.gameInterval)
      else if StartsWith(line, ObsIntervalKey + "=") then ObsIntervalKey + "=" + IntToString(v.obsInterval)
      else if StartsWith(line, ObsDirKey + "=") then ObsDirKey + "=" + v.obsWorkingDir
      else if StartsWith(line, StartupKey + "=") then StartupKey + "=" + (if v.addToStartup then "1" else "0")
      else line
  {
    KeysDistinct();
  }

  function Rewritten(kept: seq<string>, v: SavedValues): (r: seq<string>)
    ensures |r| == |kept| && forall i :: 0 <= i < |kept| ==> r[i] == RewriteLine(kept[i], v)
  {
    seq(|kept|, i requires 0 <= i < |kept| => RewriteLine(kept[i], v))
  }

  /** The file SaveSettings writes: the surviving lines rewritten, then the list box. */
  function SavedLines(file: seq<string>, v: SavedValues, games: seq<string>): seq<string> {
    Rewritten(KeptLines(file), v) + games
  }

  // ---- Reading a saved file back ----

  /** A line ReadConfigFile reads as one of the four settings. */
  predicate IsKeySetting(k: LineKind) {
    k.Setting? && IsKey(k.key)
  }

  /**
   * A surviving line SaveSettings rewrites, or one the reader does not take
   * for one of the four settings: a game name, a comment, a blank line, or
   * a setting with some other key.
   */
  predicate IsSavable(line: string) {
    LineKey(line).Some? || !IsKeySetting(Classify(line))
  }

  /** Some surviving line starts with KEY=. */
  predicate HasKeyLine(kept: seq<string>, key: string) {
    exists i :: 0 <= i < |kept| && StartsWith(kept[i], key + "=")
  }

  /** How ReadConfigFile sees the rewritten line for key. */
  function KeySetting(key: string, v: SavedValues): (r: LineKind)
    ensures r.Setting? && r.key == key
  {
    Setting(key, Trim(ValueText(key, v)), ParseInt32(Trim(ValueText(key, v))))
  }

  lemma RewrittenKind(line: string, v: SavedValues)
    ensures LineKey(line).Some? ==> Classify(RewriteLine(line, v)) == KeySetting(LineKey(line).value, v)
    ensures LineKey(line).Some? ==> Classify(line).Setting?
    ensures LineKey(line).None? ==> RewriteLine(line, v) == line
  {
    if LineKey(line).Some? {
      var key := LineKey(line).value;
      KeyLineKind(key, ValueText(key, v));
      StartsWithAt(line, key + "=", |key|);
      assert '=' in line;
    }
  }

  /** What one rewritten surviving line says about key, and that game lines pass through unchanged. */
  lemma SavedLineSetting(line: string, v: SavedValues, key: string)
    requires IsKey(key) && IsSavable(line)
    ensures var k := Classify(RewriteLine(line, v));
      (k.Setting? && k.key == key <==> StartsWith(line, key + "="))
      && (k.Setting? && k.key == key ==> k == KeySetting(key, v))
      && (k.GameName? <==> Classify(line).GameName?)
      && (k.GameName? ==> k == Classify(line))
  {
    RewrittenKind(line, v);
    if StartsWith(line, key + "=") {
      LineKeyOf(line, key);
    }
  }

  /** The rewritten interval lines parse back to the intervals that were saved. */
  lemma KeySettingNumbers(v: SavedValues)
    requires IsInt32(v.gameInterval) && IsInt32(v.obsInterval)
    ensures KeySetting(GameIntervalKey, v).number == Some(v.gameInterval)
    ensures KeySetting(ObsIntervalKey, v).number == Some(v.obsInterval)
    ensures KeySetting(StartupKey, v).value == "1" <==> v.addToStartup
  {
    IntToStringTrimmed(v.gameInterval);
    IntToStringTrimmed(v.obsInterval);
    ParseInt32OfIntToString(v.gameInterval);
    ParseInt32OfIntToString(v.obsInterval);
    TrimWithFixed("1", IsDotNetSpace);
    TrimWithFixed("0", IsDotNetSpace);
  }

  lemma IntToStringTrimmed(n: int)
    ensures Trim(IntToString(n)) == IntToString(n)
  {
    var s := IntToString(n);
    assert !IsDotNetSpace(s[0]) && !IsDotNetSpace(s[|s| - 1]);
    TrimWithFixed(s, IsDotNetSpace);
  }

  /** A rewritten surviving line parses. */
  lemma SavedLineParses(line: string, v: SavedValues)
    requires IsInt32(v.gameInterval) && IsInt32(v.obsInterval) && IsSavable(line)
    ensures LineParses(Classify(RewriteLine(line, v)))
  {
    RewrittenKind(line, v);
    KeySettingNumbers(v);
  }

  /** The setting for key among the rewritten surviving lines. */
  lemma RewrittenSetting(kept: seq<string>, v: SavedValues, key: string)
    requires IsKey(key)
    requires forall i :: 0 <= i < |kept| ==> IsSavable(kept[i])
    ensures LastSetting(Kinds(Rewritten(kept, v)), key) == if HasKeyLine(kept, key) then Some(KeySetting(key, v)) else None
  {
    var ks := Kinds(Rewritten(kept, v));
    forall i | 0 <= i < |kept|
      ensures (ks[i].Setting? && ks[i].key == key <==> StartsWith(kept[i], key + "="))
      ensures (ks[i].Setting? && ks[i].key == key ==> ks[i] == KeySetting(key, v))
    {
      SavedLineSetting(kept[i], v, key);
    }
    if HasKeyLine(kept, key) {
      LastSettingUniform(ks, key, KeySetting(key, v));
    } else {
      LastSettingAbsent(ks, key);
    }
  }

  /** Two readings that agree on which lines are game names, and on those names, give the same game list. */
  lemma {:induction false} GameEntriesSameNames(a: seq<LineKind>, b: seq<LineKind>)
    requires |a| == |b|
    requires forall i :: 0 <= i < |a| ==> (a[i].GameName? <==> b[i].GameName?) && (a[i].GameName? ==> a[i] == b[i])
    ensures GameEntries(a) == GameEntries(b)
  {
    if a != [] {
      GameEntriesSameNames(a[..|a| - 1], b[..|b| - 1]);
    }
  }

  /**
   * The rewritten surviving lines hold the same game names as before the
   * rewrite, and no interval that fails to parse.
   */
  lemma RewrittenQuiet(kept: seq<string>, v: SavedValues)
    requires IsInt32(v.gameInterval) && IsInt32(v.obsInterval)
    requires forall i :: 0 <= i < |kept| ==> IsSavable(kept[i])
    ensures GameEntries(Kinds(Rewritten(kept, v))) == GameEntries(Kinds(kept))
    ensures AllLinesParse(Kinds(Rewritten(kept, v)))
  {
    var ks := Kinds(Rewritten(kept, v));
    var old_ks := Kinds(kept);
    forall i | 0 <= i < |kept|
      ensures (ks[i].GameName? <==> old_ks[i].GameName?) && (ks[i].GameName? ==> ks[i] == old_ks[i])
      ensures LineParses(ks[i])
    {
      SavedLineSetting(kept[i], v, GameIntervalKey);
      SavedLineParses(kept[i], v);
    }
    GameEntriesSameNames(ks, old_ks);
  }

  /** List box entries without '=' set nothing and always parse. */
  lemma ListEntriesQuiet(games: seq<string>)
    requires forall i :: 0 <= i < |games| ==> '=' !in games[i]
    ensures forall key :: LastSetting(Kinds(games), key) == None
    ensures AllLinesParse(Kinds(games))
  {
    var ks := Kinds(games);
    forall i | 0 <= i < |games| ensures !ks[i].Setting? {
      NoEqualsNoSetting(games[i]);
    }
    forall key ensures LastSetting(ks, key) == None {
      LastSettingAbsent(ks, key);
    }
  }

  /**
   * Reading back what SaveSettings wrote. The game list is the game lines
   * that survived in the old file (those not ending in ".exe", such as
   * "GAME.EXE"), followed by the list box entries the reader takes for game
   * names, trimmed. Each setting has the saved value where the old file had
   * a KEY= line for it (the directory trimmed), and keeps its previous value
   * where it had none, because SaveSettings only rewrites lines and never
   * adds one. The hypotheses: list box entries have no '=', and no
   * surviving line is read as one of the four settings unless it starts
   * with exactly KEY=.
   */
  lemma SaveThenRead(c: Config, file: seq<string>, v: SavedValues, games: seq<string>)
    requires IsInt32(v.gameInterval) && IsInt32(v.obsInterval)
    requires forall i :: 0 <= i < |games| ==> '=' !in games[i]
    requires forall i :: 0 <= i < |KeptLines(file)| ==> IsSavable(KeptLines(file)[i])
    ensures ReadConfigFile(c, Some(SavedLines(file, v, games))).ok
    ensures ReadConfigFile(c, Some(SavedLines(file, v, games))).config == Config(
      if HasKeyLine(KeptLines(file), ObsDirKey) then Trim(v.obsWorkingDir) else c.obsWorkingDir,
      if HasKeyLine(KeptLines(file), GameIntervalKey) then v.gameInterval else c.gameCheckInterval,
      if HasKeyLine(KeptLines(file), ObsIntervalKey) then v.obsInterval else c.obsCheckInterval,
      GameEntries(Kinds(KeptLines(file))) + GameEntries(Kinds(games)),
      if HasKeyLine(KeptLines(file), StartupKey) then v.addToStartup else c.addToStartup)
    ensures (forall i :: 0 <= i < |games| ==> IsGameLine(games[i])) ==>
      ReadConfigFile(c, Some(SavedLines(file, v, games))).config.gameProcessNames
        == GameEntries(Kinds(KeptLines(file))) + TrimmedAll(games)
  {
    var kept := KeptLines(file);
    var names := GameEntries(Kinds(kept)) + GameEntries(Kinds(games));
    SavedKindsFacts(kept, v, games);
    KeySettingNumbers(v);
    ReadBack(c, Kinds(SavedLines(file, v, games)), kept, v, names);
    if forall i :: 0 <= i < |games| ==> IsGameLine(games[i]) {
      GameLinesRead(games);
    }
  }

  /** What the reader needs to know of the saved file's lines. */
  lemma SavedKindsFacts(kept: seq<string>, v: SavedValues, games: seq<string>)
    requires IsInt32(v.gameInterval) && IsInt32(v.obsInterval)
    requires forall i :: 0 <= i < |games| ==> '=' !in games[i]
    requires forall i :: 0 <= i < |kept| ==> IsSavable(kept[i])
    ensures var all := Kinds(Rewritten(kept, v) + games);
      && AllLinesParse(all) && GameEntries(all) == GameEntries(Kinds(kept)) + GameEntries(Kinds(games))
      && LastSetting(all, GameIntervalKey) == (if HasKeyLine(kept, GameIntervalKey) then Some(KeySetting(GameIntervalKey, v)) else None)
      && LastSetting(all, ObsIntervalKey) == (if HasKeyLine(kept, ObsIntervalKey) then Some(KeySetting(ObsIntervalKey, v)) else None)
      && LastSetting(all, ObsDirKey) == (if HasKeyLine(kept, ObsDirKey) then Some(KeySetting(ObsDirKey, v)) else None)
      && LastSetting(all, StartupKey) == (if HasKeyLine(kept, StartupKey) then Some(KeySetting(StartupKey, v)) else None)
  {
    var rs := Kinds(Rewritten(kept, v));
    var gs := Kinds(games);
    KindsAppend(Rewritten(kept, v), games);
    RewrittenQuiet(kept, v);
    ListEntriesQuiet(games);
    AllLinesParseAppend(rs, gs);
    GameEntriesAppend(rs, gs);
    SettingBack(kept, v, games, GameIntervalKey);
    SettingBack(kept, v, games, ObsIntervalKey);
    SettingBack(kept, v, games, ObsDirKey);
    SettingBack(kept, v, games, StartupKey);
  }

  /** The reader on lines with those facts. */
  lemma ReadBack(c: Config, all: seq<LineKind>, kept: seq<string>, v: SavedValues, names: seq<string>)
    requires IsInt32(v.gameInterval) && IsInt32(v.obsInterval)
    requires KeySetting(GameIntervalKey, v).number == Some(v.gameInterval)
    requires KeySetting(ObsIntervalKey, v).number == Some(v.obsInterval)
    requires KeySetting(StartupKey, v).value == "1" <==> v.addToStartup
    requires AllLinesParse(all) && GameEntries(all) == names
    requires LastSetting(all, GameIntervalKey) == (if HasKeyLine(kept, GameIntervalKey) then Some(KeySetting(GameIntervalKey, v)) else None)
    requires LastSetting(all, ObsIntervalKey) == (if HasKeyLine(kept, ObsIntervalKey) then Some(KeySetting(ObsIntervalKey, v)) else None)
    requires LastSetting(all, ObsDirKey) == (if HasKeyLine(kept, ObsDirKey) then Some(KeySetting(ObsDirKey, v)) else None)
    requires LastSetting(all, StartupKey) == (if HasKeyLine(kept, StartupKey) then Some(KeySetting(StartupKey, v)) else None)
    ensures ReadLines(c.(gameProcessNames := []), all) == ReadResult(Config(
      if HasKeyLine(kept, ObsDirKey) then Trim(v.obsWorkingDir) else c.obsWorkingDir,
      if HasKeyLine(kept, GameIntervalKey) then v.gameInterval else c.gameCheckInterval,
      if HasKeyLine(kept, ObsIntervalKey) then v.obsInterval else c.obsCheckInterval,
      names,
      if HasKeyLine(kept, StartupKey) then v.addToStartup else c.addToStartup), true)
  {
    ReadLinesCharacterised(c.(gameProcessNames := []), all);
  }

  lemma SettingBack(kept: seq<string>, v: SavedValues, games: seq<string>, key: string)
    requires IsKey(key)
    requires forall i :: 0 <= i < |games| ==> '=' !in games[i]
    requires forall i :: 0 <= i < |kept| ==> IsSavable(kept[i])
    ensures LastSetting(Kinds(Rewritten(kept, v) + games), key) == if HasKeyLine(kept, key) then Some(KeySetting(key, v)) else None
  {
    KindsAppend(Rewritten(kept, v), games);
    ListEntriesQuiet(games);
    LastSettingAppend(Kinds(Rewritten(kept, v)), Kinds(games), key);
    RewrittenSetting(kept, v, key);
  }

  /** The for loop of SaveSettings over the surviving lines: each KEY= line is replaced in place. */
  method RewriteKeyLines(lines: array<string>, v: SavedValues)
    modifies lines
    ensures lines[..] == Rewritten(old(lines[..]), v)
  {
    ghost var kept := lines[..];
    for i := 0 to lines.Length
      invariant forall j :: 0 <= j < i ==> lines[j] == RewriteLine(kept[j], v)
      invariant forall j :: i <= j < lines.Length ==> lines[j] == kept[j]
    {
      RewriteLineCases(lines[i], v);
      if StartsWith(lines[i], GameIntervalKey + "=") {
        lines[i] := GameIntervalKey + "=" + IntToString(v.gameInterval);
      } else if StartsWith(lines[i], ObsIntervalKey + "=") {
        lines[i] := ObsIntervalKey + "=" + IntToString(v.obsInterval);
      } else if StartsWith(lines[i], ObsDirKey + "=") {
        lines[i] := ObsDirKey + "=" + v.obsWorkingDir;
      } else if StartsWith(lines[i], StartupKey + "=") {
        lines[i] := StartupKey + "=" + (if v.addToStartup then "1" else "0");
      }
    }
  }

  /** The dialog's state: the game list box and the start-on-boot check box. */
  class SettingsForm {
    var gameListBox: seq<string>
    var startOnBootChecked: bool

    constructor(games: seq<string>, startOnBoot: bool)
      ensures gameListBox == games && startOnBootChecked == startOnBoot
    {
      gameListBox := games;
      startOnBootChecked := startOnBoot;
    }

    /** Appends gameName unless an item equals it ignoring case; added is false for the duplicate box. */
    method AddGameToList(gameName: string) returns (added: bool)
      modifies this
      ensures added <==> !ContainsIgnoreCase(old(gameListBox), gameName)
      ensures gameListBox == WithGame(old(gameListBox), gameName)
      ensures startOnBootChecked == old(startOnBootChecked)
    {
      added := !ContainsIgnoreCase(gameListBox, gameName);
      if added {
        gameListBox := gameListBox + [gameName];
      }
    }

    /** AddGameButton_Click: the picker's choice, None when the dialog was cancelled. */
    method AddGameButtonClick(selected: Option<string>)
      modifies this
      ensures gameListBox == if selected.Some? && selected.value != "" then WithGame(old(gameListBox), selected.value) else old(gameListBox)
      ensures startOnBootChecked == old(startOnBootChecked)
    {
      if selected.Some? && selected.value != "" {
        var _ := AddGameToList(selected.value);
      }
    }

    /** RemoveGameButton_Click: selectedIndex is -1 when nothing is selected. */
    method RemoveGameButtonClick(selectedIndex: int)
      modifies this
      ensures gameListBox == if 0 <= selectedIndex < |old(gameListBox)| then WithoutGame(old(gameListBox), selectedIndex) else old(gameListBox)
      ensures startOnBootChecked == old(startOnBootChecked)
    {
      if 0 <= selectedIndex < |gameListBox| {
        gameListBox := WithoutGame(gameListBox, selectedIndex);
      }
    }

    /**
     * SaveSettings: reads the file (None when File.ReadAllLines throws, in
     * which case nothing is written), drops the ".exe" lines, rewrites the
     * KEY= lines in place and appends the list box; the result is the file
     * written.
     */
    method SaveSettings(file: Option<seq<string>>, gameInterval: int, obsInterval: int, obsWorkingDir: string)
      returns (written: Option<seq<string>>)
      ensures file.None? ==> written.None?
      ensures file.Some? ==> written == Some(SavedLines(file.value,
        SavedValues(gameInterval, obsInterval, obsWorkingDir, startOnBootChecked), gameListBox))
    {
      if file.None? {
        return None;
      }
      var kept := KeptLines(file.value);
      var v := SavedValues(gameInterval, obsInterval, obsWorkingDir, startOnBootChecked);
      var lines := new string[|kept|](i requires 0 <= i < |kept| => kept[i]);
      assert lines[..] == kept;
      RewriteKeyLines(lines, v);
      written := Some(lines[..] + gameListBox);
    }
  }
}
