/**
 * The tray application's config.txt reader (Program.ReadConfigFile):
 * KEY=VALUE lines for the two intervals, the OBS directory and the
 * start-on-boot switch, and one game executable name per remaining line.
 * A file is its sequence of lines.
 */
module TrayConfig {
  import opened Wrappers
  import opened Text
  import opened Numbers

  const GameIntervalKey: string := "GAME_PROCESS_INTERVAL"
  const ObsIntervalKey: string := "OBS_PROCESS_INTERVAL"
  const ObsDirKey: string := "OBS_WORKING_DIR"
  const StartupKey: string := "ADD_TO_STARTUP"

  /** The static settings of class Program that the config file sets. */
  datatype Config = Config(
    obsWorkingDir: string,
    gameCheckInterval: int,
    obsCheckInterval: int,
    gameProcessNames: seq<string>,
    addToStartup: bool)

  /** line.Split(new[] { '=' }, 2) when it yields two parts: the text before the first '=' and after it. */
  function SplitAtEquals(line: string): (r: Option<(string, string)>)
    ensures r.None? <==> '=' !in line
    ensures r.Some? ==> line == r.value.0 + "=" + r.value.1 && '=' !in r.value.0
  {
    match IndexOf(line, '=')
    case None => None
    case Some(i) =>
      assert line == line[..i] + "=" + line[i + 1..];
      Some((line[..i], line[i + 1..]))
  }

  /** The trimmed key and value of a line that has an '='. */
  function KeyValue(line: string): Option<(string, string)> {
    match SplitAtEquals(line)
    case None => None
    case Some((k, v)) => Some((Trim(k), Trim(v)))
  }

  /** A line without '=' that is neither blank nor starts with '#': a game name. */
  predicate IsGameLine(line: string) {
    '=' !in line && !IsBlank(line) && !StartsWith(line, "#")
  }

  /**
   * What one line of the file is to the reader: a setting (its trimmed key
   * and value, with what int.Parse makes of the value), a game name, or
   * nothing.
   */
  datatype LineKind = Setting(key: string, value: string, number: Option<int>) | GameName(name: string) | Skipped

  function Classify(line: string): (r: LineKind)
    ensures r.Setting? ==> r.number == ParseInt32(r.value)
  {
    match KeyValue(line)
    case Some((k, v)) => Setting(k, v, ParseInt32(v))
    case None => if IsGameLine(line) then GameName(Trim(line)) else Skipped
  }

  /** The switch on the key; None when int.Parse throws on an interval value; unknown keys change nothing. */
  function SetKey(c: Config, key: string, value: string, number: Option<int>): Option<Config> {
    if key == GameIntervalKey then
      (match number
       case None => None
       case Some(n) => Some(c.(gameCheckInterval := n)))
    else if key == ObsIntervalKey then
      (match number
       case None => None
       case Some(n) => Some(c.(obsCheckInterval := n)))
    else if key == ObsDirKey then Some(c.(obsWorkingDir := value))
    else if key == StartupKey then Some(c.(addToStartup := value == "1"))
    else Some(c)
  }

  /** The lines of a file as the reader sees them. */
  function Kinds(lines: seq<string>): (r: seq<LineKind>)
    ensures |r| == |lines| && forall i :: 0 <= i < |lines| ==> r[i] == Classify(lines[i])
  {
    seq(|lines|, i requires 0 <= i < |lines| => Classify(lines[i]))
  }

  lemma KindsAppend(a: seq<string>, b: seq<string>)
    ensures Kinds(a + b) == Kinds(a) + Kinds(b)
  {
    assert forall i :: 0 <= i < |b| ==> (a + b)[|a| + i] == b[i];
  }

  /** One iteration of the foreach, on a classified line. */
  function ApplyLine(c: Config, line: LineKind): Option<Config> {
    match line
    case Setting(key, value, number) => SetKey(c, key, value, number)
    case GameName(name) => Some(c.(gameProcessNames := c.gameProcessNames + [name]))
    case Skipped => Some(c)
  }

  /** The settings after a run over lines, and whether it got through all of them. */
  datatype ReadResult = ReadResult(config: Config, ok: bool)

  /** The foreach over the lines: it stops at the first line whose interval does not parse. */
  function ReadLines(c: Config, lines: seq<LineKind>): ReadResult {
    if lines == [] then ReadResult(c, true)
    else
      var r := ReadLines(c, lines[..|lines| - 1]);
      if !r.ok then r
      else match ApplyLine(r.config, lines[|lines| - 1])
        case None => ReadResult(r.config, false)
        case Some(d) => ReadResult(d, true)
  }

  /**
   * ReadConfigFile: the game list is cleared first, then the lines are read.
   * None for the file stands for File.ReadAllLines throwing.
   */
  function ReadConfigFile(c: Config, file: Option<seq<string>>): ReadResult {
    var cleared := c.(gameProcessNames := []);
    match file
    case None => ReadResult(cleared, false)
    case Some(lines) => ReadLines(cleared, Kinds(lines))
  }

  /** One more line read after a prefix that went through. */
  lemma ReadLinesSnoc(c: Config, ks: seq<LineKind>, i: nat)
    requires i < |ks| && ReadLines(c, ks[..i]).ok
    ensures ReadLines(c, ks[..i + 1]) == match ApplyLine(ReadLines(c, ks[..i]).config, ks[i])
      case None => ReadResult(ReadLines(c, ks[..i]).config, false)
      case Some(d) => ReadResult(d, true)
  {
    assert ks[..i + 1][..i] == ks[..i];
  }

  /** Reading the config file stops at the first interval that does not parse. */
  lemma {:induction false} ReadLinesStopped(c: Config, ks: seq<LineKind>, j: nat)
    requires j <= |ks| && !ReadLines(c, ks[..j]).ok
    ensures ReadLines(c, ks) == ReadLines(c, ks[..j])
  {
    if j < |ks| {
      var init := ks[..|ks| - 1];
      assert init[..j] == ks[..j];
      ReadLinesStopped(c, init, j);
    } else {
      assert ks[..j] == ks;
    }
  }

  // ---- An independent description of what the reader produces ----

  /** The trimmed game lines, in file order. */
  function GameEntries(lines: seq<LineKind>): seq<string> {
    if lines == [] then []
    else
      var last := lines[|lines| - 1];
      GameEntries(lines[..|lines| - 1]) + (if last.GameName? then [last.name] else [])
  }

  /** The last setting line whose trimmed key is key. */
  function LastSetting(lines: seq<LineKind>, key: string): (r: Option<LineKind>)
    ensures r.Some? ==> r.value.Setting? && r.value.key == key
  {
    if lines == [] then None
    else
      var last := lines[|lines| - 1];
      if last.Setting? && last.key == key then Some(last) else LastSetting(lines[..|lines| - 1], key)
  }

  function LastValue(lines: seq<LineKind>, key: string): Option<string> {
    match LastSetting(lines, key)
    case Some(s) => Some(s.value)
    case None => None
  }

  /** A line on which int.Parse does not throw. */
  predicate LineParses(line: LineKind) {
    line.Setting? && (line.key == GameIntervalKey || line.key == ObsIntervalKey) ==> line.number.Some?
  }

  predicate AllLinesParse(lines: seq<LineKind>) {
    forall i :: 0 <= i < |lines| ==> LineParses(lines[i])
  }

  function LastInt(lines: seq<LineKind>, key: string, default: int): int {
    match LastSetting(lines, key)
    case Some(s) => s.number.GetOr(default)
    case None => default
  }

  /** The settings reading all of lines yields when it gets through: the last occurrence of each key wins. */
  function Expected(c: Config, lines: seq<LineKind>): Config {
    Config(
      LastValue(lines, ObsDirKey).GetOr(c.obsWorkingDir),
      LastInt(lines, GameIntervalKey, c.gameCheckInterval),
      LastInt(lines, ObsIntervalKey, c.obsCheckInterval),
      c.gameProcessNames + GameEntries(lines),
      match LastValue(lines, StartupKey) case Some(v) => v == "1" case None => c.addToStartup)
  }

  /** Line i is the first one on which int.Parse throws. */
  predicate FirstFailure(lines: seq<LineKind>, i: nat) {
    i < |lines| && !LineParses(lines[i]) && forall j :: 0 <= j < i ==> LineParses(lines[j])
  }

  /**
   * The reader gets through the lines exactly when every interval value
   * parses, and then yields Expected; otherwise it stops at the first line
   * that does not parse, with the settings of the lines before it.
   */
  lemma {:induction false} ReadLinesCharacterised(c: Config, lines: seq<LineKind>)
    ensures ReadLines(c, lines).ok <==> AllLinesParse(lines)
    ensures ReadLines(c, lines).ok ==> ReadLines(c, lines).config == Expected(c, lines)
    ensures !ReadLines(c, lines).ok ==>
      exists i: nat :: FirstFailure(lines, i) && ReadLines(c, lines).config == Expected(c, lines[..i])
  {
    if lines != [] {
      var prefix := lines[..|lines| - 1];
      var last := lines[|lines| - 1];
      ReadLinesCharacterised(c, prefix);
      var r := ReadLines(c, prefix);
      if r.ok {
        if LineParses(last) {
          ExpectedStep(c, lines);
          assert ReadLines(c, lines).config == Expected(c, lines);
        } else {
          assert FirstFailure(lines, |lines| - 1);
        }
      } else {
        var i: nat :| FirstFailure(prefix, i) && r.config == Expected(c, prefix[..i]);
        assert prefix[..i] == lines[..i];
        assert FirstFailure(lines, i);
      }
    }
  }

  /** When every interval value parses the reader gets through and yields Expected. */
  lemma ReadLinesAllParse(c: Config, lines: seq<LineKind>)
    requires AllLinesParse(lines)
    ensures ReadLines(c, lines) == ReadResult(Expected(c, lines), true)
  {
    ReadLinesCharacterised(c, lines);
  }

  lemma ExpectedStep(c: Config, lines: seq<LineKind>)
    requires lines != []
    requires LineParses(lines[|lines| - 1])
    ensures ApplyLine(Expected(c, lines[..|lines| - 1]), lines[|lines| - 1]) == Some(Expected(c, lines))
  {
    var prefix := lines[..|lines| - 1];
    match lines[|lines| - 1]
    case Setting(k, v, n) =>
      assert GameEntries(lines) == GameEntries(prefix);
    case GameName(n) =>
      assert GameEntries(lines) == GameEntries(prefix) + [n];
      assert c.gameProcessNames + GameEntries(lines) == (c.gameProcessNames + GameEntries(prefix)) + [n];
    case Skipped =>
      assert GameEntries(lines) == GameEntries(prefix);
  }

  // ---- Concatenation, used to read files that were written in parts ----

  lemma {:induction false} GameEntriesAppend(a: seq<LineKind>, b: seq<LineKind>)
    ensures GameEntries(a + b) == GameEntries(a) + GameEntries(b)
  {
    if b != [] {
      GameEntriesAppend(a, b[..|b| - 1]);
      assert (a + b)[..|a + b| - 1] == a + b[..|b| - 1];
    } else {
      assert a + b == a;
    }
  }

  lemma {:induction false} LastSettingAppend(a: seq<LineKind>, b: seq<LineKind>, key: string)
    ensures LastSetting(a + b, key) == if LastSetting(b, key).Some? then LastSetting(b, key) else LastSetting(a, key)
  {
    if b != [] {
      LastSettingAppend(a, b[..|b| - 1], key);
      assert (a + b)[..|a + b| - 1] == a + b[..|b| - 1];
    } else {
      assert a + b == a;
    }
  }

  lemma AllLinesParseAppend(a: seq<LineKind>, b: seq<LineKind>)
    ensures AllLinesParse(a + b) <==> AllLinesParse(a) && AllLinesParse(b)
  {
    if AllLinesParse(a) && AllLinesParse(b) {
      forall i | 0 <= i < |a + b| ensures LineParses((a + b)[i]) {
        if i >= |a| { assert (a + b)[i] == b[i - |a|]; }
      }
    }
    if AllLinesParse(a + b) {
      forall i | 0 <= i < |a| ensures LineParses(a[i]) {
        assert (a + b)[i] == a[i];
      }
      forall i | 0 <= i < |b| ensures LineParses(b[i]) {
        assert (a + b)[|a| + i] == b[i];
      }
    }
  }

  // ---- Files made of known kinds of lines ----

  predicate IsKey(key: string) {
    key == GameIntervalKey || key == ObsIntervalKey || key == ObsDirKey || key == StartupKey
  }

  /** The four keys are different strings (they do not even have the same length). */
  lemma KeysDistinct()
    ensures GameIntervalKey != ObsIntervalKey && GameIntervalKey != ObsDirKey && GameIntervalKey != StartupKey
    ensures ObsIntervalKey != ObsDirKey && ObsIntervalKey != StartupKey && ObsDirKey != StartupKey
  {
    assert |GameIntervalKey| == 21 && |ObsIntervalKey| == 20 && |ObsDirKey| == 15 && |StartupKey| == 14;
  }

  /** A line written as KEY=value for one of the four keys is read as that setting with the trimmed value. */
  lemma KeyLineKind(key: string, value: string)
    requires IsKey(key)
    ensures Classify(key + "=" + value) == Setting(key, Trim(value), ParseInt32(Trim(value)))
  {
    var line := key + "=" + value;
    KeyShape(key);
    IndexOfAfter(key, '=', value);
    assert line[..|key|] == key && line[|key| + 1..] == value;
    TrimWithFixed(key, IsDotNetSpace);
  }

  /** A key has no '=', starts with a capital letter and has no white space at its end. */
  lemma KeyShape(key: string)
    requires IsKey(key)
    ensures '=' !in key && key != [] && 'A' <= key[0] <= 'Z' && !IsDotNetSpace(key[0]) && !IsDotNetSpace(key[|key| - 1])
  {
    if key == GameIntervalKey {
      assert forall i :: 0 <= i < |key| ==> key[i] != '=';
    } else if key == ObsIntervalKey {
      assert forall i :: 0 <= i < |key| ==> key[i] != '=';
    } else if key == ObsDirKey {
      assert forall i :: 0 <= i < |key| ==> key[i] != '=';
    } else {
      assert forall i :: 0 <= i < |key| ==> key[i] != '=';
    }
  }

  /** A line the reader treats as a game name, and reads back unchanged. */
  predicate IsPlainGameLine(line: string) {
    IsGameLine(line) && Trim(line) == line
  }

  lemma {:induction false} LastSettingAbsent(lines: seq<LineKind>, key: string)
    requires forall i :: 0 <= i < |lines| ==> !(lines[i].Setting? && lines[i].key == key)
    ensures LastSetting(lines, key) == None
  {
    if lines != [] {
      LastSettingAbsent(lines[..|lines| - 1], key);
    }
  }

  /** When every setting of key in lines is s, and there is one, the last is s. */
  lemma {:induction false} LastSettingUniform(lines: seq<LineKind>, key: string, s: LineKind)
    requires forall i :: 0 <= i < |lines| && lines[i].Setting? && lines[i].key == key ==> lines[i] == s
    requires exists i :: 0 <= i < |lines| && lines[i].Setting? && lines[i].key == key
    ensures LastSetting(lines, key) == Some(s)
  {
    var last := lines[|lines| - 1];
    if !(last.Setting? && last.key == key) {
      var prefix := lines[..|lines| - 1];
      var i :| 0 <= i < |lines| && lines[i].Setting? && lines[i].key == key;
      assert prefix[i] == lines[i];
      LastSettingUniform(prefix, key, s);
    }
  }

  lemma {:induction false} GameEntriesNone(lines: seq<LineKind>)
    requires forall i :: 0 <= i < |lines| ==> !lines[i].GameName?
    ensures GameEntries(lines) == []
  {
    if lines != [] {
      GameEntriesNone(lines[..|lines| - 1]);
    }
  }

  /** Lines that are all game names give exactly those names, in order. */
  lemma GameEntriesOfNames(names: seq<string>)
    requires forall i :: 0 <= i < |names| ==> IsPlainGameLine(names[i])
    ensures GameEntries(Kinds(names)) == names
    ensures forall key :: LastSetting(Kinds(names), key) == None
    ensures AllLinesParse(Kinds(names))
  {
    var ks := Kinds(names);
    forall i | 0 <= i < |names| ensures ks[i] == GameName(names[i]) {
      GameLineKind(names[i]);
    }
    GameNamesRead(ks, names);
  }

  lemma {:induction false} GameNamesRead(ks: seq<LineKind>, names: seq<string>)
    requires |ks| == |names| && forall i :: 0 <= i < |ks| ==> ks[i] == GameName(names[i])
    ensures GameEntries(ks) == names
    ensures forall key :: LastSetting(ks, key) == None
    ensures AllLinesParse(ks)
  {
    if ks != [] {
      GameNamesRead(ks[..|ks| - 1], names[..|names| - 1]);
      assert names == names[..|names| - 1] + [names[|names| - 1]];
    }
  }

  /** Each line trimmed. */
  function TrimmedAll(lines: seq<string>): (r: seq<string>)
    ensures |r| == |lines| && forall i :: 0 <= i < |lines| ==> r[i] == Trim(lines[i])
  {
    seq(|lines|, i requires 0 <= i < |lines| => Trim(lines[i]))
  }

  /** Lines that are all game lines give their trimmed texts, in order. */
  lemma GameLinesRead(lines: seq<string>)
    requires forall i :: 0 <= i < |lines| ==> IsGameLine(lines[i])
    ensures GameEntries(Kinds(lines)) == TrimmedAll(lines)
  {
    var ks := Kinds(lines);
    forall i | 0 <= i < |lines| ensures ks[i] == GameName(Trim(lines[i])) {
      NoEqualsNoSetting(lines[i]);
    }
    GameNamesRead(ks, TrimmedAll(lines));
  }

  lemma GameLineKind(line: string)
    requires IsPlainGameLine(line)
    ensures Classify(line) == GameName(line)
  {
    NoEqualsNoSetting(line);
  }

  lemma NoEqualsNoSetting(line: string)
    requires '=' !in line
    ensures KeyValue(line).None?
  {
    assert SplitAtEquals(line).None?;
  }
}
