/**
 * The default config.txt that both Windows programs define
 * (ConfigUtil.CreateDefaultConfigFile in C#, createDefaultConfigFile in
 * C++), and what each program's reader makes of it. Only the console
 * program writes it, when no config.txt exists; the tray program never
 * calls its copy.
 */
module DefaultConfig {
  import opened Wrappers
  import opened Text
  import opened Numbers
  import opened TrayConfig
  import TraySettings
  import ConsoleApp

  /** A line that starts with '#'. */
  function Comment(text: string): (r: string)
    ensures r != [] && r[0] == '#'
  {
    "#" + text
  }

  /** A line KEY=value. */
  function KeyLine(key: string, value: string): string {
    key + "=" + value
  }

  /** The texts after the '#' of the nine comment lines of the default file, in order. */
  const DefaultNotes: seq<string> := [
    " Set intervals between opening/closing the game and opening/closing OBS. 1000 = 1 second. Lower values may potentially increase CPU load",
    " Delay before opening OBS after you have opened the game (default: 15000)",
    " Delay before closing OBS after you have closed the game (default: 5000)",
    " Path to your OBS install folder, where the \"obs64.exe\" file is located",
    " Example:",
    " OBS_WORKING_DIR=C:\\Program Files\\obs-studio\\bin\\64bit",
    " Enable automatic start on boot (1 for enabled, 0 for disabled)",
    " Add the names of game executables (process file name), one per line",
    " Make sure to include the .exe file extension"
  ]

  /**
   * The seventeen lines of the default file around the given comment texts
   * and interval values:
   * three groups of comments, each before the settings it explains, empty
   * lines between the groups, and the four settings with their defaults.
   */
  function DefaultFile(notes: seq<string>, gameInterval: int, obsInterval: int): (r: seq<string>)
    requires |notes| == 9
    ensures |r| == 17
  {
    [
      Comment(notes[0]),
      Comment(notes[1]),
      KeyLine(GameIntervalKey, IntToString(gameInterval)),
      Comment(notes[2]),
      KeyLine(ObsIntervalKey, IntToString(obsInterval)),
      "",
      Comment(notes[3]),
      Comment(notes[4]),
      Comment(notes[5]),
      KeyLine(ObsDirKey, ""),
      "",
      Comment(notes[6]),
      KeyLine(StartupKey, "0"),
      "",
      Comment(notes[7]),
      Comment(notes[8]),
      ""
    ]
  }

  /**
   * The lines both writers produce: the WriteLine arguments of the C#
   * function and the strings the C++ function streams, each followed by
   * std::endl, are the same seventeen strings. The intervals are written
   * as the digits 15000 and 5000 (DefaultIntervalTexts).
   */
  const DefaultLines: seq<string> := DefaultFile(DefaultNotes, 15000, 5000)

  /** The comment lines around the given texts, in order. */
  function CommentLines(notes: seq<string>): seq<string> {
    seq(|notes|, j requires 0 <= j < |notes| => Comment(notes[j]))
  }

  /** The positions of the four settings in the default file. */
  const GameIntervalLine: nat := 2
  const ObsIntervalLine: nat := 4
  const ObsDirLine: nat := 9
  const StartupLine: nat := 12

  /** The lines that hold a setting. */
  predicate IsSettingLine(i: nat) {
    i == GameIntervalLine || i == ObsIntervalLine || i == ObsDirLine || i == StartupLine
  }

  /** The positions of the comment lines; the others are the four settings and empty lines. */
  predicate IsCommentLine(i: nat) {
    i == 0 || i == 1 || i == 3 || i == 6 || i == 7 || i == 8 || i == 11 || i == 14 || i == 15
  }

  /** What writing the default file does: the answer and the lines found in the file afterwards. */
  datatype Creation = Creation(returned: bool, lines: Option<seq<string>>)

  /**
   * Both functions answer true after writing every line and false when the
   * file cannot be written; what a failed write leaves behind is not known.
   */
  function CreateDefault(writable: bool): (r: Creation)
    ensures r.returned == writable
    ensures r.returned ==> r.lines == Some(DefaultLines)
    ensures !r.returned ==> r.lines == None
  {
    if writable then Creation(true, Some(DefaultLines)) else Creation(false, None)
  }

  /** Every line of the default file is one of the four settings, a comment or empty. */
  lemma DefaultLineShapes(notes: seq<string>, g: int, o: int, i: nat)
    requires |notes| == 9 && i < 17
    ensures i == GameIntervalLine ==> DefaultFile(notes, g, o)[i] == KeyLine(GameIntervalKey, IntToString(g))
    ensures i == ObsIntervalLine ==> DefaultFile(notes, g, o)[i] == KeyLine(ObsIntervalKey, IntToString(o))
    ensures i == ObsDirLine ==> DefaultFile(notes, g, o)[i] == KeyLine(ObsDirKey, "")
    ensures i == StartupLine ==> DefaultFile(notes, g, o)[i] == KeyLine(StartupKey, "0")
    ensures IsCommentLine(i) ==> DefaultFile(notes, g, o)[i] != [] && DefaultFile(notes, g, o)[i][0] == '#'
    ensures !IsCommentLine(i) && !IsSettingLine(i) ==> DefaultFile(notes, g, o)[i] == ""
  {
    var l := DefaultFile(notes, g, o);
    if IsCommentLine(i) {
      var c := if i < 2 then i else if i == 3 then 2 else if i < 9 then i - 3 else if i == 11 then 6 else i - 7;
      assert l[i] == Comment(notes[c]);
    } else if !IsSettingLine(i) {
      assert i == 5 || i == 10 || i == 13 || i == 16;
    }
  }

  /** The interval lines of the file the programs write carry the digits 15000 and 5000. */
  lemma DefaultIntervalTexts()
    ensures DefaultLines[GameIntervalLine] == GameIntervalKey + "=15000"
    ensures DefaultLines[ObsIntervalLine] == ObsIntervalKey + "=5000"
  {
    NatDigitsOfDefaults();
  }

  lemma NatDigitsOfDefaults()
    ensures IntToString(15000) == "15000" && IntToString(5000) == "5000"
  {
    assert NatDigits(1) == "1";
    assert NatDigits(15) == "15";
    assert NatDigits(150) == "150";
    assert NatDigits(1500) == "1500";
    assert NatDigits(5) == "5";
    assert NatDigits(50) == "50";
    assert NatDigits(500) == "500";
  }

  // ---- The tray reader ----

  /** A line the tray reader passes over: skipped, or a setting with a key it does not know. */
  predicate Inert(k: LineKind) {
    k.Skipped? || (k.Setting? && !IsKey(k.key))
  }

  /** A comment line, even one with an '=', changes nothing: its key starts with '#'. */
  lemma CommentInert(line: string)
    requires line != [] && line[0] == '#'
    ensures Inert(Classify(line))
  {
    match SplitAtEquals(line)
    case None =>
      assert line[..1] == "#";
    case Some((k, v)) =>
      CommentKey(line, k, v);
      TrimKeepsHead(k);
  }

  /** The text before the first '=' of a comment line starts with '#'. */
  lemma CommentKey(line: string, k: string, v: string)
    requires line != [] && line[0] == '#'
    requires SplitAtEquals(line) == Some((k, v))
    ensures k != [] && k[0] == '#'
  {
    assert line[|k|] == '=';
  }

  /** Trimming a key that starts with '#' keeps that '#' in front, so it is no known key. */
  lemma TrimKeepsHead(k: string)
    requires k != [] && k[0] == '#'
    ensures Trim(k) != [] && Trim(k)[0] == '#' && !IsKey(Trim(k))
  {
    assert !IsDotNetSpace('#');
    assert TrimStart(k, IsDotNetSpace) == k;
    var r := TrimEnd(k, IsDotNetSpace);
    TrimEndFacts(k, IsDotNetSpace);
    assert r[0] == k[0];
    assert Trim(k) == r;
    HashIsNoKey(r);
  }

  lemma HashIsNoKey(key: string)
    requires key != [] && key[0] == '#'
    ensures !IsKey(key)
  {
  }

  lemma BlankInert()
    ensures Inert(Classify(""))
  {
    assert SplitAtEquals("").None?;
  }

  /** The kind of line i of the default file, as the tray reader sees it. */
  predicate TrayKindAt(i: nat, g: int, o: int, k: LineKind) {
    if i == GameIntervalLine then k == Setting(GameIntervalKey, IntToString(g), Some(g))
    else if i == ObsIntervalLine then k == Setting(ObsIntervalKey, IntToString(o), Some(o))
    else if i == ObsDirLine then k == Setting(ObsDirKey, "", None)
    else if i == StartupLine then k == Setting(StartupKey, "0", Some(0))
    else Inert(k)
  }

  lemma TrayKinds(notes: seq<string>, g: int, o: int, i: nat)
    requires |notes| == 9 && IsInt32(g) && IsInt32(o) && i < 17
    ensures TrayKindAt(i, g, o, Kinds(DefaultFile(notes, g, o))[i])
  {
    var line := DefaultFile(notes, g, o)[i];
    DefaultLineShapes(notes, g, o, i);
    if i == GameIntervalLine {
      TrayIntervalKind(GameIntervalKey, g);
    } else if i == ObsIntervalLine {
      TrayIntervalKind(ObsIntervalKey, o);
    } else if i == ObsDirLine {
      KeyLineKind(ObsDirKey, "");
    } else if i == StartupLine {
      TrayStartupKind();
    } else if line == "" {
      BlankInert();
    } else {
      CommentInert(line);
    }
  }

  /** A key written with the decimal text of an int is read as that int. */
  lemma TrayIntervalKind(key: string, n: int)
    requires IsKey(key) && IsInt32(n)
    ensures Classify(KeyLine(key, IntToString(n))) == Setting(key, IntToString(n), Some(n))
  {
    var s := IntToString(n);
    KeyLineKind(key, s);
    NumberUntrimmed(s);
    ParseInt32OfIntToString(n);
  }

  /** Decimal text has no white space at either end, so trimming keeps it. */
  lemma NumberUntrimmed(s: string)
    requires s != [] && (IsDigit(s[0]) || s[0] == '-') && IsDigit(s[|s| - 1])
    ensures Trim(s) == s
  {
    assert !IsDotNetSpace(s[0]) && !IsDotNetSpace(s[|s| - 1]);
    TrimWithFixed(s, IsDotNetSpace);
  }

  lemma TrayStartupKind()
    ensures Classify(KeyLine(StartupKey, "0")) == Setting(StartupKey, "0", Some(0))
  {
    KeyLineKind(StartupKey, "0");
    TrimWithFixed("0", IsDotNetSpace);
    assert IntToString(0) == "0";
    ParseInt32OfIntToString(0);
  }

  /**
   * Read by the tray application, a default file gives the intervals it
   * was written with, an empty OBS directory, no start on boot and no
   * games, whatever the comments say.
   */
  lemma TrayReadsFile(c: Config, notes: seq<string>, g: int, o: int)
    requires |notes| == 9 && IsInt32(g) && IsInt32(o)
    ensures ReadConfigFile(c, Some(DefaultFile(notes, g, o))) == ReadResult(Config("", g, o, [], false), true)
  {
    var ks := Kinds(DefaultFile(notes, g, o));
    forall i | 0 <= i < 17 ensures TrayKindAt(i, g, o, ks[i]) {
      TrayKinds(notes, g, o, i);
    }
    TrayReadsKinds(c.(gameProcessNames := []), ks, g, o);
  }

  /** The tray reader on lines of the default file's kinds. */
  lemma TrayReadsKinds(c: Config, ks: seq<LineKind>, g: int, o: int)
    requires c.gameProcessNames == []
    requires |ks| == 17 && forall i | 0 <= i < 17 :: TrayKindAt(i, g, o, ks[i])
    ensures ReadLines(c, ks) == ReadResult(Config("", g, o, [], false), true)
  {
    KeysDistinct();
    TrayAllParse(ks, g, o);
    TrayLastSetting(ks, g, o, GameIntervalLine);
    TrayLastSetting(ks, g, o, ObsIntervalLine);
    TrayLastSetting(ks, g, o, ObsDirLine);
    TrayLastSetting(ks, g, o, StartupLine);
    GameEntriesNone(ks);
    ReadLinesAllParse(c, ks);
  }

  lemma TrayAllParse(ks: seq<LineKind>, g: int, o: int)
    requires |ks| == 17 && forall i | 0 <= i < 17 :: TrayKindAt(i, g, o, ks[i])
    ensures AllLinesParse(ks)
  {
    forall i | 0 <= i < 17 ensures LineParses(ks[i]) {
      assert TrayKindAt(i, g, o, ks[i]);
    }
  }

  /** The setting at position j of the default file is the last one of its key. */
  lemma TrayLastSetting(ks: seq<LineKind>, g: int, o: int, j: nat)
    requires |ks| == 17 && forall i | 0 <= i < 17 :: TrayKindAt(i, g, o, ks[i])
    requires IsSettingLine(j)
    requires GameIntervalKey != ObsIntervalKey && GameIntervalKey != ObsDirKey && GameIntervalKey != StartupKey
    requires ObsIntervalKey != ObsDirKey && ObsIntervalKey != StartupKey && ObsDirKey != StartupKey
    ensures ks[j].Setting? && LastSetting(ks, ks[j].key) == Some(ks[j])
  {
    assert TrayKindAt(j, g, o, ks[j]);
    forall i | 0 <= i < 17 && ks[i].Setting? && ks[i].key == ks[j].key ensures ks[i] == ks[j] {
      assert TrayKindAt(i, g, o, ks[i]);
    }
    LastSettingUniform(ks, ks[j].key, ks[j]);
  }

  /** The file the programs write reads back, in the tray application, as its settings form's defaults. */
  lemma TrayReadsDefault(c: Config)
    ensures ReadConfigFile(c, Some(DefaultLines))
      == ReadResult(Config("", TraySettings.DefaultGameInterval, TraySettings.DefaultObsInterval, [], false), true)
  {
    TrayReadsFile(c, DefaultNotes, 15000, 5000);
  }

  // ---- The console reader ----

  /** The kind of line i of the default file, as the console reader sees it: every comment is a game name. */
  predicate ConsoleKindAt(i: nat, g: int, o: int, line: string, k: LineKind) {
    if i == GameIntervalLine then k == Setting(GameIntervalKey, IntToString(g), Some(g))
    else if i == ObsIntervalLine then k == Setting(ObsIntervalKey, IntToString(o), Some(o))
    else if i == ObsDirLine then k == Setting(ObsDirKey, "", None)
    else if i == StartupLine then k.Setting? && k.key == StartupKey && k.value == "0"
    else k == (if IsCommentLine(i) then GameName(line) else Skipped)
  }

  lemma ConsoleKinds(notes: seq<string>, g: int, o: int, i: nat)
    requires |notes| == 9 && IsInt32(g) && IsInt32(o) && i < 17
    ensures ConsoleKindAt(i, g, o, DefaultFile(notes, g, o)[i], ConsoleApp.LinesOf(DefaultFile(notes, g, o))[i])
  {
    var line := DefaultFile(notes, g, o)[i];
    DefaultLineShapes(notes, g, o, i);
    if i == GameIntervalLine {
      ConsoleApp.KeyLineOf(GameIntervalKey, IntToString(g));
      StoiOfIntToString(g);
    } else if i == ObsIntervalLine {
      ConsoleApp.KeyLineOf(ObsIntervalKey, IntToString(o));
      StoiOfIntToString(o);
    } else if i == ObsDirLine {
      ConsoleApp.KeyLineOf(ObsDirKey, "");
    } else if i == StartupLine {
      ConsoleApp.KeyLineOf(StartupKey, "0");
    } else if IsCommentLine(i) {
      ConsoleApp.CommentIsGame(line);
    } else {
      ConsoleApp.OnlyEmptySkipped(line);
    }
  }

  /** The comment lines among the first n lines, in order. */
  function CommentsUpTo(l: seq<string>, n: nat): seq<string>
    requires n <= |l|
  {
    if n == 0 then [] else CommentsUpTo(l, n - 1) + if IsCommentLine(n - 1) then [l[n - 1]] else []
  }

  /** The console reader's game names from lines of the default file's kinds: its comment lines, in order. */
  lemma {:induction false} ConsoleGames(l: seq<string>, ks: seq<LineKind>, g: int, o: int)
    requires |ks| <= |l| && |ks| <= 17
    requires forall i {:trigger ks[i]} | 0 <= i < |ks| :: ConsoleKindAt(i, g, o, l[i], ks[i])
    ensures GameEntries(ks) == CommentsUpTo(l, |ks|)
  {
    if ks != [] {
      var prefix := ks[..|ks| - 1];
      assert forall i {:trigger prefix[i]} | 0 <= i < |prefix| :: prefix[i] == ks[i];
      ConsoleGames(l, prefix, g, o);
    }
  }

  /** The nine comment lines of the default file, in order. */
  lemma DefaultComments(notes: seq<string>, g: int, o: int)
    requires |notes| == 9
    ensures CommentsUpTo(DefaultFile(notes, g, o), 17) == CommentLines(notes)
  {
    var l := DefaultFile(notes, g, o);
    assert CommentsUpTo(l, 1) == [l[0]];
    assert CommentsUpTo(l, 2) == [l[0], l[1]];
    assert CommentsUpTo(l, 3) == [l[0], l[1]];
    assert CommentsUpTo(l, 4) == [l[0], l[1], l[3]];
    assert CommentsUpTo(l, 5) == [l[0], l[1], l[3]];
    assert CommentsUpTo(l, 6) == [l[0], l[1], l[3]];
    assert CommentsUpTo(l, 7) == [l[0], l[1], l[3], l[6]];
    assert CommentsUpTo(l, 8) == [l[0], l[1], l[3], l[6], l[7]];
    assert CommentsUpTo(l, 9) == [l[0], l[1], l[3], l[6], l[7], l[8]];
    assert CommentsUpTo(l, 10) == [l[0], l[1], l[3], l[6], l[7], l[8]];
    assert CommentsUpTo(l, 11) == [l[0], l[1], l[3], l[6], l[7], l[8]];
    assert CommentsUpTo(l, 12) == [l[0], l[1], l[3], l[6], l[7], l[8], l[11]];
    assert CommentsUpTo(l, 13) == [l[0], l[1], l[3], l[6], l[7], l[8], l[11]];
    assert CommentsUpTo(l, 14) == [l[0], l[1], l[3], l[6], l[7], l[8], l[11]];
    assert CommentsUpTo(l, 15) == [l[0], l[1], l[3], l[6], l[7], l[8], l[11], l[14]];
    assert CommentsUpTo(l, 16) == [l[0], l[1], l[3], l[6], l[7], l[8], l[11], l[14], l[15]];
    assert CommentsUpTo(l, 17) == [l[0], l[1], l[3], l[6], l[7], l[8], l[11], l[14], l[15]];
  }

  /** The console reader on lines of the default file's kinds. */
  lemma ConsoleReadsKinds(c: Config, l: seq<string>, ks: seq<LineKind>, g: int, o: int)
    requires c.gameProcessNames == []
    requires |l| == 17 && |ks| == 17 && forall i {:trigger ks[i]} | 0 <= i < 17 :: ConsoleKindAt(i, g, o, l[i], ks[i])
    ensures ReadLines(c, ks) == ReadResult(Config("", g, o, CommentsUpTo(l, 17), false), true)
  {
    KeysDistinct();
    ConsoleAllParse(l, ks, g, o);
    ConsoleLastSetting(l, ks, g, o, GameIntervalLine);
    ConsoleLastSetting(l, ks, g, o, ObsIntervalLine);
    ConsoleLastSetting(l, ks, g, o, ObsDirLine);
    ConsoleLastSetting(l, ks, g, o, StartupLine);
    ConsoleGames(l, ks, g, o);
    ReadLinesAllParse(c, ks);
  }

  lemma ConsoleAllParse(l: seq<string>, ks: seq<LineKind>, g: int, o: int)
    requires |l| == 17 && |ks| == 17 && forall i {:trigger ks[i]} | 0 <= i < 17 :: ConsoleKindAt(i, g, o, l[i], ks[i])
    ensures AllLinesParse(ks)
  {
    forall i | 0 <= i < 17 ensures LineParses(ks[i]) {
      assert ConsoleKindAt(i, g, o, l[i], ks[i]);
    }
  }

  /** The setting at position j of the default file is the last one of its key. */
  lemma ConsoleLastSetting(l: seq<string>, ks: seq<LineKind>, g: int, o: int, j: nat)
    requires |l| == 17 && |ks| == 17 && forall i {:trigger ks[i]} | 0 <= i < 17 :: ConsoleKindAt(i, g, o, l[i], ks[i])
    requires IsSettingLine(j)
    requires GameIntervalKey != ObsIntervalKey && GameIntervalKey != ObsDirKey && GameIntervalKey != StartupKey
    requires ObsIntervalKey != ObsDirKey && ObsIntervalKey != StartupKey && ObsDirKey != StartupKey
    ensures ks[j].Setting? && LastSetting(ks, ks[j].key) == Some(ks[j])
  {
    assert ConsoleKindAt(j, g, o, l[j], ks[j]);
    forall i | 0 <= i < 17 && ks[i].Setting? && ks[i].key == ks[j].key ensures ks[i] == ks[j] {
      assert ConsoleKindAt(i, g, o, l[i], ks[i]);
    }
    LastSettingUniform(ks, ks[j].key, ks[j]);
  }

  /**
   * Read by the console application, a default file gives the intervals it
   * was written with, an empty OBS directory and no start on boot, but each
   * of its nine comment lines becomes a game name.
   */
  lemma ConsoleReadsFile(c: Config, notes: seq<string>, g: int, o: int)
    requires |notes| == 9 && IsInt32(g) && IsInt32(o)
    ensures ConsoleApp.ReadConfig(c, Some(DefaultFile(notes, g, o)), true)
      == ConsoleApp.ConsoleRead(Config("", g, o, CommentLines(notes), false), ConsoleApp.Loaded)
  {
    var l := DefaultFile(notes, g, o);
    var ks := ConsoleApp.LinesOf(l);
    forall i {:trigger ks[i]} | 0 <= i < 17 ensures ConsoleKindAt(i, g, o, l[i], ks[i]) {
      ConsoleKinds(notes, g, o, i);
    }
    ConsoleReadsKinds(c.(gameProcessNames := []), l, ks, g, o);
    DefaultComments(notes, g, o);
  }

  /**
   * The file the programs write reads back, in the console application, as
   * the default intervals with nine game names, each a comment line.
   */
  lemma ConsoleReadsDefault(c: Config, created: bool)
    ensures ConsoleApp.ReadConfig(c, Some(DefaultLines), created)
      == ConsoleApp.ConsoleRead(Config("", 15000, 5000, CommentLines(DefaultNotes), false), ConsoleApp.Loaded)
    ensures forall g | g in ConsoleApp.ReadConfig(c, Some(DefaultLines), created).config.gameProcessNames :: g != [] && g[0] == '#'
  {
    ConsoleReadsFile(c, DefaultNotes, 15000, 5000);
  }

  /**
   * On a first run the console application writes the default file but
   * reads nothing from the stream that failed to open: the old settings
   * stay and the game list is empty; when the file cannot be written it exits.
   */
  lemma ConsoleFirstRunReadsNothing(c: Config)
    ensures ConsoleApp.ReadConfig(c, None, CreateDefault(true).returned)
      == ConsoleApp.ConsoleRead(c.(gameProcessNames := []), ConsoleApp.Loaded)
    ensures ConsoleApp.ReadConfig(c, None, CreateDefault(false).returned)
      == ConsoleApp.ConsoleRead(c, ConsoleApp.Exited)
  {
  }
}
