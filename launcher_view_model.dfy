/**
 * The legacy (WinForms) launcher window's model: how a daemon log entry
 * becomes a line of the log box, and how the launcher settings are mapped to
 * and from the stored application settings.
 */
module LegacyLauncher {
  import opened Wrappers
  import opened Launcher

  /** The line terminator appended to every log line (Windows). */
  const NewLine := "\r\n"

  /**
   * Numeric values of the daemon's log level and category enums. The message
   * schema that fixes them is not part of this model, so they are parameters;
   * the five level values are distinct, as the case labels of a switch must be.
   */
  datatype LogCodes = LogCodes(debug: int, info: int, warn: int, error: int, fatal: int, alert: int) {
    predicate Distinct() {
      && debug != info && debug != warn && debug != error && debug != fatal
      && info != warn && info != error && info != fatal
      && warn != error && warn != fatal
      && error != fatal
    }
  }

  /** The level column: one letter per known level, "I " for Info and for any unknown level. */
  function LevelPrefix(level: int, codes: LogCodes): (r: string)
    requires codes.Distinct()
    ensures |r| == 2 && r[1] == ' '
    ensures r == "D " <==> level == codes.debug
    ensures r == "W " <==> level == codes.warn
    ensures r == "E " <==> level == codes.error
    ensures r == "F " <==> level == codes.fatal
    ensures r == "I " <==> level != codes.debug && level != codes.warn && level != codes.error && level != codes.fatal
    ensures level == codes.info ==> r == "I "
  {
    if level == codes.debug then "D "
    else if level == codes.warn then "W "
    else if level == codes.error then "E "
    else if level == codes.fatal then "F "
    else "I "
  }

  /** A line of the log box: source, level column, text, line terminator. */
  function FormatLine(source: string, prefix: string, data: string): string {
    source + " " + prefix + data + NewLine
  }

  /** The fields a log line can be read back into. */
  datatype LineParts = LineParts(source: string, letter: char, data: string)

  /** Index of the first space in `s`, if any. */
  function FirstSpace(s: string): (r: Option<nat>)
    ensures r.Some? ==> r.value < |s| && s[r.value] == ' ' && ' ' !in s[..r.value]
    ensures r.None? ==> ' ' !in s
  {
    if s == [] then None
    else if s[0] == ' ' then Some(0)
    else
      var rest := FirstSpace(s[1..]);
      if rest.None? then None
      else
        assert s[..rest.value + 1] == [s[0]] + s[1..][..rest.value];
        Some(rest.value + 1)
  }

  /** Reads a log line back into source, level letter and text. */
  function ParseLine(line: string): Option<LineParts> {
    match FirstSpace(line)
    case None => None
    case Some(i) =>
      if |line| < i + 5 || line[i + 2] != ' ' || line[|line| - 2..] != NewLine then None
      else Some(LineParts(line[..i], line[i + 1], line[i + 3..|line| - 2]))
  }

  lemma FirstSpaceOfPrefixed(source: string, rest: string)
    requires ' ' !in source
    ensures FirstSpace(source + " " + rest) == Some(|source|)
    decreases |source|
  {
    if source != [] {
      assert (source + " " + rest)[1..] == source[1..] + " " + rest;
      FirstSpaceOfPrefixed(source[1..], rest);
    }
  }

  /** A line built from a space-free source reads back into its source, level letter and text. */
  lemma ParseFormattedLine(source: string, level: int, codes: LogCodes, data: string)
    requires codes.Distinct() && ' ' !in source
    ensures ParseLine(FormatLine(source, LevelPrefix(level, codes), data))
            == Some(LineParts(source, LevelPrefix(level, codes)[0], data))
  {
    var prefix := LevelPrefix(level, codes);
    var line := FormatLine(source, prefix, data);
    var i := |source|;
    assert line == source + " " + (prefix + data + NewLine);
    FirstSpaceOfPrefixed(source, prefix + data + NewLine);
    assert line[..i] == source;
    assert line[i + 1] == prefix[0] && line[i + 2] == ' ';
    assert line[|line| - 2..] == NewLine;
    assert line[i + 3..|line| - 2] == data;
  }

  // ---- Settings ----

  /** The stored application settings the launcher uses. */
  datatype Settings = Settings(upgradeRequired: bool, suppressInfo: bool, logTextWrapping: bool)

  /**
   * Settings after start-up: when an upgrade is pending, the previous
   * version's values are taken over (if there are any) and the flag is
   * cleared; otherwise the stored settings are used as they are.
   */
  function Upgraded(stored: Settings, previous: Option<Settings>): (r: Settings)
    ensures !r.upgradeRequired
    ensures !stored.upgradeRequired ==> r == stored
    ensures stored.upgradeRequired && previous.None? ==> r == stored.(upgradeRequired := false)
    ensures stored.upgradeRequired && previous.Some? ==> r == previous.value.(upgradeRequired := false)
  {
    if stored.upgradeRequired then previous.GetOr(stored).(upgradeRequired := false) else stored
  }

  /** A second start-up does not upgrade again. */
  lemma UpgradeRunsOnce(stored: Settings, previous: Option<Settings>, later: Option<Settings>)
    ensures Upgraded(Upgraded(stored, previous), later) == Upgraded(stored, previous)
  {
  }

  /** NotificationMode as loaded from the settings. */
  function LoadedMode(s: Settings): (mode: int)
    ensures mode == 0 || mode == 1
  {
    if s.suppressInfo then 1 else 0
  }

  /** The settings after Save has written the notification mode and the wrapping flag. */
  function Saved(s: Settings, notificationMode: int, logTextWrapping: bool): Settings {
    s.(suppressInfo := notificationMode != 0, logTextWrapping := logTextWrapping)
  }

  /** Save then load: mode 0 stays 0, every other mode comes back as 1; wrapping round-trips. */
  lemma SaveThenLoad(s: Settings, notificationMode: int, logTextWrapping: bool)
    ensures LoadedMode(Saved(s, notificationMode, logTextWrapping)) == if notificationMode == 0 then 0 else 1
    ensures Saved(s, notificationMode, logTextWrapping).logTextWrapping == logTextWrapping
    ensures Saved(s, notificationMode, logTextWrapping).upgradeRequired == s.upgradeRequired
  {
  }

  /** Load then save leaves the settings as they were. */
  lemma LoadThenSave(s: Settings)
    ensures Saved(s, LoadedMode(s), s.logTextWrapping) == s
  {
  }

  /** A log entry pushed by the daemon; the launcher rewrites its text in place. */
  class LogEntry {
    var source: string
    var level: int
    var category: int
    var time: int
    var data: string

    constructor (source: string, level: int, category: int, time: int, data: string)
      ensures this.source == source && this.level == level && this.category == category
      ensures this.time == time && this.data == data
    {
      this.source := source;
      this.level := level;
      this.category := category;
      this.time := time;
      this.data := data;
    }
  }

  class LauncherViewModel {
    const model: LauncherModel
    var settings: Settings
    /** Content of the log box. */
    var logText: string

    /**
     * Builds the launcher model, runs a pending settings upgrade and loads the
     * wrapping flag and the notification mode. `previous` stands for the
     * previous version's settings, if any.
     */
    constructor (stored: Settings, previous: Option<Settings>)
      ensures fresh(model)
      ensures settings == Upgraded(stored, previous)
      ensures model.logTextWrapping == settings.logTextWrapping
      ensures model.notificationMode == LoadedMode(settings)
      ensures !model.connected && model.nodes == [] && model.config == null && !model.switchingMode
      ensures logText == ""
    {
      var m := new LauncherModel();
      var s := stored;
      if s.upgradeRequired {
        s := previous.GetOr(s);
        s := s.(upgradeRequired := false);
      }
      m.logTextWrapping := s.logTextWrapping;
      m.notificationMode := if s.suppressInfo then 1 else 0;
      model := m;
      settings := s;
      logText := "";
    }

    /** Writes the notification mode (as "suppress info") and the wrapping flag into the settings. */
    method Save()
      modifies this`settings
      ensures settings == Saved(old(settings), model.notificationMode, model.logTextWrapping)
      ensures settings.upgradeRequired == old(settings.upgradeRequired)
    {
      settings := settings.(suppressInfo := model.notificationMode != 0);
      settings := settings.(logTextWrapping := model.logTextWrapping);
    }

    /**
     * Shows one log entry. Alert entries are dropped untouched. Otherwise the
     * entry's text gets the formatted timestamp in front when its level value
     * is nonzero, and the line is appended to the log box. `stamp` stands for
     * parsing and formatting the entry's time.
     */
    method Log(l: LogEntry, codes: LogCodes, stamp: int -> string) returns (line: Option<string>)
      requires codes.Distinct()
      modifies l, this`logText
      ensures l.source == old(l.source) && l.level == old(l.level) && l.category == old(l.category)
      ensures l.time == old(l.time)
      ensures l.category == codes.alert ==> line == None && l.data == old(l.data) && logText == old(logText)
      ensures l.category != codes.alert ==>
                && l.data == (if l.level != 0 then stamp(l.time) + " " + old(l.data) else old(l.data))
                && line == Some(FormatLine(l.source, LevelPrefix(l.level, codes), l.data))
                && logText == old(logText) + line.value
    {
      if l.category == codes.alert {
        return None;
      }
      var prefix := LevelPrefix(l.level, codes);
      if l.level != 0 {
        l.data := stamp(l.time) + " " + l.data;
      }
      line := Some(l.source + " " + prefix + l.data + NewLine);
      logText := logText + line.value;
    }

    method ClearLog()
      modifies this`logText
      ensures logText == ""
    {
      logText := "";
    }
  }
}
