/**
 * SftpPathUtils: a server's directories as the repair hook sees them, and
 * the file searches that fall back to a looked-up directory when the
 * configured one yields nothing.
 */
module PathUtils {
  import opened Wrappers
  import opened JavaStrings
  import opened Domain
  import opened RepairHook

  /**
   * getResolvedDeathlogDirectory for a server with identity s and CSV
   * directory dir, under a hook with this switch and connector.
   */
  function ResolvedDeathlogDirectory(enabled: bool, hookConnector: Option<Connector>, s: Identity, dir: Option<string>): (r: Option<string>)
    ensures r == CsvHook(enabled, hookConnector, s, dir, dir)
  {
    var resolved := CsvHook(enabled, hookConnector, s, dir, dir);
    if resolved.Some? && resolved != dir then resolved else dir
  }

  /** getResolvedLogDirectory for a server with identity s and log directory dir. */
  function ResolvedLogDirectory(enabled: bool, hookConnector: Option<Connector>, s: Identity, dir: Option<string>): (r: Option<string>)
    ensures r == LogHook(enabled, hookConnector, s, dir, dir)
  {
    var resolved := LogHook(enabled, hookConnector, s, dir, dir);
    if resolved.Some? && resolved != dir then resolved else dir
  }

  /** getResolvedDeathlogDirectory: null for a null server, otherwise the hook's answer for its own directory. */
  function GetResolvedDeathlogDirectory(hook: ParserPathRepairHook, server: GameServer?): (r: Option<string>)
    reads hook, server
    ensures server == null ==> r.None?
    ensures server != null ==> r == hook.GetCsvPathHook(server, server.deathlogsDirectory)
  {
    if server == null then None
    else ResolvedDeathlogDirectory(hook.autoRepairEnabled, hook.sftpConnector, server.ident, server.deathlogsDirectory)
  }

  /** getResolvedLogDirectory: null for a null server, otherwise the hook's answer for its own directory. */
  function GetResolvedLogDirectory(hook: ParserPathRepairHook, server: GameServer?): (r: Option<string>)
    reads hook, server
    ensures server == null ==> r.None?
    ensures server != null ==> r == hook.GetLogPathHook(server, server.logDirectory)
  {
    if server == null then None
    else ResolvedLogDirectory(hook.autoRepairEnabled, hook.sftpConnector, server.ident, server.logDirectory)
  }

  // ---------------------------------------------------------------------
  // The file searches, as written: the retry is compared with the hook's
  // resolved directory, which is never written to the server.

  /**
   * findDeathlogFilesWithResolution for a non-null server and connector:
   * the files and the CSV directory the server ends with. The files are
   * the listing of the configured directory when that is non-empty; else
   * the directory lookup is retried when it differs from the resolved
   * directory.
   */
  function DeathlogLookup(enabled: bool, hookConnector: Option<Connector>, c: Connector, s: Identity, dir: Option<string>): (r: (seq<string>, Option<string>))
    ensures r.0 == c.findDeathlogFiles(s, r.1)
    ensures r.1 != dir ==> r.1 == c.findCsvPath(s, dir) && r.1.Some? && |c.findDeathlogFiles(s, dir)| == 0
    ensures |c.findDeathlogFiles(s, dir)| > 0 ==> r == (c.findDeathlogFiles(s, dir), dir)
  {
    var resolved := ResolvedDeathlogDirectory(enabled, hookConnector, s, dir);
    var files := c.findDeathlogFiles(s, dir);
    if |files| > 0 then (files, dir)
    else
      var fixed := c.findCsvPath(s, dir);
      if fixed.Some? && fixed != resolved then (c.findDeathlogFiles(s, fixed), fixed)
      else (files, dir)
  }

  /**
   * findLogFileWithResolution for a non-null server and connector: the log
   * file and the log directory the server ends with.
   */
  function LogFileLookup(enabled: bool, hookConnector: Option<Connector>, c: Connector, s: Identity, dir: Option<string>): (r: (Option<string>, Option<string>))
    ensures r.0 == c.findLogFile(s, r.1)
    ensures r.1 != dir ==> r.1 == c.findLogPath(s, dir) && r.1.Some? && NullOrEmpty(c.findLogFile(s, dir))
    ensures !NullOrEmpty(c.findLogFile(s, dir)) ==> r == (c.findLogFile(s, dir), dir)
  {
    var resolved := ResolvedLogDirectory(enabled, hookConnector, s, dir);
    var logFile := c.findLogFile(s, dir);
    if !NullOrEmpty(logFile) then (logFile, dir)
    else
      var fixed := c.findLogPath(s, dir);
      if fixed.Some? && fixed != resolved then (c.findLogFile(s, fixed), fixed)
      else (logFile, dir)
  }

  /**
   * findDeathlogFilesWithResolution: nothing for a null server or
   * connector; otherwise DeathlogLookup, with only the CSV directory
   * possibly changed.
   */
  method FindDeathlogFilesWithResolution(hook: ParserPathRepairHook, server: GameServer?, connector: Option<Connector>)
    returns (files: seq<string>)
    modifies server
    ensures server == null || connector.None? ==> files == []
    ensures server != null && connector.None? ==> unchanged(server)
    ensures server != null && connector.Some? ==>
      (files, server.deathlogsDirectory)
        == DeathlogLookup(hook.autoRepairEnabled, hook.sftpConnector, connector.value, server.ident, old(server.deathlogsDirectory))
      && server.logDirectory == old(server.logDirectory)
  {
    if server == null || connector.None? {
      return [];
    }
    var resolvedPath := GetResolvedDeathlogDirectory(hook, server);
    files := connector.value.findDeathlogFiles(server.ident, server.deathlogsDirectory);
    if |files| > 0 {
      var _ := hook.RecordSuccessfulCsvPath(server, resolvedPath);
      return;
    }
    var fixedPath := FindPath(connector.value, server, Csv);
    if fixedPath.Some? && fixedPath != resolvedPath {
      server.deathlogsDirectory := fixedPath;
      files := connector.value.findDeathlogFiles(server.ident, server.deathlogsDirectory);
    }
  }

  /**
   * findLogFileWithResolution: null for a null server or connector;
   * otherwise LogFileLookup, with only the log directory possibly changed.
   */
  method FindLogFileWithResolution(hook: ParserPathRepairHook, server: GameServer?, connector: Option<Connector>)
    returns (logFile: Option<string>)
    modifies server
    ensures server == null || connector.None? ==> logFile.None?
    ensures server != null && connector.None? ==> unchanged(server)
    ensures server != null && connector.Some? ==>
      (logFile, server.logDirectory)
        == LogFileLookup(hook.autoRepairEnabled, hook.sftpConnector, connector.value, server.ident, old(server.logDirectory))
      && server.deathlogsDirectory == old(server.deathlogsDirectory)
  {
    if server == null || connector.None? {
      return None;
    }
    var resolvedPath := GetResolvedLogDirectory(hook, server);
    logFile := connector.value.findLogFile(server.ident, server.logDirectory);
    if !NullOrEmpty(logFile) {
      var _ := hook.RecordSuccessfulLogPath(server, resolvedPath);
      return;
    }
    var fixedPath := FindPath(connector.value, server, Log);
    if fixedPath.Some? && fixedPath != resolvedPath {
      server.logDirectory := fixedPath;
      logFile := connector.value.findLogFile(server.ident, server.logDirectory);
    }
  }

  // ---------------------------------------------------------------------
  // The evidently intended searches: retry whenever the lookup names a
  // directory other than the configured one.

  /** The deathlog search with the retry compared against the configured directory. */
  function DeathlogLookupCorrected(c: Connector, s: Identity, dir: Option<string>): (r: (seq<string>, Option<string>))
    ensures r.0 == c.findDeathlogFiles(s, r.1)
    ensures |c.findDeathlogFiles(s, dir)| > 0 ==> r == (c.findDeathlogFiles(s, dir), dir)
    ensures |c.findDeathlogFiles(s, dir)| == 0 && c.findCsvPath(s, dir).Some? && c.findCsvPath(s, dir) != dir ==>
      r.1 == c.findCsvPath(s, dir)
  {
    var files := c.findDeathlogFiles(s, dir);
    if |files| > 0 then (files, dir)
    else
      var fixed := c.findCsvPath(s, dir);
      if fixed.Some? && fixed != dir then (c.findDeathlogFiles(s, fixed), fixed)
      else (files, dir)
  }

  /** The log file search with the retry compared against the configured directory. */
  function LogFileLookupCorrected(c: Connector, s: Identity, dir: Option<string>): (r: (Option<string>, Option<string>))
    ensures r.0 == c.findLogFile(s, r.1)
    ensures !NullOrEmpty(c.findLogFile(s, dir)) ==> r == (c.findLogFile(s, dir), dir)
    ensures NullOrEmpty(c.findLogFile(s, dir)) && c.findLogPath(s, dir).Some? && c.findLogPath(s, dir) != dir ==>
      r.1 == c.findLogPath(s, dir)
  {
    var logFile := c.findLogFile(s, dir);
    if !NullOrEmpty(logFile) then (logFile, dir)
    else
      var fixed := c.findLogPath(s, dir);
      if fixed.Some? && fixed != dir then (c.findLogFile(s, fixed), fixed)
      else (logFile, dir)
  }

  /** When the hook leaves the directory as it is, the written search is the intended one. */
  lemma DeathlogLookupAgreesUnresolved(enabled: bool, hookConnector: Option<Connector>, c: Connector, s: Identity, dir: Option<string>)
    requires ResolvedDeathlogDirectory(enabled, hookConnector, s, dir) == dir
    ensures DeathlogLookup(enabled, hookConnector, c, s, dir) == DeathlogLookupCorrected(c, s, dir)
  {
  }

  /** When the hook leaves the directory as it is, the written log search is the intended one. */
  lemma LogFileLookupAgreesUnresolved(enabled: bool, hookConnector: Option<Connector>, c: Connector, s: Identity, dir: Option<string>)
    requires ResolvedLogDirectory(enabled, hookConnector, s, dir) == dir
    ensures LogFileLookup(enabled, hookConnector, c, s, dir) == LogFileLookupCorrected(c, s, dir)
  {
  }

  // ---------------------------------------------------------------------
  // A server with no directories, whose connector finds "p" and one file there.

  function SampleIdentity(): Identity
  {
    Identity(1, Some("1"), Some("S"), "S", Some("h"), None)
  }

  function SampleConnector(): Connector
  {
    Connector(
      (s: Identity) => true,
      (s: Identity, p: string) => true,
      (s: Identity, d: Option<string>) => Some("p"),
      (s: Identity, d: Option<string>) => Some("p"),
      (s: Identity, d: Option<string>) => if d == Some("p") then ["f.csv"] else [],
      (s: Identity, d: Option<string>) => if d == Some("p") then Some("Deadside.log") else None)
  }

  /**
   * With the hook enabled on the same connector, a server whose directory
   * is unset gets no deathlog files and keeps its unset directory, though
   * the lookup names a directory that has a file.
   */
  lemma DeathlogRetrySkipped()
    ensures var c, s := SampleConnector(), SampleIdentity();
      c.findCsvPath(s, None) == Some("p") && |c.findDeathlogFiles(s, Some("p"))| > 0
      && DeathlogLookup(true, Some(c), c, s, None) == ([], None)
      && DeathlogLookupCorrected(c, s, None) == (["f.csv"], Some("p"))
  {
    var c, s := SampleConnector(), SampleIdentity();
    assert CsvHook(true, Some(c), s, None, None) == Some("p");
    assert ResolvedDeathlogDirectory(true, Some(c), s, None) == Some("p");
  }

  /** The same server gets no log file either, though the looked-up directory has one. */
  lemma LogRetrySkipped()
    ensures var c, s := SampleConnector(), SampleIdentity();
      c.findLogPath(s, None) == Some("p") && c.findLogFile(s, Some("p")) == Some("Deadside.log")
      && LogFileLookup(true, Some(c), c, s, None) == (None, None)
      && LogFileLookupCorrected(c, s, None) == (Some("Deadside.log"), Some("p"))
  {
    var c, s := SampleConnector(), SampleIdentity();
    assert LogHook(true, Some(c), s, None, None) == Some("p");
    assert ResolvedLogDirectory(true, Some(c), s, None) == Some("p");
  }
}
