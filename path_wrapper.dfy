/**
 * ParserPathWrapper: runs the CSV and log parsers on a server after
 * repairing its directories when they do not look right.
 */
module PathWrapper {
  import opened Wrappers
  import opened JavaStrings
  import opened Domain
  import opened PathTracker
  import opened PathResolution
  import opened DirectResolution
  import opened PathIsolation

  /**
   * The parsers the wrapper forwards to, as functions of the server and
   * its directories at the time of the call; None stands for a parser
   * that throws.
   */
  datatype Parsers = Parsers(
    processDeathLogs: (Identity, Option<string>, Option<string>, bool) -> Option<int>,
    processDeathLogContent: (Identity, Option<string>, Option<string>, string) -> Option<int>,
    processLogs: (Identity, Option<string>, Option<string>) -> Option<int>)

  /** What the wrapper returns for a parser result: the count, or 0 when the parser threw. */
  function CountOf(r: Option<int>): (n: int)
    ensures r.Some? ==> n == r.value
    ensures r.None? ==> n == 0
  {
    if r.Some? then r.value else 0
  }

  /** The wrapper's own copy of the CSV directory check. */
  predicate CsvPathLooksValid(path: Option<string>)
  {
    path.Some? && |path.value| != 0
    && (Contains(path.value, "/actual1/deathlogs") || Contains(path.value, "\\actual1\\deathlogs")
        || Contains(path.value, "/actual/deathlogs") || Contains(path.value, "\\actual\\deathlogs"))
  }

  /** The wrapper's own copy of the log directory check. */
  predicate LogPathLooksValid(path: Option<string>)
  {
    path.Some? && |path.value| != 0 && (Contains(path.value, "/Logs") || Contains(path.value, "\\Logs"))
  }

  /** Both copies agree with PathResolutionFix's checks and with PathIsolationFix's needsFixing. */
  lemma WrapperChecksAgree(path: Option<string>)
    ensures CsvPathLooksValid(path) <==> IsValidCsvPath(path)
    ensures CsvPathLooksValid(path) <==> !NeedsFixing(path, Some("csv"))
    ensures LogPathLooksValid(path) <==> IsValidLogPath(path)
    ensures LogPathLooksValid(path) <==> !NeedsFixing(path, Some("log"))
  {
    assert EqualsIgnoreCase("csv", Some("csv")) && EqualsIgnoreCase("log", Some("log"));
    NeedsFixingCsvIsInvalid(path, "csv");
    NeedsFixingLogIsInvalid(path, "log");
  }

  /** Whether fixPathsIfNeeded calls the resolver at all. */
  predicate WantsFix(csvDir: Option<string>, logDir: Option<string>)
  {
    !CsvPathLooksValid(csvDir) || !LogPathLooksValid(logDir)
  }

  /** The fix is attempted exactly when PathIsolationFix would say the server needs fixing. */
  lemma WantsFixIffNeedsFixing(server: GameServer)
    ensures WantsFix(server.deathlogsDirectory, server.logDirectory) <==> ServerNeedsFixing(server)
  {
    WrapperChecksAgree(server.deathlogsDirectory);
    WrapperChecksAgree(server.logDirectory);
  }

  /** The directories after fixPathsIfNeeded: untouched when both look right, else those of the direct fix. */
  function AfterFix(c: Option<Connector>, s: Identity, csvDir: Option<string>, logDir: Option<string>): (r: (Option<string>, Option<string>))
    ensures !WantsFix(csvDir, logDir) ==> r == (csvDir, logDir)
    ensures IsValidCsvPath(csvDir) && IsValidLogPath(logDir) ==> r == (csvDir, logDir)
  {
    WrapperChecksAgree(csvDir);
    WrapperChecksAgree(logDir);
    if WantsFix(csvDir, logDir) then
      var f := Fix(c, s, csvDir, logDir);
      (f.csvDir, f.logDir)
    else (csvDir, logDir)
  }

  /** A repair never replaces a directory that the fix found nothing for, and never touches anything on a failed connection. */
  lemma AfterFixOnlyFound(c: Option<Connector>, s: Identity, csvDir: Option<string>, logDir: Option<string>)
    ensures var r := AfterFix(c, s, csvDir, logDir);
      (r.0 != csvDir ==> c.Some? && c.value.testConnection(s) && r.0 == c.value.findCsvPath(s, csvDir))
      && (r.1 != logDir ==> c.Some? && c.value.testConnection(s) && r.1 == c.value.findLogPath(s, logDir))
  {
  }

  /** The tracker after fixPathsIfNeeded: the direct fix's records when it ran, else as it was. */
  function TrackerAfterRepair(cache: PathCache, c: Option<Connector>, server: GameServer, csvDir: Option<string>, logDir: Option<string>): PathCache
  {
    if WantsFix(csvDir, logDir) then TrackerAfterFix(cache, c, server, csvDir, logDir) else cache
  }

  /** Whether fixPathsIfNeeded saves the server: the fix ran and reported pathsFixed. */
  predicate SavesAfterRepair(c: Option<Connector>, s: Identity, csvDir: Option<string>, logDir: Option<string>)
  {
    WantsFix(csvDir, logDir) && FixReports(c, s, csvDir, logDir)
  }

  class ParserPathWrapper {
    const parsers: Parsers
    const connector: Option<Connector>
    const repository: GameServerRepository?
    const tracker: ParserPathTracker
    var pathResolutionEnabled: bool

    constructor (parsers: Parsers, connector: Option<Connector>, repository: GameServerRepository?, tracker: ParserPathTracker)
      ensures this.parsers == parsers && this.connector == connector
      ensures this.repository == repository && this.tracker == tracker
      ensures pathResolutionEnabled
    {
      this.parsers := parsers;
      this.connector := connector;
      this.repository := repository;
      this.tracker := tracker;
      pathResolutionEnabled := true;
    }

    method SetPathResolutionEnabled(enabled: bool)
      modifies this
      ensures pathResolutionEnabled == enabled
    {
      pathResolutionEnabled := enabled;
    }

    /**
     * fixPathsIfNeeded: when either directory looks wrong, runs the direct
     * fix and saves the server when it reports pathsFixed (a null
     * repository throws at the save, which the catch swallows).
     */
    method FixPathsIfNeeded(server: GameServer)
      modifies server, tracker, repository
      ensures (server.deathlogsDirectory, server.logDirectory)
           == AfterFix(connector, server.ident, old(server.deathlogsDirectory), old(server.logDirectory))
      ensures tracker.serverPathCache
           == TrackerAfterRepair(old(tracker.serverPathCache), connector, server, old(server.deathlogsDirectory), old(server.logDirectory))
      ensures repository != null ==> repository.savedBatches == old(repository.savedBatches)
      ensures repository != null ==>
        repository.saved == old(repository.saved)
          + (if SavesAfterRepair(connector, server.ident, old(server.deathlogsDirectory), old(server.logDirectory)) then [server] else [])
    {
      var csvPathValid := CsvPathLooksValid(server.deathlogsDirectory);
      var logPathValid := LogPathLooksValid(server.logDirectory);
      if !csvPathValid || !logPathValid {
        PathsFixedMeansFound(connector, server.ident, server.deathlogsDirectory, server.logDirectory);
        var pathsFixed := FixServerPathsFlag(server, connector, tracker);
        if pathsFixed && repository != null {
          repository.Save(server);
        }
      }
    }

    /**
     * processDeathLogsWithPathResolution(server, processHistorical): 0 for
     * a null server; otherwise the paths are repaired first (when enabled)
     * and the CSV parser's count is returned, 0 when it throws.
     */
    method ProcessDeathLogs(server: GameServer?, processHistorical: bool) returns (n: int)
      modifies server, tracker, repository
      ensures server == null ==> n == 0
      ensures server == null || !pathResolutionEnabled ==>
        tracker.serverPathCache == old(tracker.serverPathCache) && (repository != null ==> unchanged(repository))
      ensures server != null && !pathResolutionEnabled ==>
        unchanged(server) && n == CountOf(parsers.processDeathLogs(server.ident, server.deathlogsDirectory, server.logDirectory, processHistorical))
      ensures server != null && pathResolutionEnabled ==>
        (server.deathlogsDirectory, server.logDirectory)
          == AfterFix(connector, server.ident, old(server.deathlogsDirectory), old(server.logDirectory))
        && n == CountOf(parsers.processDeathLogs(server.ident, server.deathlogsDirectory, server.logDirectory, processHistorical))
        && tracker.serverPathCache
           == TrackerAfterRepair(old(tracker.serverPathCache), connector, server, old(server.deathlogsDirectory), old(server.logDirectory))
        && (repository != null ==>
              repository.saved == old(repository.saved)
                + (if SavesAfterRepair(connector, server.ident, old(server.deathlogsDirectory), old(server.logDirectory)) then [server] else [])
              && repository.savedBatches == old(repository.savedBatches))
    {
      if server == null {
        return 0;
      }
      if pathResolutionEnabled {
        FixPathsIfNeeded(server);
      }
      n := CountOf(parsers.processDeathLogs(server.ident, server.deathlogsDirectory, server.logDirectory, processHistorical));
    }

    /** The one-argument overload: processHistorical is false. */
    method ProcessDeathLogsDefault(server: GameServer?) returns (n: int)
      modifies server, tracker, repository
      ensures server == null ==> n == 0
      ensures server != null ==>
        n == CountOf(parsers.processDeathLogs(server.ident, server.deathlogsDirectory, server.logDirectory, false))
      ensures server == null || !pathResolutionEnabled ==>
        tracker.serverPathCache == old(tracker.serverPathCache) && (repository != null ==> unchanged(repository))
      ensures server != null && !pathResolutionEnabled ==> unchanged(server)
      ensures server != null && pathResolutionEnabled ==>
        (server.deathlogsDirectory, server.logDirectory)
          == AfterFix(connector, server.ident, old(server.deathlogsDirectory), old(server.logDirectory))
        && tracker.serverPathCache
           == TrackerAfterRepair(old(tracker.serverPathCache), connector, server, old(server.deathlogsDirectory), old(server.logDirectory))
        && (repository != null ==>
              repository.saved == old(repository.saved)
                + (if SavesAfterRepair(connector, server.ident, old(server.deathlogsDirectory), old(server.logDirectory)) then [server] else [])
              && repository.savedBatches == old(repository.savedBatches))
    {
      n := ProcessDeathLogs(server, false);
    }

    /** processLogsWithPathResolution: the same guard and repair before the log parser. */
    method ProcessLogs(server: GameServer?) returns (n: int)
      modifies server, tracker, repository
      ensures server == null ==> n == 0
      ensures server == null || !pathResolutionEnabled ==>
        tracker.serverPathCache == old(tracker.serverPathCache) && (repository != null ==> unchanged(repository))
      ensures server != null && !pathResolutionEnabled ==>
        unchanged(server) && n == CountOf(parsers.processLogs(server.ident, server.deathlogsDirectory, server.logDirectory))
      ensures server != null && pathResolutionEnabled ==>
        (server.deathlogsDirectory, server.logDirectory)
          == AfterFix(connector, server.ident, old(server.deathlogsDirectory), old(server.logDirectory))
        && n == CountOf(parsers.processLogs(server.ident, server.deathlogsDirectory, server.logDirectory))
        && tracker.serverPathCache
           == TrackerAfterRepair(old(tracker.serverPathCache), connector, server, old(server.deathlogsDirectory), old(server.logDirectory))
        && (repository != null ==>
              repository.saved == old(repository.saved)
                + (if SavesAfterRepair(connector, server.ident, old(server.deathlogsDirectory), old(server.logDirectory)) then [server] else [])
              && repository.savedBatches == old(repository.savedBatches))
    {
      if server == null {
        return 0;
      }
      if pathResolutionEnabled {
        FixPathsIfNeeded(server);
      }
      n := CountOf(parsers.processLogs(server.ident, server.deathlogsDirectory, server.logDirectory));
    }

    /** processDeathLogContentWithPathResolution: a null server or null content gives 0 before anything else. */
    method ProcessDeathLogContent(server: GameServer?, content: Option<string>) returns (n: int)
      modifies server, tracker, repository
      ensures server == null || content.None? ==> n == 0
      ensures server == null || content.None? || !pathResolutionEnabled ==>
        tracker.serverPathCache == old(tracker.serverPathCache) && (repository != null ==> unchanged(repository))
      ensures server != null && (content.None? || !pathResolutionEnabled) ==> unchanged(server)
      ensures server != null && content.Some? && !pathResolutionEnabled ==>
        n == CountOf(parsers.processDeathLogContent(server.ident, server.deathlogsDirectory, server.logDirectory, content.value))
      ensures server != null && content.Some? && pathResolutionEnabled ==>
        (server.deathlogsDirectory, server.logDirectory)
          == AfterFix(connector, server.ident, old(server.deathlogsDirectory), old(server.logDirectory))
        && n == CountOf(parsers.processDeathLogContent(server.ident, server.deathlogsDirectory, server.logDirectory, content.value))
        && tracker.serverPathCache
           == TrackerAfterRepair(old(tracker.serverPathCache), connector, server, old(server.deathlogsDirectory), old(server.logDirectory))
        && (repository != null ==>
              repository.saved == old(repository.saved)
                + (if SavesAfterRepair(connector, server.ident, old(server.deathlogsDirectory), old(server.logDirectory)) then [server] else [])
              && repository.savedBatches == old(repository.savedBatches))
    {
      if server == null || content.None? {
        return 0;
      }
      if pathResolutionEnabled {
        FixPathsIfNeeded(server);
      }
      n := CountOf(parsers.processDeathLogContent(server.ident, server.deathlogsDirectory, server.logDirectory, content.value));
    }
  }
}
