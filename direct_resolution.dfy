/**
 * DirectPathResolutionFix: asks the connector for a CSV and a log
 * directory, applies what it finds to the server, and reports the
 * outcome as a results map that applyServerUpdates can replay.
 */
module DirectResolution {
  import opened Wrappers
  import opened JavaStrings
  import opened Domain
  import opened PathTracker
  import opened IntegrationHooks

  /** A value of the results map: a (possibly null) string or a boolean. */
  datatype Val = Text(text: Option<string>) | Flag(flag: bool)

  type Results = map<string, Val>

  const CONNECTION_FAILED: string := "Connection test failed"

  /** The results keys. */
  const ERROR: string := "error"
  const CSV_PATH: string := "csvPath"
  const ORIGINAL_CSV_PATH: string := "originalCsvPath"
  const LOG_PATH: string := "logPath"
  const ORIGINAL_LOG_PATH: string := "originalLogPath"
  const CSV_PATH_FIXED: string := "csvPathFixed"
  const LOG_PATH_FIXED: string := "logPathFixed"
  const PATHS_FIXED: string := "pathsFixed"

  /** The outcome of fixServerPaths: the results and the two directories it leaves. */
  datatype FixOutcome = FixOutcome(results: Results, csvDir: Option<string>, logDir: Option<string>)

  /**
   * fixServerPaths on a server with the given directories. A missing
   * connector throws, which leaves only an "error" entry (its message is
   * not modelled); a failed connection test leaves only the
   * "Connection test failed" error. Otherwise each found path replaces its
   * directory and is reported with the directory it replaced.
   */
  function Fix(c: Option<Connector>, s: Identity, csvDir: Option<string>, logDir: Option<string>): (r: FixOutcome)
    ensures c.None? ==> r == FixOutcome(map[ERROR := Text(None)], csvDir, logDir)
    ensures c.Some? && !c.value.testConnection(s) ==>
      r == FixOutcome(map[ERROR := Text(Some(CONNECTION_FAILED))], csvDir, logDir)
    ensures ERROR in r.results <==> r.results.Keys == {ERROR}
  {
    if c.None? then FixOutcome(map[ERROR := Text(None)], csvDir, logDir)
    else if !c.value.testConnection(s) then FixOutcome(map[ERROR := Text(Some(CONNECTION_FAILED))], csvDir, logDir)
    else
      var csv := c.value.findCsvPath(s, csvDir);
      var log := c.value.findLogPath(s, logDir);
      var csvEntries: Results := if csv.Some? then map[CSV_PATH := Text(csv), ORIGINAL_CSV_PATH := Text(csvDir)] else map[];
      var logEntries: Results := if log.Some? then map[LOG_PATH := Text(log), ORIGINAL_LOG_PATH := Text(logDir)] else map[];
      var flags: Results := map[CSV_PATH_FIXED := Flag(csv.Some?), LOG_PATH_FIXED := Flag(log.Some?), PATHS_FIXED := Flag(csv.Some? || log.Some?)];
      FixOutcome(csvEntries + logEntries + flags,
                 if csv.Some? then csv else csvDir,
                 if log.Some? then log else logDir)
  }

  /**
   * After a passed connection test the results hold the three flags,
   * "pathsFixed" being the disjunction of the other two; a directory's
   * flag is true exactly when its path entry is present, which then holds
   * the new directory next to the replaced one, and otherwise the
   * directory is kept.
   */
  lemma FixResultsShape(c: Option<Connector>, s: Identity, csvDir: Option<string>, logDir: Option<string>)
    ensures var r := Fix(c, s, csvDir, logDir);
      ERROR !in r.results ==>
      CSV_PATH_FIXED in r.results && LOG_PATH_FIXED in r.results && PATHS_FIXED in r.results
      && r.results[CSV_PATH_FIXED].Flag? && r.results[LOG_PATH_FIXED].Flag?
      && r.results[PATHS_FIXED] == Flag(r.results[CSV_PATH_FIXED].flag || r.results[LOG_PATH_FIXED].flag)
    ensures var r := Fix(c, s, csvDir, logDir);
      ERROR !in r.results ==>
      (r.results[CSV_PATH_FIXED] == Flag(true) <==> CSV_PATH in r.results)
      && (CSV_PATH in r.results ==> ORIGINAL_CSV_PATH in r.results && r.results[CSV_PATH] == Text(r.csvDir) && r.results[ORIGINAL_CSV_PATH] == Text(csvDir) && r.csvDir.Some?)
      && (CSV_PATH !in r.results ==> r.csvDir == csvDir && ORIGINAL_CSV_PATH !in r.results)
    ensures var r := Fix(c, s, csvDir, logDir);
      ERROR !in r.results ==>
      (r.results[LOG_PATH_FIXED] == Flag(true) <==> LOG_PATH in r.results)
      && (LOG_PATH in r.results ==> ORIGINAL_LOG_PATH in r.results && r.results[LOG_PATH] == Text(r.logDir) && r.results[ORIGINAL_LOG_PATH] == Text(logDir) && r.logDir.Some?)
      && (LOG_PATH !in r.results ==> r.logDir == logDir && ORIGINAL_LOG_PATH !in r.results)
  {
  }

  /** The path of this kind the fix finds: none without a connector or after a failed connection test. */
  function Found(c: Option<Connector>, s: Identity, dir: Option<string>, k: Kind): Option<string>
  {
    if c.None? || !c.value.testConnection(s) then None
    else match k
      case Csv => c.value.findCsvPath(s, dir)
      case Log => c.value.findLogPath(s, dir)
  }

  /** What the fix finds is what it reports: a path entry exactly for each found path, holding the new directory. */
  lemma FoundIsReported(c: Option<Connector>, s: Identity, csvDir: Option<string>, logDir: Option<string>)
    ensures var f := Fix(c, s, csvDir, logDir);
      (CSV_PATH in f.results <==> Found(c, s, csvDir, Csv).Some?)
      && (Found(c, s, csvDir, Csv).Some? ==> f.csvDir == Found(c, s, csvDir, Csv))
      && (LOG_PATH in f.results <==> Found(c, s, logDir, Log).Some?)
      && (Found(c, s, logDir, Log).Some? ==> f.logDir == Found(c, s, logDir, Log))
  {
  }

  /** `results.containsKey(key) && (boolean) results.get(key)`; None when the cast throws. */
  function FlagOf(results: Results, key: string): Option<bool>
  {
    if key !in results then Some(false)
    else match results[key]
      case Flag(b) => Some(b)
      case Text(_) => None
  }

  /** `(String) results.get(key)` for a present key; None when the cast throws. */
  function TextOf(results: Results, key: string): Option<Option<string>>
    requires key in results
  {
    match results[key]
    case Text(t) => Some(t)
    case Flag(_) => None
  }

  /**
   * The new value of one directory: replaced when its flag is true and its
   * path key is present. None when a cast throws, which ends the update.
   */
  function StepUpdate(results: Results, flagKey: string, pathKey: string, dir: Option<string>): Option<Option<string>>
  {
    match FlagOf(results, flagKey)
    case None => None
    case Some(fixed) =>
      if fixed && pathKey in results then TextOf(results, pathKey) else Some(dir)
  }

  /**
   * The two directories after applyServerUpdates: nothing changes unless
   * "pathsFixed" is true; then the CSV and the log updates are applied in
   * that order, and a throwing cast stops the rest.
   */
  function Applied(results: Results, csvDir: Option<string>, logDir: Option<string>): (r: (Option<string>, Option<string>))
    ensures FlagOf(results, PATHS_FIXED) != Some(true) ==> r == (csvDir, logDir)
  {
    if FlagOf(results, PATHS_FIXED) != Some(true) then (csvDir, logDir)
    else match StepUpdate(results, CSV_PATH_FIXED, CSV_PATH, csvDir)
      case None => (csvDir, logDir)
      case Some(csv) =>
        match StepUpdate(results, LOG_PATH_FIXED, LOG_PATH, logDir)
        case None => (csv, logDir)
        case Some(log) => (csv, log)
  }

  /** Replaying the results onto the server as it was before the fix gives the fixed directories. */
  lemma ApplyReplaysFix(c: Option<Connector>, s: Identity, csvDir: Option<string>, logDir: Option<string>)
    ensures var f := Fix(c, s, csvDir, logDir);
      Applied(f.results, csvDir, logDir) == (f.csvDir, f.logDir)
  {
  }

  /** Replaying the results onto the fixed server changes nothing: applyServerUpdates after fixServerPaths is idempotent. */
  lemma ApplyAfterFixIdempotent(c: Option<Connector>, s: Identity, csvDir: Option<string>, logDir: Option<string>)
    ensures var f := Fix(c, s, csvDir, logDir);
      Applied(f.results, f.csvDir, f.logDir) == (f.csvDir, f.logDir)
  {
  }

  /** The boolean the callers read: "pathsFixed" present and true. */
  predicate PathsFixed(results: Results)
  {
    PATHS_FIXED in results && results[PATHS_FIXED] == Flag(true)
  }

  /** A fix reports pathsFixed exactly when it changed a directory to a found path, and never after a failed connection. */
  lemma PathsFixedMeansFound(c: Option<Connector>, s: Identity, csvDir: Option<string>, logDir: Option<string>)
    ensures var f := Fix(c, s, csvDir, logDir);
      PathsFixed(f.results) <==> c.Some? && c.value.testConnection(s) && (c.value.findCsvPath(s, csvDir).Some? || c.value.findLogPath(s, logDir).Some?)
  {
  }

  /** The tracker after a fix: the found CSV path, then the found log path, each recorded through the hooks. */
  function TrackerAfterFix(cache: PathCache, c: Option<Connector>, server: GameServer, csvDir: Option<string>, logDir: Option<string>): PathCache
  {
    Recorded(Recorded(cache, server, CATEGORY_CSV, Found(c, server.ident, csvDir, Csv)),
             server, CATEGORY_LOG, Found(c, server.ident, logDir, Log))
  }

  class DirectPathResolutionFix {
    const connector: Option<Connector>
    /** The shared tracker that ParserIntegrationHooks records into. */
    const tracker: ParserPathTracker

    constructor (connector: Option<Connector>, tracker: ParserPathTracker)
      ensures this.connector == connector && this.tracker == tracker
    {
      this.connector := connector;
      this.tracker := tracker;
    }

    /** fixServerPaths; both found paths go to the tracker through the hooks. */
    method FixServerPaths(server: GameServer) returns (results: Results)
      modifies server, tracker
      ensures var f := Fix(connector, server.ident, old(server.deathlogsDirectory), old(server.logDirectory));
        results == f.results && server.deathlogsDirectory == f.csvDir && server.logDirectory == f.logDir
      ensures tracker.serverPathCache ==
        TrackerAfterFix(old(tracker.serverPathCache), connector, server, old(server.deathlogsDirectory), old(server.logDirectory))
    {
      if connector.None? {
        return map[ERROR := Text(None)];
      }
      var c := connector.value;
      var connectionOk := c.testConnection(server.ident);
      if !connectionOk {
        return map[ERROR := Text(Some(CONNECTION_FAILED))];
      }
      ghost var csvDir, logDir := server.deathlogsDirectory, server.logDirectory;
      var csvPathFixed := false;
      var csvEntries: Results := map[];
      var csvPath := c.findCsvPath(server.ident, server.deathlogsDirectory);
      if csvPath.Some? {
        var originalCsvPath := server.deathlogsDirectory;
        server.deathlogsDirectory := csvPath;
        RecordSuccessfulCsvPath(tracker, server, csvPath);
        csvPathFixed := true;
        csvEntries := map[CSV_PATH := Text(csvPath), ORIGINAL_CSV_PATH := Text(originalCsvPath)];
      }
      var logPathFixed := false;
      var logEntries: Results := map[];
      var logPath := c.findLogPath(server.ident, server.logDirectory);
      if logPath.Some? {
        var originalLogPath := server.logDirectory;
        server.logDirectory := logPath;
        RecordSuccessfulLogPath(tracker, server, logPath);
        logPathFixed := true;
        logEntries := map[LOG_PATH := Text(logPath), ORIGINAL_LOG_PATH := Text(originalLogPath)];
      }
      results := csvEntries + logEntries
        + map[CSV_PATH_FIXED := Flag(csvPathFixed), LOG_PATH_FIXED := Flag(logPathFixed), PATHS_FIXED := Flag(csvPathFixed || logPathFixed)];
      ghost var f := Fix(connector, server.ident, csvDir, logDir);
      assert results == f.results;
    }

    /** applyServerUpdates: replays a results map onto the server and returns that same server. */
    method ApplyServerUpdates(server: GameServer, results: Results) returns (r: GameServer)
      modifies server
      ensures r == server
      ensures (server.deathlogsDirectory, server.logDirectory) == Applied(results, old(server.deathlogsDirectory), old(server.logDirectory))
    {
      var pathsFixed := FlagOf(results, PATHS_FIXED);
      if pathsFixed != Some(true) {
        return server;
      }
      var csvPathFixed := FlagOf(results, CSV_PATH_FIXED);
      if csvPathFixed.None? {
        return server;
      }
      if csvPathFixed.value && CSV_PATH in results {
        var csvPath := TextOf(results, CSV_PATH);
        if csvPath.None? {
          return server;
        }
        server.deathlogsDirectory := csvPath.value;
      }
      var logPathFixed := FlagOf(results, LOG_PATH_FIXED);
      if logPathFixed.None? {
        return server;
      }
      if logPathFixed.value && LOG_PATH in results {
        var logPath := TextOf(results, LOG_PATH);
        if logPath.None? {
          return server;
        }
        server.logDirectory := logPath.value;
      }
      return server;
    }
  }

  /**
   * The boolean `DirectPathResolutionFix.fixServerPaths(server, connector)`
   * that PathIsolationFix and ParserPathWrapper call is not among the
   * shown methods; it is taken to be the "pathsFixed" entry of the
   * instance method's results.
   */
  method FixServerPathsFlag(server: GameServer, connector: Option<Connector>, tracker: ParserPathTracker) returns (fixed: bool)
    modifies server, tracker
    ensures var f := Fix(connector, server.ident, old(server.deathlogsDirectory), old(server.logDirectory));
      fixed == PathsFixed(f.results) && server.deathlogsDirectory == f.csvDir && server.logDirectory == f.logDir
    ensures !fixed ==> server.deathlogsDirectory == old(server.deathlogsDirectory) && server.logDirectory == old(server.logDirectory)
    ensures tracker.serverPathCache ==
      TrackerAfterFix(old(tracker.serverPathCache), connector, server, old(server.deathlogsDirectory), old(server.logDirectory))
  {
    var direct := new DirectPathResolutionFix(connector, tracker);
    var results := direct.FixServerPaths(server);
    fixed := PATHS_FIXED in results && results[PATHS_FIXED] == Flag(true);
  }
}
