/**
 * ParserPathRepairHook: intercepts the directory a parser is about to use
 * and substitutes a resolved one when the given path does not look right.
 */
module RepairHook {
  import opened Wrappers
  import opened JavaStrings
  import opened Domain
  import opened PathResolution
  import opened LogFix

  /** The hook's own copy of the CSV directory shape test. */
  predicate CsvShapeOk(path: Option<string>)
  {
    !(NullOrEmpty(path)
      || (!Contains(path.value, "/actual1/deathlogs") && !Contains(path.value, "\\actual1\\deathlogs")
          && !Contains(path.value, "/actual/deathlogs") && !Contains(path.value, "\\actual\\deathlogs")))
  }

  /** The hook's own copy of the log directory shape test. */
  predicate LogShapeOk(path: Option<string>)
  {
    !(NullOrEmpty(path) || (!Contains(path.value, "/Logs") && !Contains(path.value, "\\Logs")))
  }

  /** Both copies are PathResolutionFix's shape checks. */
  lemma ShapeChecksAgree(path: Option<string>)
    ensures CsvShapeOk(path) <==> IsValidCsvPath(path)
    ensures LogShapeOk(path) <==> IsValidLogPath(path)
  {
  }

  /** Whether a looked-up path replaces the original: non-null, non-empty and different. */
  predicate Replaces(resolved: Option<string>, original: Option<string>)
  {
    !NullOrEmpty(resolved) && resolved != original
  }

  /**
   * getCsvPathHook for a non-null server with identity s and configured
   * CSV directory dir: the original path unless the hook is enabled, has a
   * connector and the original fails the shape test, and the directory
   * lookup then yields a replacing path.
   */
  function CsvHook(enabled: bool, connector: Option<Connector>, s: Identity, dir: Option<string>, original: Option<string>): (r: Option<string>)
    ensures !enabled || connector.None? || IsValidCsvPath(original) ==> r == original
    ensures r != original ==> connector.Some? && r == connector.value.findCsvPath(s, dir) && !NullOrEmpty(r)
  {
    if !enabled || connector.None? then original
    else if !CsvShapeOk(original) then
      var resolved := connector.value.findCsvPath(s, dir);
      if Replaces(resolved, original) then resolved else original
    else original
  }

  /** getLogPathHook for a non-null server, on the log directory. */
  function LogHook(enabled: bool, connector: Option<Connector>, s: Identity, dir: Option<string>, original: Option<string>): (r: Option<string>)
    ensures !enabled || connector.None? || IsValidLogPath(original) ==> r == original
    ensures r != original ==> connector.Some? && r == connector.value.findLogPath(s, dir) && !NullOrEmpty(r)
  {
    if !enabled || connector.None? then original
    else if !LogShapeOk(original) then
      var resolved := connector.value.findLogPath(s, dir);
      if Replaces(resolved, original) then resolved else original
    else original
  }

  /** The CSV hook substitutes exactly when it is enabled, connected, the original looks wrong and the lookup replaces it. */
  lemma CsvHookRepairsIff(enabled: bool, connector: Option<Connector>, s: Identity, dir: Option<string>, original: Option<string>)
    ensures CsvHook(enabled, connector, s, dir, original) != original
        <==> enabled && connector.Some? && !IsValidCsvPath(original) && Replaces(connector.value.findCsvPath(s, dir), original)
  {
    ShapeChecksAgree(original);
  }

  /** The log hook substitutes exactly when it is enabled, connected, the original looks wrong and the lookup replaces it. */
  lemma LogHookRepairsIff(enabled: bool, connector: Option<Connector>, s: Identity, dir: Option<string>, original: Option<string>)
    ensures LogHook(enabled, connector, s, dir, original) != original
        <==> enabled && connector.Some? && !IsValidLogPath(original) && Replaces(connector.value.findLogPath(s, dir), original)
  {
    ShapeChecksAgree(original);
  }

  /** Hooking the hook's own result again gives the same path. */
  lemma CsvHookIdempotent(enabled: bool, connector: Option<Connector>, s: Identity, dir: Option<string>, original: Option<string>)
    ensures var r := CsvHook(enabled, connector, s, dir, original);
      CsvHook(enabled, connector, s, dir, r) == r
  {
    var r := CsvHook(enabled, connector, s, dir, original);
    if r != original && !CsvShapeOk(r) {
      assert connector.value.findCsvPath(s, dir) == r;
    }
  }

  /** Hooking the log hook's own result again gives the same path. */
  lemma LogHookIdempotent(enabled: bool, connector: Option<Connector>, s: Identity, dir: Option<string>, original: Option<string>)
    ensures var r := LogHook(enabled, connector, s, dir, original);
      LogHook(enabled, connector, s, dir, r) == r
  {
    var r := LogHook(enabled, connector, s, dir, original);
    if r != original && !LogShapeOk(r) {
      assert connector.value.findLogPath(s, dir) == r;
    }
  }

  /**
   * The hook's connector and switch (static fields in the original); the
   * switch starts enabled and the connector unset.
   */
  class ParserPathRepairHook {
    var sftpConnector: Option<Connector>
    var autoRepairEnabled: bool

    constructor ()
      ensures sftpConnector.None? && autoRepairEnabled
    {
      sftpConnector := None;
      autoRepairEnabled := true;
    }

    /** initialize: only the connector changes. */
    method Initialize(connector: Option<Connector>)
      modifies this
      ensures sftpConnector == connector && autoRepairEnabled == old(autoRepairEnabled)
    {
      sftpConnector := connector;
    }

    method SetAutoRepairEnabled(enabled: bool)
      modifies this
      ensures autoRepairEnabled == enabled && sftpConnector == old(sftpConnector)
    {
      autoRepairEnabled := enabled;
    }

    /**
     * getCsvPathHook: the original path for a null server, a disabled hook
     * or a missing connector; any other result is the CSV lookup on the
     * server's configured directory.
     */
    function GetCsvPathHook(server: GameServer?, originalPath: Option<string>): (r: Option<string>)
      reads this, server
      ensures server == null || !autoRepairEnabled || sftpConnector.None? || IsValidCsvPath(originalPath) ==> r == originalPath
      ensures r != originalPath ==>
        server != null && sftpConnector.Some? && r == FindPath(sftpConnector.value, server, Csv) && !NullOrEmpty(r)
    {
      if server == null then originalPath
      else CsvHook(autoRepairEnabled, sftpConnector, server.ident, server.deathlogsDirectory, originalPath)
    }

    /**
     * getLogPathHook: the original path for a null server, a disabled hook
     * or a missing connector; any other result is resolveServerLogPath.
     */
    function GetLogPathHook(server: GameServer?, originalPath: Option<string>): (r: Option<string>)
      reads this, server
      ensures server == null || !autoRepairEnabled || sftpConnector.None? || IsValidLogPath(originalPath) ==> r == originalPath
      ensures r != originalPath ==>
        server != null && sftpConnector.Some? && r == ResolveServerLogPath(server, sftpConnector.value) && !NullOrEmpty(r)
    {
      if server == null then originalPath
      else LogHook(autoRepairEnabled, sftpConnector, server.ident, server.logDirectory, originalPath)
    }

    /**
     * recordSuccessfulCsvPath: a null server or a null or empty path is
     * ignored; otherwise the CSV lookup is run and its result discarded.
     * Nothing is stored either way. `probed` says whether the lookup ran,
     * which needs a connector to run on.
     */
    method RecordSuccessfulCsvPath(server: GameServer?, path: Option<string>) returns (probed: bool)
      ensures probed <==> server != null && !NullOrEmpty(path) && sftpConnector.Some?
    {
      if server == null || NullOrEmpty(path) || sftpConnector.None? {
        return false;
      }
      var _ := FindPath(sftpConnector.value, server, Csv);
      return true;
    }

    /** recordSuccessfulLogPath: the same guard, with the log lookup. */
    method RecordSuccessfulLogPath(server: GameServer?, path: Option<string>) returns (probed: bool)
      ensures probed <==> server != null && !NullOrEmpty(path) && sftpConnector.Some?
    {
      if server == null || NullOrEmpty(path) || sftpConnector.None? {
        return false;
      }
      var _ := ResolveServerLogPath(server, sftpConnector.value);
      return true;
    }
  }
}
