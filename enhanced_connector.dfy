/**
 * EnhancedSftpConnector: the file discovery that tries the configured
 * directory, then the alternative candidates, then a bounded recursive
 * search from the server's root directory.
 */
module EnhancedConnector {
  import opened Wrappers
  import opened JavaStrings
  import opened Lists
  import opened Domain
  import opened PathTracker
  import opened IntegrationHooks
  import opened RemoteListing
  import opened CandidatePaths

  /** What findDeathlogFiles returns, and the directory it records as successful (if any). */
  datatype CsvOutcome = CsvOutcome(files: seq<string>, recorded: Option<string>)

  /** What findLogFile returns, and the directory it records as successful (if any). */
  datatype LogOutcome = LogOutcome(file: Option<string>, recorded: Option<string>)

  /**
   * findDeathlogFiles: no directory configured gives nothing; otherwise the
   * standard lookup, then the first alternative that holds `.csv` files,
   * then the recursive search from the root. Only the first two kinds of
   * success are recorded.
   */
  function DeathlogOutcome(h: RemoteHost, standard: seq<string>, dir: Option<string>, alts: seq<string>, root: string): (r: CsvOutcome)
    ensures NullOrEmpty(dir) ==> r == CsvOutcome([], None)
    ensures r.recorded.Some? ==> r.files != [] && (r.recorded == dir || r.recorded.value in alts)
    ensures !NullOrEmpty(dir) && standard != [] ==> r == CsvOutcome(standard, dir)
    ensures !NullOrEmpty(dir) && standard == [] ==>
      match FirstCsvHit(h, alts)
      case Some(i) => r == CsvOutcome(CsvFilesIn(h, alts[i]), Some(alts[i]))
      case None => r == CsvOutcome(CsvSearch(h, root, 0), None)
  {
    if NullOrEmpty(dir) then CsvOutcome([], None)
    else if standard != [] then CsvOutcome(standard, dir)
    else match FirstCsvHit(h, alts)
      case Some(i) => CsvOutcome(CsvFilesIn(h, alts[i]), Some(alts[i]))
      case None => CsvOutcome(CsvSearch(h, root, 0), None)
  }

  /** findLogFile, the same shape as findDeathlogFiles. */
  function LogFileOutcome(h: RemoteHost, standard: Option<string>, dir: Option<string>, alts: seq<string>, root: string): (r: LogOutcome)
    ensures NullOrEmpty(dir) ==> r == LogOutcome(None, None)
    ensures r.recorded.Some? ==> r.file.Some? && (r.recorded == dir || r.recorded.value in alts)
    ensures !NullOrEmpty(dir) && !NullOrEmpty(standard) ==> r == LogOutcome(standard, dir)
    ensures !NullOrEmpty(dir) && NullOrEmpty(standard) ==>
      match FirstLogHit(h, alts)
      case Some(i) => r == LogOutcome(LogFileIn(h, alts[i]), Some(alts[i]))
      case None => r == LogOutcome(LogSearch(h, root, 0), None)
  {
    if NullOrEmpty(dir) then LogOutcome(None, None)
    else if !NullOrEmpty(standard) then LogOutcome(standard, dir)
    else match FirstLogHit(h, alts)
      case Some(i) => LogOutcome(LogFileIn(h, alts[i]), Some(alts[i]))
      case None => LogOutcome(LogSearch(h, root, 0), None)
  }

  /**
   * The connector. `hosts` gives each server's SFTP account, `base` the
   * lookups inherited from SftpConnector, `tracker` the shared
   * ParserPathTracker. The ghost counters stand for the JSch session and
   * channel pairs: `openSessions` how many are open now, `connects` how
   * many were ever opened.
   */
  class EnhancedSftpConnector {
    const hosts: Identity -> RemoteHost
    const base: Connector
    const tracker: ParserPathTracker
    ghost var openSessions: nat
    ghost var connects: nat

    constructor (hosts: Identity -> RemoteHost, base: Connector, tracker: ParserPathTracker)
      ensures this.hosts == hosts && this.tracker == tracker
      ensures openSessions == 0 && connects == 0
    {
      this.hosts := hosts;
      this.base := base;
      this.tracker := tracker;
      openSessions := 0;
      connects := 0;
    }

    /** connect + openChannel: succeeds exactly when the account is up. */
    method Connect(server: GameServer) returns (session: bool)
      modifies this
      ensures session == hosts(server.ident).up
      ensures openSessions == old(openSessions) + (if session then 1 else 0)
      ensures connects == old(connects) + (if session then 1 else 0)
    {
      session := hosts(server.ident).up;
      if session {
        openSessions := openSessions + 1;
        connects := connects + 1;
      }
    }

    /** closeChannel + disconnect, run in `finally`; both are no-ops without a session. */
    method Disconnect(session: bool)
      requires session ==> openSessions > 0
      modifies this
      ensures openSessions == old(openSessions) - (if session then 1 else 0)
      ensures connects == old(connects)
    {
      if session {
        openSessions := openSessions - 1;
      }
    }

    /** findCsvFilesInPath: every `.csv` entry of the directory, in listing order; no files on any failure. */
    method FindCsvFilesInPath(server: GameServer, path: string) returns (files: seq<string>)
      modifies this
      ensures files == CsvFilesIn(hosts(server.ident), path)
      ensures openSessions == old(openSessions)
      ensures connects == old(connects) + (if hosts(server.ident).up then 1 else 0)
    {
      files := [];
      var session := Connect(server);
      if session && path in hosts(server.ident).dirs {
        var listing := hosts(server.ident).dirs[path];
        var i := 0;
        while i < |listing|
          invariant 0 <= i <= |listing|
          invariant files == CsvMatches(path, listing[..i])
        {
          assert listing[..i + 1][..i] == listing[..i];
          var name := listing[i].name;
          if !IsDot(name) && EndsWith(name, CSV_SUFFIX) {
            files := files + [path + "/" + name];
          }
          i := i + 1;
        }
        assert listing[..i] == listing;
      }
      Disconnect(session);
    }

    /** findLogFileInPath: `path + "/Deadside.log"` iff an entry has exactly that name. */
    method FindLogFileInPath(server: GameServer, path: string) returns (file: Option<string>)
      modifies this
      ensures file == LogFileIn(hosts(server.ident), path)
      ensures openSessions == old(openSessions)
      ensures connects == old(connects) + (if hosts(server.ident).up then 1 else 0)
    {
      file := None;
      var session := Connect(server);
      if session && path in hosts(server.ident).dirs {
        var listing := hosts(server.ident).dirs[path];
        var i := 0;
        while i < |listing|
          invariant 0 <= i <= |listing|
          invariant forall j :: 0 <= j < i ==> listing[j].name != LOG_FILE_NAME
        {
          var name := listing[i].name;
          if !IsDot(name) && name == LOG_FILE_NAME {
            file := Some(path + "/" + LOG_FILE_NAME);
            break;
          }
          i := i + 1;
        }
      }
      Disconnect(session);
    }

    /**
     * findCsvFilesRecursively. Beyond the depth cap it returns nothing and
     * opens no session; when the directory itself holds matches it returns
     * them (at most 500) after opening exactly one session, so no
     * subdirectory is visited; every session it opens is closed again.
     */
    method FindCsvFilesRecursively(server: GameServer, path: string, depth: nat) returns (files: seq<string>)
      modifies this
      decreases MAX_RECURSION_DEPTH + 1 - depth, 1
      ensures files == CsvSearch(hosts(server.ident), path, depth)
      ensures openSessions == old(openSessions)
      ensures connects >= old(connects)
      ensures depth > MAX_RECURSION_DEPTH ==> connects == old(connects)
      ensures (depth <= MAX_RECURSION_DEPTH && Listing(hosts(server.ident), path).Some?
               && CsvMatches(path, hosts(server.ident).dirs[path]) != []) ==> connects == old(connects) + 1
    {
      if depth > MAX_RECURSION_DEPTH {
        return [];
      }
      var h := hosts(server.ident);
      files := [];
      var session := Connect(server);
      if session && path in h.dirs {
        var listing := h.dirs[path];
        files := ScanCsvLocal(path, listing);
        if files == [] {
          files := ScanCsvSubdirs(server, path, depth, listing);
        }
      }
      Disconnect(session);
    }

    /** The first loop of findCsvFilesRecursively: the directory's own matches, stopping at 500. */
    static method ScanCsvLocal(path: string, listing: seq<Entry>) returns (files: seq<string>)
      ensures files == Take(CsvMatches(path, listing), MAX_FILES_TO_CHECK)
    {
      files := [];
      var i := 0;
      while i < |listing|
        invariant 0 <= i <= |listing|
        invariant files == CsvMatches(path, listing[..i])
        invariant |files| < MAX_FILES_TO_CHECK
      {
        assert listing[..i + 1][..i] == listing[..i];
        var name := listing[i].name;
        if !IsDot(name) && EndsWith(name, CSV_SUFFIX) {
          files := files + [path + "/" + name];
        }
        if |files| >= MAX_FILES_TO_CHECK {
          CsvMatchesPrefix(path, listing, i + 1);
          return;
        }
        i := i + 1;
      }
      assert listing[..i] == listing;
    }

    /** The second loop of findCsvFilesRecursively: subdirectories in order, until 500 files are gathered. */
    method ScanCsvSubdirs(server: GameServer, path: string, depth: nat, listing: seq<Entry>) returns (files: seq<string>)
      requires depth <= MAX_RECURSION_DEPTH
      modifies this
      decreases MAX_RECURSION_DEPTH + 1 - depth, 0
      ensures files == CsvSubdirs(hosts(server.ident), path, depth, listing, [])
      ensures openSessions == old(openSessions)
      ensures connects >= old(connects)
    {
      var h := hosts(server.ident);
      files := [];
      var j := 0;
      while j < |listing|
        invariant 0 <= j <= |listing|
        invariant |files| < MAX_FILES_TO_CHECK
        invariant CsvSubdirs(h, path, depth, listing[j..], files) == CsvSubdirs(h, path, depth, listing, [])
        invariant openSessions == old(openSessions)
        invariant connects >= old(connects)
      {
        var e := listing[j];
        assert listing[j..][0] == e && listing[j..][1..] == listing[j + 1..];
        if !IsDot(e.name) && e.isDir {
          var sub := FindCsvFilesRecursively(server, path + "/" + e.name, depth + 1);
          if sub != [] {
            files := files + sub;
            if |files| >= MAX_FILES_TO_CHECK {
              return;
            }
          }
        }
        j := j + 1;
      }
    }

    /**
     * findLogFileRecursively: the first `Deadside.log` in pre-order within
     * the depth cap; every session it opens is closed again, and one found
     * in the directory itself costs exactly one session.
     */
    method FindLogFileRecursively(server: GameServer, path: string, depth: nat) returns (file: Option<string>)
      modifies this
      decreases MAX_RECURSION_DEPTH + 1 - depth
      ensures file == LogSearch(hosts(server.ident), path, depth)
      ensures openSessions == old(openSessions)
      ensures connects >= old(connects)
      ensures depth > MAX_RECURSION_DEPTH ==> connects == old(connects)
      ensures (depth <= MAX_RECURSION_DEPTH && Listing(hosts(server.ident), path).Some?
               && HasLogEntry(hosts(server.ident).dirs[path])) ==> connects == old(connects) + 1
    {
      if depth > MAX_RECURSION_DEPTH {
        return None;
      }
      var h := hosts(server.ident);
      file := None;
      var session := Connect(server);
      if session && path in h.dirs {
        var listing := h.dirs[path];
        var i := 0;
        while i < |listing|
          invariant 0 <= i <= |listing|
          invariant forall k :: 0 <= k < i ==> listing[k].name != LOG_FILE_NAME
        {
          var name := listing[i].name;
          if !IsDot(name) && name == LOG_FILE_NAME {
            file := Some(path + "/" + LOG_FILE_NAME);
            break;
          }
          i := i + 1;
        }
        if file.None? {
          var j := 0;
          while j < |listing|
            invariant 0 <= j <= |listing|
            invariant LogSubdirs(h, path, depth, listing[j..]) == LogSubdirs(h, path, depth, listing)
            invariant openSessions == old(openSessions) + 1
            invariant connects >= old(connects) + 1
          {
            var e := listing[j];
            assert listing[j..][0] == e && listing[j..][1..] == listing[j + 1..];
            if !IsDot(e.name) && e.isDir {
              var sub := FindLogFileRecursively(server, path + "/" + e.name, depth + 1);
              if sub.Some? {
                file := sub;
                break;
              }
            }
            j := j + 1;
          }
        }
      }
      Disconnect(session);
    }

    /** getAlternativeCsvPaths: the six CSV candidates, then the tracker's CSV paths not yet listed. */
    method GetAlternativeCsvPaths(server: GameServer) returns (paths: seq<string>)
      ensures paths == AlternativeCsvPaths(server.ident, tracker.GetRecommendedPaths(server, Some(CATEGORY_CSV)))
    {
      var host := HostOf(server.ident);
      var serverName := ServerToken(server.ident);
      paths := CsvTemplates(host, serverName);
      var recommended := tracker.GetRecommendedPaths(server, Some(CATEGORY_CSV));
      paths := AppendMissing(paths, recommended);
    }

    /** getAlternativeLogPaths: the six log candidates, then the tracker's log paths not yet listed. */
    method GetAlternativeLogPaths(server: GameServer) returns (paths: seq<string>)
      ensures paths == AlternativeLogPaths(server.ident, tracker.GetRecommendedPaths(server, Some(CATEGORY_LOG)))
    {
      var host := HostOf(server.ident);
      var serverName := ServerToken(server.ident);
      paths := LogTemplates(host, serverName);
      var recommended := tracker.GetRecommendedPaths(server, Some(CATEGORY_LOG));
      paths := AppendMissing(paths, recommended);
    }

    /** The alternatives loop of findDeathlogFiles: the first candidate whose listing holds `.csv` files. */
    method TryCsvAlternatives(server: GameServer, alts: seq<string>) returns (hit: Option<nat>, files: seq<string>)
      modifies this
      ensures hit == FirstCsvHit(hosts(server.ident), alts)
      ensures hit.Some? ==> files == CsvFilesIn(hosts(server.ident), alts[hit.value])
      ensures openSessions == old(openSessions)
    {
      hit, files := None, [];
      var i := 0;
      while i < |alts|
        invariant 0 <= i <= |alts|
        invariant forall j :: 0 <= j < i ==> CsvFilesIn(hosts(server.ident), alts[j]) == []
        invariant openSessions == old(openSessions)
      {
        files := FindCsvFilesInPath(server, alts[i]);
        if files != [] {
          hit := Some(i);
          FirstCsvHitAt(hosts(server.ident), alts, i);
          return;
        }
        i := i + 1;
      }
      FirstCsvHitNone(hosts(server.ident), alts);
    }

    /** The alternatives loop of findLogFile. */
    method TryLogAlternatives(server: GameServer, alts: seq<string>) returns (hit: Option<nat>, file: Option<string>)
      modifies this
      ensures hit == FirstLogHit(hosts(server.ident), alts)
      ensures hit.Some? ==> file == LogFileIn(hosts(server.ident), alts[hit.value])
      ensures openSessions == old(openSessions)
    {
      hit, file := None, None;
      var i := 0;
      while i < |alts|
        invariant 0 <= i <= |alts|
        invariant forall j :: 0 <= j < i ==> LogFileIn(hosts(server.ident), alts[j]).None?
        invariant openSessions == old(openSessions)
      {
        file := FindLogFileInPath(server, alts[i]);
        if file.Some? {
          hit := Some(i);
          FirstLogHitAt(hosts(server.ident), alts, i);
          return;
        }
        i := i + 1;
      }
      FirstLogHitNone(hosts(server.ident), alts);
    }

    /** findDeathlogFiles: never null; records only a standard or alternative success. */
    method FindDeathlogFiles(server: GameServer) returns (files: seq<string>)
      modifies this, tracker
      ensures var o := DeathlogOutcome(hosts(server.ident),
                                       base.findDeathlogFiles(server.ident, server.deathlogsDirectory),
                                       server.deathlogsDirectory,
                                       AlternativeCsvPaths(server.ident, old(tracker.GetRecommendedPaths(server, Some(CATEGORY_CSV)))),
                                       RootPath(server.ident));
        files == o.files
        && tracker.serverPathCache == Recorded(old(tracker.serverPathCache), server, CATEGORY_CSV, o.recorded)
      ensures openSessions == old(openSessions)
    {
      var path := server.deathlogsDirectory;
      if NullOrEmpty(path) {
        return [];
      }
      var standard := base.findDeathlogFiles(server.ident, path);
      if standard != [] {
        RecordSuccessfulCsvPath(tracker, server, path);
        return standard;
      }
      var alts := GetAlternativeCsvPaths(server);
      var hit, found := TryCsvAlternatives(server, alts);
      if hit.Some? {
        RecordSuccessfulCsvPath(tracker, server, Some(alts[hit.value]));
        return found;
      }
      var rootPath := RootPath(server.ident);
      files := FindCsvFilesRecursively(server, rootPath, 0);
    }

    /** findLogFile: records only a standard or alternative success. */
    method FindLogFile(server: GameServer) returns (file: Option<string>)
      modifies this, tracker
      ensures var o := LogFileOutcome(hosts(server.ident),
                                      base.findLogFile(server.ident, server.logDirectory),
                                      server.logDirectory,
                                      AlternativeLogPaths(server.ident, old(tracker.GetRecommendedPaths(server, Some(CATEGORY_LOG)))),
                                      RootPath(server.ident));
        file == o.file
        && tracker.serverPathCache == Recorded(old(tracker.serverPathCache), server, CATEGORY_LOG, o.recorded)
      ensures openSessions == old(openSessions)
    {
      var path := server.logDirectory;
      if NullOrEmpty(path) {
        return None;
      }
      var standard := base.findLogFile(server.ident, path);
      if !NullOrEmpty(standard) {
        RecordSuccessfulLogPath(tracker, server, path);
        return standard;
      }
      var alts := GetAlternativeLogPaths(server);
      var hit, found := TryLogAlternatives(server, alts);
      if hit.Some? {
        RecordSuccessfulLogPath(tracker, server, Some(alts[hit.value]));
        return found;
      }
      var rootPath := RootPath(server.ident);
      file := FindLogFileRecursively(server, rootPath, 0);
    }
  }

  /** A candidate with files, after candidates without, is the first hit. */
  lemma {:induction false} FirstCsvHitAt(h: RemoteHost, alts: seq<string>, i: nat)
    requires i < |alts| && CsvFilesIn(h, alts[i]) != []
    requires forall j :: 0 <= j < i ==> CsvFilesIn(h, alts[j]) == []
    ensures FirstCsvHit(h, alts) == Some(i)
    decreases i
  {
    if i > 0 {
      assert CsvFilesIn(h, alts[0]) == [];
      assert forall j :: 0 <= j < i - 1 ==> alts[1..][j] == alts[j + 1];
      FirstCsvHitAt(h, alts[1..], i - 1);
    }
  }

  lemma {:induction false} FirstCsvHitNone(h: RemoteHost, alts: seq<string>)
    requires forall j :: 0 <= j < |alts| ==> CsvFilesIn(h, alts[j]) == []
    ensures FirstCsvHit(h, alts) == None
    decreases |alts|
  {
    if |alts| > 0 {
      assert CsvFilesIn(h, alts[0]) == [];
      assert forall j :: 0 <= j < |alts| - 1 ==> alts[1..][j] == alts[j + 1];
      FirstCsvHitNone(h, alts[1..]);
    }
  }

  lemma {:induction false} FirstLogHitAt(h: RemoteHost, alts: seq<string>, i: nat)
    requires i < |alts| && LogFileIn(h, alts[i]).Some?
    requires forall j :: 0 <= j < i ==> LogFileIn(h, alts[j]).None?
    ensures FirstLogHit(h, alts) == Some(i)
    decreases i
  {
    if i > 0 {
      assert LogFileIn(h, alts[0]).None?;
      assert forall j :: 0 <= j < i - 1 ==> alts[1..][j] == alts[j + 1];
      FirstLogHitAt(h, alts[1..], i - 1);
    }
  }

  lemma {:induction false} FirstLogHitNone(h: RemoteHost, alts: seq<string>)
    requires forall j :: 0 <= j < |alts| ==> LogFileIn(h, alts[j]).None?
    ensures FirstLogHit(h, alts) == None
    decreases |alts|
  {
    if |alts| > 0 {
      assert LogFileIn(h, alts[0]).None?;
      assert forall j :: 0 <= j < |alts| - 1 ==> alts[1..][j] == alts[j + 1];
      FirstLogHitNone(h, alts[1..]);
    }
  }
}
