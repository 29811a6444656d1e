/**
 * PathIsolationFix: deciding whether a server's directories need fixing,
 * and fixing every unrestricted server of one guild under that guild's
 * isolation context.
 */
module PathIsolation {
  import opened Wrappers
  import opened JavaStrings
  import opened Lists
  import opened Domain
  import opened PathTracker
  import opened PathResolution
  import opened DirectResolution
  import opened GuildIsolation

  /**
   * needsFixing: a null or empty path always needs fixing; for type "csv"
   * or "log" (in any letter case) a path needs fixing when it lacks every
   * substring of that kind; any other type never does.
   */
  predicate NeedsFixing(path: Option<string>, pathType: Option<string>)
  {
    if NullOrEmpty(path) then true
    else if EqualsIgnoreCase("csv", pathType) then
      !Contains(path.value, "/actual1/deathlogs") && !Contains(path.value, "\\actual1\\deathlogs")
      && !Contains(path.value, "/actual/deathlogs") && !Contains(path.value, "\\actual\\deathlogs")
    else if EqualsIgnoreCase("log", pathType) then
      !Contains(path.value, "/Logs") && !Contains(path.value, "\\Logs")
    else false
  }

  /** For type "csv" in any letter case, needsFixing is exactly the negation of PathResolutionFix.isValidCsvPath. */
  lemma NeedsFixingCsvIsInvalid(path: Option<string>, pathType: string)
    requires EqualsIgnoreCase("csv", Some(pathType))
    ensures NeedsFixing(path, Some(pathType)) <==> !IsValidCsvPath(path)
  {
    assert !EqualsIgnoreCase("log", Some(pathType)) by {
      assert FoldCase(pathType[0]) == 'c';
    }
  }

  /** For type "log" in any letter case, needsFixing is exactly the negation of PathResolutionFix.isValidLogPath. */
  lemma NeedsFixingLogIsInvalid(path: Option<string>, pathType: string)
    requires EqualsIgnoreCase("log", Some(pathType))
    ensures NeedsFixing(path, Some(pathType)) <==> !IsValidLogPath(path)
  {
    assert !EqualsIgnoreCase("csv", Some(pathType)) by {
      assert FoldCase(pathType[0]) == 'l';
    }
  }

  /**
   * The letter case is folded as Java folds it: the type "c\U{017F}v",
   * spelt with a long s, is the CSV type.
   */
  lemma LongSIsCsvType(path: Option<string>)
    ensures NeedsFixing(path, Some("c\U{017F}v")) <==> !IsValidCsvPath(path)
  {
    var t := "c\U{017F}v";
    assert FoldCase(t[1]) == 's';
    assert EqualsIgnoreCase("csv", Some(t));
    NeedsFixingCsvIsInvalid(path, t);
  }

  /** A non-empty path of any other type never needs fixing. */
  lemma NeedsFixingOtherType(path: Option<string>, pathType: Option<string>)
    requires !NullOrEmpty(path) && !EqualsIgnoreCase("csv", pathType) && !EqualsIgnoreCase("log", pathType)
    ensures !NeedsFixing(path, pathType)
  {
  }

  /** serverNeedsFixing: false for null, else whether either directory needs fixing. */
  predicate ServerNeedsFixing(server: GameServer?)
    reads server
  {
    server != null && (NeedsFixing(server.deathlogsDirectory, Some("csv")) || NeedsFixing(server.logDirectory, Some("log")))
  }

  /** A server needs fixing exactly when one of its directories fails its PathResolutionFix shape check. */
  lemma ServerNeedsFixingIffInvalid(server: GameServer)
    ensures ServerNeedsFixing(server) <==> !IsValidCsvPath(server.deathlogsDirectory) || !IsValidLogPath(server.logDirectory)
  {
    assert EqualsIgnoreCase("csv", Some("csv")) && EqualsIgnoreCase("log", Some("log"));
    NeedsFixingCsvIsInvalid(server.deathlogsDirectory, "csv");
    NeedsFixingLogIsInvalid(server.logDirectory, "log");
  }

  /** The elements of xs whose flag is set, in order. */
  function Select<T>(xs: seq<T>, flags: seq<bool>): (r: seq<T>)
    requires |flags| == |xs|
    ensures |r| <= |xs|
    ensures forall x :: x in r ==> x in xs
    ensures |r| == Count(flags)
  {
    if |xs| == 0 then [] else Select(xs[..|xs| - 1], flags[..|flags| - 1]) + (if flags[|flags| - 1] then [xs[|xs| - 1]] else [])
  }

  /** The number of set flags. */
  function Count(flags: seq<bool>): nat
  {
    if |flags| == 0 then 0 else Count(flags[..|flags| - 1]) + (if flags[|flags| - 1] then 1 else 0)
  }

  /**
   * Whether the direct fix of a server with these directories reports
   * pathsFixed: the connection test passes and a path of either kind is
   * found (PathsFixedMeansFound).
   */
  predicate FixReports(connector: Option<Connector>, ident: Identity, csvDir: Option<string>, logDir: Option<string>)
  {
    connector.Some? && connector.value.testConnection(ident)
    && (connector.value.findCsvPath(ident, csvDir).Some? || connector.value.findLogPath(ident, logDir).Some?)
  }

  lemma SelectSnoc<T>(xs: seq<T>, flags: seq<bool>, x: T, b: bool)
    requires |flags| == |xs|
    ensures Select(xs + [x], flags + [b]) == Select(xs, flags) + (if b then [x] else [])
    ensures Count(flags + [b]) == Count(flags) + (if b then 1 else 0)
  {
    assert (xs + [x])[..|xs|] == xs;
    assert (flags + [b])[..|flags|] == flags;
  }

  /** The directories the direct fix leaves on a server whose directories were d. */
  function FixedPair(connector: Option<Connector>, ident: Identity, d: (Option<string>, Option<string>)): (Option<string>, Option<string>)
  {
    var f := Fix(connector, ident, d.0, d.1);
    (f.csvDir, f.logDir)
  }

  /** The tracker after the loop has fixed, in order, the unrestricted servers among servers, whose directories were dirs. */
  function TrackerAfterEach(cache: PathCache, connector: Option<Connector>, servers: seq<GameServer>,
                            dirs: seq<(Option<string>, Option<string>)>): PathCache
    requires |servers| == |dirs|
  {
    if |servers| == 0 then cache
    else
      var n := |servers| - 1;
      var before := TrackerAfterEach(cache, connector, servers[..n], dirs[..n]);
      if servers[n].restricted then before else TrackerAfterFix(before, connector, servers[n], dirs[n].0, dirs[n].1)
  }

  /** One step of the loop: a restricted server is skipped, any other is fixed directly. */
  method FixOne(server: GameServer, connector: Option<Connector>, tracker: ParserPathTracker) returns (ok: bool)
    modifies server, tracker
    ensures ok == (!server.restricted && FixReports(connector, server.ident, old(server.deathlogsDirectory), old(server.logDirectory)))
    ensures server.restricted ==>
      server.deathlogsDirectory == old(server.deathlogsDirectory) && server.logDirectory == old(server.logDirectory)
      && tracker.serverPathCache == old(tracker.serverPathCache)
    ensures !server.restricted ==>
      HasDirs(server, FixedPair(connector, server.ident, (old(server.deathlogsDirectory), old(server.logDirectory))))
      && tracker.serverPathCache == TrackerAfterFix(old(tracker.serverPathCache), connector, server,
                                                    old(server.deathlogsDirectory), old(server.logDirectory))
  {
    if server.restricted {
      return false;
    }
    PathsFixedMeansFound(connector, server.ident, server.deathlogsDirectory, server.logDirectory);
    ok := FixServerPathsFlag(server, connector, tracker);
  }

  /** The two directories of each server, in order. */
  function Dirs(servers: seq<GameServer>): (r: seq<(Option<string>, Option<string>)>)
    reads set s | s in servers
    ensures |r| == |servers|
    ensures forall i :: 0 <= i < |servers| ==> r[i] == (servers[i].deathlogsDirectory, servers[i].logDirectory)
  {
    if |servers| == 0 then [] else Dirs(servers[..|servers| - 1]) + [(servers[|servers| - 1].deathlogsDirectory, servers[|servers| - 1].logDirectory)]
  }

  /** The server's directories are the pair d. */
  predicate HasDirs(server: GameServer, d: (Option<string>, Option<string>))
    reads server
  {
    server.deathlogsDirectory == d.0 && server.logDirectory == d.1
  }

  /** Every restricted server in the list still has its directories from dirs. */
  predicate RestrictedKept(servers: seq<GameServer>, dirs: seq<(Option<string>, Option<string>)>)
    requires |servers| == |dirs|
    reads set s | s in servers
  {
    forall j :: 0 <= j < |servers| && servers[j].restricted ==> HasDirs(servers[j], dirs[j])
  }

  /** Every server from position i on still has its directories from dirs. */
  predicate KeptFrom(servers: seq<GameServer>, dirs: seq<(Option<string>, Option<string>)>, i: nat)
    requires |servers| == |dirs|
    reads set s | s in servers
  {
    forall j :: i <= j < |servers| ==> HasDirs(servers[j], dirs[j])
  }

  /** Each of the first |flags| flags is what the fix of that server's directories from dirs reports. */
  predicate FlagsReport(servers: seq<GameServer>, dirs: seq<(Option<string>, Option<string>)>, flags: seq<bool>, connector: Option<Connector>)
    requires |flags| <= |servers| == |dirs|
  {
    forall j :: 0 <= j < |flags| ==> flags[j] == (!servers[j].restricted && FixReports(connector, servers[j].ident, dirs[j].0, dirs[j].1))
  }

  /** Each unrestricted server before position n has the directories the fix gave it from dirs. */
  predicate FixedBefore(servers: seq<GameServer>, dirs: seq<(Option<string>, Option<string>)>, connector: Option<Connector>, n: nat)
    requires n <= |servers| == |dirs|
    reads set s | s in servers
  {
    forall j :: 0 <= j < n && !servers[j].restricted ==> HasDirs(servers[j], FixedPair(connector, servers[j].ident, dirs[j]))
  }

  /** One more server of the list extends the tracker of TrackerAfterEach by that server's fix. */
  lemma TrackerAfterEachStep(cache: PathCache, connector: Option<Connector>, servers: seq<GameServer>,
                             dirs: seq<(Option<string>, Option<string>)>, i: nat)
    requires i < |servers| == |dirs|
    ensures TrackerAfterEach(cache, connector, servers[..i + 1], dirs[..i + 1])
         == (var before := TrackerAfterEach(cache, connector, servers[..i], dirs[..i]);
             if servers[i].restricted then before else TrackerAfterFix(before, connector, servers[i], dirs[i].0, dirs[i].1))
  {
    assert servers[..i + 1][..i] == servers[..i];
    assert dirs[..i + 1][..i] == dirs[..i];
  }

  /**
   * One iteration of FixEach on servers[i]: its flag is appended and, when
   * set, the server is added to the fixed ones; restricted servers keep their
   * directories, and when the servers are distinct the later ones keep
   * theirs and the flag is what the fix of servers[i]'s directories reports.
   */
  method FixAt(servers: seq<GameServer>, i: nat, connector: Option<Connector>, tracker: ParserPathTracker,
               ghost dirs: seq<(Option<string>, Option<string>)>, ghost distinct: bool, ghost flags: seq<bool>,
               ghost cache0: PathCache, fixedServers: seq<GameServer>)
    returns (ok: bool, ghost flags': seq<bool>, fixedServers': seq<GameServer>)
    requires i < |servers| == |dirs| && |flags| == i
    requires fixedServers == Select(servers[..i], flags) && FlaggedUnrestricted(servers, flags)
    requires distinct ==> NoDup(servers)
    requires RestrictedKept(servers, dirs)
    requires distinct ==> KeptFrom(servers, dirs, i) && FlagsReport(servers, dirs, flags, connector)
    requires distinct ==> (FixedBefore(servers, dirs, connector, i)
      && tracker.serverPathCache == TrackerAfterEach(cache0, connector, servers[..i], dirs[..i]))
    modifies servers[i], tracker
    ensures flags' == flags + [ok] && |flags'| == i + 1
    ensures fixedServers' == Select(servers[..i + 1], flags') && FlaggedUnrestricted(servers, flags')
    ensures RestrictedKept(servers, dirs)
    ensures distinct ==> KeptFrom(servers, dirs, i + 1) && FlagsReport(servers, dirs, flags', connector)
    ensures distinct ==> (FixedBefore(servers, dirs, connector, i + 1)
      && tracker.serverPathCache == TrackerAfterEach(cache0, connector, servers[..i + 1], dirs[..i + 1]))
    ensures ok ==> !servers[i].restricted
  {
    ok := FixOne(servers[i], connector, tracker);
    TrackerAfterEachStep(cache0, connector, servers, dirs, i);
    SelectStep(servers, flags, ok);
    flags' := flags + [ok];
    fixedServers' := if ok then fixedServers + [servers[i]] else fixedServers;
  }

  /** Only unrestricted servers have their flag set. */
  predicate FlaggedUnrestricted(servers: seq<GameServer>, flags: seq<bool>)
    requires |flags| <= |servers|
  {
    forall j :: 0 <= j < |flags| && flags[j] ==> !servers[j].restricted
  }

  /** The loop of fixGuildServerPaths, stated over the directories dirs the servers had before it. */
  method FixLoop(servers: seq<GameServer>, connector: Option<Connector>, tracker: ParserPathTracker,
                 ghost dirs: seq<(Option<string>, Option<string>)>, ghost distinct: bool)
    returns (fixedServers: seq<GameServer>, ghost flags: seq<bool>)
    requires |servers| == |dirs|
    requires distinct ==> NoDup(servers) && KeptFrom(servers, dirs, 0)
    requires RestrictedKept(servers, dirs)
    modifies (set s | s in servers), tracker
    ensures |flags| == |servers| && fixedServers == Select(servers, flags)
    ensures FlaggedUnrestricted(servers, flags) && RestrictedKept(servers, dirs)
    ensures distinct ==> FlagsReport(servers, dirs, flags, connector)
    ensures distinct ==> (FixedBefore(servers, dirs, connector, |servers|)
      && tracker.serverPathCache == TrackerAfterEach(old(tracker.serverPathCache), connector, servers, dirs))
  {
    fixedServers := [];
    flags := [];
    ghost var cache0 := tracker.serverPathCache;
    var i := 0;
    while i < |servers|
      invariant 0 <= i <= |servers|
      invariant |flags| == i && fixedServers == Select(servers[..i], flags)
      invariant FlaggedUnrestricted(servers, flags)
      invariant RestrictedKept(servers, dirs)
      invariant distinct ==> KeptFrom(servers, dirs, i) && FlagsReport(servers, dirs, flags, connector)
      invariant distinct ==> (FixedBefore(servers, dirs, connector, i)
        && tracker.serverPathCache == TrackerAfterEach(cache0, connector, servers[..i], dirs[..i]))
    {
      var ok;
      ok, flags, fixedServers := FixAt(servers, i, connector, tracker, dirs, distinct, flags, cache0, fixedServers);
      i := i + 1;
    }
    assert servers[..i] == servers;
    assert dirs[..i] == dirs;
  }

  /** The bookkeeping of one iteration: the flag of servers[i] is added to the selection. */
  lemma {:induction false} SelectStep(servers: seq<GameServer>, flags: seq<bool>, ok: bool)
    requires |flags| < |servers|
    requires FlaggedUnrestricted(servers, flags) && (ok ==> !servers[|flags|].restricted)
    ensures FlaggedUnrestricted(servers, flags + [ok])
    ensures Count(flags + [ok]) == Count(flags) + (if ok then 1 else 0)
    ensures Select(servers[..|flags| + 1], flags + [ok]) == Select(servers[..|flags|], flags) + (if ok then [servers[|flags|]] else [])
  {
    var i := |flags|;
    forall j | 0 <= j < i + 1 && (flags + [ok])[j]
      ensures !servers[j].restricted
    {
      if j < i {
        assert flags[j];
      }
    }
    assert servers[..i + 1] == servers[..i] + [servers[i]];
    SelectSnoc(servers[..i], flags, servers[i], ok);
  }

  /**
   * The loop of fixGuildServerPaths: every server in order, restricted ones
   * skipped. The flags say which fixes returned true and the result lists
   * those servers in order; when no server is listed twice, each flag is
   * what the fix of that server's original directories reports.
   */
  method FixEach(servers: seq<GameServer>, connector: Option<Connector>, tracker: ParserPathTracker)
    returns (fixedServers: seq<GameServer>, ghost flags: seq<bool>)
    modifies (set s | s in servers), tracker
    ensures |flags| == |servers| && fixedServers == Select(servers, flags)
    ensures forall i :: 0 <= i < |servers| && flags[i] ==> !servers[i].restricted
    ensures forall i :: 0 <= i < |servers| && servers[i].restricted ==>
      servers[i].deathlogsDirectory == old(servers[i].deathlogsDirectory) && servers[i].logDirectory == old(servers[i].logDirectory)
    ensures NoDup(servers) ==> forall i :: 0 <= i < |servers| ==> flags[i] == (!servers[i].restricted && FixReports(connector, servers[i].ident, old(servers[i].deathlogsDirectory), old(servers[i].logDirectory)))
    ensures NoDup(servers) ==> forall i :: 0 <= i < |servers| && !servers[i].restricted ==>
      HasDirs(servers[i], FixedPair(connector, servers[i].ident, (old(servers[i].deathlogsDirectory), old(servers[i].logDirectory))))
    ensures NoDup(servers) ==> tracker.serverPathCache == TrackerAfterEach(old(tracker.serverPathCache), connector, servers, old(Dirs(servers)))
  {
    ghost var dirs := Dirs(servers);
    ghost var distinct := NoDup(servers);
    fixedServers, flags := FixLoop(servers, connector, tracker, dirs, distinct);
    assert FlaggedUnrestricted(servers, flags);
    assert RestrictedKept(servers, dirs);
    assert distinct ==> FlagsReport(servers, dirs, flags, connector);
    assert distinct ==> FixedBefore(servers, dirs, connector, |servers|);
  }

  /**
   * What fixing a guild's servers leaves, stated over the directories the
   * servers had before (before) and have after (now) and the tracker cache
   * before (cache0) and after: no restricted server is flagged or changed,
   * and when no server is listed twice each flag is what the fix of that
   * server reports, each unrestricted server has the directories its fix
   * found, and the tracker holds what each fix recorded, in order.
   */
  ghost predicate GuildFixed(servers: seq<GameServer>, before: seq<(Option<string>, Option<string>)>, now: seq<(Option<string>, Option<string>)>,
                             flags: seq<bool>, connector: Option<Connector>, cache0: PathCache, cache: PathCache)
  {
    |flags| == |servers| == |before| == |now|
    && (forall i :: 0 <= i < |servers| && flags[i] ==> !servers[i].restricted)
    && (forall i :: 0 <= i < |servers| && servers[i].restricted ==> now[i] == before[i])
    && (NoDup(servers) ==> forall i :: 0 <= i < |servers| ==>
          flags[i] == (!servers[i].restricted && FixReports(connector, servers[i].ident, before[i].0, before[i].1)))
    && (NoDup(servers) ==> forall i :: 0 <= i < |servers| && !servers[i].restricted ==>
          now[i] == FixedPair(connector, servers[i].ident, before[i]))
    && (NoDup(servers) ==> cache == TrackerAfterEach(cache0, connector, servers, before))
  }

  /** The body of fixGuildServerPaths between the context calls: fix each server, then save the fixed ones at once. */
  method FixAndSave(servers: seq<GameServer>, repository: GameServerRepository, connector: Option<Connector>, tracker: ParserPathTracker)
    returns (fixed: nat, ghost flags: seq<bool>)
    modifies (set s | s in servers), tracker, repository
    ensures fixed == Count(flags)
    ensures GuildFixed(servers, old(Dirs(servers)), Dirs(servers), flags, connector, old(tracker.serverPathCache), tracker.serverPathCache)
    ensures repository.saved == old(repository.saved)
    ensures repository.savedBatches == old(repository.savedBatches) + (if fixed > 0 then [Select(servers, flags)] else [])
  {
    var fixedServers;
    fixedServers, flags := FixEach(servers, connector, tracker);
    fixed := |fixedServers|;
    if fixed > 0 {
      repository.SaveAll(fixedServers);
    }
  }

  /**
   * fixGuildServerPaths: runs the direct fix on every unrestricted server
   * of the guild, in order, counting those it fixed, and saves those in
   * one saveAll when there is at least one; the isolation context is
   * cleared at the end whatever happened. A null repository throws before
   * any server is looked at, and the count stays 0.
   */
  method FixGuildServerPaths(guildId: int, repository: GameServerRepository?, connector: Option<Connector>,
                             tracker: ParserPathTracker, context: GuildIsolationManager)
    returns (fixed: nat, ghost flags: seq<bool>)
    modifies context, tracker, repository
    modifies if repository == null then {} else set s | s in repository.FindAllByGuildId(guildId)
    ensures context.Current() == Context(None, None)
    ensures repository == null ==> fixed == 0 && tracker.serverPathCache == old(tracker.serverPathCache)
    ensures repository != null ==>
      var servers := repository.FindAllByGuildId(guildId);
      fixed == Count(flags)
      && GuildFixed(servers, old(Dirs(servers)), Dirs(servers), flags, connector, old(tracker.serverPathCache), tracker.serverPathCache)
      && repository.saved == old(repository.saved)
      && repository.savedBatches == old(repository.savedBatches) + (if fixed > 0 then [Select(servers, flags)] else [])
  {
    fixed := 0;
    flags := [];
    ghost var before := if repository == null then [] else Dirs(repository.FindAllByGuildId(guildId));
    context.SetContextSlots(Some(guildId), None);
    if repository == null {
      context.ClearContext();
      return;
    }
    var servers := repository.FindAllByGuildId(guildId);
    assert Dirs(servers) == before;
    fixed, flags := FixAndSave(servers, repository, connector, tracker);
    ghost var now := Dirs(servers);
    context.ClearContext();
    assert Dirs(servers) == now;
  }
}
