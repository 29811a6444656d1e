/**
 * PathFixIntegration: applies PathResolutionFix to one server, to every
 * server of a guild, or to every server of every guild, counting the
 * servers it changed.
 */
module FixIntegration {
  import opened Wrappers
  import opened Lists
  import opened Domain
  import opened PathResolution
  import opened GuildIsolation
  import opened PathIsolation

  /** The servers of each listed guild, guild after guild, in list order. */
  function ServersOf(repository: GameServerRepository, guildIds: seq<int>): (r: seq<GameServer>)
    ensures forall s :: s in r ==> exists g :: g in guildIds && s in repository.FindAllByGuildId(g)
  {
    if |guildIds| == 0 then []
    else ServersOf(repository, guildIds[..|guildIds| - 1]) + repository.FindAllByGuildId(guildIds[|guildIds| - 1])
  }

  /** Every server of every listed guild is gathered. */
  lemma {:induction false} ServersOfComplete(repository: GameServerRepository, guildIds: seq<int>, g: int, s: GameServer)
    requires g in guildIds && s in repository.FindAllByGuildId(g)
    ensures s in ServersOf(repository, guildIds)
  {
    var n := |guildIds|;
    if guildIds[n - 1] != g {
      assert g in guildIds[..n - 1];
      ServersOfComplete(repository, guildIds[..n - 1], g, s);
    }
  }

  lemma ServersOfSnoc(repository: GameServerRepository, guildIds: seq<int>, g: int)
    ensures ServersOf(repository, guildIds + [g]) == ServersOf(repository, guildIds) + repository.FindAllByGuildId(g)
  {
    assert (guildIds + [g])[..|guildIds|] == guildIds;
  }

  /** Each of the first |flags| flags says whether that server's directories moved from dirs to after. */
  ghost predicate ChangedFlags(dirs: seq<(Option<string>, Option<string>)>, after: seq<(Option<string>, Option<string>)>, flags: seq<bool>)
    requires |flags| == |after| <= |dirs|
  {
    forall j :: 0 <= j < |flags| ==> (flags[j] <==> after[j] != dirs[j])
  }

  /** Each of the first |after| servers has its directories from after. */
  predicate HasDirsUpTo(servers: seq<GameServer>, after: seq<(Option<string>, Option<string>)>)
    requires |after| <= |servers|
    reads set s | s in servers
  {
    forall j :: 0 <= j < |after| ==> HasDirs(servers[j], after[j])
  }

  /**
   * What FixServerAt promises about the list, given the directories pre
   * every server had before one FixStep on servers[i] and what that step
   * changed.
   */
  lemma StepKeepsList(servers: seq<GameServer>, i: nat, dirs: seq<(Option<string>, Option<string>)>, distinct: bool,
                      flags: seq<bool>, after: seq<(Option<string>, Option<string>)>, ok: bool,
                      pre: seq<(Option<string>, Option<string>)>)
    requires i < |servers| == |dirs| == |pre| && |flags| == |after| == i
    requires distinct ==> NoDup(servers)
    requires forall j :: 0 <= j < |servers| && servers[j].restricted ==> pre[j] == dirs[j]
    requires distinct ==>
      (forall j :: i <= j < |servers| ==> pre[j] == dirs[j])
      && ChangedFlags(dirs, after, flags)
      && (forall j :: 0 <= j < i ==> pre[j] == after[j])
    requires forall j :: 0 <= j < |servers| && servers[j] == servers[i] ==> pre[j] == pre[i]
    requires forall j :: 0 <= j < |servers| && servers[j] != servers[i] ==> HasDirs(servers[j], pre[j])
    requires ok <==> !HasDirs(servers[i], pre[i])
    requires servers[i].restricted ==> HasDirs(servers[i], pre[i])
    ensures RestrictedKept(servers, dirs)
    ensures distinct ==>
      (KeptFrom(servers, dirs, i + 1)
      && ChangedFlags(dirs, after + [(servers[i].deathlogsDirectory, servers[i].logDirectory)], flags + [ok])
      && HasDirsUpTo(servers, after + [(servers[i].deathlogsDirectory, servers[i].logDirectory)]))
  {
    forall j | 0 <= j < |servers| && servers[j].restricted
      ensures HasDirs(servers[j], dirs[j])
    {
      if servers[j] == servers[i] {
        assert HasDirs(servers[i], pre[i]) && pre[j] == pre[i];
      }
    }
  }

  /**
   * One iteration of FixEachServer on servers[i], with dirs the directories
   * before the loop and after those each earlier server was left with.
   */
  method FixServerAt(fixer: PathFixIntegration, servers: seq<GameServer>, i: nat, perServerContext: bool,
                     ghost dirs: seq<(Option<string>, Option<string>)>, ghost distinct: bool,
                     ghost flags: seq<bool>, ghost after: seq<(Option<string>, Option<string>)>)
    returns (ok: bool, ghost after': seq<(Option<string>, Option<string>)>)
    requires i < |servers| == |dirs| && |flags| == |after| == i
    requires distinct ==> NoDup(servers)
    requires RestrictedKept(servers, dirs)
    requires distinct ==> KeptFrom(servers, dirs, i) && ChangedFlags(dirs, after, flags) && HasDirsUpTo(servers, after)
    modifies servers[i], fixer.resolver, fixer.gameServerRepository, fixer.isolation
    ensures |after'| == i + 1
    ensures RestrictedKept(servers, dirs)
    ensures distinct ==> KeptFrom(servers, dirs, i + 1) && ChangedFlags(dirs, after', flags + [ok]) && HasDirsUpTo(servers, after')
    ensures ok ==> !servers[i].restricted
    ensures fixer.gameServerRepository != null ==>
      fixer.gameServerRepository.saved == old(fixer.gameServerRepository.saved) + (if ok then [servers[i]] else [])
      && fixer.gameServerRepository.savedBatches == old(fixer.gameServerRepository.savedBatches)
    ensures fixer.isolation.Current() == if perServerContext then Context(None, None) else old(fixer.isolation.Current())
  {
    ghost var pre := Dirs(servers);
    assert forall j :: 0 <= j < |servers| && servers[j].restricted ==> pre[j] == dirs[j];
    assert forall j :: 0 <= j < |servers| && servers[j] == servers[i] ==> pre[j] == pre[i];
    assert distinct ==> (forall j :: i <= j < |servers| ==> pre[j] == dirs[j]) && (forall j :: 0 <= j < i ==> pre[j] == after[j]);
    ok := fixer.FixStep(servers[i], perServerContext);
    after' := after + [(servers[i].deathlogsDirectory, servers[i].logDirectory)];
    StepKeepsList(servers, i, dirs, distinct, flags, after, ok, pre);
  }

  /**
   * The loop over a list of servers, stated over the directories dirs the
   * servers had before it and those, after, each one was left with.
   */
  method FixLoop(fixer: PathFixIntegration, servers: seq<GameServer>, perServerContext: bool,
                 ghost dirs: seq<(Option<string>, Option<string>)>, ghost distinct: bool)
    returns (fixedCount: nat, ghost flags: seq<bool>, ghost after: seq<(Option<string>, Option<string>)>)
    requires |servers| == |dirs|
    requires distinct ==> NoDup(servers) && KeptFrom(servers, dirs, 0)
    requires RestrictedKept(servers, dirs)
    modifies (set s | s in servers), fixer.resolver, fixer.gameServerRepository, fixer.isolation
    ensures |flags| == |after| == |servers| && fixedCount == Count(flags)
    ensures FlaggedUnrestricted(servers, flags) && RestrictedKept(servers, dirs)
    ensures distinct ==> ChangedFlags(dirs, after, flags) && HasDirsUpTo(servers, after)
    ensures fixer.gameServerRepository != null ==>
      fixer.gameServerRepository.saved == old(fixer.gameServerRepository.saved) + Select(servers, flags)
      && fixer.gameServerRepository.savedBatches == old(fixer.gameServerRepository.savedBatches)
    ensures fixer.isolation.Current() == if perServerContext && |servers| > 0 then Context(None, None) else old(fixer.isolation.Current())
  {
    ghost var context0 := fixer.isolation.Current();
    ghost var saved0 := if fixer.gameServerRepository != null then fixer.gameServerRepository.saved else [];
    after := [];
    fixedCount := 0;
    flags := [];
    var i := 0;
    while i < |servers|
      invariant 0 <= i <= |servers|
      invariant |flags| == |after| == i && fixedCount == Count(flags)
      invariant FlaggedUnrestricted(servers, flags)
      invariant RestrictedKept(servers, dirs)
      invariant distinct ==> KeptFrom(servers, dirs, i) && ChangedFlags(dirs, after, flags) && HasDirsUpTo(servers, after)
      invariant fixer.gameServerRepository != null ==>
        fixer.gameServerRepository.saved == saved0 + Select(servers[..i], flags)
        && fixer.gameServerRepository.savedBatches == old(fixer.gameServerRepository.savedBatches)
      invariant perServerContext && i > 0 ==> fixer.isolation.Current() == Context(None, None)
      invariant !perServerContext || i == 0 ==> fixer.isolation.Current() == context0
    {
      var ok;
      ok, after := FixServerAt(fixer, servers, i, perServerContext, dirs, distinct, flags, after);
      SelectStep(servers, flags, ok);
      ConcatAssoc(saved0, Select(servers[..i], flags), if ok then [servers[i]] else []);
      if ok {
        fixedCount := fixedCount + 1;
      }
      flags := flags + [ok];
      i := i + 1;
    }
    assert servers[..i] == servers;
  }

  /**
   * The loop over a list of servers: each is fixed in turn, its own guild
   * set as the context around it when perServerContext holds (the loop of
   * fixAllServerPaths) and the context left alone otherwise (the loop of
   * fixGuildServerPaths). The flags say which calls returned true.
   * Restricted servers are never changed, every fixed server is saved in
   * order, and when no server is listed twice a flag is set exactly when
   * that server's directories changed.
   */
  method FixEachServer(fixer: PathFixIntegration, servers: seq<GameServer>, perServerContext: bool) returns (fixedCount: nat, ghost flags: seq<bool>)
    modifies (set s | s in servers), fixer.resolver, fixer.gameServerRepository, fixer.isolation
    ensures |flags| == |servers| && fixedCount == Count(flags)
    ensures forall i :: 0 <= i < |servers| && flags[i] ==> !servers[i].restricted
    ensures forall i :: 0 <= i < |servers| && servers[i].restricted ==>
      servers[i].deathlogsDirectory == old(servers[i].deathlogsDirectory) && servers[i].logDirectory == old(servers[i].logDirectory)
    ensures NoDup(servers) ==> forall i :: 0 <= i < |servers| ==>
      (flags[i] <==> servers[i].deathlogsDirectory != old(servers[i].deathlogsDirectory) || servers[i].logDirectory != old(servers[i].logDirectory))
    ensures fixer.gameServerRepository != null ==>
      fixer.gameServerRepository.saved == old(fixer.gameServerRepository.saved) + Select(servers, flags)
      && fixer.gameServerRepository.savedBatches == old(fixer.gameServerRepository.savedBatches)
    ensures fixer.isolation.Current() == if perServerContext && |servers| > 0 then Context(None, None) else old(fixer.isolation.Current())
  {
    ghost var dirs := Dirs(servers);
    ghost var distinct := NoDup(servers);
    ghost var after;
    fixedCount, flags, after := FixLoop(fixer, servers, perServerContext, dirs, distinct);
    assert FlaggedUnrestricted(servers, flags);
    assert RestrictedKept(servers, dirs);
    if distinct {
      forall j | 0 <= j < |servers|
        ensures flags[j] <==> servers[j].deathlogsDirectory != old(servers[j].deathlogsDirectory) || servers[j].logDirectory != old(servers[j].logDirectory)
      {
        assert HasDirs(servers[j], after[j]);
      }
    }
  }

  class PathFixIntegration {
    const gameServerRepository: GameServerRepository?
    const sftpConnector: Option<Connector>
    /** The shared PathResolutionFix cache. */
    const resolver: PathResolutionFix
    /** The thread's guild isolation context. */
    const isolation: GuildIsolationManager

    constructor (gameServerRepository: GameServerRepository?, sftpConnector: Option<Connector>,
                 resolver: PathResolutionFix, isolation: GuildIsolationManager)
      ensures this.gameServerRepository == gameServerRepository && this.sftpConnector == sftpConnector
      ensures this.resolver == resolver && this.isolation == isolation
    {
      this.gameServerRepository := gameServerRepository;
      this.sftpConnector := sftpConnector;
      this.resolver := resolver;
      this.isolation := isolation;
    }

    /**
     * fixServerPaths: false for a null or restricted server, which is
     * left as it is; otherwise exactly PathResolutionFix.fixServerPaths:
     * each directory takes its resolution when that is non-null and
     * different, the result says whether one changed, and the server is
     * saved exactly then.
     */
    method FixServerPaths(server: GameServer?) returns (fixed: bool)
      modifies server, resolver, gameServerRepository
      ensures server == null || server.restricted ==>
        !fixed && resolver.pathCache == old(resolver.pathCache)
        && (server != null ==> server.deathlogsDirectory == old(server.deathlogsDirectory) && server.logDirectory == old(server.logDirectory))
        && (gameServerRepository != null ==> gameServerRepository.saved == old(gameServerRepository.saved))
      ensures server != null && !server.restricted ==>
        var rc := Resolve(sftpConnector, server.ident, old(server.deathlogsDirectory), Csv, old(resolver.pathCache));
        var cache1 := Cached(old(resolver.pathCache), CacheKey(server.ident, Csv), rc.cached);
        var rl := Resolve(sftpConnector, server.ident, old(server.logDirectory), Log, cache1);
        server.deathlogsDirectory == Adopt(old(server.deathlogsDirectory), rc.path)
        && server.logDirectory == Adopt(old(server.logDirectory), rl.path)
        && resolver.pathCache == Cached(cache1, CacheKey(server.ident, Log), rl.cached)
      ensures server != null ==>
        (fixed <==> server.deathlogsDirectory != old(server.deathlogsDirectory) || server.logDirectory != old(server.logDirectory))
      ensures gameServerRepository != null ==>
        gameServerRepository.saved == old(gameServerRepository.saved) + (if fixed then [server] else [])
        && gameServerRepository.savedBatches == old(gameServerRepository.savedBatches)
    {
      if server == null {
        return false;
      }
      if server.restricted {
        return false;
      }
      fixed := resolver.FixServerPaths(server, sftpConnector, gameServerRepository);
    }

    /**
     * One step of the loops: fixServerPaths, under the server's own guild
     * context (cleared afterwards) when inContext holds.
     */
    method FixStep(server: GameServer, inContext: bool) returns (fixed: bool)
      modifies server, resolver, gameServerRepository, isolation
      ensures fixed <==> server.deathlogsDirectory != old(server.deathlogsDirectory) || server.logDirectory != old(server.logDirectory)
      ensures server.restricted ==> !fixed
      ensures server.restricted ==>
        server.deathlogsDirectory == old(server.deathlogsDirectory) && server.logDirectory == old(server.logDirectory)
        && resolver.pathCache == old(resolver.pathCache)
      ensures !server.restricted ==>
        var rc := Resolve(sftpConnector, server.ident, old(server.deathlogsDirectory), Csv, old(resolver.pathCache));
        var cache1 := Cached(old(resolver.pathCache), CacheKey(server.ident, Csv), rc.cached);
        var rl := Resolve(sftpConnector, server.ident, old(server.logDirectory), Log, cache1);
        server.deathlogsDirectory == Adopt(old(server.deathlogsDirectory), rc.path)
        && server.logDirectory == Adopt(old(server.logDirectory), rl.path)
        && resolver.pathCache == Cached(cache1, CacheKey(server.ident, Log), rl.cached)
      ensures gameServerRepository != null ==>
        gameServerRepository.saved == old(gameServerRepository.saved) + (if fixed then [server] else [])
        && gameServerRepository.savedBatches == old(gameServerRepository.savedBatches)
      ensures isolation.Current() == if inContext then Context(None, None) else old(isolation.Current())
    {
      if inContext {
        isolation.SetContextSlots(Some(server.ident.guildId), None);
      }
      fixed := FixServerPaths(server);
      if inContext {
        isolation.ClearContext();
      }
    }

    /**
     * fixGuildServerPaths: the guild's servers are fixed under that
     * guild's context, which is cleared at the end whatever happened. A
     * null repository throws before any server is looked at, and the count
     * stays 0.
     */
    method FixGuildServerPaths(guildId: int) returns (fixedCount: nat, ghost flags: seq<bool>)
      modifies isolation, resolver, gameServerRepository
      modifies if gameServerRepository == null then {} else set s | s in gameServerRepository.FindAllByGuildId(guildId)
      ensures isolation.Current() == Context(None, None)
      ensures gameServerRepository == null ==> fixedCount == 0 && unchanged(resolver)
      ensures gameServerRepository != null ==>
        var servers := gameServerRepository.FindAllByGuildId(guildId);
        |flags| == |servers| && fixedCount == Count(flags)
        && (forall i :: 0 <= i < |servers| && flags[i] ==> !servers[i].restricted)
        && (forall i :: 0 <= i < |servers| && servers[i].restricted ==>
              servers[i].deathlogsDirectory == old(servers[i].deathlogsDirectory) && servers[i].logDirectory == old(servers[i].logDirectory))
        && (NoDup(servers) ==> forall i :: 0 <= i < |servers| ==>
              (flags[i] <==> servers[i].deathlogsDirectory != old(servers[i].deathlogsDirectory) || servers[i].logDirectory != old(servers[i].logDirectory)))
        && gameServerRepository.saved == old(gameServerRepository.saved) + Select(servers, flags)
        && gameServerRepository.savedBatches == old(gameServerRepository.savedBatches)
    {
      fixedCount := 0;
      flags := [];
      isolation.SetContextSlots(Some(guildId), None);
      if gameServerRepository == null {
        isolation.ClearContext();
        return;
      }
      var servers := gameServerRepository.FindAllByGuildId(guildId);
      fixedCount, flags := FixEachServer(this, servers, false);
      isolation.ClearContext();
    }

    /**
     * The first loop of fixAllServerPaths: the servers of every distinct
     * guild, each guild read under its own context, which is cleared after
     * each read.
     */
    method GatherServers() returns (allServers: seq<GameServer>)
      requires gameServerRepository != null
      modifies isolation
      ensures allServers == ServersOf(gameServerRepository, gameServerRepository.guildIds)
      ensures old(allocated(allServers))
      ensures isolation.Current() == if |gameServerRepository.guildIds| > 0 then Context(None, None) else old(isolation.Current())
    {
      var guildIds := gameServerRepository.guildIds;
      allServers := [];
      var i := 0;
      while i < |guildIds|
        invariant 0 <= i <= |guildIds|
        invariant allServers == ServersOf(gameServerRepository, guildIds[..i])
        invariant old(allocated(allServers))
        invariant isolation.Current() == if i > 0 then Context(None, None) else old(isolation.Current())
      {
        isolation.SetContextSlots(Some(guildIds[i]), None);
        ServersOfSnoc(gameServerRepository, guildIds[..i], guildIds[i]);
        assert guildIds[..i + 1] == guildIds[..i] + [guildIds[i]];
        allServers := allServers + gameServerRepository.FindAllByGuildId(guildIds[i]);
        isolation.ClearContext();
        i := i + 1;
      }
      assert guildIds[..i] == guildIds;
    }

    /**
     * fixAllServerPaths: every server of every distinct guild is gathered
     * before any is fixed, then each is fixed under its own guild's
     * context. A null repository throws at once and the count stays 0.
     */
    method FixAllServerPaths() returns (fixedCount: nat, ghost flags: seq<bool>)
      modifies isolation, resolver, gameServerRepository
      modifies if gameServerRepository == null then {} else set s | s in ServersOf(gameServerRepository, gameServerRepository.guildIds)
      ensures gameServerRepository == null ==> fixedCount == 0 && unchanged(isolation) && unchanged(resolver)
      ensures gameServerRepository != null ==> old(allocated(ServersOf(gameServerRepository, gameServerRepository.guildIds)))
      ensures gameServerRepository != null ==>
        var servers := ServersOf(gameServerRepository, gameServerRepository.guildIds);
        |flags| == |servers| && fixedCount == Count(flags)
        && (forall i :: 0 <= i < |servers| && flags[i] ==> !servers[i].restricted)
        && (forall i :: 0 <= i < |servers| && servers[i].restricted ==>
              servers[i].deathlogsDirectory == old(servers[i].deathlogsDirectory) && servers[i].logDirectory == old(servers[i].logDirectory))
        && (NoDup(servers) ==> forall i :: 0 <= i < |servers| ==>
              (flags[i] <==> servers[i].deathlogsDirectory != old(servers[i].deathlogsDirectory) || servers[i].logDirectory != old(servers[i].logDirectory)))
        && gameServerRepository.saved == old(gameServerRepository.saved) + Select(servers, flags)
        && gameServerRepository.savedBatches == old(gameServerRepository.savedBatches)
        && isolation.Current() == if |gameServerRepository.guildIds| > 0 then Context(None, None) else old(isolation.Current())
    {
      fixedCount := 0;
      flags := [];
      if gameServerRepository == null {
        return;
      }
      var allServers := GatherServers();
      assert |gameServerRepository.guildIds| == 0 ==> allServers == [];
      fixedCount, flags := FixEachServer(this, allServers, true);
    }
  }
}
