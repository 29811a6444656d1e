/**
 * ParserExtensions: entry points through which a parser asks for the
 * directory it should read, repairing and saving the server on the way.
 */
module Extensions {
  import opened Wrappers
  import opened Domain
  import opened PathResolution

  /** What one processCsvPath / processLogPath call returns, the field it leaves, and whether it saved. */
  datatype Processed = Processed(returned: Option<string>, dir: Option<string>, saved: bool)

  /**
   * The effect of a resolution on the call: a non-null resolved path that
   * differs from the caller's original is written to the field and, when
   * there is a repository, saved and returned. Without a repository the
   * save throws after the field is written, and the original is returned.
   */
  function ProcessPath(resolved: Option<string>, original: Option<string>, current: Option<string>, hasRepository: bool): (p: Processed)
    ensures p.saved <==> hasRepository && resolved.Some? && resolved != original
    ensures p.returned == original || (p.returned == resolved && p.saved)
    ensures p.returned != original ==> p.dir == p.returned
    ensures p.dir != current ==> p.dir == resolved && resolved.Some? && resolved != original
  {
    if resolved.Some? && resolved != original then
      if hasRepository then Processed(resolved, resolved, true) else Processed(original, resolved, false)
    else Processed(original, current, false)
  }

  /** Resolving again from the same directory, with the cache the first resolution left, gives the same path. */
  lemma ResolveAgainSameCurrent(c: Option<Connector>, s: Identity, current: Option<string>, k: Kind, cache: map<string, string>)
    ensures var r1 := Resolve(c, s, current, k, cache);
      Resolve(c, s, current, k, Cached(cache, CacheKey(s, k), r1.cached)).path == r1.path
  {
    var r1 := Resolve(c, s, current, k, cache);
    if r1.cached.Some? {
      assert Cached(cache, CacheKey(s, k), r1.cached) == cache[CacheKey(s, k) := r1.cached.value];
    }
  }

  /**
   * Calling again with what the first call returned, on the server and
   * cache it left, changes nothing and saves nothing.
   */
  lemma ProcessAgainIsStable(c: Option<Connector>, s: Identity, k: Kind, current: Option<string>, original: Option<string>,
                             cache: map<string, string>, hasRepository: bool)
    ensures var r1 := Resolve(c, s, current, k, cache);
      var p1 := ProcessPath(r1.path, original, current, hasRepository);
      var r2 := Resolve(c, s, p1.dir, k, Cached(cache, CacheKey(s, k), r1.cached));
      ProcessPath(r2.path, p1.returned, p1.dir, hasRepository) == Processed(p1.returned, p1.dir, false)
  {
    var r1 := Resolve(c, s, current, k, cache);
    var p1 := ProcessPath(r1.path, original, current, hasRepository);
    if p1.dir == current {
      ResolveAgainSameCurrent(c, s, current, k, cache);
    } else {
      ResolveIdempotent(c, s, current, k, cache);
    }
  }

  /**
   * The extensions' dependencies (static fields in the original); the
   * resolver holds the shared PathResolutionFix cache.
   */
  class ParserExtensions {
    var gameServerRepository: GameServerRepository?
    var sftpConnector: Option<Connector>
    var initialized: bool
    const resolver: PathResolutionFix

    constructor (resolver: PathResolutionFix)
      ensures !initialized && gameServerRepository == null && sftpConnector.None?
      ensures this.resolver == resolver
    {
      gameServerRepository := null;
      sftpConnector := None;
      initialized := false;
      this.resolver := resolver;
    }

    /** initialize: only the first call takes effect; later calls change nothing. */
    method Initialize(serverRepository: GameServerRepository?, connector: Option<Connector>)
      modifies this
      ensures initialized
      ensures old(initialized) ==> gameServerRepository == old(gameServerRepository) && sftpConnector == old(sftpConnector)
      ensures !old(initialized) ==> gameServerRepository == serverRepository && sftpConnector == connector
    {
      if initialized {
        return;
      }
      gameServerRepository := serverRepository;
      sftpConnector := connector;
      initialized := true;
    }

    /** isInitialized. */
    function IsInitialized(): bool
      reads this
    {
      initialized
    }

    /**
     * processCsvPath: before initialisation or for a null server the
     * original is returned and nothing changes; otherwise the CSV
     * resolution decides the call as ProcessPath says.
     */
    method ProcessCsvPath(server: GameServer?, originalPath: Option<string>) returns (r: Option<string>)
      modifies server, resolver, gameServerRepository
      ensures !initialized || server == null ==>
        r == originalPath && unchanged(resolver)
        && (server != null ==> unchanged(server))
        && (gameServerRepository != null ==> unchanged(gameServerRepository))
      ensures initialized && server != null ==>
        var res := Resolve(sftpConnector, server.ident, old(server.deathlogsDirectory), Csv, old(resolver.pathCache));
        var p := ProcessPath(res.path, originalPath, old(server.deathlogsDirectory), gameServerRepository != null);
        r == p.returned && server.deathlogsDirectory == p.dir && server.logDirectory == old(server.logDirectory)
        && resolver.pathCache == Cached(old(resolver.pathCache), CacheKey(server.ident, Csv), res.cached)
        && (gameServerRepository != null ==>
              gameServerRepository.saved == old(gameServerRepository.saved) + (if p.saved then [server] else [])
              && gameServerRepository.savedBatches == old(gameServerRepository.savedBatches))
    {
      if !initialized || server == null {
        return originalPath;
      }
      var resolvedPath := resolver.ResolveCsvPath(server, sftpConnector);
      if resolvedPath.Some? && resolvedPath != originalPath {
        server.deathlogsDirectory := resolvedPath;
        if gameServerRepository == null {
          return originalPath;
        }
        gameServerRepository.Save(server);
        return resolvedPath;
      }
      return originalPath;
    }

    /** processLogPath: the same on the log directory, with the log resolution. */
    method ProcessLogPath(server: GameServer?, originalPath: Option<string>) returns (r: Option<string>)
      modifies server, resolver, gameServerRepository
      ensures !initialized || server == null ==>
        r == originalPath && unchanged(resolver)
        && (server != null ==> unchanged(server))
        && (gameServerRepository != null ==> unchanged(gameServerRepository))
      ensures initialized && server != null ==>
        var res := Resolve(sftpConnector, server.ident, old(server.logDirectory), Log, old(resolver.pathCache));
        var p := ProcessPath(res.path, originalPath, old(server.logDirectory), gameServerRepository != null);
        r == p.returned && server.logDirectory == p.dir && server.deathlogsDirectory == old(server.deathlogsDirectory)
        && resolver.pathCache == Cached(old(resolver.pathCache), CacheKey(server.ident, Log), res.cached)
        && (gameServerRepository != null ==>
              gameServerRepository.saved == old(gameServerRepository.saved) + (if p.saved then [server] else [])
              && gameServerRepository.savedBatches == old(gameServerRepository.savedBatches))
    {
      if !initialized || server == null {
        return originalPath;
      }
      var resolvedPath := resolver.ResolveLogPath(server, sftpConnector);
      if resolvedPath.Some? && resolvedPath != originalPath {
        server.logDirectory := resolvedPath;
        if gameServerRepository == null {
          return originalPath;
        }
        gameServerRepository.Save(server);
        return resolvedPath;
      }
      return originalPath;
    }
  }
}
