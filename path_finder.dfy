/**
 * ParserPathFinder: finds a working CSV or log directory for a server,
 * trusting a cached answer only after validating it again, and otherwise
 * trying the configured directory and the tracker's recommendations in
 * order.
 */
module PathFinder {
  import opened Wrappers
  import opened JavaStrings
  import opened Lists
  import opened Domain
  import opened PathTracker

  /** The finder's cache: server key to category to path. */
  type FinderCache = map<string, map<string, string>>

  /** getServerKey: `guildId + ":" + id`. */
  function ServerKey(s: Identity): (r: string)
    ensures StartsWith(r, IntToString(s.guildId) + ":") && EndsWith(r, ":" + Render(s.id))
  {
    IntToString(s.guildId) + ":" + Render(s.id)
  }

  /** Servers of different guilds never share a finder cache entry. */
  lemma ServerKeyIsolatesGuilds(a: Identity, b: Identity)
    requires ServerKey(a) == ServerKey(b)
    ensures a.guildId == b.guildId && Render(a.id) == Render(b.id)
  {
    IntPrefixSplits(a.guildId, b.guildId, ':', Render(a.id), Render(b.id));
  }

  /** getCachedPath: the path under (key, category), if any. */
  function CachedPath(cache: FinderCache, key: string, category: string): Option<string>
  {
    if key in cache && category in cache[key] then Some(cache[key][category]) else None
  }

  /** The cache after `computeIfAbsent(key, new HashMap).put(category, path)`. */
  function PutPath(cache: FinderCache, key: string, category: string, path: string): (r: FinderCache)
    ensures r.Keys == cache.Keys + {key}
    ensures CachedPath(r, key, category) == Some(path)
    ensures forall k, c :: (k, c) != (key, category) ==> CachedPath(r, k, c) == CachedPath(cache, k, c)
  {
    var entry := if key in cache then cache[key] else map[];
    cache[key := entry[category := path]]
  }

  /**
   * The cache after removeCachedPath: only that category goes, and the
   * server's entry goes with it once it is empty.
   */
  function RemovePath(cache: FinderCache, key: string, category: string): (r: FinderCache)
    ensures CachedPath(r, key, category) == None
    ensures forall k, c :: (k, c) != (key, category) ==> CachedPath(r, k, c) == CachedPath(cache, k, c)
    ensures key in r <==> key in cache && cache[key] - {category} != map[]
    ensures forall k :: k != key ==> (k in r <==> k in cache)
  {
    if key in cache then
      var rest := cache[key] - {category};
      assert forall c :: c in cache[key] && c != category ==> c in rest;
      if rest == map[] then cache - {key} else cache[key := rest]
    else cache
  }

  /** The candidates in the order tried: the configured directory when non-empty, then each recommended path not yet listed. */
  function Candidates(current: Option<string>, recommended: seq<string>): (r: seq<string>)
    ensures !NullOrEmpty(current) ==> |r| > 0 && r[0] == current.value
    ensures forall p :: p in r <==> (!NullOrEmpty(current) && p == current.value) || p in recommended
    ensures NoDup(r)
  {
    AppendAbsent(if NullOrEmpty(current) then [] else [current.value], recommended)
  }

  /** One lookup: its answer, the cache it leaves, and the path it records in the tracker (if any). */
  datatype Answer = Answer(result: Option<string>, cache: FinderCache, recorded: Option<string>)

  /**
   * findCsvPath / findLogPath for a non-null server. Without a validator
   * (before initialize) the first validation throws and the answer is null
   * with nothing changed. A cached path that still validates is the
   * answer; one that does not is removed first. Then the first validating
   * candidate is cached, recorded and returned; if none validates the
   * answer is null.
   */
  function Find(v: Option<PathValidator>, s: Identity, k: Kind, current: Option<string>, recommended: seq<string>, cache: FinderCache): (r: Answer)
    ensures r.result.Some? ==> v.Some? && Validate(v.value, s, k, r.result.value)
    ensures r.result.Some? ==> r.result == CachedPath(cache, ServerKey(s), KindName(k)) || r.result.value in Candidates(current, recommended)
    ensures r.recorded.Some? ==> r.result == r.recorded && CachedPath(r.cache, ServerKey(s), KindName(k)) == r.recorded
    ensures v.Some? && r.result.None? ==> CachedPath(r.cache, ServerKey(s), KindName(k)) == None
    ensures v.Some? && r.result.None? ==> forall p :: p in Candidates(current, recommended) ==> !Validate(v.value, s, k, p)
    ensures forall key, c :: (key, c) != (ServerKey(s), KindName(k)) ==> CachedPath(r.cache, key, c) == CachedPath(cache, key, c)
  {
    if v.None? then Answer(None, cache, None)
    else
      var key, category := ServerKey(s), KindName(k);
      var cached := CachedPath(cache, key, category);
      if cached.Some? && Validate(v.value, s, k, cached.value) then Answer(cached, cache, None)
      else
        var cache1 := if cached.Some? then RemovePath(cache, key, category) else cache;
        var candidates := Candidates(current, recommended);
        match FirstIndex((p: string) => Validate(v.value, s, k, p), candidates)
        case Some(i) => Answer(Some(candidates[i]), PutPath(cache1, key, category, candidates[i]), Some(candidates[i]))
        case None => Answer(None, cache1, None)
  }

  /** A cached path that validates is returned as it is: the configured directory and the tracker are not consulted. */
  lemma ValidCacheWins(v: PathValidator, s: Identity, k: Kind, current: Option<string>, recommended: seq<string>, cache: FinderCache)
    requires CachedPath(cache, ServerKey(s), KindName(k)).Some?
    requires Validate(v, s, k, CachedPath(cache, ServerKey(s), KindName(k)).value)
    ensures Find(Some(v), s, k, current, recommended, cache) == Answer(CachedPath(cache, ServerKey(s), KindName(k)), cache, None)
  {
  }

  /** The first validating candidate wins: a valid configured directory beats every recommendation. */
  lemma {:induction false} FirstCandidateWins(v: PathValidator, s: Identity, k: Kind, current: Option<string>, recommended: seq<string>, cache: FinderCache)
    requires CachedPath(cache, ServerKey(s), KindName(k)).None?
    requires !NullOrEmpty(current) && Validate(v, s, k, current.value)
    ensures Find(Some(v), s, k, current, recommended, cache).result == current
    ensures Find(Some(v), s, k, current, recommended, cache).recorded == current
  {
    var candidates := Candidates(current, recommended);
    FirstIndexAt((p: string) => Validate(v, s, k, p), candidates, 0);
  }

  /**
   * Without a cached path that still validates, the candidates are tried
   * in order: the first one that validates is the answer and is recorded,
   * so every candidate after it, valid or not, loses to it.
   */
  lemma FirstValidCandidateWins(v: PathValidator, s: Identity, k: Kind, current: Option<string>, recommended: seq<string>,
                                cache: FinderCache, i: nat)
    requires var cached := CachedPath(cache, ServerKey(s), KindName(k)); cached.None? || !Validate(v, s, k, cached.value)
    requires i < |Candidates(current, recommended)| && Validate(v, s, k, Candidates(current, recommended)[i])
    requires forall j :: 0 <= j < i ==> !Validate(v, s, k, Candidates(current, recommended)[j])
    ensures Find(Some(v), s, k, current, recommended, cache).result == Some(Candidates(current, recommended)[i])
    ensures Find(Some(v), s, k, current, recommended, cache).recorded == Some(Candidates(current, recommended)[i])
  {
    FirstIndexAt((p: string) => Validate(v, s, k, p), Candidates(current, recommended), i);
  }

  /** The cache-hit answer is the only one that records nothing; any other found path is recorded. */
  lemma FoundIsRecordedUnlessCached(v: Option<PathValidator>, s: Identity, k: Kind, current: Option<string>, recommended: seq<string>, cache: FinderCache)
    requires Find(v, s, k, current, recommended, cache).result.Some?
    requires Find(v, s, k, current, recommended, cache).result != CachedPath(cache, ServerKey(s), KindName(k))
    ensures Find(v, s, k, current, recommended, cache).recorded == Find(v, s, k, current, recommended, cache).result
  {
  }

  class ParserPathFinder {
    var pathCache: FinderCache
    /** The validator built by initialize from the connector; absent until then. */
    var validator: Option<PathValidator>
    /** The tracker singleton that cacheSuccessfulPath also records into. */
    const tracker: ParserPathTracker

    constructor (tracker: ParserPathTracker)
      ensures pathCache == map[] && validator == None && this.tracker == tracker
    {
      pathCache := map[];
      validator := None;
      this.tracker := tracker;
    }

    method Initialize(v: PathValidator)
      modifies this
      ensures validator == Some(v) && pathCache == old(pathCache)
    {
      validator := Some(v);
    }

    function GetCachedPath(server: GameServer, category: string): (r: Option<string>)
      reads this
      ensures r.Some? <==> ServerKey(server.ident) in pathCache && category in pathCache[ServerKey(server.ident)]
    {
      CachedPath(pathCache, ServerKey(server.ident), category)
    }

    /** cacheSuccessfulPath: stores the path and records it in the tracker. */
    method CacheSuccessfulPath(server: GameServer, category: string, path: string)
      modifies this, tracker
      ensures pathCache == PutPath(old(pathCache), ServerKey(server.ident), category, path)
      ensures validator == old(validator)
      ensures tracker.serverPathCache == Appended(old(tracker.serverPathCache), TrackerKey(server.ident), category, path)
    {
      var serverKey := ServerKey(server.ident);
      var serverPaths := if serverKey in pathCache then pathCache[serverKey] else map[];
      pathCache := pathCache[serverKey := serverPaths[category := path]];
      tracker.RecordSuccessfulPath(server, Some(category), Some(path));
    }

    method RemoveCachedPath(server: GameServer, category: string)
      modifies this
      ensures pathCache == RemovePath(old(pathCache), ServerKey(server.ident), category)
      ensures validator == old(validator)
    {
      var serverKey := ServerKey(server.ident);
      if serverKey in pathCache {
        var serverPaths := pathCache[serverKey] - {category};
        if serverPaths == map[] {
          pathCache := pathCache - {serverKey};
        } else {
          pathCache := pathCache[serverKey := serverPaths];
        }
      }
    }

    /** findCsvPath (k = Csv) and findLogPath (k = Log): null for a null server. */
    method FindPath(server: GameServer?, k: Kind) returns (r: Option<string>)
      modifies this, tracker
      ensures validator == old(validator)
      ensures server == null ==>
        r == None && pathCache == old(pathCache) && tracker.serverPathCache == old(tracker.serverPathCache)
      ensures server != null ==>
        var l := Find(validator, server.ident, k, DirectoryOf(server, k),
                      Lookup(old(tracker.serverPathCache), TrackerKey(server.ident), KindName(k)), old(pathCache));
        r == l.result && pathCache == l.cache
        && tracker.serverPathCache == (if l.recorded.Some? then Appended(old(tracker.serverPathCache), TrackerKey(server.ident), KindName(k), l.recorded.value)
                                       else old(tracker.serverPathCache))
    {
      if server == null {
        return None;
      }
      if validator.None? {
        return None;
      }
      var v := validator.value;
      var category := KindName(k);
      var cachedPath := GetCachedPath(server, category);
      if cachedPath.Some? {
        if Validate(v, server.ident, k, cachedPath.value) {
          return cachedPath;
        }
        RemoveCachedPath(server, category);
      }
      var currentPath := DirectoryOf(server, k);
      var recommendedPaths := tracker.GetRecommendedPaths(server, Some(category));
      var pathsToTry := AppendMissing(if NullOrEmpty(currentPath) then [] else [currentPath.value], recommendedPaths);
      r := TryCandidates(server, k, v, pathsToTry);
    }

    /** The loop over the candidates: the first that validates is cached, recorded and returned. */
    method TryCandidates(server: GameServer, k: Kind, v: PathValidator, pathsToTry: seq<string>) returns (r: Option<string>)
      modifies this, tracker
      ensures validator == old(validator)
      ensures match FirstIndex((p: string) => Validate(v, server.ident, k, p), pathsToTry)
        case Some(i) =>
          r == Some(pathsToTry[i])
          && pathCache == PutPath(old(pathCache), ServerKey(server.ident), KindName(k), pathsToTry[i])
          && tracker.serverPathCache == Appended(old(tracker.serverPathCache), TrackerKey(server.ident), KindName(k), pathsToTry[i])
        case None =>
          r == None && pathCache == old(pathCache) && tracker.serverPathCache == old(tracker.serverPathCache)
    {
      ghost var ok := (p: string) => Validate(v, server.ident, k, p);
      var i := 0;
      while i < |pathsToTry|
        invariant 0 <= i <= |pathsToTry|
        invariant forall j :: 0 <= j < i ==> !ok(pathsToTry[j])
        invariant pathCache == old(pathCache)
        invariant tracker.serverPathCache == old(tracker.serverPathCache)
        invariant validator == old(validator)
      {
        var path := pathsToTry[i];
        if Validate(v, server.ident, k, path) {
          FirstIndexAt(ok, pathsToTry, i);
          CacheSuccessfulPath(server, KindName(k), path);
          return Some(path);
        }
        i := i + 1;
      }
      FirstIndexNone(ok, pathsToTry);
      return None;
    }

    method FindCsvPath(server: GameServer?) returns (r: Option<string>)
      modifies this, tracker
      ensures validator == old(validator)
      ensures server == null ==>
        r == None && pathCache == old(pathCache) && tracker.serverPathCache == old(tracker.serverPathCache)
      ensures server != null ==>
        var l := Find(validator, server.ident, Csv, server.deathlogsDirectory,
                      Lookup(old(tracker.serverPathCache), TrackerKey(server.ident), CATEGORY_CSV), old(pathCache));
        r == l.result && pathCache == l.cache
        && tracker.serverPathCache == (if l.recorded.Some? then Appended(old(tracker.serverPathCache), TrackerKey(server.ident), CATEGORY_CSV, l.recorded.value)
                                       else old(tracker.serverPathCache))
    {
      r := FindPath(server, Csv);
    }

    method FindLogPath(server: GameServer?) returns (r: Option<string>)
      modifies this, tracker
      ensures validator == old(validator)
      ensures server == null ==>
        r == None && pathCache == old(pathCache) && tracker.serverPathCache == old(tracker.serverPathCache)
      ensures server != null ==>
        var l := Find(validator, server.ident, Log, server.logDirectory,
                      Lookup(old(tracker.serverPathCache), TrackerKey(server.ident), CATEGORY_LOG), old(pathCache));
        r == l.result && pathCache == l.cache
        && tracker.serverPathCache == (if l.recorded.Some? then Appended(old(tracker.serverPathCache), TrackerKey(server.ident), CATEGORY_LOG, l.recorded.value)
                                       else old(tracker.serverPathCache))
    {
      r := FindPath(server, Log);
    }

    /**
     * updateServerPaths: each directory takes its found path, even one equal
     * to the old value; the result says whether either lookup found a path.
     */
    method UpdateServerPaths(server: GameServer?) returns (anyUpdated: bool)
      modifies this, tracker, server
      ensures validator == old(validator)
      ensures server == null ==> !anyUpdated && pathCache == old(pathCache) && tracker.serverPathCache == old(tracker.serverPathCache)
      ensures server != null ==>
        var csv := Find(old(validator), server.ident, Csv, old(server.deathlogsDirectory),
                        Lookup(old(tracker.serverPathCache), TrackerKey(server.ident), CATEGORY_CSV), old(pathCache));
        var log := Find(old(validator), server.ident, Log, old(server.logDirectory),
                        Lookup(old(tracker.serverPathCache), TrackerKey(server.ident), CATEGORY_LOG), csv.cache);
        var tracked := if csv.recorded.Some? then Appended(old(tracker.serverPathCache), TrackerKey(server.ident), CATEGORY_CSV, csv.recorded.value)
                       else old(tracker.serverPathCache);
        server.deathlogsDirectory == (if csv.result.Some? then csv.result else old(server.deathlogsDirectory))
        && server.logDirectory == (if log.result.Some? then log.result else old(server.logDirectory))
        && (anyUpdated <==> csv.result.Some? || log.result.Some?)
        && pathCache == log.cache
        && tracker.serverPathCache == (if log.recorded.Some? then Appended(tracked, TrackerKey(server.ident), CATEGORY_LOG, log.recorded.value)
                                       else tracked)
    {
      if server == null {
        return false;
      }
      anyUpdated := false;
      ghost var csv := Find(validator, server.ident, Csv, server.deathlogsDirectory,
                            Lookup(tracker.serverPathCache, TrackerKey(server.ident), CATEGORY_CSV), pathCache);
      ghost var cache0 := tracker.serverPathCache;
      var csvPath := FindCsvPath(server);
      assert csvPath == csv.result && pathCache == csv.cache;
      if csv.recorded.Some? {
        LookupAfterAppend(cache0, TrackerKey(server.ident), CATEGORY_CSV, csv.recorded.value, TrackerKey(server.ident), CATEGORY_LOG);
      }
      if csvPath.Some? {
        server.deathlogsDirectory := csvPath;
        anyUpdated := true;
      }
      ghost var log := Find(validator, server.ident, Log, server.logDirectory,
                            Lookup(tracker.serverPathCache, TrackerKey(server.ident), CATEGORY_LOG), pathCache);
      var logPath := FindLogPath(server);
      assert logPath == log.result && pathCache == log.cache;
      if logPath.Some? {
        server.logDirectory := logPath;
        anyUpdated := true;
      }
    }

    method ClearCache()
      modifies this
      ensures pathCache == map[] && validator == old(validator)
    {
      pathCache := map[];
    }
  }
}
