/**
 * ParserPathTracker: the record of paths that worked, per server and per
 * category, kept in the order they were recorded.
 */
module PathTracker {
  import opened Wrappers
  import opened JavaStrings
  import opened Domain

  const CATEGORY_CSV: string := "csv"
  const CATEGORY_LOG: string := "log"

  type PathCache = map<string, map<string, seq<string>>>

  /** The server part of the key: `serverId` when non-empty, else `String.valueOf(id)`. */
  function TrackerToken(s: Identity): (r: string)
    ensures !NullOrEmpty(s.serverId) ==> r == s.serverId.value
    ensures NullOrEmpty(s.serverId) ==> r == Render(s.id)
  {
    if NullOrEmpty(s.serverId) then Render(s.id) else s.serverId.value
  }

  /** `guildId + "_" + serverId`. */
  function TrackerKey(s: Identity): string
  {
    IntToString(s.guildId) + "_" + TrackerToken(s)
  }

  /** Two servers share a tracker entry only if they are in the same guild and have the same token. */
  lemma TrackerKeyIsolatesGuilds(a: Identity, b: Identity)
    requires TrackerKey(a) == TrackerKey(b)
    ensures a.guildId == b.guildId && TrackerToken(a) == TrackerToken(b)
  {
    IntPrefixSplits(a.guildId, b.guildId, '_', TrackerToken(a), TrackerToken(b));
  }

  /** The list stored under (key, category), or the empty list. */
  function Lookup(cache: PathCache, key: string, category: string): seq<string>
  {
    if key in cache && category in cache[key] then cache[key][category] else []
  }

  /** The cache after `computeIfAbsent(key).computeIfAbsent(category).add(path)`. */
  function Appended(cache: PathCache, key: string, category: string, path: string): (r: PathCache)
    ensures r.Keys == cache.Keys + {key}
    ensures forall k :: k in cache && k != key ==> r[k] == cache[k]
    ensures forall c :: c in r[key] <==> c == category || (key in cache && c in cache[key])
  {
    var entry := if key in cache then cache[key] else map[];
    cache[key := entry[category := Lookup(cache, key, category) + [path]]]
  }

  /**
   * Recording appends the path at the end of its own list, keeping any
   * duplicate, and every other (key, category) list is unchanged.
   */
  lemma LookupAfterAppend(cache: PathCache, key: string, category: string, path: string, key2: string, category2: string)
    ensures Lookup(Appended(cache, key, category, path), key2, category2)
         == if key2 == key && category2 == category then Lookup(cache, key, category) + [path]
            else Lookup(cache, key2, category2)
  {
  }

  /** Recording for a server of one guild never changes what a server of another guild is recommended. */
  lemma RecordIsolatesGuilds(cache: PathCache, s: Identity, category: string, path: string, other: Identity, category2: string)
    requires other.guildId != s.guildId
    ensures Lookup(Appended(cache, TrackerKey(s), category, path), TrackerKey(other), category2)
         == Lookup(cache, TrackerKey(other), category2)
  {
    if TrackerKey(other) == TrackerKey(s) {
      TrackerKeyIsolatesGuilds(other, s);
    }
    LookupAfterAppend(cache, TrackerKey(s), category, path, TrackerKey(other), category2);
  }

  /** After clearing a key nothing is recommended for it, and other keys keep their lists. */
  lemma LookupAfterRemove(cache: PathCache, key: string, key2: string, category: string)
    ensures Lookup(cache - {key}, key2, category) == if key2 == key then [] else Lookup(cache, key2, category)
  {
  }

  class ParserPathTracker {
    var serverPathCache: PathCache

    constructor ()
      ensures serverPathCache == map[]
    {
      serverPathCache := map[];
    }

    /** recordSuccessfulPath / recordPath: a null server, category or path records nothing. */
    method RecordSuccessfulPath(server: GameServer?, category: Option<string>, path: Option<string>)
      modifies this
      ensures server == null || category.None? || path.None? ==> serverPathCache == old(serverPathCache)
      ensures server != null && category.Some? && path.Some? ==>
        serverPathCache == Appended(old(serverPathCache), TrackerKey(server.ident), category.value, path.value)
    {
      if server == null || category.None? || path.None? {
        return;
      }
      var key := TrackerKey(server.ident);
      var entry := if key in serverPathCache then serverPathCache[key] else map[];
      var list := if category.value in entry then entry[category.value] else [];
      serverPathCache := serverPathCache[key := entry[category.value := list + [path.value]]];
    }

    /**
     * getRecommendedPaths: the recorded list in recording order, or empty for
     * a null argument or an unknown server or category. The value returned
     * is a copy; nothing done to it reaches the tracker.
     */
    function GetRecommendedPaths(server: GameServer?, category: Option<string>): (r: seq<string>)
      reads this
      ensures server == null || category.None? ==> r == []
      ensures server != null && category.Some? && TrackerKey(server.ident) !in serverPathCache ==> r == []
      ensures server != null && category.Some? ==> r == Lookup(serverPathCache, TrackerKey(server.ident), category.value)
    {
      if server == null || category.None? then [] else Lookup(serverPathCache, TrackerKey(server.ident), category.value)
    }

    /** clearCache(server): removes every category of that server's key and nothing else. */
    method ClearCache(server: GameServer?)
      modifies this
      ensures server == null ==> serverPathCache == old(serverPathCache)
      ensures server != null ==> serverPathCache == old(serverPathCache) - {TrackerKey(server.ident)}
    {
      if server == null {
        return;
      }
      serverPathCache := serverPathCache - {TrackerKey(server.ident)};
    }

    method ClearAllCaches()
      modifies this
      ensures serverPathCache == map[]
    {
      serverPathCache := map[];
    }
  }
}
