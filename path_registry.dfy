/**
 * DeadsideParserPathRegistry: one path per path type for each server,
 * keyed by the server's id read as a Java long.
 */
module PathRegistry {
  import opened Wrappers
  import opened JavaStrings
  import opened Domain

  const PATH_TYPE_CSV: string := "csv"
  const PATH_TYPE_LOGS: string := "logs"

  type Registry = map<int, map<string, string>>

  /**
   * `Long.parseLong(server.getId().toString())`: absent when the id is
   * null (the call throws) or does not parse as a long.
   */
  function RegistryKey(s: Identity): (r: Option<int>)
    ensures s.id.None? ==> r.None?
    ensures s.id.Some? && ParseLong(s.id.value).None? ==> r.None?
    ensures r.Some? ==> s.id.Some? && ParseLong(s.id.value) == r
  {
    if s.id.None? then None else ParseLong(s.id.value)
  }

  /** The id a long prints as is always a usable key, and it gives that long back. */
  lemma PrintedIdIsKey(s: Identity, n: int)
    requires LONG_MIN <= n <= LONG_MAX && s.id == Some(IntToString(n))
    ensures RegistryKey(s) == Some(n)
  {
    ParseLongRoundTrip(n);
  }

  /** Two different id strings can name one entry: "7" and "+7" parse to the same long. */
  lemma SpellingsShareEntry(a: Identity, b: Identity)
    requires a.id == Some("7") && b.id == Some("+7")
    ensures RegistryKey(a) == RegistryKey(b) == Some(7)
  {
    assert "+7"[1..] == "7";
    assert "7"[..0] == "";
    assert DigitsValue("7") == DigitsValue("") * 10 + DigitValue('7');
  }

  /**
   * Long.parseLong reads any decimal digit, not only ASCII ones: the
   * Arabic-Indic seven (U+0667) names the same entry as "7".
   */
  lemma ArabicIndicDigitSharesEntry(a: Identity, b: Identity)
    requires a.id == Some("7") && b.id == Some("\U{0667}")
    ensures RegistryKey(a) == RegistryKey(b) == Some(7)
  {
    ArabicIndicParses();
    SpellingsShareEntry(a, a.(id := Some("+7")));
  }

  /** The path under (key, type), if any. */
  function Stored(paths: Registry, key: int, pathType: string): Option<string>
  {
    if key in paths && pathType in paths[key] then Some(paths[key][pathType]) else None
  }

  /** The registry after `computeIfAbsent(key, new HashMap).put(type, path)`. */
  function Registered(paths: Registry, key: int, pathType: string, path: string): (r: Registry)
    ensures r.Keys == paths.Keys + {key}
  {
    var entry := if key in paths then paths[key] else map[];
    paths[key := entry[pathType := path]]
  }

  /** Registering makes the path the answer for its server and type; a later registration overwrites; nothing else changes. */
  lemma StoredAfterRegister(paths: Registry, key: int, pathType: string, path: string, key2: int, type2: string)
    ensures Stored(Registered(paths, key, pathType, path), key2, type2)
         == if key2 == key && type2 == pathType then Some(path) else Stored(paths, key2, type2)
  {
  }

  /** Clearing removes every type of that server and no other server's paths. */
  lemma StoredAfterClear(paths: Registry, key: int, key2: int, type2: string)
    ensures Stored(paths - {key}, key2, type2) == if key2 == key then None else Stored(paths, key2, type2)
  {
  }

  class DeadsideParserPathRegistry {
    var serverPaths: Registry

    constructor ()
      ensures serverPaths == map[]
    {
      serverPaths := map[];
    }

    /** registerPath: a null argument or an unusable id registers nothing. */
    method RegisterPath(server: GameServer?, pathType: Option<string>, path: Option<string>)
      modifies this
      ensures server == null || pathType.None? || path.None? || RegistryKey(server.ident).None? ==>
        serverPaths == old(serverPaths)
      ensures server != null && pathType.Some? && path.Some? && RegistryKey(server.ident).Some? ==>
        serverPaths == Registered(old(serverPaths), RegistryKey(server.ident).value, pathType.value, path.value)
    {
      if server == null || pathType.None? || path.None? {
        return;
      }
      if server.ident.id.None? {
        return;
      }
      var serverId := ParseLong(server.ident.id.value);
      if serverId.None? {
        return;
      }
      var paths := if serverId.value in serverPaths then serverPaths[serverId.value] else map[];
      serverPaths := serverPaths[serverId.value := paths[pathType.value := path.value]];
    }

    /** getPath: null for a null argument, an unusable id, or a server or type never registered. */
    function GetPath(server: GameServer?, pathType: Option<string>): (r: Option<string>)
      reads this
      ensures server == null || pathType.None? || RegistryKey(server.ident).None? ==> r.None?
      ensures server != null && pathType.Some? && RegistryKey(server.ident).Some? ==>
        (r.Some? <==> RegistryKey(server.ident).value in serverPaths && pathType.value in serverPaths[RegistryKey(server.ident).value])
      ensures r.Some? ==> r.value in serverPaths[RegistryKey(server.ident).value].Values
    {
      if server == null || pathType.None? then None
      else match RegistryKey(server.ident)
        case None => None
        case Some(key) => Stored(serverPaths, key, pathType.value)
    }

    /** clearPaths: drops every type of that server. */
    method ClearPaths(server: GameServer?)
      modifies this
      ensures server == null || RegistryKey(server.ident).None? ==> serverPaths == old(serverPaths)
      ensures server != null && RegistryKey(server.ident).Some? ==>
        serverPaths == old(serverPaths) - {RegistryKey(server.ident).value}
    {
      if server == null || server.ident.id.None? {
        return;
      }
      var serverId := ParseLong(server.ident.id.value);
      if serverId.None? {
        return;
      }
      serverPaths := serverPaths - {serverId.value};
    }
  }

  /** After registerPath(s, t, p), getPath(s, t) is p, for a server whose id is a long. */
  lemma RegisterThenGet(r: DeadsideParserPathRegistry, old_paths: Registry, server: GameServer, pathType: string, path: string)
    requires RegistryKey(server.ident).Some?
    requires r.serverPaths == Registered(old_paths, RegistryKey(server.ident).value, pathType, path)
    ensures r.GetPath(server, Some(pathType)) == Some(path)
  {
    StoredAfterRegister(old_paths, RegistryKey(server.ident).value, pathType, path, RegistryKey(server.ident).value, pathType);
  }
}
