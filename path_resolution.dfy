/**
 * PathResolutionFix: resolves a server's CSV and log directories by
 * keeping a working configured directory, else a cached resolution, else
 * the first placeholder pattern whose substitution passes the connector's
 * path test.
 */
module PathResolution {
  import opened Wrappers
  import opened JavaStrings
  import opened Lists
  import opened Domain
  import opened CandidatePaths

  const HOST_PLACEHOLDER: string := "{host}"
  const SERVER_PLACEHOLDER: string := "{server}"

  /** "{host}_{server}/actual1/deathlogs", "{host}_{server}/actual/deathlogs", ..., "{server}/actual/deathlogs". */
  const CSV_PATTERNS: seq<string> := [
    HOST_PLACEHOLDER + "_" + SERVER_PLACEHOLDER + ACTUAL1_DEATHLOGS,
    HOST_PLACEHOLDER + "_" + SERVER_PLACEHOLDER + ACTUAL_DEATHLOGS,
    HOST_PLACEHOLDER + "/" + SERVER_PLACEHOLDER + ACTUAL1_DEATHLOGS,
    HOST_PLACEHOLDER + "/" + SERVER_PLACEHOLDER + ACTUAL_DEATHLOGS,
    SERVER_PLACEHOLDER + ACTUAL1_DEATHLOGS,
    SERVER_PLACEHOLDER + ACTUAL_DEATHLOGS
  ]

  /** "{host}_{server}/Logs", "{host}_{server}/Deadside/Logs", ..., "{server}/Deadside/Logs". */
  const LOG_PATTERNS: seq<string> := [
    HOST_PLACEHOLDER + "_" + SERVER_PLACEHOLDER + "/Logs",
    HOST_PLACEHOLDER + "_" + SERVER_PLACEHOLDER + "/Deadside/Logs",
    HOST_PLACEHOLDER + "/" + SERVER_PLACEHOLDER + "/Logs",
    HOST_PLACEHOLDER + "/" + SERVER_PLACEHOLDER + "/Deadside/Logs",
    SERVER_PLACEHOLDER + "/Logs",
    SERVER_PLACEHOLDER + "/Deadside/Logs"
  ]

  function Patterns(k: Kind): seq<string>
  {
    match k
    case Csv => CSV_PATTERNS
    case Log => LOG_PATTERNS
  }

  // ---------------------------------------------------------------------
  // Shape checks.

  /** isValidCsvPath: non-empty and naming an actual1/actual deathlogs directory with either separator. */
  predicate IsValidCsvPath(path: Option<string>): (b: bool)
    ensures b ==> !NullOrEmpty(path) && Contains(path.value, "deathlogs")
  {
    if NullOrEmpty(path) then false
    else
      DeathlogsShapes(path.value);
      Contains(path.value, "/actual1/deathlogs") || Contains(path.value, "\\actual1\\deathlogs")
      || Contains(path.value, "/actual/deathlogs") || Contains(path.value, "\\actual\\deathlogs")
  }

  /** Each of the four accepted CSV directory spellings mentions "deathlogs". */
  lemma DeathlogsShapes(s: string)
    ensures Contains(s, "/actual1/deathlogs") || Contains(s, "\\actual1\\deathlogs")
            || Contains(s, "/actual/deathlogs") || Contains(s, "\\actual\\deathlogs")
            ==> Contains(s, "deathlogs")
  {
    var shapes := ["/actual1/", "\\actual1\\", "/actual/", "\\actual\\"];
    forall i | 0 <= i < |shapes| && Contains(s, shapes[i] + "deathlogs")
      ensures Contains(s, "deathlogs")
    {
      ContainsInfix(shapes[i], "deathlogs", "");
      assert shapes[i] + "deathlogs" + "" == shapes[i] + "deathlogs";
      ContainsTransitive(s, shapes[i] + "deathlogs", "deathlogs");
    }
    assert shapes[0] + "deathlogs" == "/actual1/deathlogs";
    assert shapes[1] + "deathlogs" == "\\actual1\\deathlogs";
    assert shapes[2] + "deathlogs" == "/actual/deathlogs";
    assert shapes[3] + "deathlogs" == "\\actual\\deathlogs";
  }

  /** isValidLogPath: non-empty and containing a Logs segment with either separator. */
  predicate IsValidLogPath(path: Option<string>): (b: bool)
    ensures b ==> !NullOrEmpty(path) && Contains(path.value, "Logs")
  {
    if NullOrEmpty(path) then false
    else
      LogsShapes(path.value);
      Contains(path.value, "/Logs") || Contains(path.value, "\\Logs")
  }

  /** Both accepted log directory spellings mention "Logs". */
  lemma LogsShapes(s: string)
    ensures Contains(s, "/Logs") || Contains(s, "\\Logs") ==> Contains(s, "Logs")
  {
    ContainsInfix("/", "Logs", "");
    assert "/" + "Logs" + "" == "/Logs";
    ContainsInfix("\\", "Logs", "");
    assert "\\" + "Logs" + "" == "\\Logs";
    if Contains(s, "/Logs") {
      ContainsTransitive(s, "/Logs", "Logs");
    } else if Contains(s, "\\Logs") {
      ContainsTransitive(s, "\\Logs", "Logs");
    }
  }

  predicate IsValidPath(k: Kind, path: Option<string>)
  {
    match k
    case Csv => IsValidCsvPath(path)
    case Log => IsValidLogPath(path)
  }

  /** Every fixed CSV candidate passes the CSV shape check, and every log candidate the log one. */
  lemma TemplatesAreValid(host: string, server: string)
    ensures forall i :: 0 <= i < 6 ==> IsValidCsvPath(Some(CsvTemplates(host, server)[i]))
    ensures forall i :: 0 <= i < 6 ==> IsValidLogPath(Some(LogTemplates(host, server)[i]))
  {
    var c := CsvTemplates(host, server);
    ContainsInfix(host + "_" + server, "/actual1/deathlogs", "");
    ContainsInfix(host + "_" + server, "/actual/deathlogs", "");
    ContainsInfix(host + "/" + server, "/actual1/deathlogs", "");
    ContainsInfix(host + "/" + server, "/actual/deathlogs", "");
    ContainsInfix(server, "/actual1/deathlogs", "");
    ContainsInfix(server, "/actual/deathlogs", "");
    assert c[0] == host + "_" + server + "/actual1/deathlogs" + "";
    assert c[1] == host + "_" + server + "/actual/deathlogs" + "";
    assert c[2] == host + "/" + server + "/actual1/deathlogs" + "";
    assert c[3] == host + "/" + server + "/actual/deathlogs" + "";
    assert c[4] == server + "/actual1/deathlogs" + "";
    assert c[5] == server + "/actual/deathlogs" + "";
    var l := LogTemplates(host, server);
    ContainsInfix(host + "_" + server, "/Logs", "");
    ContainsInfix(host + "_" + server + "/Deadside", "/Logs", "");
    ContainsInfix(host + "/" + server, "/Logs", "");
    ContainsInfix(host + "/" + server + "/Deadside", "/Logs", "");
    ContainsInfix(server, "/Logs", "");
    ContainsInfix(server + "/Deadside", "/Logs", "");
    assert l[0] == host + "_" + server + "/Logs" + "";
    assert l[1] == host + "_" + server + "/Deadside" + "/Logs" + "";
    assert l[2] == host + "/" + server + "/Logs" + "";
    assert l[3] == host + "/" + server + "/Deadside" + "/Logs" + "";
    assert l[4] == server + "/Logs" + "";
    assert l[5] == server + "/Deadside" + "/Logs" + "";
  }

  // ---------------------------------------------------------------------
  // Placeholder substitution: `pattern.replace("{host}", host).replace("{server}", server)`.

  function Substitute(pattern: string, host: string, server: string): string
  {
    ReplaceAll(ReplaceAll(pattern, HOST_PLACEHOLDER, host), SERVER_PLACEHOLDER, server)
  }

  /** The host pass on "{host}<sep>{server}<tail>" replaces only the leading placeholder, whatever the host. */
  lemma HostPass(sep: string, tail: string, host: string)
    requires '{' !in sep && '{' !in tail
    ensures ReplaceAll(HOST_PLACEHOLDER + sep + SERVER_PLACEHOLDER + tail, HOST_PLACEHOLDER, host)
         == host + sep + SERVER_PLACEHOLDER + tail
  {
    ServerPlaceholderSurvivesHostPass(tail, host);
    ReplaceLeadingKeepsRest(HOST_PLACEHOLDER, host, sep, SERVER_PLACEHOLDER + tail);
    assert HOST_PLACEHOLDER + sep + SERVER_PLACEHOLDER + tail == HOST_PLACEHOLDER + sep + (SERVER_PLACEHOLDER + tail);
  }

  /** The server pass on "{server}<sep>{server}<tail>" replaces both placeholders. */
  lemma ServerPass(sep: string, tail: string, server: string)
    requires '{' !in sep && '{' !in tail
    ensures ReplaceAll(SERVER_PLACEHOLDER + sep + SERVER_PLACEHOLDER + tail, SERVER_PLACEHOLDER, server)
         == server + sep + server + tail
  {
    var second := SERVER_PLACEHOLDER + tail;
    var rest := sep + second;
    ConcatRegroup(SERVER_PLACEHOLDER, sep, SERVER_PLACEHOLDER, tail);
    ReplaceAllLeading(SERVER_PLACEHOLDER, server, rest);
    ReplaceAllSkips(sep, SERVER_PLACEHOLDER, server, second);
    ReplaceAllLeading(SERVER_PLACEHOLDER, server, tail);
    ReplaceAllSkips(tail, SERVER_PLACEHOLDER, server, "");
    assert tail + "" == tail;
    assert ReplaceAll(second, SERVER_PLACEHOLDER, server) == server + tail;
    assert ReplaceAll(rest, SERVER_PLACEHOLDER, server) == sep + (server + tail);
    ConcatRegroup(server, sep, server, tail);
  }

  /** A pattern "{host}<sep>{server}<tail>" becomes host + sep + server + tail when host has no '{'. */
  lemma SubstituteHostServer(sep: string, tail: string, host: string, server: string)
    requires '{' !in sep && '{' !in tail && '{' !in host
    ensures Substitute(HOST_PLACEHOLDER + sep + SERVER_PLACEHOLDER + tail, host, server) == host + sep + server + tail
  {
    var rest := SERVER_PLACEHOLDER + tail;
    HostPass(sep, tail, host);
    assert host + sep + SERVER_PLACEHOLDER + tail == (host + sep) + rest;
    assert '{' !in host + sep;
    ReplaceAllSkips(host + sep, SERVER_PLACEHOLDER, server, rest);
    ReplaceAllLeading(SERVER_PLACEHOLDER, server, tail);
    ReplaceAllSkips(tail, SERVER_PLACEHOLDER, server, "");
    assert tail + "" == tail;
  }

  /** A pattern "{server}<tail>" becomes server + tail. */
  lemma SubstituteServerOnly(tail: string, host: string, server: string)
    requires '{' !in tail
    ensures Substitute(SERVER_PLACEHOLDER + tail, host, server) == server + tail
  {
    ServerPlaceholderSurvivesHostPass(tail, host);
    ReplaceAllLeading(SERVER_PLACEHOLDER, server, tail);
    ReplaceAllSkips(tail, SERVER_PLACEHOLDER, server, "");
    assert tail + "" == tail;
  }

  /** The host pass leaves "{server}<tail>" alone. */
  lemma ServerPlaceholderSurvivesHostPass(tail: string, host: string)
    requires '{' !in tail
    ensures ReplaceAll(SERVER_PLACEHOLDER + tail, HOST_PLACEHOLDER, host) == SERVER_PLACEHOLDER + tail
  {
    var s := SERVER_PLACEHOLDER + tail;
    assert s[1] == 's' && HOST_PLACEHOLDER[1] == 'h';
    assert !StartsWith(s, HOST_PLACEHOLDER);
    var after := s[1..];
    assert after == "server}" + tail;
    assert '{' !in "server}";
    assert '{' !in after;
    ReplaceAllSkips(after, HOST_PLACEHOLDER, host, "");
    assert after + "" == after;
    assert [s[0]] + after == s;
  }

  /** One CSV pattern, substituted, is the CSV candidate at the same index. */
  lemma CsvPatternMatches(i: nat, host: string, server: string)
    requires i < 6 && '{' !in host
    ensures Substitute(CSV_PATTERNS[i], host, server) == CsvTemplates(host, server)[i]
  {
    assert '{' !in ACTUAL1_DEATHLOGS && '{' !in ACTUAL_DEATHLOGS;
    if i == 0 {
      var p := CSV_PATTERNS[0];
      assert p == HOST_PLACEHOLDER + "_" + SERVER_PLACEHOLDER + ACTUAL1_DEATHLOGS;
      SubstituteHostServer("_", ACTUAL1_DEATHLOGS, host, server);
      assert Substitute(p, host, server) == host + "_" + server + ACTUAL1_DEATHLOGS;
    } else if i == 1 {
      var p := CSV_PATTERNS[1];
      assert p == HOST_PLACEHOLDER + "_" + SERVER_PLACEHOLDER + ACTUAL_DEATHLOGS;
      SubstituteHostServer("_", ACTUAL_DEATHLOGS, host, server);
      assert Substitute(p, host, server) == host + "_" + server + ACTUAL_DEATHLOGS;
    } else if i == 2 {
      var p := CSV_PATTERNS[2];
      assert p == HOST_PLACEHOLDER + "/" + SERVER_PLACEHOLDER + ACTUAL1_DEATHLOGS;
      SubstituteHostServer("/", ACTUAL1_DEATHLOGS, host, server);
      assert Substitute(p, host, server) == host + "/" + server + ACTUAL1_DEATHLOGS;
    } else if i == 3 {
      var p := CSV_PATTERNS[3];
      assert p == HOST_PLACEHOLDER + "/" + SERVER_PLACEHOLDER + ACTUAL_DEATHLOGS;
      SubstituteHostServer("/", ACTUAL_DEATHLOGS, host, server);
      assert Substitute(p, host, server) == host + "/" + server + ACTUAL_DEATHLOGS;
    } else if i == 4 {
      var p := CSV_PATTERNS[4];
      assert p == SERVER_PLACEHOLDER + ACTUAL1_DEATHLOGS;
      SubstituteServerOnly(ACTUAL1_DEATHLOGS, host, server);
      assert Substitute(p, host, server) == server + ACTUAL1_DEATHLOGS;
    } else {
      var p := CSV_PATTERNS[5];
      assert p == SERVER_PLACEHOLDER + ACTUAL_DEATHLOGS;
      SubstituteServerOnly(ACTUAL_DEATHLOGS, host, server);
      assert Substitute(p, host, server) == server + ACTUAL_DEATHLOGS;
    }
  }

  /** One log pattern, substituted, is the log candidate at the same index. */
  lemma LogPatternMatches(i: nat, host: string, server: string)
    requires i < 6 && '{' !in host
    ensures Substitute(LOG_PATTERNS[i], host, server) == LogTemplates(host, server)[i]
  {
    assert '{' !in "/Logs" && '{' !in "/Deadside/Logs";
    if i == 0 {
      var p := LOG_PATTERNS[0];
      assert p == HOST_PLACEHOLDER + "_" + SERVER_PLACEHOLDER + "/Logs";
      SubstituteHostServer("_", "/Logs", host, server);
      assert Substitute(p, host, server) == host + "_" + server + "/Logs";
    } else if i == 1 {
      var p := LOG_PATTERNS[1];
      assert p == HOST_PLACEHOLDER + "_" + SERVER_PLACEHOLDER + "/Deadside/Logs";
      SubstituteHostServer("_", "/Deadside/Logs", host, server);
      assert Substitute(p, host, server) == host + "_" + server + "/Deadside/Logs";
    } else if i == 2 {
      var p := LOG_PATTERNS[2];
      assert p == HOST_PLACEHOLDER + "/" + SERVER_PLACEHOLDER + "/Logs";
      SubstituteHostServer("/", "/Logs", host, server);
      assert Substitute(p, host, server) == host + "/" + server + "/Logs";
    } else if i == 3 {
      var p := LOG_PATTERNS[3];
      assert p == HOST_PLACEHOLDER + "/" + SERVER_PLACEHOLDER + "/Deadside/Logs";
      SubstituteHostServer("/", "/Deadside/Logs", host, server);
      assert Substitute(p, host, server) == host + "/" + server + "/Deadside/Logs";
    } else if i == 4 {
      var p := LOG_PATTERNS[4];
      assert p == SERVER_PLACEHOLDER + "/Logs";
      SubstituteServerOnly("/Logs", host, server);
      assert Substitute(p, host, server) == server + "/Logs";
    } else {
      var p := LOG_PATTERNS[5];
      assert p == SERVER_PLACEHOLDER + "/Deadside/Logs";
      SubstituteServerOnly("/Deadside/Logs", host, server);
      assert Substitute(p, host, server) == server + "/Deadside/Logs";
    }
  }

  /**
   * With a host free of '{', each substituted pattern is exactly the
   * corresponding fixed candidate of EnhancedSftpConnector.
   */
  lemma PatternsMatchTemplates(host: string, server: string)
    requires '{' !in host
    ensures forall i :: 0 <= i < 6 ==> Substitute(CSV_PATTERNS[i], host, server) == CsvTemplates(host, server)[i]
    ensures forall i :: 0 <= i < 6 ==> Substitute(LOG_PATTERNS[i], host, server) == LogTemplates(host, server)[i]
  {
    forall i | 0 <= i < 6
      ensures Substitute(CSV_PATTERNS[i], host, server) == CsvTemplates(host, server)[i]
      ensures Substitute(LOG_PATTERNS[i], host, server) == LogTemplates(host, server)[i]
    {
      CsvPatternMatches(i, host, server);
      LogPatternMatches(i, host, server);
    }
  }

  /**
   * The second replace rescans the host text: a host that itself reads
   * "{server}" is replaced by the server segment too, so the pattern
   * result differs from the concatenated candidate.
   */
  lemma HostTextIsRescanned(server: string)
    requires '{' !in server
    ensures Substitute(CSV_PATTERNS[0], SERVER_PLACEHOLDER, server) == server + "_" + server + ACTUAL1_DEATHLOGS
    ensures Substitute(CSV_PATTERNS[0], SERVER_PLACEHOLDER, server) != CsvTemplates(SERVER_PLACEHOLDER, server)[0]
  {
    assert '{' !in "_" && '{' !in ACTUAL1_DEATHLOGS;
    HostPass("_", ACTUAL1_DEATHLOGS, SERVER_PLACEHOLDER);
    ServerPass("_", ACTUAL1_DEATHLOGS, server);
    var r := server + "_" + server + ACTUAL1_DEATHLOGS;
    var t := CsvTemplates(SERVER_PLACEHOLDER, server)[0];
    assert t[0] == '{';
    if |server| > 0 {
      assert r[0] == server[0] && r[0] != '{';
    } else {
      assert r[0] == '_';
    }
  }

  // ---------------------------------------------------------------------
  // The pattern search.

  /** testPath: the connector's path test; a missing connector (an exception) counts as failure. */
  predicate TestPath(c: Option<Connector>, s: Identity, path: string): (b: bool)
    ensures c.None? ==> !b
  {
    c.Some? && c.value.testPath(s, path)
  }

  /** The outcome of findValidPathFromPatterns. */
  datatype PatternProbe =
    | Hit(path: string)
    | NoMatch
      /** `replace("{host}", null)` throws when the server has no host at all. */
    | HostMissing

  function SubstituteAll(patterns: seq<string>, host: string, server: string): (r: seq<string>)
    ensures |r| == |patterns|
    ensures forall i :: 0 <= i < |patterns| ==> r[i] == Substitute(patterns[i], host, server)
  {
    seq(|patterns|, i requires 0 <= i < |patterns| => Substitute(patterns[i], host, server))
  }

  /**
   * findValidPathFromPatterns: the substitution of the first pattern, in
   * list order, that passes testPath; NoMatch when none does.
   */
  function FindValid(c: Option<Connector>, s: Identity, patterns: seq<string>): (r: PatternProbe)
    ensures r.HostMissing? <==> |patterns| > 0 && HostValue(s).None?
    ensures r.Hit? ==> exists i :: 0 <= i < |patterns| && r.path == Substitute(patterns[i], HostOf(s), ServerToken(s))
                        && TestPath(c, s, r.path)
                        && forall j :: 0 <= j < i ==> !TestPath(c, s, Substitute(patterns[j], HostOf(s), ServerToken(s)))
    ensures r.NoMatch? ==> forall i :: 0 <= i < |patterns| ==> !TestPath(c, s, Substitute(patterns[i], HostOf(s), ServerToken(s)))
  {
    if |patterns| > 0 && HostValue(s).None? then HostMissing
    else
      var paths := SubstituteAll(patterns, HostOf(s), ServerToken(s));
      match FirstIndex((p: string) => TestPath(c, s, p), paths)
      case Some(i) => Hit(paths[i])
      case None => NoMatch
  }

  /** A path the pattern search finds passes the shape check of its kind, when the host has no '{'. */
  lemma PatternHitIsValid(c: Option<Connector>, s: Identity, k: Kind)
    requires '{' !in HostOf(s) && FindValid(c, s, Patterns(k)).Hit?
    ensures IsValidPath(k, Some(FindValid(c, s, Patterns(k)).path))
  {
    var i :| 0 <= i < |Patterns(k)| && FindValid(c, s, Patterns(k)).path == Substitute(Patterns(k)[i], HostOf(s), ServerToken(s));
    PatternsMatchTemplates(HostOf(s), ServerToken(s));
    TemplatesAreValid(HostOf(s), ServerToken(s));
  }

  /** The key `guildId + ":" + id + ":" + type`. */
  function CacheKey(s: Identity, k: Kind): (r: string)
    ensures StartsWith(r, IntToString(s.guildId) + ":") && EndsWith(r, ":" + KindName(k))
  {
    IntToString(s.guildId) + ":" + Render(s.id) + ":" + KindName(k)
  }

  /** The CSV and the log entries of one server never share a key, nor do servers of two guilds. */
  lemma CacheKeysSeparate(s: Identity, t: Identity, k: Kind, k2: Kind)
    requires CacheKey(s, k) == CacheKey(t, k2)
    ensures k == k2 && s.guildId == t.guildId
  {
    KeyEndsSplit(s.guildId, t.guildId, ':', Render(s.id), Render(t.id), KindName(k), KindName(k2));
  }

  /** What one resolve call returns, and the path it writes to the cache (if any). */
  datatype Resolution = Resolution(path: Option<string>, cached: Option<string>)

  /**
   * resolveCsvPath / resolveLogPath for a non-null server: a shape-valid
   * current path that passes testPath is kept; else a cache entry is
   * returned as it is, without testing it again; else the first passing
   * pattern is cached and returned; else (no match, or no host) the
   * current path is returned.
   */
  function Resolve(c: Option<Connector>, s: Identity, current: Option<string>, k: Kind, cache: map<string, string>): (r: Resolution)
    ensures r.cached.Some? ==> r.path == r.cached && TestPath(c, s, r.cached.value) && CacheKey(s, k) !in cache
    ensures r.cached.Some? ==> exists i :: 0 <= i < 6 && r.cached.value == Substitute(Patterns(k)[i], HostOf(s), ServerToken(s))
    ensures r.path == current || (CacheKey(s, k) in cache && r.path == Some(cache[CacheKey(s, k)])) || r.cached.Some?
    ensures IsValidPath(k, current) && TestPath(c, s, current.value) ==> r == Resolution(current, None)
    ensures !(IsValidPath(k, current) && TestPath(c, s, current.value)) && CacheKey(s, k) in cache ==>
      r == Resolution(Some(cache[CacheKey(s, k)]), None)
    ensures !(IsValidPath(k, current) && TestPath(c, s, current.value)) && CacheKey(s, k) !in cache ==>
      match FindValid(c, s, Patterns(k))
      case Hit(p) => r == Resolution(Some(p), Some(p))
      case NoMatch => r == Resolution(current, None)
      case HostMissing => r == Resolution(current, None)
  {
    if IsValidPath(k, current) && TestPath(c, s, current.value) then Resolution(current, None)
    else if CacheKey(s, k) in cache then Resolution(Some(cache[CacheKey(s, k)]), None)
    else match FindValid(c, s, Patterns(k))
      case Hit(p) => Resolution(Some(p), Some(p))
      case NoMatch => Resolution(current, None)
      case HostMissing => Resolution(current, None)
  }

  /**
   * With no usable current path and no cache entry, the first pattern
   * whose substitution passes testPath is returned and written to the
   * cache; when the server has no host or no pattern passes, the current
   * path is returned and nothing is written.
   */
  lemma ResolveTakesFirstPassingPattern(c: Option<Connector>, s: Identity, current: Option<string>, k: Kind, cache: map<string, string>, i: nat)
    requires !(IsValidPath(k, current) && TestPath(c, s, current.value)) && CacheKey(s, k) !in cache
    requires HostValue(s).Some? && i < |Patterns(k)|
    requires TestPath(c, s, Substitute(Patterns(k)[i], HostOf(s), ServerToken(s)))
    requires forall j :: 0 <= j < i ==> !TestPath(c, s, Substitute(Patterns(k)[j], HostOf(s), ServerToken(s)))
    ensures var p := Substitute(Patterns(k)[i], HostOf(s), ServerToken(s));
      Resolve(c, s, current, k, cache) == Resolution(Some(p), Some(p))
  {
    var probe := FindValid(c, s, Patterns(k));
    assert probe.Hit?;
    var i' :| 0 <= i' < |Patterns(k)| && probe.path == Substitute(Patterns(k)[i'], HostOf(s), ServerToken(s))
              && TestPath(c, s, probe.path)
              && forall j :: 0 <= j < i' ==> !TestPath(c, s, Substitute(Patterns(k)[j], HostOf(s), ServerToken(s)));
    assert i' == i;
  }

  /** Without a host, or when no pattern passes, an unusable and uncached current path is returned as it is. */
  lemma ResolveKeepsCurrentWithoutPattern(c: Option<Connector>, s: Identity, current: Option<string>, k: Kind, cache: map<string, string>)
    requires !(IsValidPath(k, current) && TestPath(c, s, current.value)) && CacheKey(s, k) !in cache
    requires HostValue(s).None? || forall j :: 0 <= j < |Patterns(k)| ==> !TestPath(c, s, Substitute(Patterns(k)[j], HostOf(s), ServerToken(s)))
    ensures Resolve(c, s, current, k, cache) == Resolution(current, None)
  {
    if HostValue(s).Some? {
      var paths := SubstituteAll(Patterns(k), HostOf(s), ServerToken(s));
      FirstIndexNone((p: string) => TestPath(c, s, p), paths);
    }
  }

  /** The cache after a resolution. */
  function Cached(cache: map<string, string>, key: string, written: Option<string>): map<string, string>
  {
    match written
    case Some(p) => cache[key := p]
    case None => cache
  }

  /** A cached path is returned even when it no longer passes testPath. */
  lemma StaleCacheHitIsReturned(c: Option<Connector>, s: Identity, current: Option<string>, k: Kind, cache: map<string, string>)
    requires CacheKey(s, k) in cache && !TestPath(c, s, cache[CacheKey(s, k)])
    requires !(IsValidPath(k, current) && TestPath(c, s, current.value))
    ensures Resolve(c, s, current, k, cache).path == Some(cache[CacheKey(s, k)])
    ensures !TestPath(c, s, Resolve(c, s, current, k, cache).path.value)
  {
  }

  /**
   * Resolving again from what a resolution produced, with the cache it
   * left, returns the same path and writes nothing: fixing twice changes
   * nothing the second time.
   */
  lemma ResolveIdempotent(c: Option<Connector>, s: Identity, current: Option<string>, k: Kind, cache: map<string, string>)
    ensures var r1 := Resolve(c, s, current, k, cache);
      var r2 := Resolve(c, s, r1.path, k, Cached(cache, CacheKey(s, k), r1.cached));
      r2.path == r1.path && r2.cached == None
  {
    var r1 := Resolve(c, s, current, k, cache);
    if !(IsValidPath(k, current) && TestPath(c, s, current.value)) && CacheKey(s, k) !in cache {
      match FindValid(c, s, Patterns(k))
      case Hit(p) =>
        assert Cached(cache, CacheKey(s, k), r1.cached) == cache[CacheKey(s, k) := p];
      case NoMatch =>
      case HostMissing =>
    }
  }

  /** The field value after `if (resolved != null && !resolved.equals(original)) set(resolved)`. */
  function Adopt(original: Option<string>, resolved: Option<string>): (r: Option<string>)
    ensures r != original <==> resolved.Some? && resolved != original
  {
    if resolved.Some? && resolved != original then resolved else original
  }

  class PathResolutionFix {
    var pathCache: map<string, string>

    constructor ()
      ensures pathCache == map[]
    {
      pathCache := map[];
    }

    /** findValidPathFromPatterns. */
    static method FindValidPathFromPatterns(server: GameServer, patterns: seq<string>, connector: Option<Connector>)
      returns (r: PatternProbe)
      ensures r == FindValid(connector, server.ident, patterns)
    {
      var host := HostValue(server.ident);
      var serverName := ServerToken(server.ident);
      if |patterns| > 0 && host.None? {
        return HostMissing;
      }
      ghost var paths := SubstituteAll(patterns, HostOf(server.ident), serverName);
      ghost var ok := (p: string) => TestPath(connector, server.ident, p);
      var i := 0;
      while i < |patterns|
        invariant 0 <= i <= |patterns|
        invariant forall j :: 0 <= j < i ==> !ok(paths[j])
      {
        var path := Substitute(patterns[i], Render(host), serverName);
        if TestPath(connector, server.ident, path) {
          FirstIndexAt(ok, paths, i);
          return Hit(path);
        }
        i := i + 1;
      }
      FirstIndexNone(ok, paths);
      return NoMatch;
    }

    /** resolveCsvPath (k = Csv) and resolveLogPath (k = Log); a null server gives null. */
    method ResolvePath(server: GameServer?, connector: Option<Connector>, k: Kind) returns (r: Option<string>)
      modifies this
      ensures server == null ==> r == None && pathCache == old(pathCache)
      ensures server != null ==>
        var res := Resolve(connector, server.ident, DirectoryOf(server, k), k, old(pathCache));
        r == res.path && pathCache == Cached(old(pathCache), CacheKey(server.ident, k), res.cached)
    {
      if server == null {
        return None;
      }
      var currentPath := DirectoryOf(server, k);
      if IsValidPath(k, currentPath) && TestPath(connector, server.ident, currentPath.value) {
        return currentPath;
      }
      var cacheKey := CacheKey(server.ident, k);
      if cacheKey in pathCache {
        return Some(pathCache[cacheKey]);
      }
      var resolved := FindValidPathFromPatterns(server, Patterns(k), connector);
      if resolved.Hit? {
        pathCache := pathCache[cacheKey := resolved.path];
        return Some(resolved.path);
      }
      return currentPath;
    }

    method ResolveCsvPath(server: GameServer?, connector: Option<Connector>) returns (r: Option<string>)
      modifies this
      ensures server == null ==> r == None && pathCache == old(pathCache)
      ensures server != null ==>
        var res := Resolve(connector, server.ident, server.deathlogsDirectory, Csv, old(pathCache));
        r == res.path && pathCache == Cached(old(pathCache), CacheKey(server.ident, Csv), res.cached)
    {
      r := ResolvePath(server, connector, Csv);
    }

    method ResolveLogPath(server: GameServer?, connector: Option<Connector>) returns (r: Option<string>)
      modifies this
      ensures server == null ==> r == None && pathCache == old(pathCache)
      ensures server != null ==>
        var res := Resolve(connector, server.ident, server.logDirectory, Log, old(pathCache));
        r == res.path && pathCache == Cached(old(pathCache), CacheKey(server.ident, Log), res.cached)
    {
      r := ResolvePath(server, connector, Log);
    }

    /**
     * fixServerPaths: nothing happens to a null or restricted server.
     * Otherwise each directory takes its resolved value only when that is
     * non-null and different; the result says whether a field changed, and
     * the server is saved exactly then, when there is a repository.
     */
    method FixServerPaths(server: GameServer?, connector: Option<Connector>, repository: GameServerRepository?)
      returns (updated: bool)
      modifies this, server, repository
      ensures server == null || server.restricted ==>
        !updated && pathCache == old(pathCache)
        && (server != null ==> server.deathlogsDirectory == old(server.deathlogsDirectory) && server.logDirectory == old(server.logDirectory))
        && (repository != null ==> repository.saved == old(repository.saved))
      ensures server != null && !server.restricted ==>
        var rc := Resolve(connector, server.ident, old(server.deathlogsDirectory), Csv, old(pathCache));
        var cache1 := Cached(old(pathCache), CacheKey(server.ident, Csv), rc.cached);
        var rl := Resolve(connector, server.ident, old(server.logDirectory), Log, cache1);
        server.deathlogsDirectory == Adopt(old(server.deathlogsDirectory), rc.path)
        && server.logDirectory == Adopt(old(server.logDirectory), rl.path)
        && pathCache == Cached(cache1, CacheKey(server.ident, Log), rl.cached)
      ensures server != null ==>
        (updated <==> server.deathlogsDirectory != old(server.deathlogsDirectory) || server.logDirectory != old(server.logDirectory))
      ensures repository != null ==>
        repository.saved == old(repository.saved) + (if updated then [server] else [])
        && repository.savedBatches == old(repository.savedBatches)
    {
      if server == null || server.restricted {
        return false;
      }
      updated := false;
      var originalCsvPath := server.deathlogsDirectory;
      var resolvedCsvPath := ResolveCsvPath(server, connector);
      if resolvedCsvPath.Some? && resolvedCsvPath != originalCsvPath {
        server.deathlogsDirectory := resolvedCsvPath;
        updated := true;
      }
      var originalLogPath := server.logDirectory;
      var resolvedLogPath := ResolveLogPath(server, connector);
      if resolvedLogPath.Some? && resolvedLogPath != originalLogPath {
        server.logDirectory := resolvedLogPath;
        updated := true;
      }
      if updated && repository != null {
        repository.Save(server);
      }
    }

    method ClearCache()
      modifies this
      ensures pathCache == map[]
    {
      pathCache := map[];
    }
  }
}
