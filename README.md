# Deadside bot: path resolution and file discovery

This project models the layer of the Deadside Discord bot that finds, for
each game server, the remote directory holding the death-event `.csv`
files and the directory holding the `Deadside.log` engine log. It also
covers the caches, trackers and flags that this layer reads and
updates. The model follows the Java classes one to one:

- the candidate templates and the shape checks (`CandidatePaths`,
  `PathResolution`), which are pure string logic;
- the remote listing filters and the bounded recursive searches of
  `EnhancedSftpConnector` (`RemoteListing`, `EnhancedConnector`). The
  remote account is an immutable map from directory to listing, and
  the open SFTP sessions are counted;
- the resolvers and their caches: `PathResolutionFix`,
  `ParserPathFinder`, `ParserPathTracker`, `ParserIntegrationHooks` and
  `DeadsideParserPathRegistry`;
- the repair entry points: `PathFixIntegration`, `PathIsolationFix`,
  `DirectPathResolutionFix`, `ParserPathWrapper`, `ParserExtensions`,
  `ParserPathRepairHook`, `SftpPathUtils`, `CsvParsingFix` and
  `LogParserFix`;
- the thread's guild context (`GuildIsolationManager`);
- the path part of `DeadsideParserValidator`.

Objects whose fields the Java code updates in place are Dafny classes:
the servers, the repositories, the caches, the hook's switches and the
guild context. Null references are `?` class types or `Option` values.
Remote calls the code makes but does not define become function-valued
fields of the `Connector` and `PathValidator` datatypes, and the model
states its results in terms of them. These calls are the connection and
path tests, `SftpPathUtils.findCsvPath`/`findLogPath`, the base
connector's listing, and the validator's `validateCsvPath`/`validateLogPath`.

Unlike `ParserPathFinder.findPath`, which validates a cached path again
before returning it, `PathResolutionFix.resolveCsvPath` and
`resolveLogPath` return a cache hit without calling `testPath` again
(see `PathResolution.StaleCacheHitIsReturned`).

All paths in the table below are relative to the repository root, and
every cited file lies under `src/main/java/com/deadside/bot/`.

## Model

| member | source | states |
|---|---|---|
| Domain.KindName | src/main/java/com/deadside/bot/parsers/fixes/ParserPathTracker.java:21-22 | the category name of a kind is the three-letter "csv" or "log", and the two kinds get different names |
| Domain.HostValue | src/main/java/com/deadside/bot/sftp/PathResolutionFix.java:205-208 | the host is `sftpHost` when that is non-null and non-empty, and `host` otherwise |
| Domain.ServerToken | src/main/java/com/deadside/bot/sftp/EnhancedSftpConnector.java:244-247 | the server segment is `serverId` when set; otherwise it is the name with whitespace runs replaced, so it contains no whitespace and equals the name when the name has none |
| CandidatePaths.CsvTemplates | src/main/java/com/deadside/bot/sftp/EnhancedSftpConnector.java:250-255 | there are exactly six fixed CSV candidates |
| CandidatePaths.LogTemplates | src/main/java/com/deadside/bot/sftp/EnhancedSftpConnector.java:297-302 | there are exactly six fixed log candidates |
| CandidatePaths.RootPath | src/main/java/com/deadside/bot/sftp/EnhancedSftpConnector.java:329-343 | the root `host_S` is non-empty and is the stem of the first CSV candidate (`/actual1/deathlogs`) and of the first log candidate (`/Logs`) |
| CandidatePaths.CsvTemplatesDistinct | src/main/java/com/deadside/bot/sftp/EnhancedSftpConnector.java:250-255 | the six CSV candidates are pairwise distinct for every host and server |
| CandidatePaths.LogTemplatesMayRepeat | src/main/java/com/deadside/bot/sftp/EnhancedSftpConnector.java:297-302 | the log candidates can repeat: with host and server both "Deadside", two of them coincide |
| CandidatePaths.AlternativeCsvPaths | src/main/java/com/deadside/bot/sftp/EnhancedSftpConnector.java:235-275 | the list starts with the six CSV candidates, holds exactly them and the recommended paths, and has no duplicates |
| CandidatePaths.AlternativeLogPaths | src/main/java/com/deadside/bot/sftp/EnhancedSftpConnector.java:282-322 | the list starts with the six log candidates and holds exactly them and the recommended paths; every appended path is new |
| CandidatePaths.AlternativeCsvPathsOrder | src/main/java/com/deadside/bot/sftp/EnhancedSftpConnector.java:250-269 | the first six entries are `h_S/actual1/deathlogs`, `h_S/actual/deathlogs`, `h/S/actual1/deathlogs`, `h/S/actual/deathlogs`, `S/actual1/deathlogs`, `S/actual/deathlogs`, in that order, and every recommended path appears |
| CandidatePaths.AlternativeLogPathsOrder | src/main/java/com/deadside/bot/sftp/EnhancedSftpConnector.java:297-316 | the first six entries are `h_S/Logs`, `h_S/Deadside/Logs`, `h/S/Logs`, `h/S/Deadside/Logs`, `S/Logs`, `S/Deadside/Logs`, in that order, and every recommended path appears |
| Lists.AppendAbsent | src/main/java/com/deadside/bot/sftp/EnhancedSftpConnector.java:264-268 | the base list is kept as a prefix, the result holds exactly the base and extra elements, and a duplicate-free base stays duplicate-free |
| Lists.AppendMissing | src/main/java/com/deadside/bot/sftp/EnhancedSftpConnector.java:264-268 | the `if (!paths.contains(p)) paths.add(p)` loop computes AppendAbsent |
| Lists.AppendAbsentAllNew | src/main/java/com/deadside/bot/sftp/EnhancedSftpConnector.java:264-268 | distinct extra paths that are all new are appended unchanged and in order |
| Lists.AppendAbsentAddsOnlyNew | src/main/java/com/deadside/bot/sftp/EnhancedSftpConnector.java:311-315 | every appended element differs from everything before it |
| Lists.AppendAbsentAllPresent | src/main/java/com/deadside/bot/sftp/EnhancedSftpConnector.java:311-315 | extra paths that are already present leave the list unchanged |
| PathResolution.IsValidCsvPath | src/main/java/com/deadside/bot/sftp/PathResolutionFix.java:234-243 | false for a null or empty path; a path that passes contains "deathlogs", since each of the four accepted spellings does (`DeathlogsShapes`) |
| PathResolution.DeathlogsShapes | src/main/java/com/deadside/bot/sftp/PathResolutionFix.java:239-242 | any of "/actual1/deathlogs", "\\actual1\\deathlogs", "/actual/deathlogs" and "\\actual\\deathlogs" occurring in a string makes "deathlogs" occur in it |
| PathResolution.IsValidLogPath | src/main/java/com/deadside/bot/sftp/PathResolutionFix.java:250-257 | false for a null or empty path; a path that passes contains "Logs" |
| PathResolution.LogsShapes | src/main/java/com/deadside/bot/sftp/PathResolutionFix.java:255-256 | "/Logs" or "\\Logs" occurring in a string makes "Logs" occur in it |
| PathResolution.TemplatesAreValid | src/main/java/com/deadside/bot/sftp/PathResolutionFix.java:234-257 | every CSV candidate passes the CSV shape check and every log candidate passes the log shape check |
| PathResolution.HostPass | src/main/java/com/deadside/bot/sftp/PathResolutionFix.java:217-218 | replacing every `{host}` in a host-and-server pattern puts the host in front and leaves `{server}` in place |
| PathResolution.ServerPass | src/main/java/com/deadside/bot/sftp/PathResolutionFix.java:219 | replacing every `{server}` replaces both occurrences when the host text was itself `{server}` |
| PathResolution.SubstituteHostServer | src/main/java/com/deadside/bot/sftp/PathResolutionFix.java:217-219 | substituting a `{host}…{server}…` pattern gives `host + sep + server + tail` when the host contains no `{` |
| PathResolution.SubstituteServerOnly | src/main/java/com/deadside/bot/sftp/PathResolutionFix.java:217-219 | substituting a `{server}…` pattern gives `server + tail` |
| PathResolution.ServerPlaceholderSurvivesHostPass | src/main/java/com/deadside/bot/sftp/PathResolutionFix.java:217-218 | the host pass leaves a server-only pattern as it is |
| PathResolution.CsvPatternMatches | src/main/java/com/deadside/bot/sftp/PathResolutionFix.java:24-31 | the i-th CSV pattern, once substituted, is the i-th CSV candidate of the SFTP connector |
| PathResolution.LogPatternMatches | src/main/java/com/deadside/bot/sftp/PathResolutionFix.java:34-41 | the i-th log pattern, once substituted, is the i-th log candidate of the SFTP connector |
| PathResolution.PatternsMatchTemplates | src/main/java/com/deadside/bot/sftp/PathResolutionFix.java:24-41 | all twelve patterns agree with the connector's candidates whenever the host has no `{` |
| PathResolution.HostTextIsRescanned | src/main/java/com/deadside/bot/sftp/PathResolutionFix.java:217-219 | a host that is literally `{server}` is rewritten by the second replace, so the result differs from the connector's candidate |
| PathResolution.TestPath | src/main/java/com/deadside/bot/sftp/PathResolutionFix.java:266-273 | a missing connector (the caught NullPointerException) makes every path fail; otherwise the connector's test decides |
| PathResolution.SubstituteAll | src/main/java/com/deadside/bot/sftp/PathResolutionFix.java:216-219 | each pattern is substituted position by position |
| PathResolution.FindValid | src/main/java/com/deadside/bot/sftp/PathResolutionFix.java:201-227 | a hit is the substitution of the first pattern that passes the path test; no match means that no pattern passes; a missing host throws exactly when there is a pattern to substitute |
| PathResolution.PatternHitIsValid | src/main/java/com/deadside/bot/sftp/PathResolutionFix.java:72-80 | a pattern hit always passes the shape check of its kind |
| PathResolution.CacheKey | src/main/java/com/deadside/bot/sftp/PathResolutionFix.java:281-283 | the key begins with the guild id and ":" and ends with ":" and the type; `CacheKeysSeparate` proves keys of different guilds or types differ |
| PathResolution.CacheKeysSeparate | src/main/java/com/deadside/bot/sftp/PathResolutionFix.java:281-283 | equal cache keys mean the same guild and the same category, so CSV and log entries never share a key |
| PathResolution.Resolve | src/main/java/com/deadside/bot/sftp/PathResolutionFix.java:49-91 | a usable current path is kept with no write; otherwise a cache entry is returned as it is with no write; otherwise the first pattern hit is returned and written, and with no hit or no host the current path is returned with nothing written; a write always passed the path test and is one of the six substitutions |
| PathResolution.StaleCacheHitIsReturned | src/main/java/com/deadside/bot/sftp/PathResolutionFix.java:63-69 | a cache entry that now fails the path test is still returned when the current path does not pass |
| PathResolution.ResolveTakesFirstPassingPattern | src/main/java/com/deadside/bot/sftp/PathResolutionFix.java:72-80 | with no usable current path and no cache entry, the first pattern whose substitution passes the path test is returned and written to the cache |
| PathResolution.ResolveKeepsCurrentWithoutPattern | src/main/java/com/deadside/bot/sftp/PathResolutionFix.java:72-91 | with no host, or when no pattern passes, an unusable uncached current path is returned unchanged and nothing is written |
| PathResolution.ResolveIdempotent | src/main/java/com/deadside/bot/sftp/PathResolutionFix.java:49-91 | resolving again from the answer, with the cache the first call left, gives the same answer and writes nothing |
| PathResolution.Adopt | src/main/java/com/deadside/bot/sftp/PathResolutionFix.java:161-176 | a field changes exactly when the resolved value is non-null and differs from the stored one |
| PathResolution.PathResolutionFix.constructor | src/main/java/com/deadside/bot/sftp/PathResolutionFix.java:21 | the cache starts empty |
| PathResolution.PathResolutionFix.FindValidPathFromPatterns | src/main/java/com/deadside/bot/sftp/PathResolutionFix.java:201-227 | the loop with its early return computes FindValid |
| PathResolution.PathResolutionFix.ResolvePath | src/main/java/com/deadside/bot/sftp/PathResolutionFix.java:49-141 | a null server gives null and leaves the cache alone; otherwise the answer and the cache update are those of Resolve |
| PathResolution.PathResolutionFix.ResolveCsvPath | src/main/java/com/deadside/bot/sftp/PathResolutionFix.java:49-91 | the same, on the CSV directory under the "csv" key |
| PathResolution.PathResolutionFix.ResolveLogPath | src/main/java/com/deadside/bot/sftp/PathResolutionFix.java:99-141 | the same, on the log directory under the "log" key |
| PathResolution.PathResolutionFix.FixServerPaths | src/main/java/com/deadside/bot/sftp/PathResolutionFix.java:150-192 | a null or restricted server gives false with nothing changed; otherwise each field adopts its resolution; the result is true exactly when a field changed, and the server is saved exactly then |
| PathResolution.PathResolutionFix.ClearCache | src/main/java/com/deadside/bot/sftp/PathResolutionFix.java:289-291 | the cache is emptied |
| RemoteListing.Take | src/main/java/com/deadside/bot/sftp/EnhancedSftpConnector.java:480-497 | the cap keeps a prefix of at most n elements, and all of them when there are no more than n |
| RemoteListing.CsvMatches | src/main/java/com/deadside/bot/sftp/EnhancedSftpConnector.java:372-384 | there are never more matches than entries |
| RemoteListing.CsvMatchesMembers | src/main/java/com/deadside/bot/sftp/EnhancedSftpConnector.java:372-384 | the matches are exactly `path + "/" + name` for the listed `.csv` entries other than `.` and `..` |
| RemoteListing.CsvMatchesPrefix | src/main/java/com/deadside/bot/sftp/EnhancedSftpConnector.java:372-384 | the matches of a prefix of the listing are a prefix of the matches, so listing order is kept |
| RemoteListing.CsvFilesIn | src/main/java/com/deadside/bot/sftp/EnhancedSftpConnector.java:351-395 | a directory that cannot be listed gives the empty list; otherwise the result is its matches |
| RemoteListing.LogFileIn | src/main/java/com/deadside/bot/sftp/EnhancedSftpConnector.java:403-446 | the result is `path + "/Deadside.log"` exactly when the directory can be listed and has an entry named `Deadside.log`, and null otherwise |
| RemoteListing.CsvSearchShallowFirst | src/main/java/com/deadside/bot/sftp/EnhancedSftpConnector.java:455-502 | beyond depth 3 (depth > 3) nothing is found; a directory with its own matches returns only those, at most 500 and in listing order |
| RemoteListing.CsvSearchBound | src/main/java/com/deadside/bot/sftp/EnhancedSftpConnector.java:455-544 | a search from depth d returns at most 500 + 499·(3 − d) files, because the 500 cap is checked only after a subdirectory's files are added |
| RemoteListing.CsvSubdirsBound | src/main/java/com/deadside/bot/sftp/EnhancedSftpConnector.java:505-533 | the subdirectory loop stops with fewer than 500 files accumulated plus one subdirectory's result |
| RemoteListing.CsvSearchSound | src/main/java/com/deadside/bot/sftp/EnhancedSftpConnector.java:455-544 | every file found is a `.csv` match of a directory at most 3 − depth levels below the start |
| RemoteListing.CsvSubdirsSound | src/main/java/com/deadside/bot/sftp/EnhancedSftpConnector.java:505-533 | every file the subdirectory loop adds is a match of a reachable directory |
| RemoteListing.LogSearchIsFirstHit | src/main/java/com/deadside/bot/sftp/EnhancedSftpConnector.java:553-626 | the recursive log search returns the first `Deadside.log` of a pre-order walk (current level first, then subdirectories in listing order) |
| RemoteListing.LogSubdirsIsFirstHit | src/main/java/com/deadside/bot/sftp/EnhancedSftpConnector.java:592-615 | a subdirectory that yields nothing does not stop the scan of its siblings |
| RemoteListing.LogHitsSound | src/main/java/com/deadside/bot/sftp/EnhancedSftpConnector.java:553-626 | every log file in the pre-order walk is the log file of a directory within depth reach |
| RemoteListing.LogSubdirHitsSound | src/main/java/com/deadside/bot/sftp/EnhancedSftpConnector.java:592-615 | every subdirectory hit lies within depth reach |
| RemoteListing.LogSearchSound | src/main/java/com/deadside/bot/sftp/EnhancedSftpConnector.java:553-626 | a log file found is `Deadside.log` in a directory at most 3 − depth levels below the start |
| RemoteListing.FirstCsvHit | src/main/java/com/deadside/bot/sftp/EnhancedSftpConnector.java:97-118 | the first alternative with CSV files, where every alternative before it has none; none means that every alternative is empty |
| RemoteListing.FirstLogHit | src/main/java/com/deadside/bot/sftp/EnhancedSftpConnector.java:177-198 | the first alternative with a log file, where every earlier one has none |
| EnhancedConnector.DeathlogOutcome | src/main/java/com/deadside/bot/sftp/EnhancedSftpConnector.java:76-148 | a null or empty directory gives an empty list; otherwise the standard lookup, then the first alternative with files, then the recursive search from the root; only a standard or alternative success is recorded |
| EnhancedConnector.LogFileOutcome | src/main/java/com/deadside/bot/sftp/EnhancedSftpConnector.java:157-228 | the same order for the log file; a recorded path always produced a file |
| EnhancedConnector.FirstCsvHitAt | src/main/java/com/deadside/bot/sftp/EnhancedSftpConnector.java:97-118 | an alternative with files after only empty ones is the first hit |
| EnhancedConnector.FirstCsvHitNone | src/main/java/com/deadside/bot/sftp/EnhancedSftpConnector.java:97-118 | no hit when every alternative is empty |
| EnhancedConnector.FirstLogHitAt | src/main/java/com/deadside/bot/sftp/EnhancedSftpConnector.java:177-198 | an alternative with a log file after only missing ones is the first hit |
| EnhancedConnector.FirstLogHitNone | src/main/java/com/deadside/bot/sftp/EnhancedSftpConnector.java:177-198 | no hit when no alternative has a log file |
| EnhancedConnector.EnhancedSftpConnector.constructor | src/main/java/com/deadside/bot/sftp/EnhancedSftpConnector.java:19-26 | no session is open at the start |
| EnhancedConnector.EnhancedSftpConnector.Connect | src/main/java/com/deadside/bot/sftp/EnhancedSftpConnector.java:33-51 | a session opens exactly when the host is reachable, and it is counted |
| EnhancedConnector.EnhancedSftpConnector.Disconnect | src/main/java/com/deadside/bot/sftp/EnhancedSftpConnector.java:57-67 | closing a session decrements the open count and leaves the connect count unchanged |
| EnhancedConnector.EnhancedSftpConnector.FindCsvFilesInPath | src/main/java/com/deadside/bot/sftp/EnhancedSftpConnector.java:351-395 | the files are CsvFilesIn of the path, and the session is closed again |
| EnhancedConnector.EnhancedSftpConnector.FindLogFileInPath | src/main/java/com/deadside/bot/sftp/EnhancedSftpConnector.java:403-446 | the file is LogFileIn of the path, and the session is closed again |
| EnhancedConnector.EnhancedSftpConnector.FindCsvFilesRecursively | src/main/java/com/deadside/bot/sftp/EnhancedSftpConnector.java:455-544 | the recursion computes CsvSearch and closes every session it opens; beyond depth 3 it opens none; when the directory has its own matches it opens exactly one, so no subdirectory is visited |
| EnhancedConnector.EnhancedSftpConnector.ScanCsvLocal | src/main/java/com/deadside/bot/sftp/EnhancedSftpConnector.java:480-497 | the local loop with its 500 break returns the first 500 matches |
| EnhancedConnector.EnhancedSftpConnector.ScanCsvSubdirs | src/main/java/com/deadside/bot/sftp/EnhancedSftpConnector.java:505-530 | the subdirectory loop computes CsvSubdirs and leaves no session open |
| EnhancedConnector.EnhancedSftpConnector.FindLogFileRecursively | src/main/java/com/deadside/bot/sftp/EnhancedSftpConnector.java:553-626 | the recursion computes LogSearch, opens no session beyond depth 3, and opens one when the log file is at the current level |
| EnhancedConnector.EnhancedSftpConnector.GetAlternativeCsvPaths | src/main/java/com/deadside/bot/sftp/EnhancedSftpConnector.java:235-275 | the list is AlternativeCsvPaths over the tracker's "csv" recommendations |
| EnhancedConnector.EnhancedSftpConnector.GetAlternativeLogPaths | src/main/java/com/deadside/bot/sftp/EnhancedSftpConnector.java:282-322 | the list is AlternativeLogPaths over the tracker's "log" recommendations |
| EnhancedConnector.EnhancedSftpConnector.TryCsvAlternatives | src/main/java/com/deadside/bot/sftp/EnhancedSftpConnector.java:97-118 | the loop stops at FirstCsvHit and returns that alternative's files |
| EnhancedConnector.EnhancedSftpConnector.TryLogAlternatives | src/main/java/com/deadside/bot/sftp/EnhancedSftpConnector.java:177-198 | the loop stops at FirstLogHit and returns that alternative's file |
| EnhancedConnector.EnhancedSftpConnector.FindDeathlogFiles | src/main/java/com/deadside/bot/sftp/EnhancedSftpConnector.java:76-148 | the files are those DeathlogOutcome gives, the tracker gains exactly the recorded path, and every session opened is closed |
| EnhancedConnector.EnhancedSftpConnector.FindLogFile | src/main/java/com/deadside/bot/sftp/EnhancedSftpConnector.java:157-228 | the file is the one LogFileOutcome gives, the tracker gains exactly the recorded path, and every session opened is closed |
| PathTracker.TrackerToken | src/main/java/com/deadside/bot/parsers/fixes/ParserPathTracker.java:69-75 | the token is `serverId` when non-empty, and the decimal rendering of the numeric id otherwise |
| PathTracker.TrackerKeyIsolatesGuilds | src/main/java/com/deadside/bot/parsers/fixes/ParserPathTracker.java:69-75 | equal tracker keys mean the same guild and the same server token |
| PathTracker.Appended | src/main/java/com/deadside/bot/parsers/fixes/ParserPathTracker.java:77-79 | only the recorded key changes; it keeps its other categories and gains this one |
| PathTracker.LookupAfterAppend | src/main/java/com/deadside/bot/parsers/fixes/ParserPathTracker.java:77-79 | after recording, that key and category list ends with the path (duplicates are kept), and every other list is unchanged |
| PathTracker.RecordIsolatesGuilds | src/main/java/com/deadside/bot/parsers/fixes/ParserPathTracker.java:64-83 | recording for one guild never changes what another guild's servers are recommended |
| PathTracker.LookupAfterRemove | src/main/java/com/deadside/bot/parsers/fixes/ParserPathTracker.java:123-139 | removing a key empties its lists and keeps every other key's lists |
| PathTracker.ParserPathTracker.constructor | src/main/java/com/deadside/bot/parsers/fixes/ParserPathTracker.java:33-35 | the tracker starts empty |
| PathTracker.ParserPathTracker.RecordSuccessfulPath | src/main/java/com/deadside/bot/parsers/fixes/ParserPathTracker.java:54-83 | a null server, category or path leaves the tracker unchanged; otherwise the path is appended under the server's key and category |
| PathTracker.ParserPathTracker.GetRecommendedPaths | src/main/java/com/deadside/bot/parsers/fixes/ParserPathTracker.java:91-117 | null arguments or an unknown key give the empty list; otherwise the recorded list, in recording order |
| PathTracker.ParserPathTracker.ClearCache | src/main/java/com/deadside/bot/parsers/fixes/ParserPathTracker.java:123-139 | only the server's own key is removed; a null server changes nothing |
| PathTracker.ParserPathTracker.ClearAllCaches | src/main/java/com/deadside/bot/parsers/fixes/ParserPathTracker.java:144-147 | the tracker is emptied |
| IntegrationHooks.Recorded | src/main/java/com/deadside/bot/parsers/fixes/ParserIntegrationHooks.java:20-37 | a null server or a null or empty path changes nothing; otherwise the path is appended to that server's list for the category |
| IntegrationHooks.RecordSuccessfulCsvPath | src/main/java/com/deadside/bot/parsers/fixes/ParserIntegrationHooks.java:20-37 | the tracker becomes Recorded under "csv" |
| IntegrationHooks.RecordSuccessfulLogPath | src/main/java/com/deadside/bot/parsers/fixes/ParserIntegrationHooks.java:44-61 | the tracker becomes Recorded under "log" |
| IntegrationHooks.RecordSuccessful | src/main/java/com/deadside/bot/parsers/fixes/ParserIntegrationHooks.java:20-61 | the tracker becomes Recorded under the kind's category |
| IntegrationHooks.GetRecommendedCsvPaths | src/main/java/com/deadside/bot/parsers/fixes/ParserIntegrationHooks.java:68-82 | a null server gives the empty list; otherwise exactly the tracker's "csv" list |
| IntegrationHooks.GetRecommendedLogPaths | src/main/java/com/deadside/bot/parsers/fixes/ParserIntegrationHooks.java:89-103 | a null server gives the empty list; otherwise exactly the tracker's "log" list |
| IntegrationHooks.RecordThenRecommend | src/main/java/com/deadside/bot/parsers/fixes/ParserIntegrationHooks.java:20-103 | after recording a non-empty path, it is the last one recommended for that category, and the other category is unchanged |
| PathRegistry.RegistryKey | src/main/java/com/deadside/bot/parsers/fixes/DeadsideParserPathRegistry.java:86-87 | a null or non-numeric id has no key; a key is always the id parsed as a 64-bit long, with the decimal digits Long.parseLong accepts |
| PathRegistry.PrintedIdIsKey | src/main/java/com/deadside/bot/parsers/fixes/DeadsideParserPathRegistry.java:86-87 | an id that is the decimal rendering of a long n has key n |
| PathRegistry.SpellingsShareEntry | src/main/java/com/deadside/bot/parsers/fixes/DeadsideParserPathRegistry.java:86-87 | the ids "7" and "+7" share one registry entry |
| PathRegistry.ArabicIndicDigitSharesEntry | src/main/java/com/deadside/bot/parsers/fixes/DeadsideParserPathRegistry.java:86-87 | the id written with the Arabic-Indic seven shares the entry of "7" |
| PathRegistry.Registered | src/main/java/com/deadside/bot/parsers/fixes/DeadsideParserPathRegistry.java:95-98 | registration adds the key, if it is absent, and removes none |
| PathRegistry.StoredAfterRegister | src/main/java/com/deadside/bot/parsers/fixes/DeadsideParserPathRegistry.java:95-98 | after registering, that key and type hold the path (overwriting), and every other entry is unchanged |
| PathRegistry.StoredAfterClear | src/main/java/com/deadside/bot/parsers/fixes/DeadsideParserPathRegistry.java:160-161 | clearing a key removes all its types and no other key's |
| PathRegistry.DeadsideParserPathRegistry.constructor | src/main/java/com/deadside/bot/parsers/fixes/DeadsideParserPathRegistry.java:35-37 | the registry starts empty |
| PathRegistry.DeadsideParserPathRegistry.RegisterPath | src/main/java/com/deadside/bot/parsers/fixes/DeadsideParserPathRegistry.java:80-106 | a null server, type or path, or a non-numeric id, changes nothing; otherwise the path is registered under the parsed id and type |
| PathRegistry.DeadsideParserPathRegistry.GetPath | src/main/java/com/deadside/bot/parsers/fixes/DeadsideParserPathRegistry.java:114-141 | null for null arguments, a non-numeric id, or a server or type never registered; a path is returned exactly when that id and type are stored, and it is one of the server's stored paths |
| PathRegistry.DeadsideParserPathRegistry.ClearPaths | src/main/java/com/deadside/bot/parsers/fixes/DeadsideParserPathRegistry.java:147-168 | the server's entry is removed, and a null server or a non-numeric id changes nothing |
| PathRegistry.RegisterThenGet | src/main/java/com/deadside/bot/parsers/fixes/DeadsideParserPathRegistry.java:80-141 | after registerPath(s, t, p), getPath(s, t) returns p |
| PathFinder.ServerKey | src/main/java/com/deadside/bot/parsers/fixes/ParserPathFinder.java:287-289 | the key begins with the guild id and ":" and ends with ":" and the rendered server id; `ServerKeyIsolatesGuilds` proves keys of different guilds differ |
| PathFinder.ServerKeyIsolatesGuilds | src/main/java/com/deadside/bot/parsers/fixes/ParserPathFinder.java:287-289 | equal finder keys mean the same guild and the same rendered id |
| PathFinder.PutPath | src/main/java/com/deadside/bot/parsers/fixes/ParserPathFinder.java:253-261 | caching sets that key and category and changes no other entry |
| PathFinder.RemovePath | src/main/java/com/deadside/bot/parsers/fixes/ParserPathFinder.java:268-280 | removal deletes only that category; the server's entry goes when it becomes empty; other servers are untouched |
| PathFinder.Candidates | src/main/java/com/deadside/bot/parsers/fixes/ParserPathFinder.java:89-106 | the configured directory comes first when non-empty, followed by the tracker paths not yet listed, and the list has no duplicates |
| PathFinder.Find | src/main/java/com/deadside/bot/parsers/fixes/ParserPathFinder.java:68-126 | a result validates and is the cached path or a candidate; a new result is cached and recorded, and a recorded result is also cached under its key; with no result nothing is cached and no candidate validates; other entries are untouched |
| PathFinder.ValidCacheWins | src/main/java/com/deadside/bot/parsers/fixes/ParserPathFinder.java:75-81 | a cached path that still validates is returned with no cache change and nothing recorded |
| PathFinder.FirstCandidateWins | src/main/java/com/deadside/bot/parsers/fixes/ParserPathFinder.java:108-117 | with no cached entry, a configured directory that validates is the result and is recorded |
| PathFinder.FirstValidCandidateWins | src/main/java/com/deadside/bot/parsers/fixes/ParserPathFinder.java:108-117 | without a cached path that still validates, the first validating candidate at any position is the result and is recorded, ahead of every later one |
| PathFinder.FoundIsRecordedUnlessCached | src/main/java/com/deadside/bot/parsers/fixes/ParserPathFinder.java:108-117 | every result other than the cached one is recorded in the tracker |
| PathFinder.ParserPathFinder.constructor | src/main/java/com/deadside/bot/parsers/fixes/ParserPathFinder.java:37-40 | the cache starts empty and there is no validator yet |
| PathFinder.ParserPathFinder.Initialize | src/main/java/com/deadside/bot/parsers/fixes/ParserPathFinder.java:57-61 | the validator is set and the cache is kept |
| PathFinder.ParserPathFinder.GetCachedPath | src/main/java/com/deadside/bot/parsers/fixes/ParserPathFinder.java:236-245 | a path is returned exactly when the server's entry holds that category |
| PathFinder.ParserPathFinder.CacheSuccessfulPath | src/main/java/com/deadside/bot/parsers/fixes/ParserPathFinder.java:253-261 | the path is cached under the server's key and also appended to the tracker |
| PathFinder.ParserPathFinder.RemoveCachedPath | src/main/java/com/deadside/bot/parsers/fixes/ParserPathFinder.java:268-280 | the cache becomes RemovePath of that server and category |
| PathFinder.ParserPathFinder.FindPath | src/main/java/com/deadside/bot/parsers/fixes/ParserPathFinder.java:68-191 | a null server gives null and changes nothing; otherwise the result and both caches are those of Find |
| PathFinder.ParserPathFinder.TryCandidates | src/main/java/com/deadside/bot/parsers/fixes/ParserPathFinder.java:108-117 | the loop returns the first validating candidate and caches and records it; with none it returns null and writes nothing |
| PathFinder.ParserPathFinder.FindCsvPath | src/main/java/com/deadside/bot/parsers/fixes/ParserPathFinder.java:68-126 | FindPath on the CSV directory and the "csv" category |
| PathFinder.ParserPathFinder.FindLogPath | src/main/java/com/deadside/bot/parsers/fixes/ParserPathFinder.java:133-191 | FindPath on the log directory and the "log" category |
| PathFinder.ParserPathFinder.UpdateServerPaths | src/main/java/com/deadside/bot/parsers/fixes/ParserPathFinder.java:198-228 | each field takes its found path when there is one; the result is true exactly when a path was found, even one equal to the old value; the finder cache and the tracker are those the two lookups leave, CSV first, and the validator is kept |
| PathFinder.ParserPathFinder.ClearCache | src/main/java/com/deadside/bot/parsers/fixes/ParserPathFinder.java:295-298 | the cache is emptied and the validator kept |
| PathIsolation.NeedsFixingCsvIsInvalid | src/main/java/com/deadside/bot/parsers/fixes/PathIsolationFix.java:76-85 | for type "csv" in any letter case, needsFixing is exactly the negation of the CSV shape check, so a null or empty path needs fixing |
| PathIsolation.NeedsFixingLogIsInvalid | src/main/java/com/deadside/bot/parsers/fixes/PathIsolationFix.java:76-90 | for type "log" in any letter case, needsFixing is exactly the negation of the log shape check |
| PathIsolation.NeedsFixingOtherType | src/main/java/com/deadside/bot/parsers/fixes/PathIsolationFix.java:86-90 | any other type with a non-empty path does not need fixing |
| PathIsolation.LongSIsCsvType | src/main/java/com/deadside/bot/parsers/fixes/PathIsolationFix.java:81-86 | the type "cſv", spelt with a long s, counts as "csv", as equalsIgnoreCase folds it |
| PathIsolation.ServerNeedsFixingIffInvalid | src/main/java/com/deadside/bot/parsers/fixes/PathIsolationFix.java:98-105 | a server needs fixing exactly when its CSV or its log directory fails its shape check |
| PathIsolation.Select | src/main/java/com/deadside/bot/parsers/fixes/PathIsolationFix.java:38-56 | the servers picked out by the flags, as many as flags are set |
| PathIsolation.SelectSnoc | src/main/java/com/deadside/bot/parsers/fixes/PathIsolationFix.java:38-56 | each step adds its server to the list and the count exactly when it was fixed |
| PathIsolation.FixOne | src/main/java/com/deadside/bot/parsers/fixes/PathIsolationFix.java:41-51 | a restricted server is skipped and it and the tracker are left unchanged; otherwise the result is the direct fix's pathsFixed flag, the directories become those the fix gives, and the tracker gains the fix's records |
| PathIsolation.FixAt | src/main/java/com/deadside/bot/parsers/fixes/PathIsolationFix.java:41-51 | one iteration appends the server's flag and, when set, adds the server to the fixed list; restricted servers stay unchanged and only unrestricted ones are flagged; with distinct servers the flag is what the fix reports for that server, the server takes the fixed directories, the tracker gains its records, and the later servers are untouched |
| PathIsolation.FixLoop | src/main/java/com/deadside/bot/parsers/fixes/PathIsolationFix.java:41-52 | the fixed list is exactly the flagged servers in order, only unrestricted servers are flagged, restricted servers keep their directories, and with distinct servers every flag is the fix's report, every unrestricted server has its fixed directories and the tracker holds every fix's records in order |
| PathIsolation.Dirs | src/main/java/com/deadside/bot/parsers/fixes/PathIsolationFix.java:38-56 | a snapshot of each server's two directories |
| PathIsolation.SelectStep | src/main/java/com/deadside/bot/parsers/fixes/PathIsolationFix.java:38-56 | one more flag keeps restricted servers unflagged and extends the count and the fixed-server list |
| PathIsolation.FixEach | src/main/java/com/deadside/bot/parsers/fixes/PathIsolationFix.java:38-56 | the fixed servers are those flagged; restricted servers are never flagged or changed; with distinct servers a flag is the fix's own result, each unrestricted server has the directories the fix gives, and the tracker holds the fixes' records in server order |
| PathIsolation.FixAndSave | src/main/java/com/deadside/bot/parsers/fixes/PathIsolationFix.java:38-58 | the count is the number of flagged servers; no restricted server is flagged or changed; with distinct servers every flag is what that server's fix reports, every unrestricted server has the directories its fix found and the tracker holds each fix's records in order (GuildFixed); saveAll gets exactly the flagged servers, once, when there is at least one, and save is never called |
| PathIsolation.FixGuildServerPaths | src/main/java/com/deadside/bot/parsers/fixes/PathIsolationFix.java:27-68 | the count is the number of flagged servers, and GuildFixed holds between the servers' directories before and after: restricted servers are never flagged or changed, and with distinct servers each flag is what the fix reports, each unrestricted server has its fixed directories and the tracker holds each fix's records; saveAll is called once with exactly the flagged servers when the count is positive, the context is cleared at the end, and a null repository leaves the count 0 and the tracker alone |
| PathWrapper.CountOf | src/main/java/com/deadside/bot/parsers/fixes/ParserPathWrapper.java:76-79 | a parser's count is returned, and a failed parse counts 0 |
| PathWrapper.WrapperChecksAgree | src/main/java/com/deadside/bot/parsers/fixes/ParserPathWrapper.java:180-206 | the wrapper's checks are the resolver's shape checks and the negation of needsFixing |
| PathWrapper.WantsFixIffNeedsFixing | src/main/java/com/deadside/bot/parsers/fixes/ParserPathWrapper.java:150-153 | the wrapper asks for a fix exactly when PathIsolationFix says the server needs fixing |
| PathWrapper.AfterFix | src/main/java/com/deadside/bot/parsers/fixes/ParserPathWrapper.java:147-173 | a server whose directories both pass keeps them |
| PathWrapper.AfterFixOnlyFound | src/main/java/com/deadside/bot/parsers/fixes/ParserPathWrapper.java:147-173 | a directory changes only to the path the lookup found, and only after a successful connection test |
| PathWrapper.ParserPathWrapper.constructor | src/main/java/com/deadside/bot/parsers/fixes/ParserPathWrapper.java:35-46 | path resolution is enabled from the start |
| PathWrapper.ParserPathWrapper.SetPathResolutionEnabled | src/main/java/com/deadside/bot/parsers/fixes/ParserPathWrapper.java:52-55 | the switch takes the given value |
| PathWrapper.ParserPathWrapper.FixPathsIfNeeded | src/main/java/com/deadside/bot/parsers/fixes/ParserPathWrapper.java:147-173 | the directories become AfterFix; no fix is attempted when both pass; the tracker gains the fix's records exactly when the fix runs; the server is saved exactly when the fix reported success |
| PathWrapper.ParserPathWrapper.ProcessDeathLogs | src/main/java/com/deadside/bot/parsers/fixes/ParserPathWrapper.java:63-81 | a null server gives 0; with no server or with resolution off the server, the tracker and the repository are untouched; otherwise the parser runs on the AfterFix directories, and the tracker and the saves are those of fixPathsIfNeeded |
| PathWrapper.ParserPathWrapper.ProcessDeathLogsDefault | src/main/java/com/deadside/bot/parsers/fixes/ParserPathWrapper.java:88-90 | the one-argument call passes processHistorical = false, with the same directories, tracker and saves as ProcessDeathLogs |
| PathWrapper.ParserPathWrapper.ProcessLogs | src/main/java/com/deadside/bot/parsers/fixes/ParserPathWrapper.java:97-115 | the same guards, repair, tracker and saves around the log parser |
| PathWrapper.ParserPathWrapper.ProcessDeathLogContent | src/main/java/com/deadside/bot/parsers/fixes/ParserPathWrapper.java:123-141 | a null server or null content gives 0 and touches nothing; otherwise the same guards, repair, tracker and saves around the content parser |
| RepairHook.ShapeChecksAgree | src/main/java/com/deadside/bot/parsers/fixes/ParserPathRepairHook.java:53-57 | the hook's inline checks are the resolver's shape checks |
| RepairHook.CsvHook | src/main/java/com/deadside/bot/parsers/fixes/ParserPathRepairHook.java:46-79 | disabled repair, no connector or a shape-valid original returns the original; any other answer is the lookup's non-empty path |
| RepairHook.LogHook | src/main/java/com/deadside/bot/parsers/fixes/ParserPathRepairHook.java:88-118 | the same for the log directory |
| RepairHook.CsvHookRepairsIff | src/main/java/com/deadside/bot/parsers/fixes/ParserPathRepairHook.java:46-79 | the original is replaced exactly when repair is on, a connector is set, the original fails the shape check, and the lookup gives a non-empty, different path |
| RepairHook.LogHookRepairsIff | src/main/java/com/deadside/bot/parsers/fixes/ParserPathRepairHook.java:88-118 | the same for the log directory |
| RepairHook.CsvHookIdempotent | src/main/java/com/deadside/bot/parsers/fixes/ParserPathRepairHook.java:46-79 | running the hook again on its answer returns that answer |
| RepairHook.LogHookIdempotent | src/main/java/com/deadside/bot/parsers/fixes/ParserPathRepairHook.java:88-118 | the same for the log hook |
| RepairHook.ParserPathRepairHook.constructor | src/main/java/com/deadside/bot/parsers/fixes/ParserPathRepairHook.java:16-19 | repair starts enabled, with no connector |
| RepairHook.ParserPathRepairHook.Initialize | src/main/java/com/deadside/bot/parsers/fixes/ParserPathRepairHook.java:25-28 | the connector is set and the switch kept |
| RepairHook.ParserPathRepairHook.SetAutoRepairEnabled | src/main/java/com/deadside/bot/parsers/fixes/ParserPathRepairHook.java:34-37 | the switch takes the given value and the connector is kept |
| RepairHook.ParserPathRepairHook.GetCsvPathHook | src/main/java/com/deadside/bot/parsers/fixes/ParserPathRepairHook.java:46-79 | a null server, disabled repair, no connector or a shape-valid original gives the original; any other answer is the CSV lookup on the server and is non-empty |
| RepairHook.ParserPathRepairHook.GetLogPathHook | src/main/java/com/deadside/bot/parsers/fixes/ParserPathRepairHook.java:88-118 | the same for the log lookup |
| RepairHook.ParserPathRepairHook.RecordSuccessfulCsvPath | src/main/java/com/deadside/bot/parsers/fixes/ParserPathRepairHook.java:126-142 | a null server or a null or empty path does nothing; otherwise the call probes the lookup and stores nothing |
| RepairHook.ParserPathRepairHook.RecordSuccessfulLogPath | src/main/java/com/deadside/bot/parsers/fixes/ParserPathRepairHook.java:150-166 | the same for the log path |
| PathUtils.ResolvedDeathlogDirectory | src/main/java/com/deadside/bot/sftp/SftpPathUtils.java:34-41 | the "non-null and different, else the original" choice is always the hook's own answer |
| PathUtils.ResolvedLogDirectory | src/main/java/com/deadside/bot/sftp/SftpPathUtils.java:64-71 | the same for the log hook |
| PathUtils.GetResolvedDeathlogDirectory | src/main/java/com/deadside/bot/sftp/SftpPathUtils.java:25-47 | a null server gives null; otherwise the CSV hook's answer for the server's own directory, and the server is not changed |
| PathUtils.GetResolvedLogDirectory | src/main/java/com/deadside/bot/sftp/SftpPathUtils.java:55-77 | a null server gives null; otherwise the log hook's answer, and the server is not changed |
| PathUtils.DeathlogLookup | src/main/java/com/deadside/bot/sftp/SftpPathUtils.java:85-117 | the files are always the listing of the final directory; a non-empty first listing is kept; the directory changes only to a looked-up non-null path after an empty first listing |
| PathUtils.LogFileLookup | src/main/java/com/deadside/bot/sftp/SftpPathUtils.java:125-157 | the same for the log file |
| PathUtils.FindDeathlogFilesWithResolution | src/main/java/com/deadside/bot/sftp/SftpPathUtils.java:85-117 | a null server or connector gives the empty list and changes nothing; otherwise DeathlogLookup, and only the CSV directory may change |
| PathUtils.FindLogFileWithResolution | src/main/java/com/deadside/bot/sftp/SftpPathUtils.java:125-157 | a null server or connector gives null; otherwise LogFileLookup, and only the log directory may change |
| PathUtils.DeathlogLookupCorrected | src/main/java/com/deadside/bot/sftp/SftpPathUtils.java:104-111 | the retry happens whenever the lookup names a directory other than the configured one |
| PathUtils.LogFileLookupCorrected | src/main/java/com/deadside/bot/sftp/SftpPathUtils.java:144-151 | the same for the log file |
| PathUtils.DeathlogLookupAgreesUnresolved | src/main/java/com/deadside/bot/sftp/SftpPathUtils.java:104-109 | when the hook leaves the directory unchanged, the written search behaves as intended |
| PathUtils.LogFileLookupAgreesUnresolved | src/main/java/com/deadside/bot/sftp/SftpPathUtils.java:144-149 | the same for the log search |
| PathUtils.DeathlogRetrySkipped | src/main/java/com/deadside/bot/sftp/SftpPathUtils.java:104-109 | a concrete server and connector where the written search returns nothing and the intended one finds the file |
| PathUtils.LogRetrySkipped | src/main/java/com/deadside/bot/sftp/SftpPathUtils.java:144-149 | the same for the log file |
| DirectResolution.Fix | src/main/java/com/deadside/bot/parsers/fixes/DirectPathResolutionFix.java:34-107 | no connector, or a failed connection test, gives a map holding only `error` and leaves both directories alone |
| DirectResolution.FixResultsShape | src/main/java/com/deadside/bot/parsers/fixes/DirectPathResolutionFix.java:51-97 | without an error, `pathsFixed` is `csvPathFixed \|\| logPathFixed`; a fixed flag is set exactly when its path key is present, and then the new path and the pre-update original are stored; otherwise the directory is unchanged |
| DirectResolution.FoundIsReported | src/main/java/com/deadside/bot/parsers/fixes/DirectPathResolutionFix.java:51-89 | a path key is present exactly when the lookup found a path, and the directory is then that path |
| DirectResolution.Applied | src/main/java/com/deadside/bot/parsers/fixes/DirectPathResolutionFix.java:118-124 | without a true `pathsFixed` the directories are unchanged |
| DirectResolution.ApplyReplaysFix | src/main/java/com/deadside/bot/parsers/fixes/DirectPathResolutionFix.java:115-156 | applying the results of a fix to the original directories reproduces the fixed directories |
| DirectResolution.ApplyAfterFixIdempotent | src/main/java/com/deadside/bot/parsers/fixes/DirectPathResolutionFix.java:115-156 | applying the results to the server the fix already updated changes nothing |
| DirectResolution.PathsFixedMeansFound | src/main/java/com/deadside/bot/parsers/fixes/DirectPathResolutionFix.java:41-97 | pathsFixed is true exactly when there is a connector, its test passes, and one of the lookups found a path |
| DirectResolution.DirectPathResolutionFix.constructor | src/main/java/com/deadside/bot/parsers/fixes/DirectPathResolutionFix.java:25-27 | the connector is kept |
| DirectResolution.DirectPathResolutionFix.FixServerPaths | src/main/java/com/deadside/bot/parsers/fixes/DirectPathResolutionFix.java:34-107 | the results and the new directories are those of Fix, and every found path is recorded in order, CSV first |
| DirectResolution.DirectPathResolutionFix.ApplyServerUpdates | src/main/java/com/deadside/bot/parsers/fixes/DirectPathResolutionFix.java:115-156 | the same server object is returned, with the directories Applied gives |
| DirectResolution.FixServerPathsFlag | src/main/java/com/deadside/bot/parsers/fixes/DirectPathResolutionFix.java:95-107 | the boolean form returns pathsFixed, leaves the directories of Fix (unchanged when the flag is false), and records the found paths in the tracker as fixServerPaths does |
| FixIntegration.ServersOf | src/main/java/com/deadside/bot/parsers/fixes/PathFixIntegration.java:44-66 | every gathered server belongs to one of the listed guilds |
| FixIntegration.ServersOfComplete | src/main/java/com/deadside/bot/parsers/fixes/PathFixIntegration.java:44-66 | every server of every listed guild is gathered |
| FixIntegration.ServersOfSnoc | src/main/java/com/deadside/bot/parsers/fixes/PathFixIntegration.java:44-66 | gathering one more guild appends its servers |
| FixIntegration.FixServerAt | src/main/java/com/deadside/bot/parsers/fixes/PathFixIntegration.java:68-80 | one step keeps restricted servers unchanged, flags only an unrestricted server, and saves in order |
| FixIntegration.FixLoop | src/main/java/com/deadside/bot/parsers/fixes/PathFixIntegration.java:68-80 | the count is the number of flags set; flagged servers are saved in order |
| FixIntegration.FixEachServer | src/main/java/com/deadside/bot/parsers/fixes/PathFixIntegration.java:130-153 | restricted servers are never changed or counted; the fixed servers are saved in order; with no server listed twice, a flag is set exactly when that server's directories changed |
| FixIntegration.PathFixIntegration.constructor | src/main/java/com/deadside/bot/parsers/fixes/PathFixIntegration.java:28-31 | the repository and the connector are kept |
| FixIntegration.PathFixIntegration.FixServerPaths | src/main/java/com/deadside/bot/parsers/fixes/PathFixIntegration.java:97-116 | a null or restricted server gives false with nothing changed; otherwise exactly PathResolutionFix.fixServerPaths |
| FixIntegration.PathFixIntegration.FixStep | src/main/java/com/deadside/bot/parsers/fixes/PathFixIntegration.java:68-80 | the result says whether a directory changed; a restricted server is never fixed and keeps its directories; otherwise each directory adopts its resolution and the resolver cache takes both writes; the server is saved when fixed, and the context is cleared after a step run under it |
| FixIntegration.PathFixIntegration.FixGuildServerPaths | src/main/java/com/deadside/bot/parsers/fixes/PathFixIntegration.java:123-160 | the count is the number of guild servers fixed, restricted servers are never changed, the fixed ones are saved in order, and the context ends cleared |
| FixIntegration.PathFixIntegration.GatherServers | src/main/java/com/deadside/bot/parsers/fixes/PathFixIntegration.java:44-66 | the gathered list is every guild's servers, guild after guild, read before any fix |
| FixIntegration.PathFixIntegration.FixAllServerPaths | src/main/java/com/deadside/bot/parsers/fixes/PathFixIntegration.java:37-90 | a null repository gives 0 and changes nothing; otherwise every gathered server is fixed under its own guild, restricted ones are never changed, and the count is the number of servers fixed |
| Extensions.ProcessPath | src/main/java/com/deadside/bot/parsers/fixes/ParserExtensions.java:57-74 | the server is saved exactly when the resolved path is non-null and differs; the result is the original unless it was saved; the field changes only to that resolved path |
| Extensions.ResolveAgainSameCurrent | src/main/java/com/deadside/bot/parsers/fixes/ParserExtensions.java:57-61 | resolving again from an unchanged directory, with the updated cache, gives the same path |
| Extensions.ProcessAgainIsStable | src/main/java/com/deadside/bot/parsers/fixes/ParserExtensions.java:50-75 | a second call with the first call's answer changes nothing and saves nothing |
| Extensions.ParserExtensions.constructor | src/main/java/com/deadside/bot/parsers/fixes/ParserExtensions.java:18-22 | the extensions start uninitialised, with no repository or connector |
| Extensions.ParserExtensions.Initialize | src/main/java/com/deadside/bot/parsers/fixes/ParserExtensions.java:29-42 | only the first call sets the repository and the connector; later calls change nothing |
| Extensions.ParserExtensions.ProcessCsvPath | src/main/java/com/deadside/bot/parsers/fixes/ParserExtensions.java:50-75 | before initialisation, or with a null server, the original comes back and nothing changes; otherwise as ProcessPath over the CSV resolution |
| Extensions.ParserExtensions.ProcessLogPath | src/main/java/com/deadside/bot/parsers/fixes/ParserExtensions.java:83-108 | the same over the log resolution |
| CsvFix.Inc | src/main/java/com/deadside/bot/parsers/fixes/CsvParsingFix.java:133-134 | the increment stays in the Java int range |
| CsvFix.IncInRange | src/main/java/com/deadside/bot/parsers/fixes/CsvParsingFix.java:133-134 | below the maximum it adds one; at the maximum it wraps to the minimum |
| CsvFix.PlayerRepository.constructor | src/main/java/com/deadside/bot/parsers/fixes/CsvParsingFix.java:105-144 | the repository starts empty |
| CsvFix.PlayerRepository.FindByNameAndServerId | src/main/java/com/deadside/bot/parsers/fixes/CsvParsingFix.java:110-124 | a player is found exactly when one is stored under that name and server id, and it is that document |
| CsvFix.PlayerRepository.Save | src/main/java/com/deadside/bot/parsers/fixes/CsvParsingFix.java:134-138 | save replaces the document with that key or adds it at the end |
| CsvFix.PlayerRepository.FindAll | src/main/java/com/deadside/bot/parsers/fixes/CsvParsingFix.java:157-158 | every document, in the repository's order |
| CsvFix.UpdateServerCsvPath | src/main/java/com/deadside/bot/parsers/fixes/CsvParsingFix.java:37-60 | a null server throws (the catch block's `server.getName()` throws again, so the exception escapes) and changes nothing; otherwise a null or empty path returns false and changes nothing, and any other path becomes exactly the CSV directory, the log directory is kept, the path is recorded under "csv", and the result is true |
| CsvFix.UpdatedPathIsRecommended | src/main/java/com/deadside/bot/parsers/fixes/CsvParsingFix.java:45-54 | after an update the path is the last CSV recommendation for that server |
| CsvFix.ParseDeathLine | src/main/java/com/deadside/bot/parsers/fixes/CsvParsingFix.java:71-85 | a null or empty line, or one with fewer than three comma fields once trailing empty fields are dropped, gives nothing; otherwise the trimmed fields 0, 1 and 2 |
| CsvFix.TrimmedIsFixed | src/main/java/com/deadside/bot/parsers/fixes/CsvParsingFix.java:83-85 | trimming a trimmed field is the identity |
| CsvFix.SplitOnField | src/main/java/com/deadside/bot/parsers/fixes/CsvParsingFix.java:76 | splitting peels off a leading field that has no separator |
| CsvFix.SplitOnNoSep | src/main/java/com/deadside/bot/parsers/fixes/CsvParsingFix.java:76 | a string without separators is one field |
| CsvFix.SplitThree | src/main/java/com/deadside/bot/parsers/fixes/CsvParsingFix.java:76 | "a,b,c" with comma-free parts splits into exactly a, b and c |
| CsvFix.ParseFormatRoundTrip | src/main/java/com/deadside/bot/parsers/fixes/CsvParsingFix.java:71-85 | writing an event as "killer,victim,weapon" and parsing it returns the event, for trimmed comma-free names and a non-empty weapon |
| CsvFix.TrailingEmptyFieldRejected | src/main/java/com/deadside/bot/parsers/fixes/CsvParsingFix.java:75-79 | "a,b,," is rejected: split drops the trailing empty fields, leaving fewer than three |
| CsvFix.FoundOrNew | src/main/java/com/deadside/bot/parsers/fixes/CsvParsingFix.java:110-126 | an existing player, or a new one with 0 kills, 0 deaths and the server's id and guild |
| CsvFix.KillCounted | src/main/java/com/deadside/bot/parsers/fixes/CsvParsingFix.java:109-138 | a kill between two players adds one kill to the killer and one death to the victim, and touches no one else |
| CsvFix.SelfKillOnlyDeaths | src/main/java/com/deadside/bot/parsers/fixes/CsvParsingFix.java:109-138 | a self-kill keeps only the death, because the victim copy is saved last |
| CsvFix.UpdatePlayerStats | src/main/java/com/deadside/bot/parsers/fixes/CsvParsingFix.java:105-144 | a null server changes nothing; otherwise the documents become the killer copy and then the victim copy, saved in that order |
| CsvFix.ProcessDeathLogLineFixed | src/main/java/com/deadside/bot/parsers/fixes/CsvParsingFix.java:69-95 | the result is true exactly when the line parses; an unparsed line changes no stats; a parsed one updates the stats of its killer and victim |
| CsvFix.Clamp | src/main/java/com/deadside/bot/parsers/fixes/CsvParsingFix.java:160-169 | negative counters become 0, others are kept, and the identity fields do not change |
| CsvFix.Fixes | src/main/java/com/deadside/bot/parsers/fixes/CsvParsingFix.java:160-169 | a player counts at most two fixes, and none exactly when both counters are non-negative |
| CsvFix.TotalFixesPrefix | src/main/java/com/deadside/bot/parsers/fixes/CsvParsingFix.java:159-170 | helper for the loop invariant of `ClampAll`: the running count over a prefix grows by the next player's fixes (the substantive property is `TotalFixesZero`) |
| CsvFix.TotalFixesZero | src/main/java/com/deadside/bot/parsers/fixes/CsvParsingFix.java:159-170 | the count is zero exactly when no player has a negative counter |
| CsvFix.ClampIdempotent | src/main/java/com/deadside/bot/parsers/fixes/CsvParsingFix.java:160-169 | clamping a clamped player changes nothing, so a second validation finds nothing to fix |
| CsvFix.ClampAndSave | src/main/java/com/deadside/bot/parsers/fixes/CsvParsingFix.java:159-170 | one step saves the clamped player back and counts its fixes |
| CsvFix.ClampedPrefix | src/main/java/com/deadside/bot/parsers/fixes/CsvParsingFix.java:159-170 | clamping the next listed player extends the clamped prefix by one |
| CsvFix.ClampAll | src/main/java/com/deadside/bot/parsers/fixes/CsvParsingFix.java:159-170 | every listed player is stored clamped, and the count is the total number of fixes |
| CsvFix.ValidateAndSyncStats | src/main/java/com/deadside/bot/parsers/fixes/CsvParsingFix.java:151-187 | a null repository gives false; otherwise every player is stored clamped, nobody is added or removed, and the count of clamped fields is returned |
| LogFix.UpdateServerLogPath | src/main/java/com/deadside/bot/parsers/fixes/LogParserFix.java:31-54 | a null server throws (the catch block's `server.getName()` throws again, so the exception escapes) and changes nothing; otherwise a null or empty path returns false and changes nothing, and any other path becomes exactly the log directory, the CSV directory is kept, the path is recorded under "log", and the result is true |
| LogFix.UpdatedLogPathIsRecommended | src/main/java/com/deadside/bot/parsers/fixes/LogParserFix.java:39-48 | after an update the path is the last log recommendation for that server, and the CSV recommendations are unchanged |
| GuildIsolation.SetContext | src/main/java/com/deadside/bot/utils/GuildIsolationManager.java:46-57 | a null guild leaves the context as it is; otherwise guild and user become the given values; a user never remains set without a guild |
| GuildIsolation.Restored | src/main/java/com/deadside/bot/utils/GuildIsolationManager.java:97-114 | the restored context is well formed, and it is the saved one when that was |
| GuildIsolation.GuildIsolationManager.constructor | src/main/java/com/deadside/bot/utils/GuildIsolationManager.java:26-28 | both slots start empty |
| GuildIsolation.GuildIsolationManager.SetContextSlots | src/main/java/com/deadside/bot/utils/GuildIsolationManager.java:46-57 | the slots become SetContext of the old context, and the invariant is kept |
| GuildIsolation.GuildIsolationManager.GetGuildId | src/main/java/com/deadside/bot/utils/GuildIsolationManager.java:63-65 | returns the guild slot; with no guild set, no user is set either |
| GuildIsolation.GuildIsolationManager.GetUserId | src/main/java/com/deadside/bot/utils/GuildIsolationManager.java:71-73 | a user id is present only when a guild id is |
| GuildIsolation.GuildIsolationManager.ClearContext | src/main/java/com/deadside/bot/utils/GuildIsolationManager.java:78-83 | both guild and user become absent |
| GuildIsolation.GuildIsolationManager.WithContext | src/main/java/com/deadside/bot/utils/GuildIsolationManager.java:91-115 | a null guild does not run the action and changes nothing; otherwise the previous context is restored, or cleared when there was no guild, whatever the action did |
| GuildIsolation.GuildIsolationManager.IsCurrentGuild | src/main/java/com/deadside/bot/utils/GuildIsolationManager.java:122-129 | false for null; otherwise true exactly when the current guild is set and equals the argument |
| ParserValidator.FallbackLogPath | src/main/java/com/deadside/bot/parsers/fixes/DeadsideParserValidator.java:238-249 | the fallback path always passes the `/Logs/Deadside.log` layout test, and its server segment has no whitespace when it comes from the name |
| ParserValidator.GetServerLogPath | src/main/java/com/deadside/bot/parsers/fixes/DeadsideParserValidator.java:229-250 | the result always ends with `/Deadside.log`; a configured directory that passes the log check gets `/Deadside.log` appended; otherwise it is the fallback path, which passes the layout test |
| ParserValidator.CsvStructureImpliesValid | src/main/java/com/deadside/bot/parsers/fixes/DeadsideParserValidator.java:148-150 | a path that passes the validator's CSV layout test also passes the resolver's CSV shape check |
| ParserValidator.ValidCsvPathMayLackStructure | src/main/java/com/deadside/bot/parsers/fixes/DeadsideParserValidator.java:148-150 | the converse fails: `/actual/deathlogs` passes the shape check but not the layout test |
| ParserValidator.ConfiguredLogsDirectoryPasses | src/main/java/com/deadside/bot/parsers/fixes/DeadsideParserValidator.java:229-235 | a configured directory ending in `/Logs` gives a path that passes the layout test |
| ParserValidator.ConfiguredBackslashLogsFails | src/main/java/com/deadside/bot/parsers/fixes/DeadsideParserValidator.java:229-235 | a configured `\Logs` directory is kept, but the path built from it mixes separators and fails the layout test |
| ParserValidator.ValidateCsvFilePaths | src/main/java/com/deadside/bot/parsers/fixes/DeadsideParserValidator.java:119-174 | the check passes exactly when there is no server, or when the first server has a CSV directory; it tests that directory, and the layout result implies the shape check |
| ParserValidator.ValidateLogFilePaths | src/main/java/com/deadside/bot/parsers/fixes/DeadsideParserValidator.java:179-224 | the check always passes; it tests the first server's log file path, which ends with `/Deadside.log` and follows the layout whenever the fallback was used |

## Left out

- The JSch transport is not modelled: `connect`, `openChannel`, `closeChannel`, `disconnect`, `channel.cd`/`ls` and `testConnection` (EnhancedSftpConnector.java:33-67 and 634-661). The remote account is an immutable map from directory to listing, and a missing key stands for a failed `cd` or `ls`. Sessions are a ghost counter that each search returns to its starting value.
- Remote probes the code calls but does not define are uninterpreted function fields of `Connector` and `PathValidator`. These are `testConnection(server, path)`, `SftpPathUtils.findCsvPath`/`findLogPath`, the base connector's `findDeathlogFiles`/`findLogFile`, and `validateCsvPath`/`validateLogPath`. They are modelled as never throwing, and the list they return is never null.
- `GameServer`, `GameServerRepository` and `PlayerRepository` are not part of this model. `Domain` and `CsvFix` hold stand-ins: a class with the two mutable directories, a restricted flag and the identity fields, plus repositories that log what is saved. A server's name is taken to be non-null.
- The logging through slf4j, and the text of error messages, are not modelled. A caught exception is modelled by its effect: the value returned and the state left behind. An exception that escapes a method (a null server in updateServerCsvPath and updateServerLogPath) is modelled as the result `Thrown`; which exception it is, is not.
- Concurrency is not modelled: `ConcurrentHashMap`, the synchronized singletons and `ThreadLocal`. Each static field is a field of one instance, and `GuildIsolationManager` holds one thread's two slots.
- ParserPathTracker.recordPath is private, so the hooks that call it are modelled with `recordSuccessfulPath` (ParserPathTracker.java:54-56), which forwards to it.
- CsvParsingFix.resolveServerCsvPath and LogParserFix.resolveServerLogPath are one-line forwards to the lookup oracles, modelled by `Domain.FindPath` and `LogFix.ResolveServerLogPath`.
- The static boolean `DirectPathResolutionFix.fixServerPaths(server, connector)` that the wrapper and PathIsolationFix call is not in the shown code. It is modelled as the `pathsFixed` flag of the map-returning `fixServerPaths` (`DirectResolution.FixServerPathsFlag`), and `DirectPathResolutionFix.initialize` is likewise absent.
- CsvFix.Inc: `Player` is not part of this model. The kills and deaths counters are taken to be Java `int` fields, so the increment wraps at 2^31 - 1.
- JavaStrings.EqualsIgnoreCase: it folds letter case as `String.equalsIgnoreCase` does only when one of the two strings is ASCII. Every call here compares with the literals "csv" or "log". Non-ASCII letters that fold onto each other, such as 'É' and 'é', are not matched.
- JavaStrings.ParseLong: the decimal digits it accepts are those of Unicode 15 in the Basic Multilingual Plane. An older Java runtime knows fewer digit blocks.
- CsvFix: the float K/D ratio of `validateAndSyncStats` (CsvParsingFix.java:172-174) is not modelled. Players are keyed by (name, serverId), as `findByNameAndServerId` looks them up.
- Extensions.ParserExtensions.IsInitialized is a plain read of the flag, so its contract lives in the constructor and in `Initialize`.
- PathIsolation.FixEach: a flag equals the fix's own result, and the new directories and the tracker are stated, only when no server is listed twice. A server listed twice is fixed twice, and the model does not state what its flags, directories or records then are.
- PathIsolation.FixGuildServerPaths: likewise, the new directories and the tracker are stated only for a guild whose servers are listed once each.
- FixIntegration.FixEachServer: the "flag exactly when the directories changed" part is likewise stated only for servers listed once.
- CandidatePaths.AlternativeLogPaths: the log candidates can repeat, so the list is not duplicate-free. The contract states instead that each appended path is new (see `LogTemplatesMayRepeat`).
- ParserValidator: the guild context that `validateCsvFilePaths`/`validateLogFilePaths` set and clear while they gather the servers is not modelled, and both functions take the gathered list. The file listing and log reading in those checks only log what they find and are not modelled.
- The stub checks of DeadsideParserValidator, which always return true, and its `Pattern` regexes, which are never applied, are not modelled. Neither is `StatValidationFix`.
- The Discord and start-up glue is not modelled. This covers `PathFixCommand`, `PathRepairCommand`, `EmbedThemes`, `ParserPathSystemIntegrationHook`, `DeadsidePathFix`, `BotParserIntegration`, `ParserIsolationIntegration` and `ParserFixIntegration`. These are commands, colours and registration wiring around the modelled core.
- The start-up classes `ParserPathBootComponent`, `DeadsideParserFixEntrypoint`, `ParserIntegrationModule` and `ParserPathConfigurationLoader` are not modelled. They only construct objects, start a thread, or call methods that are not part of this model.
- `EnhancedLogParser` and `DeadsideLogParser` are not modelled. The first forwards to a manager and a `processLogs` method that are not part of this model, and the second is only a constructor.
- DeadsideParserPathRegistry.initialize (DeadsideParserPathRegistry.java:59-72) is not modelled. It does nothing and returns true.
- RepairHook.ParserPathRepairHook.RecordSuccessfulCsvPath and RecordSuccessfulLogPath: with no connector the model skips the lookup and reports that nothing was probed. The source would still pass the null connector on to the lookup. Nothing is stored in either case.
- The parsers behind `ParserPathWrapper` are uninterpreted functions of the server's identity and directories.

## Findings

| source | as written | input that shows it | evidently intended | confidence | as-written member | corrected member |
|---|---|---|---|---|---|---|
| src/main/java/com/deadside/bot/sftp/SftpPathUtils.java:104-109 | the retry runs only when the looked-up directory differs from `getResolvedDeathlogDirectory`, whose repair hook already returns that same looked-up directory | repair enabled, a server with no CSV directory, and a lookup that names "p", where "p" holds a `.csv` file: the written search returns no files and keeps the unset directory | retry whenever the looked-up directory differs from the configured one | not executed | PathUtils.DeathlogRetrySkipped | PathUtils.DeathlogLookupCorrected |
| src/main/java/com/deadside/bot/sftp/SftpPathUtils.java:144-149 | the log retry is compared in the same way with `getResolvedLogDirectory` | the same server, with "p" holding `Deadside.log`: the written search returns null | retry whenever the looked-up log directory differs from the configured one | not executed | PathUtils.LogRetrySkipped | PathUtils.LogFileLookupCorrected |
