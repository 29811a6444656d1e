/**
 * ParserIntegrationHooks: the guarded entry points through which the
 * connectors record and look up paths in the shared tracker.
 */
module IntegrationHooks {
  import opened Wrappers
  import opened JavaStrings
  import opened Domain
  import opened PathTracker

  /** The tracker after a guarded record: a null server or a null or empty path records nothing. */
  function Recorded(cache: PathCache, server: GameServer?, category: string, path: Option<string>): (r: PathCache)
    ensures server == null || NullOrEmpty(path) ==> r == cache
    ensures server != null && !NullOrEmpty(path) ==>
      Lookup(r, TrackerKey(server.ident), category) == Lookup(cache, TrackerKey(server.ident), category) + [path.value]
  {
    if server == null || NullOrEmpty(path) then cache
    else Appended(cache, TrackerKey(server.ident), category, path.value)
  }

  /** recordSuccessfulCsvPath: appends a non-empty path under the "csv" category. */
  method RecordSuccessfulCsvPath(tracker: ParserPathTracker, server: GameServer?, path: Option<string>)
    modifies tracker
    ensures tracker.serverPathCache == Recorded(old(tracker.serverPathCache), server, CATEGORY_CSV, path)
  {
    if server == null || NullOrEmpty(path) {
      return;
    }
    tracker.RecordSuccessfulPath(server, Some(CATEGORY_CSV), path);
  }

  /** recordSuccessfulLogPath: appends a non-empty path under the "log" category. */
  method RecordSuccessfulLogPath(tracker: ParserPathTracker, server: GameServer?, path: Option<string>)
    modifies tracker
    ensures tracker.serverPathCache == Recorded(old(tracker.serverPathCache), server, CATEGORY_LOG, path)
  {
    if server == null || NullOrEmpty(path) {
      return;
    }
    tracker.RecordSuccessfulPath(server, Some(CATEGORY_LOG), path);
  }

  /** Record for the given kind ("csv" or "log"). */
  method RecordSuccessful(tracker: ParserPathTracker, server: GameServer?, k: Kind, path: Option<string>)
    modifies tracker
    ensures tracker.serverPathCache == Recorded(old(tracker.serverPathCache), server, KindName(k), path)
  {
    match k
    case Csv => RecordSuccessfulCsvPath(tracker, server, path);
    case Log => RecordSuccessfulLogPath(tracker, server, path);
  }

  /** getRecommendedCsvPaths: empty for a null server, else exactly the tracker's "csv" list. */
  function GetRecommendedCsvPaths(tracker: ParserPathTracker, server: GameServer?): (r: seq<string>)
    reads tracker
    ensures server == null ==> r == []
    ensures server != null ==> r == Lookup(tracker.serverPathCache, TrackerKey(server.ident), CATEGORY_CSV)
  {
    tracker.GetRecommendedPaths(server, Some(CATEGORY_CSV))
  }

  /** getRecommendedLogPaths: empty for a null server, else exactly the tracker's "log" list. */
  function GetRecommendedLogPaths(tracker: ParserPathTracker, server: GameServer?): (r: seq<string>)
    reads tracker
    ensures server == null ==> r == []
    ensures server != null ==> r == Lookup(tracker.serverPathCache, TrackerKey(server.ident), CATEGORY_LOG)
  {
    tracker.GetRecommendedPaths(server, Some(CATEGORY_LOG))
  }

  /** A recorded path is recommended afterwards, at the end of the list, for that category only. */
  lemma RecordThenRecommend(cache: PathCache, server: GameServer, category: string, path: string, category2: string)
    requires path != ""
    ensures Lookup(Recorded(cache, server, category, Some(path)), TrackerKey(server.ident), category2)
         == if category2 == category then Lookup(cache, TrackerKey(server.ident), category) + [path]
            else Lookup(cache, TrackerKey(server.ident), category2)
  {
    LookupAfterAppend(cache, TrackerKey(server.ident), category, path, TrackerKey(server.ident), category2);
  }
}
