/**
 * LogParserFix: looking up a server's log directory and setting it.
 */
module LogFix {
  import opened Wrappers
  import opened JavaStrings
  import opened Domain
  import opened PathTracker
  import opened IntegrationHooks

  /** resolveServerLogPath: the connector's log-directory lookup on the server's current directory. */
  function ResolveServerLogPath(server: GameServer, connector: Connector): (r: Option<string>)
    reads server
  {
    connector.findLogPath(server.ident, server.logDirectory)
  }

  /**
   * updateServerLogPath: a null server throws, since both the warning for an
   * empty path and the directory read dereference it, and so does the
   * catch block's own name lookup, so the exception escapes with nothing
   * changed. Otherwise a null or empty path returns false and changes
   * nothing, and any other path becomes exactly the log directory, is recorded
   * under "log", and true is returned.
   */
  method UpdateServerLogPath(server: GameServer?, path: Option<string>, tracker: ParserPathTracker) returns (r: Outcome<bool>)
    modifies server, tracker
    ensures r.Thrown? <==> server == null
    ensures r.Thrown? ==> unchanged(tracker)
    ensures r.Returned? ==> (r.value <==> !NullOrEmpty(path))
    ensures r == Returned(false) ==> unchanged(tracker) && unchanged(server)
    ensures r == Returned(true) ==> server.logDirectory == path && server.deathlogsDirectory == old(server.deathlogsDirectory)
    ensures r == Returned(true) ==> tracker.serverPathCache == Recorded(old(tracker.serverPathCache), server, CATEGORY_LOG, path)
  {
    if server == null {
      return Thrown;
    }
    if NullOrEmpty(path) {
      return Returned(false);
    }
    server.logDirectory := path;
    RecordSuccessfulLogPath(tracker, server, path);
    return Returned(true);
  }

  /**
   * After a successful update the path is the last one recommended for
   * that server's log directory, and its CSV recommendations are as before.
   */
  lemma UpdatedLogPathIsRecommended(cache: PathCache, server: GameServer, path: string)
    requires path != ""
    ensures var after := Recorded(cache, server, CATEGORY_LOG, Some(path));
      Lookup(after, TrackerKey(server.ident), CATEGORY_LOG) == Lookup(cache, TrackerKey(server.ident), CATEGORY_LOG) + [path]
      && Lookup(after, TrackerKey(server.ident), CATEGORY_CSV) == Lookup(cache, TrackerKey(server.ident), CATEGORY_CSV)
  {
    RecordThenRecommend(cache, server, CATEGORY_LOG, path, CATEGORY_CSV);
  }
}
