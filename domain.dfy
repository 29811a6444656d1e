/**
 * Game servers, their repository, and the remote probes the path code
 * calls but whose implementation is not part of this model.
 */
module Domain {
  import opened Wrappers
  import opened JavaStrings

  /**
   * The fields of a game server that the path code reads and never
   * writes: the owning guild (a Java long), the database id as its
   * toString() (absent when the id is null), the game-side server id, the
   * display name and the two host names.
   */
  datatype Identity = Identity(
    guildId: int,
    id: Option<string>,
    serverId: Option<string>,
    name: string,
    host: Option<string>,
    sftpHost: Option<string>)

  /** A game server record; only its two directory fields are ever updated. */
  class GameServer {
    const ident: Identity
    /** `hasRestrictedIsolation()`: such servers must never be modified. */
    const restricted: bool
    var deathlogsDirectory: Option<string>
    var logDirectory: Option<string>

    constructor (ident: Identity, restricted: bool, deathlogs: Option<string>, logs: Option<string>)
      ensures this.ident == ident && this.restricted == restricted
      ensures deathlogsDirectory == deathlogs && logDirectory == logs
    {
      this.ident := ident;
      this.restricted := restricted;
      deathlogsDirectory := deathlogs;
      logDirectory := logs;
    }
  }

  /** The two kinds of location the code resolves: the deathlog CSV directory and the log directory. */
  datatype Kind = Csv | Log

  /** The category names the tracker and the resolver cache use ("csv", "log"). */
  function KindName(k: Kind): (r: string)
    ensures |r| == 3
    ensures k == Csv <==> r == "csv"
  {
    match k
    case Csv => "csv"
    case Log => "log"
  }

  /** The directory field of the given kind. */
  function DirectoryOf(s: GameServer, k: Kind): Option<string>
    reads s
  {
    match k
    case Csv => s.deathlogsDirectory
    case Log => s.logDirectory
  }

  /** `sftpHost` when non-empty, else `host` (which may be null). */
  function HostValue(s: Identity): (r: Option<string>)
    ensures !NullOrEmpty(s.sftpHost) ==> r == s.sftpHost
    ensures NullOrEmpty(s.sftpHost) ==> r == s.host
  {
    if NullOrEmpty(s.sftpHost) then s.host else s.sftpHost
  }

  /** The host as string concatenation prints it in candidate paths ("null" for a null host). */
  function HostOf(s: Identity): string
  {
    Render(HostValue(s))
  }

  /**
   * The server segment of candidate paths: `serverId` when non-empty,
   * else the display name with every whitespace run replaced by "_".
   */
  function ServerToken(s: Identity): (r: string)
    ensures !NullOrEmpty(s.serverId) ==> r == s.serverId.value
    ensures NullOrEmpty(s.serverId) ==> NoWhitespace(r)
    ensures NullOrEmpty(s.serverId) && NoWhitespace(s.name) ==> r == s.name
  {
    if NullOrEmpty(s.serverId) then CollapseWhitespace(s.name) else s.serverId.value
  }

  /**
   * The remote probes the code calls without their definitions being part
   * of this model, as functions of the server (and of the path or the
   * currently configured directory they are given):
   *   testConnection     SftpConnector.testConnection(server)
   *   testPath           SftpConnector.testConnection(server, path)
   *   findCsvPath        SftpPathUtils.findCsvPath(server, connector)
   *   findLogPath        SftpPathUtils.findLogPath(server, connector)
   *   findDeathlogFiles  SftpConnector.findDeathlogFiles(server)
   *   findLogFile        SftpConnector.findLogFile(server)
   */
  datatype Connector = Connector(
    testConnection: Identity -> bool,
    testPath: (Identity, string) -> bool,
    findCsvPath: (Identity, Option<string>) -> Option<string>,
    findLogPath: (Identity, Option<string>) -> Option<string>,
    findDeathlogFiles: (Identity, Option<string>) -> seq<string>,
    findLogFile: (Identity, Option<string>) -> Option<string>)

  /** SftpPathUtils.findCsvPath / findLogPath for the given kind, on the server's current directory. */
  function FindPath(c: Connector, s: GameServer, k: Kind): Option<string>
    reads s
  {
    match k
    case Csv => c.findCsvPath(s.ident, s.deathlogsDirectory)
    case Log => c.findLogPath(s.ident, s.logDirectory)
  }

  /** The remote validator used by ParserPathFinder (validateCsvPath / validateLogPath). */
  datatype PathValidator = PathValidator(
    validateCsv: (Identity, string) -> bool,
    validateLog: (Identity, string) -> bool)

  function Validate(v: PathValidator, s: Identity, k: Kind, path: string): bool
  {
    match k
    case Csv => v.validateCsv(s, path)
    case Log => v.validateLog(s, path)
  }

  /**
   * The server store: the servers of each guild and the distinct guild ids
   * are fixed for the duration of a run; `saved` and `savedBatches` log
   * every `save` and `saveAll` call in order.
   */
  class GameServerRepository {
    const byGuild: map<int, seq<GameServer>>
    const guildIds: seq<int>
    var saved: seq<GameServer>
    var savedBatches: seq<seq<GameServer>>

    constructor (byGuild: map<int, seq<GameServer>>, guildIds: seq<int>)
      ensures this.byGuild == byGuild && this.guildIds == guildIds
      ensures saved == [] && savedBatches == []
    {
      this.byGuild := byGuild;
      this.guildIds := guildIds;
      saved := [];
      savedBatches := [];
    }

    /** `findAllByGuildId`: the guild's servers, or none for an unknown guild. */
    function FindAllByGuildId(guildId: int): (r: seq<GameServer>)
      ensures guildId !in byGuild ==> r == []
    {
      if guildId in byGuild then byGuild[guildId] else []
    }

    method Save(s: GameServer)
      modifies this
      ensures saved == old(saved) + [s]
      ensures savedBatches == old(savedBatches)
    {
      saved := saved + [s];
    }

    method SaveAll(ss: seq<GameServer>)
      modifies this
      ensures savedBatches == old(savedBatches) + [ss]
      ensures saved == old(saved)
    {
      savedBatches := savedBatches + [ss];
    }
  }
}
