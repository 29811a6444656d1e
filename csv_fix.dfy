/**
 * CsvParsingFix: setting a server's CSV directory, parsing one death-log
 * line into killer, victim and weapon, the kill/death bookkeeping that
 * follows, and the clamp of negative counters.
 */
module CsvFix {
  import opened Wrappers
  import opened JavaStrings
  import opened Lists
  import opened Domain
  import opened PathTracker
  import opened IntegrationHooks

  // ---------------------------------------------------------------------
  // Java int arithmetic for the counters.

  const INT_MIN: int := -0x8000_0000
  const INT_MAX: int := 0x7FFF_FFFF

  /** `x + 1` on a Java int: wraps from INT_MAX to INT_MIN. */
  function Inc(x: int): (r: int)
    ensures INT_MIN <= r <= INT_MAX
  {
    ((x + 1 - INT_MIN) % 0x1_0000_0000) + INT_MIN
  }

  /** Below INT_MAX the increment is plain addition; at INT_MAX it wraps to a negative count. */
  lemma IncInRange(x: int)
    requires INT_MIN <= x <= INT_MAX
    ensures x < INT_MAX ==> Inc(x) == x + 1
    ensures x == INT_MAX ==> Inc(x) == INT_MIN
  {
  }

  // ---------------------------------------------------------------------
  // Players and their repository.

  /** A player document as the repository stores it (the K/D ratio is not modelled). */
  datatype Player = Player(name: string, serverId: Option<string>, guildId: int, kills: int, deaths: int)

  /** findByNameAndServerId looks players up by name and server id. */
  type PlayerKey = (string, Option<string>)

  function KeyOf(p: Player): PlayerKey
  {
    (p.name, p.serverId)
  }

  /**
   * The player repository: documents by (name, serverId), and the order
   * findAll lists them in. save replaces the document with that key or
   * adds it at the end.
   */
  class PlayerRepository {
    var players: map<PlayerKey, Player>
    var order: seq<PlayerKey>

    ghost predicate Valid()
      reads this
    {
      NoDup(order)
      && (forall k :: k in order <==> k in players)
      && (forall k :: k in players ==> KeyOf(players[k]) == k)
    }

    constructor ()
      ensures Valid() && players == map[] && order == []
    {
      players := map[];
      order := [];
    }

    function FindByNameAndServerId(name: string, serverId: Option<string>): (r: Option<Player>)
      reads this
      ensures r.Some? <==> (name, serverId) in players
      ensures r.Some? ==> r.value == players[(name, serverId)]
    {
      if (name, serverId) in players then Some(players[(name, serverId)]) else None
    }

    method Save(p: Player)
      requires Valid()
      modifies this
      ensures Valid()
      ensures players == old(players)[KeyOf(p) := p]
      ensures order == old(order) + (if KeyOf(p) in old(players) then [] else [KeyOf(p)])
    {
      if KeyOf(p) !in players {
        order := order + [KeyOf(p)];
      }
      players := players[KeyOf(p) := p];
    }

    /** findAll: every document, in the repository's order. */
    function FindAll(): (r: seq<Player>)
      reads this
      requires Valid()
      ensures |r| == |order|
      ensures forall i :: 0 <= i < |order| ==> r[i] == players[order[i]]
    {
      var o, m := order, players;
      seq(|o|, i requires 0 <= i < |o| && o[i] in m => m[o[i]])
    }
  }

  // ---------------------------------------------------------------------
  // updateServerCsvPath.

  /**
   * updateServerCsvPath: a null server throws, since both the warning for an
   * empty path and the directory read dereference it, and so does the
   * catch block's own name lookup, so the exception escapes with nothing
   * changed. Otherwise a null or empty path returns false and changes
   * nothing, and any other path becomes exactly the directory, is recorded
   * under "csv", and true is returned.
   */
  method UpdateServerCsvPath(server: GameServer?, path: Option<string>, tracker: ParserPathTracker) returns (r: Outcome<bool>)
    modifies server, tracker
    ensures r.Thrown? <==> server == null
    ensures r.Thrown? ==> unchanged(tracker)
    ensures r.Returned? ==> (r.value <==> !NullOrEmpty(path))
    ensures r == Returned(false) ==> unchanged(tracker) && unchanged(server)
    ensures r == Returned(true) ==> server.deathlogsDirectory == path && server.logDirectory == old(server.logDirectory)
    ensures r == Returned(true) ==> tracker.serverPathCache == Recorded(old(tracker.serverPathCache), server, CATEGORY_CSV, path)
  {
    if server == null {
      return Thrown;
    }
    if NullOrEmpty(path) {
      return Returned(false);
    }
    server.deathlogsDirectory := path;
    RecordSuccessfulCsvPath(tracker, server, path);
    return Returned(true);
  }

  /** After a successful update the path is the last one recommended for that server's CSV directory. */
  lemma UpdatedPathIsRecommended(cache: PathCache, server: GameServer, path: string)
    requires path != ""
    ensures var after := Recorded(cache, server, CATEGORY_CSV, Some(path));
      |Lookup(after, TrackerKey(server.ident), CATEGORY_CSV)| > 0
      && Lookup(after, TrackerKey(server.ident), CATEGORY_CSV)[|Lookup(after, TrackerKey(server.ident), CATEGORY_CSV)| - 1] == path
  {
  }

  // ---------------------------------------------------------------------
  // processDeathLogLineFixed.

  datatype DeathEvent = DeathEvent(killer: string, victim: string, weapon: string)

  /**
   * The parse of one line: nothing for a null or empty line or one with
   * fewer than three comma fields (trailing empty fields dropped);
   * otherwise the trimmed fields 0, 1 and 2.
   */
  function ParseDeathLine(line: Option<string>): (r: Option<DeathEvent>)
    ensures NullOrEmpty(line) ==> r.None?
    ensures !NullOrEmpty(line) ==> (r.Some? <==> |JavaSplit(line.value, ',')| >= 3)
    ensures r.Some? ==>
      var parts := JavaSplit(line.value, ',');
      r.value == DeathEvent(Trim(parts[0]), Trim(parts[1]), Trim(parts[2]))
  {
    if NullOrEmpty(line) then None
    else
      var parts := JavaSplit(line.value, ',');
      if |parts| < 3 then None
      else Some(DeathEvent(Trim(parts[0]), Trim(parts[1]), Trim(parts[2])))
  }

  /** A string already trimmed: empty, or starting and ending with a printable character. */
  predicate Trimmed(s: string)
  {
    |s| == 0 || (s[0] > ' ' && s[|s| - 1] > ' ')
  }

  lemma TrimmedIsFixed(s: string)
    requires Trimmed(s)
    ensures Trim(s) == s
  {
  }

  /** Splitting after a field without separators peels that field off. */
  lemma SplitOnField(a: string, sep: char, b: string)
    requires sep !in a
    ensures SplitOn(a + [sep] + b, sep) == [a] + SplitOn(b, sep)
    decreases |a|
  {
    if |a| == 0 {
      assert a + [sep] + b == [sep] + b;
      assert ([sep] + b)[1..] == b;
    } else {
      assert (a + [sep] + b)[1..] == a[1..] + [sep] + b;
      SplitOnField(a[1..], sep, b);
      assert [a[0]] + a[1..] == a;
    }
  }

  /** A string without separators is one field. */
  lemma SplitOnNoSep(a: string, sep: char)
    requires sep !in a
    ensures SplitOn(a, sep) == [a]
    decreases |a|
  {
    if |a| > 0 {
      SplitOnNoSep(a[1..], sep);
      assert [a[0]] + a[1..] == a;
    }
  }

  /** The three comma-free fields of "a,b,c" are exactly a, b and c. */
  lemma SplitThree(a: string, b: string, c: string)
    requires ',' !in a && ',' !in b && ',' !in c
    ensures SplitOn(a + "," + b + "," + c, ',') == [a, b, c]
  {
    assert a + "," + b + "," + c == a + [','] + (b + [','] + c);
    SplitOnField(a, ',', b + [','] + c);
    SplitOnField(b, ',', c);
    SplitOnNoSep(c, ',');
  }

  /**
   * Writing an event as "killer,victim,weapon" and parsing it gives the
   * event back, for trimmed comma-free names and a non-empty weapon (an
   * empty weapon would be a dropped trailing field).
   */
  lemma ParseFormatRoundTrip(e: DeathEvent)
    requires ',' !in e.killer && ',' !in e.victim && ',' !in e.weapon
    requires Trimmed(e.killer) && Trimmed(e.victim) && Trimmed(e.weapon)
    requires e.weapon != ""
    ensures ParseDeathLine(Some(e.killer + "," + e.victim + "," + e.weapon)) == Some(e)
  {
    var line := e.killer + "," + e.victim + "," + e.weapon;
    SplitThree(e.killer, e.victim, e.weapon);
    assert line[|e.killer|] == ',';
    var fields := [e.killer, e.victim, e.weapon];
    assert DropTrailingEmpty(fields) == fields;
    assert JavaSplit(line, ',') == fields;
    TrimmedIsFixed(e.killer);
    TrimmedIsFixed(e.victim);
    TrimmedIsFixed(e.weapon);
    assert !NullOrEmpty(Some(line));
    var r := ParseDeathLine(Some(line));
    assert r == Some(DeathEvent(Trim(fields[0]), Trim(fields[1]), Trim(fields[2])));
  }

  /**
   * A line whose third field is empty and last, such as "a,b,,", is
   * rejected: the split drops trailing empty fields and leaves only two.
   */
  lemma TrailingEmptyFieldRejected()
    ensures ParseDeathLine(Some("a,b,,")).None?
  {
    SplitDropsTrailingEmptyFields();
  }

  /** An existing player, or the fresh 0/0 record the code creates for that name on this server. */
  function FoundOrNew(players: map<PlayerKey, Player>, name: string, s: Identity): (p: Player)
    ensures (name, s.serverId) in players ==> p == players[(name, s.serverId)]
    ensures (name, s.serverId) !in players ==> p == Player(name, s.serverId, s.guildId, 0, 0)
  {
    if (name, s.serverId) in players then players[(name, s.serverId)] else Player(name, s.serverId, s.guildId, 0, 0)
  }

  /**
   * The documents after updatePlayerStats: both players are read first,
   * then the killer copy (kills + 1) and the victim copy (deaths + 1) are
   * saved in that order.
   */
  function StatsAfter(players: map<PlayerKey, Player>, s: Identity, killer: string, victim: string): map<PlayerKey, Player>
  {
    var k := FoundOrNew(players, killer, s);
    var v := FoundOrNew(players, victim, s);
    players[KeyOf(k) := k.(kills := Inc(k.kills))][KeyOf(v) := v.(deaths := Inc(v.deaths))]
  }

  /** A kill between two players adds one kill to the killer and one death to the victim, and touches no one else. */
  lemma KillCounted(players: map<PlayerKey, Player>, s: Identity, killer: string, victim: string, other: PlayerKey)
    requires forall k :: k in players ==> KeyOf(players[k]) == k
    requires killer != victim
    ensures var after := StatsAfter(players, s, killer, victim);
      var k := FoundOrNew(players, killer, s);
      var v := FoundOrNew(players, victim, s);
      after[(killer, s.serverId)] == k.(kills := Inc(k.kills))
      && after[(victim, s.serverId)] == v.(deaths := Inc(v.deaths))
      && after.Keys == players.Keys + {(killer, s.serverId), (victim, s.serverId)}
      && (other != (killer, s.serverId) && other != (victim, s.serverId) && other in players ==> after[other] == players[other])
  {
  }

  /** A self-kill keeps only the death: the victim copy, read before the killer copy was saved, is written last. */
  lemma SelfKillOnlyDeaths(players: map<PlayerKey, Player>, s: Identity, name: string)
    requires forall k :: k in players ==> KeyOf(players[k]) == k
    ensures var after := StatsAfter(players, s, name, name);
      var p := FoundOrNew(players, name, s);
      after[(name, s.serverId)] == p.(deaths := Inc(p.deaths))
      && after[(name, s.serverId)].kills == p.kills
  {
  }

  /**
   * updatePlayerStats: a null server or repository throws before anything
   * is saved, and the catch swallows it.
   */
  method UpdatePlayerStats(server: GameServer?, killer: string, victim: string, weapon: string, repository: PlayerRepository?)
    requires repository != null ==> repository.Valid()
    modifies repository
    ensures repository != null ==> repository.Valid()
    ensures server == null && repository != null ==> repository.players == old(repository.players)
    ensures server != null && repository != null ==>
      repository.players == StatsAfter(old(repository.players), server.ident, killer, victim)
  {
    if server == null || repository == null {
      return;
    }
    var killerPlayer := FoundOrNew(repository.players, killer, server.ident);
    var victimPlayer := FoundOrNew(repository.players, victim, server.ident);
    killerPlayer := killerPlayer.(kills := Inc(killerPlayer.kills));
    victimPlayer := victimPlayer.(deaths := Inc(victimPlayer.deaths));
    repository.Save(killerPlayer);
    repository.Save(victimPlayer);
  }

  /**
   * processDeathLogLineFixed: false with no stat change for a line that
   * does not parse; otherwise the stats are updated (when the server and
   * the repository are there) and the result is true.
   */
  method ProcessDeathLogLineFixed(server: GameServer?, line: Option<string>, repository: PlayerRepository?) returns (ok: bool)
    requires repository != null ==> repository.Valid()
    modifies repository
    ensures repository != null ==> repository.Valid()
    ensures ok <==> ParseDeathLine(line).Some?
    ensures repository != null && (!ok || server == null) ==> repository.players == old(repository.players)
    ensures repository != null && ok && server != null ==>
      var e := ParseDeathLine(line).value;
      repository.players == StatsAfter(old(repository.players), server.ident, e.killer, e.victim)
  {
    if NullOrEmpty(line) {
      return false;
    }
    var parts := JavaSplit(line.value, ',');
    if |parts| < 3 {
      return false;
    }
    var killer := Trim(parts[0]);
    var victim := Trim(parts[1]);
    var weapon := if |parts| > 2 then Trim(parts[2]) else "Unknown";
    UpdatePlayerStats(server, killer, victim, weapon, repository);
    return true;
  }

  // ---------------------------------------------------------------------
  // validateAndSyncStats (the integer part).

  /** A negative counter is set to 0; others are kept. */
  function Clamp(p: Player): (r: Player)
    ensures r.kills >= 0 && r.deaths >= 0
    ensures r.name == p.name && r.serverId == p.serverId && r.guildId == p.guildId
    ensures p.kills >= 0 ==> r.kills == p.kills
    ensures p.deaths >= 0 ==> r.deaths == p.deaths
  {
    p.(kills := if p.kills < 0 then 0 else p.kills, deaths := if p.deaths < 0 then 0 else p.deaths)
  }

  /** The number of clamped fields of one player. */
  function Fixes(p: Player): (n: nat)
    ensures n <= 2
    ensures n == 0 <==> p.kills >= 0 && p.deaths >= 0
  {
    (if p.kills < 0 then 1 else 0) + (if p.deaths < 0 then 1 else 0)
  }

  /** The fixes counted over a listing. */
  function TotalFixes(ps: seq<Player>): nat
  {
    if |ps| == 0 then 0 else TotalFixes(ps[..|ps| - 1]) + Fixes(ps[|ps| - 1])
  }

  lemma TotalFixesPrefix(ps: seq<Player>, i: nat)
    requires i < |ps|
    ensures TotalFixes(ps[..i + 1]) == TotalFixes(ps[..i]) + Fixes(ps[i])
  {
    assert ps[..i + 1][..i] == ps[..i];
  }

  /** The count is zero exactly when no player has a negative counter. */
  lemma {:induction false} TotalFixesZero(ps: seq<Player>)
    ensures TotalFixes(ps) == 0 <==> forall i :: 0 <= i < |ps| ==> Fixes(ps[i]) == 0
  {
    if |ps| > 0 {
      TotalFixesZero(ps[..|ps| - 1]);
      assert forall i :: 0 <= i < |ps| - 1 ==> ps[..|ps| - 1][i] == ps[i];
    }
  }

  /** Clamping, applied to a clamped player, changes nothing: a second validation finds nothing to fix. */
  lemma ClampIdempotent(p: Player)
    ensures Clamp(Clamp(p)) == Clamp(p) && Fixes(Clamp(p)) == 0
  {
  }

  /** One step of the loop: clamp one listed player and save it back, counting the clamped fields. */
  method ClampAndSave(repository: PlayerRepository, p: Player) returns (n: nat)
    requires repository.Valid() && KeyOf(p) in repository.players
    modifies repository
    ensures repository.Valid() && repository.order == old(repository.order)
    ensures repository.players == old(repository.players)[KeyOf(p) := Clamp(p)]
    ensures n == Fixes(p)
  {
    var player := p;
    n := 0;
    if player.kills < 0 {
      player := player.(kills := 0);
      n := n + 1;
    }
    if player.deaths < 0 {
      player := player.(deaths := 0);
      n := n + 1;
    }
    repository.Save(player);
  }

  /** Clamping the next listed player extends the clamped prefix by one. */
  lemma ClampedPrefix(m: map<PlayerKey, Player>, order: seq<PlayerKey>, players: seq<Player>, i: nat)
    requires i < |players| == |order| && NoDup(order)
    requires forall j :: 0 <= j < |players| ==> KeyOf(players[j]) == order[j]
    requires forall j :: 0 <= j < i ==> order[j] in m && m[order[j]] == Clamp(players[j])
    ensures var m' := m[KeyOf(players[i]) := Clamp(players[i])];
      forall j :: 0 <= j < i + 1 ==> order[j] in m' && m'[order[j]] == Clamp(players[j])
  {
    forall j | 0 <= j < i
      ensures order[j] != order[i]
    {
    }
  }

  /** The loop of validateAndSyncStats over a findAll listing. */
  method ClampAll(repository: PlayerRepository, players: seq<Player>) returns (fixedCount: nat)
    requires repository.Valid() && |players| == |repository.order|
    requires forall j :: 0 <= j < |players| ==> KeyOf(players[j]) == repository.order[j]
    modifies repository
    ensures repository.Valid() && repository.order == old(repository.order)
    ensures forall j :: 0 <= j < |players| ==> repository.players[repository.order[j]] == Clamp(players[j])
    ensures fixedCount == TotalFixes(players)
  {
    ghost var order := repository.order;
    fixedCount := 0;
    var i := 0;
    while i < |players|
      invariant 0 <= i <= |players| == |order|
      invariant repository.Valid() && repository.order == order
      invariant NoDup(order) && forall j :: 0 <= j < |players| ==> KeyOf(players[j]) == order[j]
      invariant forall j :: 0 <= j < i ==> repository.players[order[j]] == Clamp(players[j])
      invariant fixedCount == TotalFixes(players[..i])
    {
      TotalFixesPrefix(players, i);
      ghost var before := repository.players;
      var n := ClampAndSave(repository, players[i]);
      ClampedPrefix(before, order, players, i);
      fixedCount := fixedCount + n;
      i := i + 1;
    }
    assert players[..i] == players;
  }

  /**
   * validateAndSyncStats: every player is clamped and saved back, and
   * fixedCount counts the clamped fields; a null repository throws at
   * findAll and the result is false. fixedCount is only logged by the
   * code; it is returned here so that it can be stated.
   */
  method ValidateAndSyncStats(repository: PlayerRepository?) returns (ok: bool, fixedCount: nat)
    requires repository != null ==> repository.Valid()
    modifies repository
    ensures ok <==> repository != null
    ensures repository == null ==> fixedCount == 0
    ensures repository != null ==>
      repository.Valid() && repository.order == old(repository.order)
      && repository.players.Keys == old(repository.players.Keys)
      && (forall k :: k in repository.players ==> repository.players[k] == Clamp(old(repository.players[k])))
      && fixedCount == TotalFixes(old(repository.FindAll()))
  {
    if repository == null {
      return false, 0;
    }
    var players := repository.FindAll();
    assert forall j :: 0 <= j < |players| ==> KeyOf(players[j]) == repository.order[j];
    fixedCount := ClampAll(repository, players);
    forall k | k in repository.players
      ensures repository.players[k] == Clamp(old(repository.players[k]))
    {
      var j :| 0 <= j < |repository.order| && repository.order[j] == k;
      assert players[j] == old(repository.players[k]);
    }
    return true, fixedCount;
  }
}
