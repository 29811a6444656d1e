/**
 * The fixed candidate directories EnhancedSftpConnector tries for a
 * server, built from its host and server segment.
 */
module CandidatePaths {
  import opened JavaStrings
  import opened Lists
  import opened Domain

  const ACTUAL1_DEATHLOGS: string := "/actual1/deathlogs"
  const ACTUAL_DEATHLOGS: string := "/actual/deathlogs"

  /** The six CSV directories, in the order they are tried. */
  function CsvTemplates(host: string, server: string): (r: seq<string>)
    ensures |r| == 6
  {
    [ host + "_" + server + ACTUAL1_DEATHLOGS,
      host + "_" + server + ACTUAL_DEATHLOGS,
      host + "/" + server + ACTUAL1_DEATHLOGS,
      host + "/" + server + ACTUAL_DEATHLOGS,
      server + ACTUAL1_DEATHLOGS,
      server + ACTUAL_DEATHLOGS ]
  }

  /** The six log directories, in the order they are tried. */
  function LogTemplates(host: string, server: string): (r: seq<string>)
    ensures |r| == 6
  {
    [ host + "_" + server + "/Logs",
      host + "_" + server + "/Deadside/Logs",
      host + "/" + server + "/Logs",
      host + "/" + server + "/Deadside/Logs",
      server + "/Logs",
      server + "/Deadside/Logs" ]
  }

  /** getRootPath: `host + "_" + server`, the start of the recursive searches. */
  function RootPath(s: Identity): (r: string)
    ensures |r| > 0
    ensures CsvTemplates(HostOf(s), ServerToken(s))[0] == r + ACTUAL1_DEATHLOGS
    ensures LogTemplates(HostOf(s), ServerToken(s))[0] == r + "/Logs"
  {
    HostOf(s) + "_" + ServerToken(s)
  }

  /** The six CSV candidates are pairwise different for every host and server segment. */
  lemma CsvTemplatesDistinct(host: string, server: string)
    ensures NoDup(CsvTemplates(host, server))
  {
    var t := CsvTemplates(host, server);
    var n := |host| + |server|;
    assert |ACTUAL1_DEATHLOGS| == 18 && |ACTUAL_DEATHLOGS| == 17;
    assert |t[0]| == n + 19 && |t[1]| == n + 18 && |t[2]| == n + 19 && |t[3]| == n + 18;
    assert |t[4]| == |server| + 18 && |t[5]| == |server| + 17;
    assert t[0][|host|] == '_' && t[2][|host|] == '/';
    assert t[1][|host|] == '_' && t[3][|host|] == '/';
    forall i, j | 0 <= i < j < 6
      ensures t[i] != t[j]
    {
      if (i, j) == (0, 2) {
        assert t[0][|host|] != t[2][|host|];
      } else if (i, j) == (1, 3) {
        assert t[1][|host|] != t[3][|host|];
      } else if (i, j) == (1, 4) || (i, j) == (3, 4) {
        assert t[i][|t[i]| - 17] == '/';
        assert t[4][|t[4]| - 17] == 'a';
      } else {
        assert |t[i]| != |t[j]|;
      }
    }
  }

  /**
   * The six log candidates can repeat: with host "Deadside" and server
   * segment "Deadside" the third and the sixth are both
   * "Deadside/Deadside/Logs".
   */
  lemma LogTemplatesMayRepeat()
    ensures !NoDup(LogTemplates("Deadside", "Deadside"))
  {
    var t := LogTemplates("Deadside", "Deadside");
    assert t[2] == t[5];
  }

  /** getAlternativeCsvPaths: the six CSV candidates, then each recommended path not yet listed. */
  function AlternativeCsvPaths(s: Identity, recommended: seq<string>): (r: seq<string>)
    ensures |r| >= 6 && r[..6] == CsvTemplates(HostOf(s), ServerToken(s))
    ensures forall p :: p in r <==> p in CsvTemplates(HostOf(s), ServerToken(s)) || p in recommended
    ensures NoDup(r)
  {
    CsvTemplatesDistinct(HostOf(s), ServerToken(s));
    AppendAbsent(CsvTemplates(HostOf(s), ServerToken(s)), recommended)
  }

  /**
   * getAlternativeLogPaths: the six log candidates, then each recommended
   * path not yet listed; a recommended path is never listed twice.
   */
  function AlternativeLogPaths(s: Identity, recommended: seq<string>): (r: seq<string>)
    ensures |r| >= 6 && r[..6] == LogTemplates(HostOf(s), ServerToken(s))
    ensures forall p :: p in r <==> p in LogTemplates(HostOf(s), ServerToken(s)) || p in recommended
    ensures forall i :: 6 <= i < |r| ==> r[i] !in r[..i]
  {
    var base := LogTemplates(HostOf(s), ServerToken(s));
    var r := AppendAbsent(base, recommended);
    AppendAbsentAddsOnlyNew(base, recommended);
    assert |base| == 6;
    assert forall i :: |base| <= i < |r| ==> r[i] !in r[..i];
    r
  }

  /** The CSV candidates in the order they are tried, any recommended paths after them. */
  lemma AlternativeCsvPathsOrder(s: Identity, recommended: seq<string>)
    ensures var r, h, v := AlternativeCsvPaths(s, recommended), HostOf(s), ServerToken(s);
      r[0] == h + "_" + v + "/actual1/deathlogs" && r[1] == h + "_" + v + "/actual/deathlogs"
      && r[2] == h + "/" + v + "/actual1/deathlogs" && r[3] == h + "/" + v + "/actual/deathlogs"
      && r[4] == v + "/actual1/deathlogs" && r[5] == v + "/actual/deathlogs"
      && forall p :: p in recommended ==> p in r
  {
    var r := AlternativeCsvPaths(s, recommended);
    assert r[..6] == CsvTemplates(HostOf(s), ServerToken(s));
    forall i | 0 <= i < 6
      ensures r[i] == CsvTemplates(HostOf(s), ServerToken(s))[i]
    {
      assert r[i] == r[..6][i];
    }
  }

  /** The log candidates in the order they are tried, any recommended paths after them. */
  lemma AlternativeLogPathsOrder(s: Identity, recommended: seq<string>)
    ensures var r, h, v := AlternativeLogPaths(s, recommended), HostOf(s), ServerToken(s);
      r[0] == h + "_" + v + "/Logs" && r[1] == h + "_" + v + "/Deadside/Logs"
      && r[2] == h + "/" + v + "/Logs" && r[3] == h + "/" + v + "/Deadside/Logs"
      && r[4] == v + "/Logs" && r[5] == v + "/Deadside/Logs"
      && forall p :: p in recommended ==> p in r
  {
    var r := AlternativeLogPaths(s, recommended);
    assert r[..6] == LogTemplates(HostOf(s), ServerToken(s));
    forall i | 0 <= i < 6
      ensures r[i] == LogTemplates(HostOf(s), ServerToken(s))[i]
    {
      assert r[i] == r[..6][i];
    }
  }
}
