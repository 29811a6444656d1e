/**
 * What EnhancedSftpConnector can see of a server's SFTP account, and the
 * file searches it performs over it, as functions of that account.
 */
module RemoteListing {
  import opened Wrappers
  import opened JavaStrings

  /** How deep the recursive searches descend below their starting directory. */
  const MAX_RECURSION_DEPTH: nat := 3
  /** The cap on matches taken from one directory and on the running total of a subdirectory scan. */
  const MAX_FILES_TO_CHECK: nat := 500
  const LOG_FILE_NAME: string := "Deadside.log"
  const CSV_SUFFIX: string := ".csv"

  /** One `ls` entry: the file name and whether it is a directory. */
  datatype Entry = Entry(name: string, isDir: bool)

  /**
   * One server's SFTP account: whether a session can be opened at all,
   * and the listing of every directory `cd` can enter (a directory that is
   * not a key makes `cd` fail).
   */
  datatype RemoteHost = RemoteHost(up: bool, dirs: map<string, seq<Entry>>)

  predicate IsDot(name: string)
  {
    name == "." || name == ".."
  }

  predicate IsCsvEntry(e: Entry)
  {
    !IsDot(e.name) && EndsWith(e.name, CSV_SUFFIX)
  }

  predicate IsSubdir(e: Entry)
  {
    !IsDot(e.name) && e.isDir
  }

  function Child(path: string, name: string): string
  {
    path + "/" + name
  }

  /** The first `n` elements (all of them when there are fewer). */
  function Take(s: seq<string>, n: nat): (r: seq<string>)
    ensures |r| <= n && |r| <= |s| && r == s[..|r|]
    ensures |s| <= n ==> r == s
    ensures |s| > n ==> |r| == n
  {
    if |s| <= n then s else s[..n]
  }

  // ---------------------------------------------------------------------
  // One directory.

  /** `path + "/" + name` for every listed `.csv` entry other than `.`/`..`, in listing order. */
  function CsvMatches(path: string, es: seq<Entry>): (r: seq<string>)
    decreases |es|
    ensures |r| <= |es|
  {
    if |es| == 0 then []
    else
      var init := es[..|es| - 1];
      var last := es[|es| - 1];
      CsvMatches(path, init) + (if IsCsvEntry(last) then [Child(path, last.name)] else [])
  }

  /** The matches are exactly the `.csv` entries of the listing, each as `path + "/" + name`. */
  lemma {:induction false} CsvMatchesMembers(path: string, es: seq<Entry>)
    ensures forall i :: 0 <= i < |es| && IsCsvEntry(es[i]) ==> Child(path, es[i].name) in CsvMatches(path, es)
    ensures forall f :: f in CsvMatches(path, es) ==>
      exists i :: 0 <= i < |es| && IsCsvEntry(es[i]) && f == Child(path, es[i].name)
    decreases |es|
  {
    if |es| > 0 {
      var init := es[..|es| - 1];
      CsvMatchesMembers(path, init);
      assert forall i :: 0 <= i < |init| ==> init[i] == es[i];
    }
  }

  /** The matches of a prefix of a listing are a prefix of the matches of the whole listing. */
  lemma {:induction false} CsvMatchesPrefix(path: string, es: seq<Entry>, k: nat)
    requires k <= |es|
    ensures var p := CsvMatches(path, es[..k]);
      |p| <= |CsvMatches(path, es)| && CsvMatches(path, es)[..|p|] == p
    decreases |es| - k
  {
    if k < |es| {
      var init := es[..|es| - 1];
      assert init[..k] == es[..k];
      CsvMatchesPrefix(path, init, k);
    } else {
      assert es[..k] == es;
    }
  }

  /** The listing `cd path; ls .` gives, or None when the session or the `cd` fails. */
  function Listing(h: RemoteHost, path: string): Option<seq<Entry>>
  {
    if h.up && path in h.dirs then Some(h.dirs[path]) else None
  }

  /** findCsvFilesInPath: the `.csv` entries of one directory; any failure gives no files. */
  function CsvFilesIn(h: RemoteHost, path: string): (r: seq<string>)
    ensures Listing(h, path).None? ==> r == []
    ensures Listing(h, path).Some? ==> r == CsvMatches(path, h.dirs[path])
  {
    match Listing(h, path)
    case None => []
    case Some(es) => CsvMatches(path, es)
  }

  predicate HasLogEntry(es: seq<Entry>)
  {
    exists i :: 0 <= i < |es| && es[i].name == LOG_FILE_NAME
  }

  /** findLogFileInPath: `path + "/Deadside.log"` iff an entry is named exactly that; otherwise, or on failure, None. */
  function LogFileIn(h: RemoteHost, path: string): (r: Option<string>)
    ensures r.Some? <==> Listing(h, path).Some? && HasLogEntry(h.dirs[path])
    ensures r.Some? ==> r.value == Child(path, LOG_FILE_NAME)
  {
    match Listing(h, path)
    case None => None
    case Some(es) => if HasLogEntry(es) then Some(Child(path, LOG_FILE_NAME)) else None
  }

  // ---------------------------------------------------------------------
  // Reachability: `to` lies at most `k` subdirectory steps below `from`.

  predicate Within(h: RemoteHost, from: string, to: string, k: nat)
    decreases k
  {
    from == to
    || (k > 0 && from in h.dirs
        && exists e :: e in h.dirs[from] && IsSubdir(e) && Within(h, Child(from, e.name), to, k - 1))
  }

  // ---------------------------------------------------------------------
  // findCsvFilesRecursively.

  /**
   * The files the recursive CSV search returns from `path` at `depth`:
   * nothing below the depth cap or when the directory cannot be listed;
   * the first 500 local matches when there are any; otherwise the
   * non-empty results of the subdirectories in listing order, stopping
   * once the running total reaches 500.
   */
  function CsvSearch(h: RemoteHost, path: string, depth: nat): (r: seq<string>)
    decreases MAX_RECURSION_DEPTH + 1 - depth, 1, 0
  {
    if depth > MAX_RECURSION_DEPTH then []
    else match Listing(h, path)
      case None => []
      case Some(es) =>
        var local := Take(CsvMatches(path, es), MAX_FILES_TO_CHECK);
        if local != [] then local else CsvSubdirs(h, path, depth, es, [])
  }

  /**
   * Shallow first: below the depth cap nothing is found, and a directory
   * with a `.csv` entry of its own yields only its own matches, in listing
   * order and at most 500 of them, whatever its subdirectories hold.
   */
  lemma CsvSearchShallowFirst(h: RemoteHost, path: string, depth: nat)
    ensures depth > MAX_RECURSION_DEPTH ==> CsvSearch(h, path, depth) == []
    ensures depth <= MAX_RECURSION_DEPTH && Listing(h, path).Some? && CsvMatches(path, h.dirs[path]) != [] ==>
      var r := CsvSearch(h, path, depth);
      0 < |r| <= MAX_FILES_TO_CHECK && r == CsvMatches(path, h.dirs[path])[..|r|]
  {
  }

  /** The subdirectory loop of the recursive CSV search, over the entries `es` still to visit. */
  function CsvSubdirs(h: RemoteHost, path: string, depth: nat, es: seq<Entry>, acc: seq<string>): (r: seq<string>)
    requires depth <= MAX_RECURSION_DEPTH
    decreases MAX_RECURSION_DEPTH + 1 - depth, 0, |es|
  {
    if |es| == 0 then acc
    else if !IsSubdir(es[0]) then CsvSubdirs(h, path, depth, es[1..], acc)
    else
      var sub := CsvSearch(h, Child(path, es[0].name), depth + 1);
      if sub == [] then CsvSubdirs(h, path, depth, es[1..], acc)
      else if |acc + sub| >= MAX_FILES_TO_CHECK then acc + sub
      else CsvSubdirs(h, path, depth, es[1..], acc + sub)
  }

  /** The most files a search started at `depth` can return. */
  function CsvBound(depth: nat): nat
  {
    if depth > MAX_RECURSION_DEPTH then 0
    else MAX_FILES_TO_CHECK + (MAX_FILES_TO_CHECK - 1) * (MAX_RECURSION_DEPTH - depth)
  }

  /**
   * A search started at depth d returns at most 500 + 499 * (3 - d) files:
   * the 500 cap bounds each directory and each running total, but a last
   * subdirectory can push the total past it, 1997 files from the root.
   */
  lemma {:induction false} CsvSearchBound(h: RemoteHost, path: string, depth: nat)
    ensures |CsvSearch(h, path, depth)| <= CsvBound(depth)
    decreases MAX_RECURSION_DEPTH + 1 - depth, 1, 0
  {
    if depth <= MAX_RECURSION_DEPTH && Listing(h, path).Some? {
      var es := h.dirs[path];
      var local := Take(CsvMatches(path, es), MAX_FILES_TO_CHECK);
      if local == [] {
        CsvSubdirsBound(h, path, depth, es, []);
      }
    }
  }

  lemma {:induction false} CsvSubdirsBound(h: RemoteHost, path: string, depth: nat, es: seq<Entry>, acc: seq<string>)
    requires depth <= MAX_RECURSION_DEPTH
    requires |acc| < MAX_FILES_TO_CHECK
    ensures |CsvSubdirs(h, path, depth, es, acc)| <= MAX_FILES_TO_CHECK - 1 + CsvBound(depth + 1)
    decreases MAX_RECURSION_DEPTH + 1 - depth, 0, |es|
  {
    if |es| > 0 {
      if IsSubdir(es[0]) {
        var sub := CsvSearch(h, Child(path, es[0].name), depth + 1);
        CsvSearchBound(h, Child(path, es[0].name), depth + 1);
        if sub != [] && |acc + sub| < MAX_FILES_TO_CHECK {
          CsvSubdirsBound(h, path, depth, es[1..], acc + sub);
        } else if sub == [] {
          CsvSubdirsBound(h, path, depth, es[1..], acc);
        }
      } else {
        CsvSubdirsBound(h, path, depth, es[1..], acc);
      }
    }
  }

  /**
   * Every file the recursive CSV search returns is a `.csv` match of a
   * directory that lies at most 3 - depth levels below the start.
   */
  lemma {:induction false} CsvSearchSound(h: RemoteHost, path: string, depth: nat, f: string)
    requires f in CsvSearch(h, path, depth)
    ensures depth <= MAX_RECURSION_DEPTH
    ensures exists d :: Within(h, path, d, MAX_RECURSION_DEPTH - depth) && d in h.dirs && f in CsvMatches(d, h.dirs[d])
    decreases MAX_RECURSION_DEPTH + 1 - depth, 1, 0
  {
    var es := h.dirs[path];
    var local := Take(CsvMatches(path, es), MAX_FILES_TO_CHECK);
    if local != [] {
      assert f in CsvMatches(path, es);
      assert Within(h, path, path, MAX_RECURSION_DEPTH - depth);
    } else {
      CsvSubdirsSound(h, path, depth, es, [], f);
    }
  }

  lemma {:induction false} CsvSubdirsSound(h: RemoteHost, path: string, depth: nat, es: seq<Entry>, acc: seq<string>, f: string)
    requires depth <= MAX_RECURSION_DEPTH
    requires path in h.dirs && forall e :: e in es ==> e in h.dirs[path]
    requires f in CsvSubdirs(h, path, depth, es, acc)
    ensures f in acc || exists d :: Within(h, path, d, MAX_RECURSION_DEPTH - depth) && d in h.dirs && f in CsvMatches(d, h.dirs[d])
    decreases MAX_RECURSION_DEPTH + 1 - depth, 0, |es|
  {
    if |es| > 0 {
      assert forall e :: e in es[1..] ==> e in es;
      if !IsSubdir(es[0]) {
        CsvSubdirsSound(h, path, depth, es[1..], acc, f);
      } else {
        var child := Child(path, es[0].name);
        var sub := CsvSearch(h, child, depth + 1);
        if sub == [] {
          CsvSubdirsSound(h, path, depth, es[1..], acc, f);
        } else {
          var rest := if |acc + sub| >= MAX_FILES_TO_CHECK then acc + sub else CsvSubdirs(h, path, depth, es[1..], acc + sub);
          if |acc + sub| < MAX_FILES_TO_CHECK {
            CsvSubdirsSound(h, path, depth, es[1..], acc + sub, f);
          }
          if f !in acc && f in acc + sub {
            assert f in sub;
            CsvSearchSound(h, child, depth + 1, f);
            var d :| Within(h, child, d, MAX_RECURSION_DEPTH - (depth + 1)) && d in h.dirs && f in CsvMatches(d, h.dirs[d]);
            assert es[0] in h.dirs[path];
            assert Within(h, path, d, MAX_RECURSION_DEPTH - depth);
          }
        }
      }
    }
  }

  // ---------------------------------------------------------------------
  // findLogFileRecursively.

  /**
   * The log file the recursive search returns from `path` at `depth`:
   * the current directory's `Deadside.log` first, then each subdirectory
   * in listing order; a subdirectory that yields nothing does not stop
   * the scan.
   */
  function LogSearch(h: RemoteHost, path: string, depth: nat): (r: Option<string>)
    decreases MAX_RECURSION_DEPTH + 1 - depth, 1, 0
  {
    if depth > MAX_RECURSION_DEPTH then None
    else match Listing(h, path)
      case None => None
      case Some(es) =>
        if HasLogEntry(es) then Some(Child(path, LOG_FILE_NAME)) else LogSubdirs(h, path, depth, es)
  }

  function LogSubdirs(h: RemoteHost, path: string, depth: nat, es: seq<Entry>): (r: Option<string>)
    requires depth <= MAX_RECURSION_DEPTH
    decreases MAX_RECURSION_DEPTH + 1 - depth, 0, |es|
  {
    if |es| == 0 then None
    else if !IsSubdir(es[0]) then LogSubdirs(h, path, depth, es[1..])
    else match LogSearch(h, Child(path, es[0].name), depth + 1)
      case Some(f) => Some(f)
      case None => LogSubdirs(h, path, depth, es[1..])
  }

  /** Independent reference: every `Deadside.log` within reach, in pre-order (current level first). */
  function LogHits(h: RemoteHost, path: string, depth: nat): seq<string>
    decreases MAX_RECURSION_DEPTH + 1 - depth, 1, 0
  {
    if depth > MAX_RECURSION_DEPTH then []
    else match Listing(h, path)
      case None => []
      case Some(es) =>
        (if HasLogEntry(es) then [Child(path, LOG_FILE_NAME)] else []) + LogSubdirHits(h, path, depth, es)
  }

  function LogSubdirHits(h: RemoteHost, path: string, depth: nat, es: seq<Entry>): seq<string>
    requires depth <= MAX_RECURSION_DEPTH
    decreases MAX_RECURSION_DEPTH + 1 - depth, 0, |es|
  {
    if |es| == 0 then []
    else if !IsSubdir(es[0]) then LogSubdirHits(h, path, depth, es[1..])
    else LogHits(h, Child(path, es[0].name), depth + 1) + LogSubdirHits(h, path, depth, es[1..])
  }

  function FirstOf(s: seq<string>): Option<string>
  {
    if |s| == 0 then None else Some(s[0])
  }

  /** The recursive log search returns exactly the first pre-order hit, or None when there is none. */
  lemma {:induction false} LogSearchIsFirstHit(h: RemoteHost, path: string, depth: nat)
    ensures LogSearch(h, path, depth) == FirstOf(LogHits(h, path, depth))
    decreases MAX_RECURSION_DEPTH + 1 - depth, 1, 0
  {
    if depth <= MAX_RECURSION_DEPTH && Listing(h, path).Some? {
      var es := h.dirs[path];
      if !HasLogEntry(es) {
        LogSubdirsIsFirstHit(h, path, depth, es);
      }
    }
  }

  lemma {:induction false} LogSubdirsIsFirstHit(h: RemoteHost, path: string, depth: nat, es: seq<Entry>)
    requires depth <= MAX_RECURSION_DEPTH
    ensures LogSubdirs(h, path, depth, es) == FirstOf(LogSubdirHits(h, path, depth, es))
    decreases MAX_RECURSION_DEPTH + 1 - depth, 0, |es|
  {
    if |es| > 0 {
      LogSubdirsIsFirstHit(h, path, depth, es[1..]);
      if IsSubdir(es[0]) {
        LogSearchIsFirstHit(h, Child(path, es[0].name), depth + 1);
      }
    }
  }

  /** Every pre-order hit is the `Deadside.log` of a directory at most 3 - depth levels below the start. */
  lemma {:induction false} LogHitsSound(h: RemoteHost, path: string, depth: nat, f: string)
    requires f in LogHits(h, path, depth)
    ensures depth <= MAX_RECURSION_DEPTH
    ensures exists d :: Within(h, path, d, MAX_RECURSION_DEPTH - depth) && LogFileIn(h, d) == Some(f)
    decreases MAX_RECURSION_DEPTH + 1 - depth, 1, 0
  {
    var es := h.dirs[path];
    if HasLogEntry(es) && f == Child(path, LOG_FILE_NAME) {
      assert LogFileIn(h, path) == Some(f);
      assert Within(h, path, path, MAX_RECURSION_DEPTH - depth);
    } else {
      LogSubdirHitsSound(h, path, depth, es, f);
    }
  }

  lemma {:induction false} LogSubdirHitsSound(h: RemoteHost, path: string, depth: nat, es: seq<Entry>, f: string)
    requires depth <= MAX_RECURSION_DEPTH
    requires path in h.dirs && forall e :: e in es ==> e in h.dirs[path]
    requires f in LogSubdirHits(h, path, depth, es)
    ensures exists d :: Within(h, path, d, MAX_RECURSION_DEPTH - depth) && LogFileIn(h, d) == Some(f)
    decreases MAX_RECURSION_DEPTH + 1 - depth, 0, |es|
  {
    assert |es| > 0;
    assert forall e :: e in es[1..] ==> e in es;
    if !IsSubdir(es[0]) {
      LogSubdirHitsSound(h, path, depth, es[1..], f);
    } else {
      var child := Child(path, es[0].name);
      if f in LogHits(h, child, depth + 1) {
        LogHitsSound(h, child, depth + 1, f);
        var d :| Within(h, child, d, MAX_RECURSION_DEPTH - (depth + 1)) && LogFileIn(h, d) == Some(f);
        assert es[0] in h.dirs[path];
        assert Within(h, path, d, MAX_RECURSION_DEPTH - depth);
      } else {
        LogSubdirHitsSound(h, path, depth, es[1..], f);
      }
    }
  }

  /** What the recursive log search finds is a real `Deadside.log` no more than 3 - depth levels down. */
  lemma LogSearchSound(h: RemoteHost, path: string, depth: nat)
    requires LogSearch(h, path, depth).Some?
    ensures depth <= MAX_RECURSION_DEPTH
    ensures exists d :: Within(h, path, d, MAX_RECURSION_DEPTH - depth) && LogFileIn(h, d) == LogSearch(h, path, depth)
  {
    LogSearchIsFirstHit(h, path, depth);
    LogHitsSound(h, path, depth, LogSearch(h, path, depth).value);
  }

  // ---------------------------------------------------------------------
  // The first success over an ordered list of alternative directories.

  /** The first alternative whose directory holds `.csv` files. */
  function FirstCsvHit(h: RemoteHost, alts: seq<string>): (r: Option<nat>)
    decreases |alts|
    ensures r.Some? ==> r.value < |alts| && CsvFilesIn(h, alts[r.value]) != []
    ensures r.Some? ==> forall j :: 0 <= j < r.value ==> CsvFilesIn(h, alts[j]) == []
    ensures r.None? ==> forall j :: 0 <= j < |alts| ==> CsvFilesIn(h, alts[j]) == []
  {
    if |alts| == 0 then None
    else if CsvFilesIn(h, alts[0]) != [] then Some(0)
    else match FirstCsvHit(h, alts[1..])
      case None => None
      case Some(i) => Some(i + 1)
  }

  /** The first alternative whose directory holds `Deadside.log`. */
  function FirstLogHit(h: RemoteHost, alts: seq<string>): (r: Option<nat>)
    decreases |alts|
    ensures r.Some? ==> r.value < |alts| && LogFileIn(h, alts[r.value]).Some?
    ensures r.Some? ==> forall j :: 0 <= j < r.value ==> LogFileIn(h, alts[j]).None?
    ensures r.None? ==> forall j :: 0 <= j < |alts| ==> LogFileIn(h, alts[j]).None?
  {
    if |alts| == 0 then None
    else if LogFileIn(h, alts[0]).Some? then Some(0)
    else match FirstLogHit(h, alts[1..])
      case None => None
      case Some(i) => Some(i + 1)
  }
}
