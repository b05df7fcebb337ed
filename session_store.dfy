/** The session store (internal/session/store.go): a map from session ID to
    parsed session, filled by a scan of the projects directory and kept up
    to date by a file watcher whose re-parses are debounced through one
    shared pending slot and announced on a one-slot notification channel.

    The file system is an input: a directory listing is a sequence of
    entries, a file's content its lines (None when it cannot be opened).
    The lock, the goroutine and the timer are left out; the watcher is the
    sequence of calls OnEvent (an event arrives), FireDebounce (the pending
    timer fires) and Receive (the UI takes the notification). */
module SessionStore {
  import opened Wrappers
  import opened Json
  import opened GoStrings
  import opened SessionTypes
  import opened SessionParser
  import opened ParserProperties
  import Sorting

  /** An entry of a project directory. */
  datatype FileEntry = FileEntry(name: string, isDir: bool, content: Option<seq<Line>>)

  /** An entry of the base directory; `files` is None when it cannot be
      listed. */
  datatype DirEntry = DirEntry(name: string, isDir: bool, files: Option<seq<FileEntry>>)

  /** The fsnotify operation bits that matter here. */
  const CREATE: bv32 := 1
  const WRITE: bv32 := 2

  /** A file-system event: the file it names and its operation bits. */
  datatype FsEvent = FsEvent(path: SessionPath, op: bv32)

  /** Every stored session is filed under its own ID and has events. */
  ghost predicate StoreInvariant(m: map<string, Session>) {
    forall id :: id in m ==> m[id].info.id == id && |m[id].events| > 0
  }

  /** A file the scan parses: a regular file whose name ends in ".jsonl". */
  predicate IsTranscript(f: FileEntry) {
    !f.isDir && HasSuffix(f.name, ".jsonl")
  }

  /** The map after a parse result: stored under its ID when the parse
      succeeded with at least one event, otherwise unchanged. */
  function Put(m: map<string, Session>, parsed: Option<Session>): (m': map<string, Session>)
    ensures Stored(parsed) ==> m' == m[parsed.value.info.id := parsed.value]
    ensures !Stored(parsed) ==> m' == m
  {
    if Stored(parsed) then m[parsed.value.info.id := parsed.value] else m
  }

  /** The files of one project directory, scanned in order, each
      transcript parsed by parse. */
  function ScanFiles(m: map<string, Session>, files: seq<FileEntry>, parse: FileEntry -> Option<Session>): map<string, Session>
  {
    if files == [] then m
    else
      var m' := ScanFiles(m, files[..|files| - 1], parse);
      var f := files[|files| - 1];
      if IsTranscript(f) then Put(m', parse(f)) else m'
  }

  /** How the scan parses a file of a project directory. */
  function Parser(baseDir: string, dirName: string, encode: Json -> string): FileEntry -> Option<Session>
  {
    (f: FileEntry) => ParseSpec(SessionPath(baseDir, dirName, f.name), f.content, encode)
  }

  /** Whether a parse result is stored: it parsed and has events. */
  predicate Stored(parsed: Option<Session>) {
    parsed.Some? && |parsed.value.events| > 0
  }

  /** The directories of the base directory, scanned in order; plain files
      and unreadable directories are skipped. */
  function ScanDirs(m: map<string, Session>, baseDir: string, dirs: seq<DirEntry>, encode: Json -> string): map<string, Session>
  {
    if dirs == [] then m
    else
      var m' := ScanDirs(m, baseDir, dirs[..|dirs| - 1], encode);
      var d := dirs[|dirs| - 1];
      if d.isDir && d.files.Some? then ScanFiles(m', d.files.value, Parser(baseDir, d.name, encode)) else m'
  }

  /** The directories a scan registers with the watcher: every directory
      entry, readable or not. */
  function WatchedDirs(baseDir: string, dirs: seq<DirEntry>): set<string>
  {
    set i | 0 <= i < |dirs| && dirs[i].isDir :: baseDir + "/" + dirs[i].name
  }

  /** Registering one more directory entry adds its path when it is a
      directory. */
  lemma WatchedDirsSnoc(baseDir: string, dirs: seq<DirEntry>)
    requires dirs != []
    ensures var d := dirs[|dirs| - 1];
      WatchedDirs(baseDir, dirs) ==
        WatchedDirs(baseDir, dirs[..|dirs| - 1]) + (if d.isDir then {baseDir + "/" + d.name} else {})
  {
    var d := dirs[|dirs| - 1];
    var p := dirs[..|dirs| - 1];
    forall x | x in WatchedDirs(baseDir, dirs)
      ensures x in WatchedDirs(baseDir, p) + (if d.isDir then {baseDir + "/" + d.name} else {})
    {
      var i :| 0 <= i < |dirs| && dirs[i].isDir && x == baseDir + "/" + dirs[i].name;
      if i < |p| { assert p[i] == dirs[i]; }
    }
    forall x | x in WatchedDirs(baseDir, p)
      ensures x in WatchedDirs(baseDir, dirs)
    {
      var i :| 0 <= i < |p| && p[i].isDir && x == baseDir + "/" + p[i].name;
      assert dirs[i] == p[i];
    }
  }

  /** Whether the watcher acts on an event: a ".jsonl" name and a Write or
      Create bit. */
  predicate Qualifies(ev: FsEvent) {
    HasSuffix(ev.path.Full(), ".jsonl") && ev.op & (WRITE | CREATE) != 0
  }

  class Store {
    /** The sessions, keyed by ID. */
    var sessions: map<string, Session>
    /** The project directories registered with the watcher. */
    var watched: set<string>
    /** The path whose re-parse the debounce timer will run, if any: one
        slot for all files. */
    var pending: Option<SessionPath>
    /** Whether the one-slot updates channel holds a signal. */
    var notified: bool

    ghost predicate Valid()
      reads this
    {
      StoreInvariant(sessions)
    }

    constructor()
      ensures Valid()
      ensures sessions == map[] && watched == {} && pending == None && !notified
    {
      sessions := map[];
      watched := {};
      pending := None;
      notified := false;
    }

    /** Scan: None for a base directory that cannot be read, which is the
        only error reported; otherwise every transcript of every readable
        project directory is parsed and stored. */
    method Scan(baseDir: string, listing: Option<seq<DirEntry>>, encode: Json -> string) returns (ok: bool)
      requires Valid()
      modifies this`sessions, this`watched
      ensures Valid()
      ensures ok <==> listing.Some?
      ensures !ok ==> sessions == old(sessions) && watched == old(watched)
      ensures ok ==> sessions == ScanDirs(old(sessions), baseDir, listing.value, encode)
      ensures ok ==> watched == old(watched) + WatchedDirs(baseDir, listing.value)
    {
      if listing.None? {
        return false;
      }
      var entries := listing.value;
      var i := 0;
      while i < |entries|
        invariant 0 <= i <= |entries|
        invariant sessions == ScanDirs(old(sessions), baseDir, entries[..i], encode)
        invariant watched == old(watched) + WatchedDirs(baseDir, entries[..i])
      {
        assert entries[..i + 1][..i] == entries[..i];
        ScanEntry(baseDir, entries[i], encode);
        WatchedDirsSnoc(baseDir, entries[..i + 1]);
        i := i + 1;
      }
      assert entries[..|entries|] == entries;
      ScanDirsKeepsInvariant(old(sessions), baseDir, entries, encode);
      return true;
    }

    /** One entry of the base directory: a directory is watched, and its
        files are scanned when it can be read. */
    method ScanEntry(baseDir: string, entry: DirEntry, encode: Json -> string)
      modifies this`sessions, this`watched
      ensures sessions ==
        if entry.isDir && entry.files.Some?
        then ScanFiles(old(sessions), entry.files.value, Parser(baseDir, entry.name, encode))
        else old(sessions)
      ensures watched == old(watched) + (if entry.isDir then {baseDir + "/" + entry.name} else {})
    {
      if entry.isDir {
        watched := watched + {baseDir + "/" + entry.name};
        if entry.files.Some? {
          ScanProject(baseDir, entry.name, entry.files.value, encode);
        }
      }
    }

    /** The inner loop of Scan over one project directory's files. */
    method ScanProject(baseDir: string, dirName: string, files: seq<FileEntry>, encode: Json -> string)
      modifies this`sessions
      ensures sessions == ScanFiles(old(sessions), files, Parser(baseDir, dirName, encode))
    {
      var k := 0;
      while k < |files|
        invariant 0 <= k <= |files|
        invariant sessions == ScanFiles(old(sessions), files[..k], Parser(baseDir, dirName, encode))
      {
        assert files[..k + 1][..k] == files[..k];
        ScanFile(baseDir, dirName, files[k], encode);
        k := k + 1;
      }
      assert files[..|files|] == files;
    }

    /** A watcher event: one that qualifies replaces whatever re-parse was
        pending (the earlier timer is stopped); any other is ignored. */
    method OnEvent(ev: FsEvent)
      modifies this`pending
      ensures pending == if Qualifies(ev) then Some(ev.path) else old(pending)
    {
      if !HasSuffix(ev.path.Full(), ".jsonl") {
        return;
      }
      if ev.op & (WRITE | CREATE) == 0 {
        return;
      }
      pending := Some(ev.path);
    }

    /** The debounce timer fires: the pending path is re-parsed from its
        content at that moment; a session with events is stored and a
        notification is offered to the one-slot channel, which drops it when
        a signal is already waiting. */
    method FireDebounce(content: Option<seq<Line>>, encode: Json -> string)
      requires Valid()
      modifies this`sessions, this`pending, this`notified
      ensures Valid()
      ensures pending == None
      ensures old(pending).None? ==> sessions == old(sessions) && notified == old(notified)
      ensures old(pending).Some? ==>
        var parsed := ParseSpec(old(pending).value, content, encode);
        && sessions == Put(old(sessions), parsed)
        && notified == (old(notified) || Stored(parsed))
    {
      if pending.None? {
        return;
      }
      var path := pending.value;
      pending := None;
      var stored := StoreParsed(path, content, encode);
      PutKeepsInvariant(old(sessions), ParseSpec(path, content, encode));
      notified := notified || stored;
    }

    /** One file of a project directory: a transcript is parsed and stored
        when it has events; anything else is skipped. */
    method ScanFile(baseDir: string, dirName: string, f: FileEntry, encode: Json -> string)
      modifies this`sessions
      ensures sessions == if IsTranscript(f) then Put(old(sessions), Parser(baseDir, dirName, encode)(f)) else old(sessions)
    {
      if !f.isDir && HasSuffix(f.name, ".jsonl") {
        var _ := StoreParsed(SessionPath(baseDir, dirName, f.name), f.content, encode);
        assert Parser(baseDir, dirName, encode)(f) == ParseSpec(SessionPath(baseDir, dirName, f.name), f.content, encode);
      }
    }

    /** Parse one transcript and store the result when it has events; the
        result says whether it was stored. */
    method StoreParsed(path: SessionPath, content: Option<seq<Line>>, encode: Json -> string) returns (stored: bool)
      modifies this`sessions
      ensures stored == Stored(ParseSpec(path, content, encode))
      ensures sessions == Put(old(sessions), ParseSpec(path, content, encode))
    {
      var sess := ParseSessionFile(path, content, encode);
      if sess.None? || |sess.value.events| == 0 {
        return false;
      }
      sessions := sessions[sess.value.info.id := sess.value];
      return true;
    }

    /** The UI takes the waiting notification, if any. */
    method Receive() returns (got: bool)
      modifies this`notified
      ensures got == old(notified) && !notified
    {
      got := notified;
      notified := false;
    }

    /** GetSessions: the info of every stored session, newest LastUpdate
        first; the order of ties is unspecified. */
    method GetSessions() returns (infos: seq<SessionInfo>)
      requires Valid()
      ensures Lists(infos, sessions)
      ensures NewestFirst(infos)
    {
      var collected := CollectInfos();
      var a := new SessionInfo[|collected|](i requires 0 <= i < |collected| => collected[i]);
      assert a[..] == collected;
      NewerFirstIsStrictWeak();
      Sorting.SortBy(a, NewerFirst);
      infos := a[..];
      PermutationKeepsDistinct(collected, infos);
      forall x | x in collected ensures x in infos {
        assert x in multiset(collected);
      }
      forall x | x in infos ensures x in collected {
        assert x in multiset(infos);
      }
    }

    /** The loop of GetSessions over the map: each stored info once. */
    method CollectInfos() returns (collected: seq<SessionInfo>)
      requires Valid()
      ensures Lists(collected, sessions)
    {
      collected := [];
      var rest := sessions.Keys;
      while rest != {}
        invariant rest <= sessions.Keys
        invariant |collected| + |rest| == |sessions|
        invariant forall x :: x in collected ==> x.id in sessions && x.id !in rest && sessions[x.id].info == x
        invariant forall id :: id in sessions && id !in rest ==> sessions[id].info in collected
        invariant forall i, j :: 0 <= i < j < |collected| ==> collected[i] != collected[j]
        decreases |rest|
      {
        var id :| id in rest;
        collected := collected + [sessions[id].info];
        rest := rest - {id};
      }
    }

    /** GetSession: the stored session with that ID, None for an unknown
        ID. */
    function GetSession(id: string): (r: Option<Session>)
      reads this
      ensures r.Some? <==> id in sessions
      ensures r.Some? ==> r.value == sessions[id]
    {
      if id in sessions then Some(sessions[id]) else None
    }
  }

  /** The order GetSessions sorts by: a before b when a's LastUpdate is
      later. */
  predicate NewerFirst(a: SessionInfo, b: SessionInfo) {
    a.lastUpdate > b.lastUpdate
  }

  lemma NewerFirstIsStrictWeak()
    ensures Sorting.StrictWeakOrder(NewerFirst)
  {
  }

  /** infos lists the sessions of m: one entry per session, each the
      stored summary of the session its ID names. */
  ghost predicate Lists(infos: seq<SessionInfo>, m: map<string, Session>) {
    && |infos| == |m|
    && (forall x :: x in infos ==> x.id in m && m[x.id].info == x)
    && (forall id :: id in m ==> m[id].info in infos)
    && (forall i, j :: 0 <= i < j < |infos| ==> infos[i] != infos[j])
  }

  /** Later LastUpdate first. */
  ghost predicate NewestFirst(infos: seq<SessionInfo>) {
    forall i, j :: 0 <= i < j < |infos| ==> infos[i].lastUpdate >= infos[j].lastUpdate
  }

  /** An element occurs at most once in a sequence without repeats. */
  lemma {:induction false} DistinctCount<T>(s: seq<T>, x: T)
    requires forall i, j :: 0 <= i < j < |s| ==> s[i] != s[j]
    ensures multiset(s)[x] <= 1
  {
    if s != [] {
      var p := s[..|s| - 1];
      assert s == p + [s[|s| - 1]];
      DistinctCount(p, x);
      if x == s[|s| - 1] {
        assert x !in p;
      }
    }
  }

  /** A permutation of a sequence without repeats has none either. */
  lemma PermutationKeepsDistinct<T>(s: seq<T>, t: seq<T>)
    requires multiset(s) == multiset(t)
    requires forall i, j :: 0 <= i < j < |s| ==> s[i] != s[j]
    ensures forall i, j :: 0 <= i < j < |t| ==> t[i] != t[j]
  {
    forall i, j | 0 <= i < j < |t| ensures t[i] != t[j] {
      if t[i] == t[j] {
        assert t == t[..j] + t[j..];
        assert t[i] in t[..j] && t[j] in t[j..];
        assert multiset(t)[t[j]] == multiset(t[..j])[t[j]] + multiset(t[j..])[t[j]];
        DistinctCount(s, t[j]);
        assert false;
      }
    }
  }

  /** A parsed session is filed under the ID derived from its file name. */
  lemma ParsedIsFiledUnderItsID(path: SessionPath, content: Option<seq<Line>>, encode: Json -> string)
    ensures ParseSpec(path, content, encode).Some? ==>
      ParseSpec(path, content, encode).value.info.id == SessionID(path.fileName)
  {
    if content.Some? {
      SessionIdentity(path, content.value, encode);
    }
  }

  /** Storing a parse result keeps every session filed under its own ID
      and non-empty: Put files a session under the ID it carries. */
  lemma PutKeepsInvariant(m: map<string, Session>, parsed: Option<Session>)
    requires StoreInvariant(m)
    ensures StoreInvariant(Put(m, parsed))
  {
  }

  /** Scanning a project directory keeps the store invariant, whatever the
      parser returns. */
  lemma {:induction false} ScanFilesKeepsInvariant(m: map<string, Session>, files: seq<FileEntry>, parse: FileEntry -> Option<Session>)
    requires StoreInvariant(m)
    ensures StoreInvariant(ScanFiles(m, files, parse))
  {
    if files != [] {
      var f := files[|files| - 1];
      ScanFilesKeepsInvariant(m, files[..|files| - 1], parse);
      PutKeepsInvariant(ScanFiles(m, files[..|files| - 1], parse), parse(f));
    }
  }

  /** Scanning all project directories keeps the store invariant. */
  lemma {:induction false} ScanDirsKeepsInvariant(m: map<string, Session>, baseDir: string, dirs: seq<DirEntry>, encode: Json -> string)
    requires StoreInvariant(m)
    ensures StoreInvariant(ScanDirs(m, baseDir, dirs, encode))
  {
    if dirs != [] {
      var d := dirs[|dirs| - 1];
      var m' := ScanDirs(m, baseDir, dirs[..|dirs| - 1], encode);
      ScanDirsKeepsInvariant(m, baseDir, dirs[..|dirs| - 1], encode);
      if d.isDir && d.files.Some? {
        ScanFilesKeepsInvariant(m', d.files.value, Parser(baseDir, d.name, encode));
      }
    }
  }

  // ---------------------------------------------------------------------
  // Properties of the scan and the watcher filter

  lemma {:induction false} ScanFilesKeepsKeys(m: map<string, Session>, files: seq<FileEntry>, parse: FileEntry -> Option<Session>)
    ensures m.Keys <= ScanFiles(m, files, parse).Keys
  {
    if files != [] {
      ScanFilesKeepsKeys(m, files[..|files| - 1], parse);
    }
  }

  /** A scan only adds or replaces sessions, it never drops one. */
  lemma {:induction false} ScanDirsKeepsKeys(m: map<string, Session>, baseDir: string, dirs: seq<DirEntry>, encode: Json -> string)
    ensures m.Keys <= ScanDirs(m, baseDir, dirs, encode).Keys
  {
    if dirs != [] {
      var p := dirs[..|dirs| - 1];
      var d := dirs[|dirs| - 1];
      ScanDirsKeepsKeys(m, baseDir, p, encode);
      if d.isDir && d.files.Some? {
        ScanFilesKeepsKeys(ScanDirs(m, baseDir, p, encode), d.files.value, Parser(baseDir, d.name, encode));
      }
    }
  }

  /** s is what some transcript among files parsed to. */
  ghost predicate FromFile(s: Session, files: seq<FileEntry>, parse: FileEntry -> Option<Session>) {
    exists k :: 0 <= k < |files| && IsTranscript(files[k]) && parse(files[k]) == Some(s)
  }

  /** s is what some transcript in a readable project directory parsed to. */
  ghost predicate FromListing(s: Session, baseDir: string, dirs: seq<DirEntry>, encode: Json -> string) {
    exists i :: 0 <= i < |dirs| && dirs[i].isDir && dirs[i].files.Some? &&
      FromFile(s, dirs[i].files.value, Parser(baseDir, dirs[i].name, encode))
  }

  /** Every entry of r is the entry of m or what a transcript among files
      parsed to. */
  ghost predicate FilesProvenance(m: map<string, Session>, r: map<string, Session>, files: seq<FileEntry>, parse: FileEntry -> Option<Session>) {
    forall id :: id in r ==> (id in m && r[id] == m[id]) || FromFile(r[id], files, parse)
  }

  /** Every entry of r is the entry of m or what a transcript of a readable
      project directory among dirs parsed to. */
  ghost predicate DirsProvenance(m: map<string, Session>, r: map<string, Session>, baseDir: string, dirs: seq<DirEntry>, encode: Json -> string) {
    forall id :: id in r ==> (id in m && r[id] == m[id]) || FromListing(r[id], baseDir, dirs, encode)
  }

  lemma {:induction false} ScanFilesProvenance(m: map<string, Session>, files: seq<FileEntry>, parse: FileEntry -> Option<Session>)
    ensures FilesProvenance(m, ScanFiles(m, files, parse), files, parse)
  {
    if files != [] {
      ScanFilesProvenance(m, files[..|files| - 1], parse);
      ScanFilesProvenanceStep(m, files, parse);
    }
  }

  lemma ScanFilesProvenanceStep(m: map<string, Session>, files: seq<FileEntry>, parse: FileEntry -> Option<Session>)
    requires files != []
    requires FilesProvenance(m, ScanFiles(m, files[..|files| - 1], parse), files[..|files| - 1], parse)
    ensures FilesProvenance(m, ScanFiles(m, files, parse), files, parse)
  {
    var p := files[..|files| - 1];
    var f := files[|files| - 1];
    var r0 := ScanFiles(m, p, parse);
    var r := ScanFiles(m, files, parse);
    forall id | id in r ensures (id in m && r[id] == m[id]) || FromFile(r[id], files, parse) {
      if IsTranscript(f) && Stored(parse(f)) && id == parse(f).value.info.id {
        assert files[|p|] == f;
      } else if !(id in m && r0[id] == m[id]) {
        var k :| 0 <= k < |p| && IsTranscript(p[k]) && parse(p[k]) == Some(r0[id]);
        assert files[k] == p[k];
      }
    }
  }

  lemma FromListingAt(s: Session, baseDir: string, dirs: seq<DirEntry>, encode: Json -> string, i: int)
    requires 0 <= i < |dirs| && dirs[i].isDir && dirs[i].files.Some?
    requires FromFile(s, dirs[i].files.value, Parser(baseDir, dirs[i].name, encode))
    ensures FromListing(s, baseDir, dirs, encode)
  {
  }

  lemma FromListingPrefix(s: Session, baseDir: string, dirs: seq<DirEntry>, encode: Json -> string)
    requires dirs != [] && FromListing(s, baseDir, dirs[..|dirs| - 1], encode)
    ensures FromListing(s, baseDir, dirs, encode)
  {
    var p := dirs[..|dirs| - 1];
    var i :| 0 <= i < |p| && p[i].isDir && p[i].files.Some? && FromFile(s, p[i].files.value, Parser(baseDir, p[i].name, encode));
    assert dirs[i] == p[i];
    FromListingAt(s, baseDir, dirs, encode, i);
  }

  /** Every session a scan adds or changes is what a transcript of a
      readable project directory in the listing parsed to. */
  lemma {:induction false} ScanDirsProvenance(m: map<string, Session>, baseDir: string, dirs: seq<DirEntry>, encode: Json -> string)
    ensures DirsProvenance(m, ScanDirs(m, baseDir, dirs, encode), baseDir, dirs, encode)
  {
    if dirs != [] {
      var p := dirs[..|dirs| - 1];
      var d := dirs[|dirs| - 1];
      var r0 := ScanDirs(m, baseDir, p, encode);
      ScanDirsProvenance(m, baseDir, p, encode);
      if d.isDir && d.files.Some? {
        var parse := Parser(baseDir, d.name, encode);
        ScanFilesProvenance(r0, d.files.value, parse);
        ReadableDirProvenance(m, r0, ScanFiles(r0, d.files.value, parse), baseDir, dirs, encode);
      } else {
        SkippedDirProvenance(m, r0, baseDir, dirs, encode);
      }
    }
  }

  /** Scanning one more readable directory: what it changes comes from its
      own transcripts, the rest from the directories before it. */
  lemma ReadableDirProvenance(m: map<string, Session>, r0: map<string, Session>, r: map<string, Session>,
                              baseDir: string, dirs: seq<DirEntry>, encode: Json -> string)
    requires dirs != [] && dirs[|dirs| - 1].isDir && dirs[|dirs| - 1].files.Some?
    requires DirsProvenance(m, r0, baseDir, dirs[..|dirs| - 1], encode)
    requires FilesProvenance(r0, r, dirs[|dirs| - 1].files.value, Parser(baseDir, dirs[|dirs| - 1].name, encode))
    ensures DirsProvenance(m, r, baseDir, dirs, encode)
  {
    var d := dirs[|dirs| - 1];
    var parse := Parser(baseDir, d.name, encode);
    forall id | id in r && !(id in m && r[id] == m[id]) ensures FromListing(r[id], baseDir, dirs, encode) {
      if id in r0 && r[id] == r0[id] {
        assert FromListing(r0[id], baseDir, dirs[..|dirs| - 1], encode);
        FromListingPrefix(r[id], baseDir, dirs, encode);
      } else {
        assert FromFile(r[id], d.files.value, parse);
        FromListingAt(r[id], baseDir, dirs, encode, |dirs| - 1);
      }
    }
  }

  /** Skipping one more directory entry keeps every provenance. */
  lemma SkippedDirProvenance(m: map<string, Session>, r: map<string, Session>, baseDir: string, dirs: seq<DirEntry>, encode: Json -> string)
    requires dirs != [] && DirsProvenance(m, r, baseDir, dirs[..|dirs| - 1], encode)
    ensures DirsProvenance(m, r, baseDir, dirs, encode)
  {
    forall id | id in r && !(id in m && r[id] == m[id]) ensures FromListing(r[id], baseDir, dirs, encode) {
      FromListingPrefix(r[id], baseDir, dirs, encode);
    }
  }

  /** Within a project directory, the last transcript that parses to a
      session with events decides what is stored under its ID. */
  lemma {:induction false} ScanFilesLastWins(m: map<string, Session>, files: seq<FileEntry>, parse: FileEntry -> Option<Session>, k: int)
    requires 0 <= k < |files| && IsTranscript(files[k]) && Stored(parse(files[k]))
    requires forall l :: k < l < |files| && IsTranscript(files[l]) && Stored(parse(files[l])) ==>
      parse(files[l]).value.info.id != parse(files[k]).value.info.id
    ensures var s := parse(files[k]).value;
      s.info.id in ScanFiles(m, files, parse) && ScanFiles(m, files, parse)[s.info.id] == s
  {
    var p := files[..|files| - 1];
    if k < |p| {
      assert p[k] == files[k];
      forall l | k < l < |p| && IsTranscript(p[l]) && Stored(parse(p[l]))
        ensures parse(p[l]).value.info.id != parse(p[k]).value.info.id
      {
        assert p[l] == files[l];
      }
      ScanFilesLastWins(m, p, parse, k);
    }
  }

  /** Some transcript of files parses to a stored session with this ID. */
  predicate StoresID(files: seq<FileEntry>, parse: FileEntry -> Option<Session>, id: string) {
    exists l :: 0 <= l < |files| && IsTranscript(files[l]) && Stored(parse(files[l])) && parse(files[l]).value.info.id == id
  }

  /** Some transcript of a readable project directory parses to a stored
      session with this ID. */
  predicate DirStoresID(baseDir: string, d: DirEntry, encode: Json -> string, id: string) {
    d.isDir && d.files.Some? && StoresID(d.files.value, Parser(baseDir, d.name, encode), id)
  }

  /** Files none of which yields a session with this ID leave its entry, or
      its absence, as it was. */
  lemma {:induction false} ScanFilesKeepsOtherIDs(m: map<string, Session>, files: seq<FileEntry>, parse: FileEntry -> Option<Session>, id: string)
    requires !StoresID(files, parse, id)
    ensures var r := ScanFiles(m, files, parse);
      (id in r <==> id in m) && (id in m ==> r[id] == m[id])
  {
    if files != [] {
      var p := files[..|files| - 1];
      forall l | 0 <= l < |p| && IsTranscript(p[l]) && Stored(parse(p[l]))
        ensures parse(p[l]).value.info.id != id
      {
        assert files[l] == p[l];
      }
      ScanFilesKeepsOtherIDs(m, p, parse, id);
      var f := files[|files| - 1];
      if IsTranscript(f) && Stored(parse(f)) {
        assert parse(files[|files| - 1]).value.info.id != id;
      }
    }
  }

  /** Across the whole listing, the last transcript that parses to a
      session with a given ID is the one kept: no later file of its own
      directory, and no file of a later directory, yields that ID. */
  lemma {:induction false} ScanDirsLastWins(m: map<string, Session>, baseDir: string, dirs: seq<DirEntry>, encode: Json -> string, j: int, k: int)
    requires 0 <= j < |dirs| && dirs[j].isDir && dirs[j].files.Some?
    requires 0 <= k < |dirs[j].files.value|
    requires var files := dirs[j].files.value; var parse := Parser(baseDir, dirs[j].name, encode);
      IsTranscript(files[k]) && Stored(parse(files[k])) &&
      !StoresID(files[k + 1..], parse, parse(files[k]).value.info.id)
    requires var s := Parser(baseDir, dirs[j].name, encode)(dirs[j].files.value[k]).value;
      forall j' :: j < j' < |dirs| ==> !DirStoresID(baseDir, dirs[j'], encode, s.info.id)
    ensures var s := Parser(baseDir, dirs[j].name, encode)(dirs[j].files.value[k]).value;
      var r := ScanDirs(m, baseDir, dirs, encode);
      s.info.id in r && r[s.info.id] == s
    decreases |dirs|
  {
    var files := dirs[j].files.value;
    var parse := Parser(baseDir, dirs[j].name, encode);
    var s := parse(files[k]).value;
    var p := dirs[..|dirs| - 1];
    var d := dirs[|dirs| - 1];
    var r0 := ScanDirs(m, baseDir, p, encode);
    if j == |dirs| - 1 {
      forall l | k < l < |files| && IsTranscript(files[l]) && Stored(parse(files[l]))
        ensures parse(files[l]).value.info.id != s.info.id
      {
        assert files[k + 1..][l - k - 1] == files[l];
      }
      ScanFilesLastWins(r0, files, parse, k);
    } else {
      assert p[j] == dirs[j];
      forall j' | j < j' < |p| ensures !DirStoresID(baseDir, p[j'], encode, s.info.id) {
        assert p[j'] == dirs[j'];
      }
      ScanDirsLastWins(m, baseDir, p, encode, j, k);
      assert !DirStoresID(baseDir, dirs[|dirs| - 1], encode, s.info.id);
      if d.isDir && d.files.Some? {
        ScanFilesKeepsOtherIDs(r0, d.files.value, Parser(baseDir, d.name, encode), s.info.id);
      }
    }
  }

  lemma NoSlashInSuffix()
    ensures '/' !in ".jsonl"
  {
  }

  /** The watcher's test on the full path accepts exactly the file names
      the scan accepts: a name shorter than the suffix cannot match, since
      the character before it is the '/'. */
  lemma {:induction false} QualifiesByFileName(ev: FsEvent)
    ensures Qualifies(ev) <==> HasSuffix(ev.path.fileName, ".jsonl") && ev.op & (WRITE | CREATE) != 0
  {
    var name := ev.path.fileName;
    var dirPart := ev.path.baseDir + "/" + ev.path.dirName + "/";
    var full := ev.path.Full();
    assert full == dirPart + name;
    if |name| >= 6 {
      assert full[|full| - 6..] == name[|name| - 6..];
    } else if HasSuffix(full, ".jsonl") {
      var at := |full| - |name| - 1;
      assert full[at] == '/';
      assert full[|full| - 6..][at - (|full| - 6)] == '/';
      NoSlashInSuffix();
      assert false;
    }
  }
}
