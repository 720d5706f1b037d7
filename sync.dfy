/** The sync manager of the desktop reference implementation: it scans the
    master music library, compares it with the table of files already
    transferred to the phone, and builds the transfer queue and the text
    report from the result. The SQLite table `transferred_files` is the map
    `DopplerSyncManager.transferred`, keyed by its UNIQUE `file_path` column. */
module Sync {
  import opened Common
  import PyPath

  /** One path produced by the recursive walk of the master directory
      (`rglob('*')`), with what `is_file()`, `relative_to()` and `stat()` say
      about it. */
  datatype WalkEntry = WalkEntry(path: string, relativePath: string, isFile: bool, size: int, mtime: int)

  /** The record `scan_master_library` keeps for an audio file. `hash` is
      `None` until `identify_sync_candidates` computes it. */
  datatype MasterFile = MasterFile(path: string, relativePath: string, size: int, modified: int, hash: Option<string>)

  /** The columns of one `transferred_files` row other than its key. */
  datatype TransferRecord = TransferRecord(hash: string, size: int, lastModified: int, transferredDate: int, transferMethod: string)

  /** What `stat` reports for a file: `st_size` and `st_mtime` truncated by `int()`. */
  datatype FileStat = FileStat(size: int, mtime: int)

  datatype Candidates = Candidates(newFiles: seq<MasterFile>, modifiedFiles: seq<MasterFile>, missingTransfers: seq<MasterFile>)

  datatype QueueEntry = QueueEntry(path: string, relativePath: string, size: int, status: string)

  /** The queue document without its `created` timestamp. */
  datatype TransferQueue = TransferQueue(totalFiles: nat, totalSize: int, files: seq<QueueEntry>)

  /** How `mark_as_transferred` ends: it writes the row, or `stat` raises, or
      `relative_to` raises because the file is not under the master directory. */
  datatype MarkOutcome = Marked | StatFailed(message: string) | OutsideMasterDir

  /** `calculate_file_hash`: the SHA-256 hex digest of the file at a path. */
  type HashOracle = string -> string

  const AudioExtensions: set<string> := {".mp3", ".m4a", ".flac", ".wav", ".aac", ".m4p"}
  const Queued := "queued"
  /** How many paths the report lists per section. */
  const Preview := 10

  function Min(a: int, b: int): int {
    if a <= b then a else b
  }

  // ---------------------------------------------------------------- scanning

  predicate IsAudioFile(w: WalkEntry, exts: set<string>) {
    w.isFile && PyPath.Lower(PyPath.Suffix(w.path)) in exts
  }

  function Scanned(w: WalkEntry): MasterFile {
    MasterFile(w.path, w.relativePath, w.size, w.mtime, None)
  }

  /** The records `scan_master_library` returns for a walk, in walk order. */
  function AudioFiles(walk: seq<WalkEntry>, exts: set<string>): seq<MasterFile> {
    if walk == [] then []
    else
      var w := walk[|walk| - 1];
      AudioFiles(walk[..|walk| - 1], exts) + (if IsAudioFile(w, exts) then [Scanned(w)] else [])
  }

  /** A record is kept exactly for a regular file whose lower-cased suffix is an
      audio extension, and it is kept without a hash. */
  lemma {:induction false} AudioFilesMembers(walk: seq<WalkEntry>, exts: set<string>)
    ensures forall r :: r in AudioFiles(walk, exts) ==>
      r.hash == None && PyPath.Lower(PyPath.Suffix(r.path)) in exts &&
      exists w :: w in walk && w.isFile && Scanned(w) == r
    ensures forall w :: w in walk && IsAudioFile(w, exts) ==> Scanned(w) in AudioFiles(walk, exts)
  {
    if walk != [] {
      var init := walk[..|walk| - 1];
      AudioFilesMembers(init, exts);
      assert walk == init + [walk[|walk| - 1]];
      forall r | r in AudioFiles(walk, exts)
        ensures r.hash == None && PyPath.Lower(PyPath.Suffix(r.path)) in exts &&
          exists w :: w in walk && w.isFile && Scanned(w) == r
      {
        if r !in AudioFiles(init, exts) {
          assert Scanned(walk[|walk| - 1]) == r;
        }
      }
    }
  }

  // ---------------------------------------------------------- classification

  /** The size or the modification time differs from the stored row. */
  predicate Stale(f: MasterFile, rec: TransferRecord) {
    f.size != rec.size || f.modified != rec.lastModified
  }

  function WithHash(f: MasterFile, hashOf: HashOracle): MasterFile {
    f.(hash := Some(hashOf(f.path)))
  }

  /** A file that is in the table, looks changed, and whose content hash
      differs from the stored one. */
  predicate IsModified(f: MasterFile, t: map<string, TransferRecord>, hashOf: HashOracle) {
    f.relativePath in t && Stale(f, t[f.relativePath]) && hashOf(f.path) != t[f.relativePath].hash
  }

  /** Every field but the hash agrees. */
  predicate SameFile(a: MasterFile, b: MasterFile) {
    a.path == b.path && a.relativePath == b.relativePath && a.size == b.size && a.modified == b.modified
  }

  function NewFiles(m: seq<MasterFile>, t: map<string, TransferRecord>): seq<MasterFile> {
    if m == [] then []
    else
      var f := m[|m| - 1];
      NewFiles(m[..|m| - 1], t) + (if f.relativePath !in t then [f] else [])
  }

  function ModifiedFiles(m: seq<MasterFile>, t: map<string, TransferRecord>, hashOf: HashOracle): seq<MasterFile> {
    if m == [] then []
    else
      var f := m[|m| - 1];
      ModifiedFiles(m[..|m| - 1], t, hashOf) + (if IsModified(f, t, hashOf) then [WithHash(f, hashOf)] else [])
  }

  /** The paths the hash oracle is asked about, in the order it is asked. */
  function HashedPaths(m: seq<MasterFile>, t: map<string, TransferRecord>): seq<string> {
    if m == [] then []
    else
      var f := m[|m| - 1];
      HashedPaths(m[..|m| - 1], t) +
        (if f.relativePath in t && Stale(f, t[f.relativePath]) then [f.path] else [])
  }

  /** The candidates `identify_sync_candidates` returns for a scanned list. */
  function Classify(m: seq<MasterFile>, t: map<string, TransferRecord>, hashOf: HashOracle): Candidates {
    Candidates(NewFiles(m, t), ModifiedFiles(m, t, hashOf), [])
  }

  /** A scanned file is new exactly when its relative path is not in the table;
      new files are passed on unchanged. */
  lemma {:induction false} NewFilesMembers(m: seq<MasterFile>, t: map<string, TransferRecord>)
    ensures forall f :: f in NewFiles(m, t) <==> f in m && f.relativePath !in t
  {
    if m != [] {
      var init := m[..|m| - 1];
      NewFilesMembers(init, t);
      assert m == init + [m[|m| - 1]];
    }
  }

  /** A scanned file is reported as modified (carrying its new hash) exactly
      when it is in the table, its size or mtime differs, and its hash differs. */
  lemma {:induction false} ModifiedFilesMembers(m: seq<MasterFile>, t: map<string, TransferRecord>, hashOf: HashOracle)
    ensures forall f :: f in m && IsModified(f, t, hashOf) ==> WithHash(f, hashOf) in ModifiedFiles(m, t, hashOf)
    ensures forall g :: g in ModifiedFiles(m, t, hashOf) ==>
      exists f :: f in m && IsModified(f, t, hashOf) && g == WithHash(f, hashOf)
  {
    if m != [] {
      var init := m[..|m| - 1];
      var last := m[|m| - 1];
      ModifiedFilesMembers(init, t, hashOf);
      assert m == init + [last];
      forall g | g in ModifiedFiles(m, t, hashOf)
        ensures exists f :: f in m && IsModified(f, t, hashOf) && g == WithHash(f, hashOf)
      {
        if g !in ModifiedFiles(init, t, hashOf) {
          assert IsModified(last, t, hashOf) && g == WithHash(last, hashOf);
        }
      }
    }
  }

  /** No relative path is both new and modified. */
  lemma CandidatesDisjoint(m: seq<MasterFile>, t: map<string, TransferRecord>, hashOf: HashOracle)
    ensures forall a, b :: a in NewFiles(m, t) && b in ModifiedFiles(m, t, hashOf) ==> a.relativePath != b.relativePath
  {
    NewFilesMembers(m, t);
    ModifiedFilesMembers(m, t, hashOf);
  }

  /** A file whose table row still has its size and mtime is no candidate:
      no new file has its relative path, and a modified file at that path
      differs from it in size or mtime. */
  lemma RecordedFileIsNoCandidate(m: seq<MasterFile>, t: map<string, TransferRecord>, hashOf: HashOracle, f: MasterFile)
    requires f.relativePath in t && !Stale(f, t[f.relativePath])
    ensures forall g :: g in NewFiles(m, t) ==> g.relativePath != f.relativePath
    ensures forall g :: g in ModifiedFiles(m, t, hashOf) && g.relativePath == f.relativePath ==>
      g.size != f.size || g.modified != f.modified
  {
    NewFilesMembers(m, t);
    ModifiedFilesMembers(m, t, hashOf);
  }

  /** The hash oracle is consulted only for files in the table whose size or
      mtime changed, and the files at all other paths do not depend on it. */
  lemma {:induction false} HashedPathsMembers(m: seq<MasterFile>, t: map<string, TransferRecord>)
    ensures forall f :: f in m && f.relativePath in t && Stale(f, t[f.relativePath]) ==> f.path in HashedPaths(m, t)
    ensures forall p :: p in HashedPaths(m, t) ==>
      exists f :: f in m && f.path == p && f.relativePath in t && Stale(f, t[f.relativePath])
  {
    if m != [] {
      var init := m[..|m| - 1];
      HashedPathsMembers(init, t);
      assert m == init + [m[|m| - 1]];
    }
  }

  lemma {:induction false} HashOnlyAtHashedPaths(m: seq<MasterFile>, t: map<string, TransferRecord>, h1: HashOracle, h2: HashOracle)
    requires forall p :: p in HashedPaths(m, t) ==> h1(p) == h2(p)
    ensures ModifiedFiles(m, t, h1) == ModifiedFiles(m, t, h2)
  {
    if m != [] {
      var init := m[..|m| - 1];
      var f := m[|m| - 1];
      assert forall p :: p in HashedPaths(init, t) ==> p in HashedPaths(m, t);
      HashOnlyAtHashedPaths(init, t, h1, h2);
      if f.relativePath in t && Stale(f, t[f.relativePath]) {
        assert f.path in HashedPaths(m, t);
      }
    }
  }

  /** `sub` lists elements of `m` (up to the hash) at strictly increasing positions `idx`. */
  ghost predicate Picks(sub: seq<MasterFile>, m: seq<MasterFile>, idx: seq<int>) {
    |idx| == |sub| &&
    (forall k :: 0 <= k < |idx| ==> 0 <= idx[k] < |m| && SameFile(sub[k], m[idx[k]])) &&
    (forall k, l :: 0 <= k < l < |idx| ==> idx[k] < idx[l])
  }

  function NewIndices(m: seq<MasterFile>, t: map<string, TransferRecord>): seq<int> {
    if m == [] then []
    else NewIndices(m[..|m| - 1], t) + (if m[|m| - 1].relativePath !in t then [|m| - 1] else [])
  }

  function ModifiedIndices(m: seq<MasterFile>, t: map<string, TransferRecord>, hashOf: HashOracle): seq<int> {
    if m == [] then []
    else ModifiedIndices(m[..|m| - 1], t, hashOf) + (if IsModified(m[|m| - 1], t, hashOf) then [|m| - 1] else [])
  }

  lemma {:induction false} NewFilesInOrder(m: seq<MasterFile>, t: map<string, TransferRecord>)
    ensures Picks(NewFiles(m, t), m, NewIndices(m, t))
  {
    if m != [] {
      var init := m[..|m| - 1];
      NewFilesInOrder(init, t);
      assert forall i :: 0 <= i < |init| ==> init[i] == m[i];
    }
  }

  lemma {:induction false} ModifiedFilesInOrder(m: seq<MasterFile>, t: map<string, TransferRecord>, hashOf: HashOracle)
    ensures Picks(ModifiedFiles(m, t, hashOf), m, ModifiedIndices(m, t, hashOf))
  {
    if m != [] {
      var init := m[..|m| - 1];
      ModifiedFilesInOrder(init, t, hashOf);
      assert forall i :: 0 <= i < |init| ==> init[i] == m[i];
    }
  }

  /** Both candidate lists keep the order of the scan. */
  lemma CandidatesInScanOrder(m: seq<MasterFile>, t: map<string, TransferRecord>, hashOf: HashOracle)
    ensures exists idx :: Picks(NewFiles(m, t), m, idx)
    ensures exists idx :: Picks(ModifiedFiles(m, t, hashOf), m, idx)
  {
    NewFilesInOrder(m, t);
    ModifiedFilesInOrder(m, t, hashOf);
  }

  // ------------------------------------------------------------- the table

  /** `Path(path).relative_to(dir)` on normalised paths. */
  function RelativeTo(dir: string, path: string): Option<string> {
    if path == dir then Some(".")
    else if StartsWith(path, dir + "/") then Some(path[|dir| + 1..])
    else None
  }

  /** `INSERT OR REPLACE` of a row whose `file_path` is UNIQUE. */
  function Upsert(t: map<string, TransferRecord>, key: string, rec: TransferRecord): (r: map<string, TransferRecord>)
    ensures key in r && r[key] == rec
    ensures r.Keys == t.Keys + {key}
    ensures forall k :: k in t && k != key ==> r[k] == t[k]
  {
    t[key := rec]
  }

  /** The row `mark_as_transferred` writes for a file that still has the size
      and mtime it was scanned with. */
  function RowFor(f: MasterFile, hashOf: HashOracle, date: int, transferMethod: string): TransferRecord {
    TransferRecord(hashOf(f.path), f.size, f.modified, date, transferMethod)
  }

  function Others(s: seq<MasterFile>, key: string): seq<MasterFile> {
    if s == [] then []
    else Others(s[..|s| - 1], key) + (if s[|s| - 1].relativePath != key then [s[|s| - 1]] else [])
  }

  lemma {:induction false} MarkLeavesOtherNewFiles(m: seq<MasterFile>, t: map<string, TransferRecord>, key: string, rec: TransferRecord)
    ensures NewFiles(m, Upsert(t, key, rec)) == Others(NewFiles(m, t), key)
  {
    if m != [] {
      var init := m[..|m| - 1];
      var g := m[|m| - 1];
      MarkLeavesOtherNewFiles(init, t, key, rec);
      var before := NewFiles(init, t);
      if g.relativePath !in t {
        assert (before + [g])[..|before|] == before;
      } else {
        assert before + [] == before;
      }
    }
  }

  lemma {:induction false} MarkLeavesOtherModifiedFiles(m: seq<MasterFile>, t: map<string, TransferRecord>, key: string, rec: TransferRecord, hashOf: HashOracle)
    ensures Others(ModifiedFiles(m, Upsert(t, key, rec), hashOf), key) == Others(ModifiedFiles(m, t, hashOf), key)
  {
    if m != [] {
      var init := m[..|m| - 1];
      var g := m[|m| - 1];
      var t' := Upsert(t, key, rec);
      MarkLeavesOtherModifiedFiles(init, t, key, rec, hashOf);
      var before := ModifiedFiles(init, t, hashOf);
      var before' := ModifiedFiles(init, t', hashOf);
      var x := if IsModified(g, t, hashOf) then [WithHash(g, hashOf)] else [];
      var x' := if IsModified(g, t', hashOf) then [WithHash(g, hashOf)] else [];
      assert ModifiedFiles(m, t, hashOf) == before + x;
      assert ModifiedFiles(m, t', hashOf) == before' + x';
      OthersAppend(before, x, key);
      OthersAppend(before', x', key);
      if g.relativePath != key {
        assert IsModified(g, t', hashOf) == IsModified(g, t, hashOf);
      }
    }
  }

  lemma OthersAppend(a: seq<MasterFile>, x: seq<MasterFile>, key: string)
    requires |x| <= 1
    ensures Others(a + x, key) == Others(a, key) + Others(x, key)
  {
    if x == [] {
      assert a + x == a;
    } else {
      assert (a + x)[..|a|] == a;
      assert x[..0] == [];
    }
  }

  /** Marking a file transferred and rescanning: the file is no longer a
      candidate, and the candidates at every other relative path are what
      they were before. */
  lemma MarkThenRescan(m: seq<MasterFile>, t: map<string, TransferRecord>, f: MasterFile,
                       hashOf: HashOracle, date: int, transferMethod: string)
    ensures var t' := Upsert(t, f.relativePath, RowFor(f, hashOf, date, transferMethod));
      && (forall g :: g in NewFiles(m, t') ==> g.relativePath != f.relativePath)
      && (forall g :: g in ModifiedFiles(m, t', hashOf) && g.relativePath == f.relativePath ==> !SameFile(g, f))
      && NewFiles(m, t') == Others(NewFiles(m, t), f.relativePath)
      && Others(ModifiedFiles(m, t', hashOf), f.relativePath) == Others(ModifiedFiles(m, t, hashOf), f.relativePath)
  {
    var rec := RowFor(f, hashOf, date, transferMethod);
    RecordedFileIsNoCandidate(m, Upsert(t, f.relativePath, rec), hashOf, f);
    MarkLeavesOtherNewFiles(m, t, f.relativePath, rec);
    MarkLeavesOtherModifiedFiles(m, t, f.relativePath, rec, hashOf);
  }

  /** The table after marking every file of a scan, one after the other. */
  function MarkAll(t: map<string, TransferRecord>, m: seq<MasterFile>, hashOf: HashOracle, date: int, transferMethod: string): map<string, TransferRecord> {
    if m == [] then t
    else
      var f := m[|m| - 1];
      Upsert(MarkAll(t, m[..|m| - 1], hashOf, date, transferMethod), f.relativePath, RowFor(f, hashOf, date, transferMethod))
  }

  lemma {:induction false} MarkAllRows(t: map<string, TransferRecord>, m: seq<MasterFile>, hashOf: HashOracle, date: int, transferMethod: string)
    requires forall i, j :: 0 <= i < j < |m| ==> m[i].relativePath != m[j].relativePath
    ensures forall i :: 0 <= i < |m| ==>
      m[i].relativePath in MarkAll(t, m, hashOf, date, transferMethod) &&
      MarkAll(t, m, hashOf, date, transferMethod)[m[i].relativePath] == RowFor(m[i], hashOf, date, transferMethod)
  {
    if m != [] {
      var init := m[..|m| - 1];
      MarkAllRows(t, init, hashOf, date, transferMethod);
      assert forall i :: 0 <= i < |init| ==> init[i] == m[i];
    }
  }

  lemma {:induction false} NoCandidates(m: seq<MasterFile>, t: map<string, TransferRecord>, hashOf: HashOracle)
    requires forall i :: 0 <= i < |m| ==> m[i].relativePath in t && !Stale(m[i], t[m[i].relativePath])
    ensures NewFiles(m, t) == [] && ModifiedFiles(m, t, hashOf) == []
  {
    if m != [] {
      NoCandidates(m[..|m| - 1], t, hashOf);
    }
  }

  /** After every scanned file (with distinct relative paths, as a directory
      walk yields them) has been marked, a rescan of the unchanged library
      finds nothing to sync. */
  lemma MarkAllThenRescan(t: map<string, TransferRecord>, m: seq<MasterFile>, hashOf: HashOracle, date: int, transferMethod: string)
    requires forall i, j :: 0 <= i < j < |m| ==> m[i].relativePath != m[j].relativePath
    ensures Classify(m, MarkAll(t, m, hashOf, date, transferMethod), hashOf) == Candidates([], [], [])
  {
    var t' := MarkAll(t, m, hashOf, date, transferMethod);
    MarkAllRows(t, m, hashOf, date, transferMethod);
    NoCandidates(m, t', hashOf);
  }

  // ---------------------------------------------------------------- queue

  function QueueEntryOf(f: MasterFile): QueueEntry {
    QueueEntry(f.path, f.relativePath, f.size, Queued)
  }

  function QueueEntries(s: seq<MasterFile>): seq<QueueEntry> {
    if s == [] then [] else QueueEntries(s[..|s| - 1]) + [QueueEntryOf(s[|s| - 1])]
  }

  lemma {:induction false} QueueEntriesAppend(a: seq<MasterFile>, b: seq<MasterFile>)
    ensures QueueEntries(a + b) == QueueEntries(a) + QueueEntries(b)
    decreases |b|
  {
    if b == [] {
      assert a + b == a;
    } else {
      QueueEntriesAppend(a, b[..|b| - 1]);
      assert (a + b)[..|a + b| - 1] == a + b[..|b| - 1];
    }
  }

  lemma {:induction false} QueueEntriesAt(s: seq<MasterFile>)
    ensures |QueueEntries(s)| == |s|
    ensures forall k :: 0 <= k < |s| ==> QueueEntries(s)[k] == QueueEntryOf(s[k])
  {
    if s != [] {
      QueueEntriesAt(s[..|s| - 1]);
    }
  }

  /** `sum(f['size'] for f in s)`. */
  function TotalSize(s: seq<MasterFile>): int {
    if s == [] then 0 else TotalSize(s[..|s| - 1]) + s[|s| - 1].size
  }

  lemma {:induction false} TotalSizeAppend(a: seq<MasterFile>, b: seq<MasterFile>)
    ensures TotalSize(a + b) == TotalSize(a) + TotalSize(b)
    decreases |b|
  {
    if b == [] {
      assert a + b == a;
    } else {
      TotalSizeAppend(a, b[..|b| - 1]);
      assert (a + b)[..|a + b| - 1] == a + b[..|b| - 1];
    }
  }

  function Flatten(lists: seq<seq<MasterFile>>): seq<MasterFile> {
    if lists == [] then [] else Flatten(lists[..|lists| - 1]) + lists[|lists| - 1]
  }

  lemma FlattenPair(a: seq<MasterFile>, b: seq<MasterFile>)
    ensures Flatten([a, b]) == a + b
  {
    assert [a][..0] == [];
    assert Flatten([a]) == Flatten([]) + a;
    assert [a, b][..1] == [a];
    assert Flatten([a, b]) == Flatten([a]) + b;
  }

  // ---------------------------------------------------------------- report

  function PathLines(marker: string, files: seq<MasterFile>): seq<string> {
    if files == [] then [] else PathLines(marker, files[..|files| - 1]) + [marker + files[|files| - 1].relativePath]
  }

  function MoreLine(marker: string, count: nat): string {
    marker + "... and " + NatToString(count) + " more"
  }

  /** One section of the report: a title, the first `Preview` relative paths,
      a "... and N more" line when some are not shown, and optionally a blank line. */
  function Section(title: string, marker: string, files: seq<MasterFile>, blankAfter: bool): seq<string> {
    if |files| == 0 then []
    else
      [title] + PathLines(marker, files[..Min(Preview, |files|)]) +
      (if |files| > Preview then [MoreLine(marker, |files| - Preview)] else []) +
      (if blankAfter then [""] else [])
  }

  const Bullet := "  \U{2022} "
  const NewMarker := "  + "
  const ModifiedMarker := "  ~ "

  /** The lines of `generate_sync_report`. `scanTime` is the formatted clock
      reading and `formatMb` renders the total size in megabytes. */
  function Header(c: Candidates, scanTime: string, formatMb: int -> string): seq<string> {
    var n := |c.newFiles|;
    var k := |c.modifiedFiles|;
    ["=== DOPPLER SYNC ANALYSIS ===", "Scan completed: " + scanTime, "",
     "Files to sync: " + NatToString(n + k),
     Bullet + "New files: " + NatToString(n),
     Bullet + "Modified files: " + NatToString(k),
     "Total size: " + formatMb(TotalSize(c.newFiles + c.modifiedFiles)) + " MB", ""]
  }

  function ReportLines(c: Candidates, scanTime: string, formatMb: int -> string): seq<string> {
    Header(c, scanTime, formatMb)
    + Section("NEW FILES:", NewMarker, c.newFiles, true)
    + Section("MODIFIED FILES:", ModifiedMarker, c.modifiedFiles, false)
  }

  /** `"\n".join(lines)`. */
  function JoinLines(lines: seq<string>): string {
    if lines == [] then ""
    else if |lines| == 1 then lines[0]
    else JoinLines(lines[..|lines| - 1]) + "\n" + lines[|lines| - 1]
  }

  lemma {:induction false} PathLinesAt(marker: string, files: seq<MasterFile>)
    ensures |PathLines(marker, files)| == |files|
    ensures forall j :: 0 <= j < |files| ==> PathLines(marker, files)[j] == marker + files[j].relativePath
  {
    if files != [] {
      PathLinesAt(marker, files[..|files| - 1]);
    }
  }

  /** A section lists the first ten relative paths in order, ends with a
      "... and N-10 more" line exactly when there are more than ten, and is
      absent when there is nothing to list. */
  lemma SectionShape(title: string, marker: string, files: seq<MasterFile>, blankAfter: bool)
    ensures |files| == 0 ==> Section(title, marker, files, blankAfter) == []
    ensures |files| > 0 ==>
      var s := Section(title, marker, files, blankAfter);
      var shown := Min(Preview, |files|);
      && |s| == 1 + shown + (if |files| > Preview then 1 else 0) + (if blankAfter then 1 else 0)
      && s[0] == title
      && (forall j :: 0 <= j < shown ==> s[1 + j] == marker + files[j].relativePath)
      && (|files| > Preview ==> s[1 + shown] == MoreLine(marker, |files| - Preview))
  {
    if |files| > 0 {
      PathLinesAt(marker, files[..Min(Preview, |files|)]);
    }
  }

  function CountPrefixed(lines: seq<string>, prefix: string): nat {
    if lines == [] then 0
    else CountPrefixed(lines[..|lines| - 1], prefix) + (if StartsWith(lines[|lines| - 1], prefix) then 1 else 0)
  }

  lemma {:induction false} CountPrefixedAppend(a: seq<string>, b: seq<string>, prefix: string)
    ensures CountPrefixed(a + b, prefix) == CountPrefixed(a, prefix) + CountPrefixed(b, prefix)
    decreases |b|
  {
    if b == [] {
      assert a + b == a;
    } else {
      CountPrefixedAppend(a, b[..|b| - 1], prefix);
      assert (a + b)[..|a + b| - 1] == a + b[..|b| - 1];
    }
  }

  lemma {:induction false} CountPrefixedAll(lines: seq<string>, prefix: string)
    requires forall j :: 0 <= j < |lines| ==> StartsWith(lines[j], prefix)
    ensures CountPrefixed(lines, prefix) == |lines|
  {
    if lines != [] {
      CountPrefixedAll(lines[..|lines| - 1], prefix);
    }
  }

  lemma {:induction false} CountPrefixedNone(lines: seq<string>, prefix: string)
    requires forall j :: 0 <= j < |lines| ==> !StartsWith(lines[j], prefix)
    ensures CountPrefixed(lines, prefix) == 0
  {
    if lines != [] {
      CountPrefixedNone(lines[..|lines| - 1], prefix);
    }
  }

  lemma MarkedLinesCount(title: string, marker: string, other: string, files: seq<MasterFile>, blankAfter: bool)
    requires |marker| == 4 && |other| == 4 && marker != other
    requires !StartsWith(title, marker) && !StartsWith(title, other)
    ensures CountPrefixed(Section(title, marker, files, blankAfter), marker) ==
      Min(Preview, |files|) + (if |files| > Preview then 1 else 0)
    ensures CountPrefixed(Section(title, marker, files, blankAfter), other) == 0
  {
    if |files| > 0 {
      var shown := PathLines(marker, files[..Min(Preview, |files|)]);
      var more := if |files| > Preview then [MoreLine(marker, |files| - Preview)] else [];
      var blank := if blankAfter then [""] else [];
      PathLinesAt(marker, files[..Min(Preview, |files|)]);
      forall j | 0 <= j < |shown| ensures StartsWith(shown[j], marker) && !StartsWith(shown[j], other) {
        assert shown[j][..4] == marker;
      }
      forall j | 0 <= j < |more| ensures StartsWith(more[j], marker) && !StartsWith(more[j], other) {
        assert more[j][..4] == marker;
      }
      CountPrefixedAll(shown, marker);
      CountPrefixedAll(more, marker);
      CountPrefixedNone(shown, other);
      CountPrefixedNone(more, other);
      CountPrefixedNone([title], marker);
      CountPrefixedNone([title], other);
      CountPrefixedNone(blank, marker);
      CountPrefixedNone(blank, other);
      CountPrefixedAppend([title], shown, marker);
      CountPrefixedAppend([title] + shown, more, marker);
      CountPrefixedAppend([title] + shown + more, blank, marker);
      CountPrefixedAppend([title], shown, other);
      CountPrefixedAppend([title] + shown, more, other);
      CountPrefixedAppend([title] + shown + more, blank, other);
    }
  }

  /** In the whole report, each section contributes at most ten listed paths
      and one "... and N more" line: the lines marked "  + " number
      min(10, new) plus one exactly when there are more than ten new files,
      and likewise "  ~ " for modified files. */
  lemma ReportListsAtMostTen(c: Candidates, scanTime: string, formatMb: int -> string)
    ensures CountPrefixed(ReportLines(c, scanTime, formatMb), NewMarker) ==
      Min(Preview, |c.newFiles|) + (if |c.newFiles| > Preview then 1 else 0)
    ensures CountPrefixed(ReportLines(c, scanTime, formatMb), ModifiedMarker) ==
      Min(Preview, |c.modifiedFiles|) + (if |c.modifiedFiles| > Preview then 1 else 0)
  {
    var n := |c.newFiles|;
    var k := |c.modifiedFiles|;
    var header := Header(c, scanTime, formatMb);
    HeaderLines(c, scanTime, formatMb);
    CountPrefixedNone(header, NewMarker);
    CountPrefixedNone(header, ModifiedMarker);
    var ns := Section("NEW FILES:", NewMarker, c.newFiles, true);
    var ms := Section("MODIFIED FILES:", ModifiedMarker, c.modifiedFiles, false);
    MarkedLinesCount("NEW FILES:", NewMarker, ModifiedMarker, c.newFiles, true);
    MarkedLinesCount("MODIFIED FILES:", ModifiedMarker, NewMarker, c.modifiedFiles, false);
    CountPrefixedAppend(header, ns, NewMarker);
    CountPrefixedAppend(header + ns, ms, NewMarker);
    CountPrefixedAppend(header, ns, ModifiedMarker);
    CountPrefixedAppend(header + ns, ms, ModifiedMarker);
  }

  lemma Unmarked(s: string, marker: string)
    requires |marker| == 4 && (|s| < 4 || s[0] != marker[0] || s[2] != marker[2])
    ensures !StartsWith(s, marker)
  {
    assert |s| >= 4 ==> s[..4][0] == s[0] && s[..4][2] == s[2];
  }

  /** No header line is marked as a listed path, or is a section title. */
  lemma HeaderLines(c: Candidates, scanTime: string, formatMb: int -> string)
    ensures forall j :: 0 <= j < |Header(c, scanTime, formatMb)| ==>
      var line := Header(c, scanTime, formatMb)[j];
      !StartsWith(line, NewMarker) && !StartsWith(line, ModifiedMarker) &&
      line != "NEW FILES:" && line != "MODIFIED FILES:"
  {
    var h := Header(c, scanTime, formatMb);
    var n := |c.newFiles|;
    var k := |c.modifiedFiles|;
    var l1 := "Scan completed: " + scanTime;
    var l3 := "Files to sync: " + NatToString(n + k);
    var l4 := Bullet + "New files: " + NatToString(n);
    var l5 := Bullet + "Modified files: " + NatToString(k);
    var l6 := "Total size: " + formatMb(TotalSize(c.newFiles + c.modifiedFiles)) + " MB";
    assert l1[0] == 'S' && l3[0] == 'F' && l4[2] == '\U{2022}' && l5[2] == '\U{2022}' && l6[0] == 'T';
    assert h == ["=== DOPPLER SYNC ANALYSIS ===", l1, "", l3, l4, l5, l6, ""];
    forall j | 0 <= j < |h|
      ensures !StartsWith(h[j], NewMarker) && !StartsWith(h[j], ModifiedMarker)
      ensures h[j] != "NEW FILES:" && h[j] != "MODIFIED FILES:"
    {
      Unmarked(h[j], NewMarker);
      Unmarked(h[j], ModifiedMarker);
      if h[j] != [] {
        assert h[j][0] != "NEW FILES:"[0] && h[j][0] != "MODIFIED FILES:"[0];
      }
    }
  }

  /** A section's title appears in the report exactly when that section has
      entries. */
  lemma ReportSectionTitles(c: Candidates, scanTime: string, formatMb: int -> string)
    ensures "NEW FILES:" in ReportLines(c, scanTime, formatMb) <==> |c.newFiles| > 0
    ensures "MODIFIED FILES:" in ReportLines(c, scanTime, formatMb) <==> |c.modifiedFiles| > 0
  {
    var n := |c.newFiles|;
    var k := |c.modifiedFiles|;
    var header := Header(c, scanTime, formatMb);
    HeaderLines(c, scanTime, formatMb);
    var ns := Section("NEW FILES:", NewMarker, c.newFiles, true);
    var ms := Section("MODIFIED FILES:", ModifiedMarker, c.modifiedFiles, false);
    assert ReportLines(c, scanTime, formatMb) == header + ns + ms;
    SectionLinesBut("NEW FILES:", NewMarker, c.newFiles, true, "MODIFIED FILES:");
    SectionLinesBut("MODIFIED FILES:", ModifiedMarker, c.modifiedFiles, false, "NEW FILES:");
    if n > 0 { assert ns[0] == "NEW FILES:"; }
    if k > 0 { assert ms[0] == "MODIFIED FILES:"; }
  }

  /** Every line of a section other than its title starts with the marker or
      is blank, so a different title (which starts with neither) is not in it,
      and its own title is there only when the section is non-empty. */
  lemma SectionLinesBut(title: string, marker: string, files: seq<MasterFile>, blankAfter: bool, otherTitle: string)
    requires |marker| == 4 && marker[0] == ' '
    requires otherTitle != "" && otherTitle[0] != ' ' && otherTitle != title && title != "" && title[0] != ' '
    ensures otherTitle !in Section(title, marker, files, blankAfter)
    ensures title in Section(title, marker, files, blankAfter) <==> |files| > 0
  {
    var s := Section(title, marker, files, blankAfter);
    if |files| > 0 {
      SectionShape(title, marker, files, blankAfter);
      var shown := Min(Preview, |files|);
      forall j | 1 <= j < |s| ensures s[j] == "" || s[j][0] == ' ' {
        if j < 1 + shown {
          assert s[j] == marker + files[j - 1].relativePath;
        } else if |files| > Preview && j == 1 + shown {
          assert s[j] == MoreLine(marker, |files| - Preview);
        } else {
          assert blankAfter && s[j] == "";
        }
      }
    }
  }

  lemma Regroup(a: seq<string>, b: seq<string>, c: seq<string>, d: seq<string>, e: seq<string>)
    ensures a + b + c + d + e == a + (b + c + d + e)
  {
  }

  // ------------------------------------------------------------- the manager

  class DopplerSyncManager {
    const masterDir: string
    const syncDir: string
    const dbPath: string
    const queuePath: string
    const audioExtensions: set<string>
    /** The `transferred_files` table: relative path to the rest of its row. */
    var transferred: map<string, TransferRecord>

    /** `home` is `Path.home()`; `stored` is what the database file already
        holds (`CREATE TABLE IF NOT EXISTS` keeps existing rows). */
    constructor (home: string, stored: map<string, TransferRecord>)
      ensures masterDir == PyPath.Join(PyPath.Join(home, "Music"), "DopplerMaster")
      ensures syncDir == PyPath.Join(PyPath.Join(home, "Music"), "DopplerSync")
      ensures dbPath == PyPath.Join(syncDir, "sync_database.db")
      ensures queuePath == PyPath.Join(syncDir, "transfer_queue.json")
      ensures audioExtensions == AudioExtensions
      ensures transferred == stored
    {
      masterDir := PyPath.Join(PyPath.Join(home, "Music"), "DopplerMaster");
      syncDir := PyPath.Join(PyPath.Join(home, "Music"), "DopplerSync");
      dbPath := PyPath.Join(PyPath.Join(PyPath.Join(home, "Music"), "DopplerSync"), "sync_database.db");
      queuePath := PyPath.Join(PyPath.Join(PyPath.Join(home, "Music"), "DopplerSync"), "transfer_queue.json");
      audioExtensions := AudioExtensions;
      transferred := stored;
    }

    method ScanMasterLibrary(walk: seq<WalkEntry>) returns (audioFiles: seq<MasterFile>)
      ensures audioFiles == AudioFiles(walk, audioExtensions)
    {
      audioFiles := [];
      var exts := audioExtensions;
      var i := 0;
      while i < |walk|
        invariant 0 <= i <= |walk|
        invariant audioFiles == AudioFiles(walk[..i], exts)
      {
        var w := walk[i];
        assert walk[..i + 1][..i] == walk[..i] && walk[..i + 1][i] == w;
        if IsAudioFile(w, exts) {
          audioFiles := audioFiles + [MasterFile(w.path, w.relativePath, w.size, w.mtime, None)];
        }
        i := i + 1;
      }
      assert walk[..i] == walk;
    }

    /** Classifies the scanned library against the table. `hashed` lists the
        paths handed to the hash oracle, in order. */
    method IdentifySyncCandidates(walk: seq<WalkEntry>, hashOf: HashOracle) returns (candidates: Candidates, hashed: seq<string>)
      ensures candidates == Classify(AudioFiles(walk, audioExtensions), transferred, hashOf)
      ensures candidates.missingTransfers == []
      ensures hashed == HashedPaths(AudioFiles(walk, audioExtensions), transferred)
    {
      var masterFiles := ScanMasterLibrary(walk);
      var newFiles: seq<MasterFile> := [];
      var modifiedFiles: seq<MasterFile> := [];
      hashed := [];
      var i := 0;
      while i < |masterFiles|
        invariant 0 <= i <= |masterFiles|
        invariant newFiles == NewFiles(masterFiles[..i], transferred)
        invariant modifiedFiles == ModifiedFiles(masterFiles[..i], transferred, hashOf)
        invariant hashed == HashedPaths(masterFiles[..i], transferred)
      {
        var fileInfo := masterFiles[i];
        var relativePath := fileInfo.relativePath;
        if relativePath !in transferred {
          newFiles := newFiles + [fileInfo];
        } else {
          var transferredInfo := transferred[relativePath];
          if fileInfo.size != transferredInfo.size || fileInfo.modified != transferredInfo.lastModified {
            var currentHash := hashOf(fileInfo.path);
            hashed := hashed + [fileInfo.path];
            fileInfo := fileInfo.(hash := Some(currentHash));
            if currentHash != transferredInfo.hash {
              modifiedFiles := modifiedFiles + [fileInfo];
            }
          }
        }
        assert masterFiles[..i + 1][..i] == masterFiles[..i];
        i := i + 1;
      }
      assert masterFiles[..i] == masterFiles;
      candidates := Candidates(newFiles, modifiedFiles, []);
    }

    /** The queue document: new files then modified files, each queued, with
        their count and total size. */
    method CreateTransferQueue(candidates: Candidates) returns (queue: TransferQueue)
      ensures queue.totalFiles == |candidates.newFiles| + |candidates.modifiedFiles| == |queue.files|
      ensures forall k :: 0 <= k < |queue.files| ==>
        queue.files[k] == QueueEntryOf((candidates.newFiles + candidates.modifiedFiles)[k])
      ensures queue.totalSize == TotalSize(candidates.newFiles + candidates.modifiedFiles)
    {
      var totalFiles := |candidates.newFiles| + |candidates.modifiedFiles|;
      var totalSize := 0;
      var files: seq<QueueEntry> := [];
      var lists := [candidates.newFiles, candidates.modifiedFiles];
      var l := 0;
      while l < |lists|
        invariant 0 <= l <= |lists|
        invariant totalSize == TotalSize(Flatten(lists[..l]))
        invariant files == QueueEntries(Flatten(lists[..l]))
      {
        var fileList := lists[l];
        ghost var sizeBefore, filesBefore := totalSize, files;
        var i := 0;
        while i < |fileList|
          invariant 0 <= i <= |fileList|
          invariant totalSize == sizeBefore + TotalSize(fileList[..i])
          invariant files == filesBefore + QueueEntries(fileList[..i])
        {
          var fileInfo := fileList[i];
          assert fileList[..i + 1][..i] == fileList[..i];
          totalSize := totalSize + fileInfo.size;
          files := files + [QueueEntry(fileInfo.path, fileInfo.relativePath, fileInfo.size, Queued)];
          i := i + 1;
        }
        assert fileList[..i] == fileList;
        assert lists[..l + 1][..l] == lists[..l];
        TotalSizeAppend(Flatten(lists[..l]), fileList);
        QueueEntriesAppend(Flatten(lists[..l]), fileList);
        l := l + 1;
      }
      assert lists[..l] == lists;
      FlattenPair(candidates.newFiles, candidates.modifiedFiles);
      QueueEntriesAt(candidates.newFiles + candidates.modifiedFiles);
      queue := TransferQueue(totalFiles, totalSize, files);
    }

    /** Records a file as transferred. The row is keyed by the file's path
        relative to the master directory and holds its current hash, size
        and mtime; nothing changes when `stat` or `relative_to` raises. */
    method MarkAsTransferred(filePath: string, stat: Attempt<FileStat>, hashOf: HashOracle, now: int, transferMethod: string := "manual")
      returns (outcome: MarkOutcome)
      modifies this
      ensures stat.Raised? ==> outcome == StatFailed(stat.message) && transferred == old(transferred)
      ensures stat.Ok? && RelativeTo(masterDir, filePath).None? ==>
        outcome == OutsideMasterDir && transferred == old(transferred)
      ensures stat.Ok? && RelativeTo(masterDir, filePath).Some? ==>
        outcome == Marked &&
        transferred == Upsert(old(transferred), RelativeTo(masterDir, filePath).value,
                              TransferRecord(hashOf(filePath), stat.value.size, stat.value.mtime, now, transferMethod))
    {
      if stat.Raised? {
        return StatFailed(stat.message);
      }
      var fileHash := hashOf(filePath);
      var relativePath := RelativeTo(masterDir, filePath);
      if relativePath.None? {
        return OutsideMasterDir;
      }
      transferred := transferred[relativePath.value := TransferRecord(fileHash, stat.value.size, stat.value.mtime, now, transferMethod)];
      outcome := Marked;
    }

    method AppendPathLines(report: seq<string>, marker: string, shown: seq<MasterFile>) returns (r: seq<string>)
      ensures r == report + PathLines(marker, shown)
    {
      r := report;
      var i := 0;
      while i < |shown|
        invariant 0 <= i <= |shown|
        invariant r == report + PathLines(marker, shown[..i])
      {
        assert shown[..i + 1][..i] == shown[..i];
        r := r + [marker + shown[i].relativePath];
        i := i + 1;
      }
      assert shown[..i] == shown;
    }

    /** One `if total > 0:` block of `generate_sync_report`. */
    method AppendSection(report: seq<string>, title: string, marker: string, files: seq<MasterFile>, blankAfter: bool)
      returns (r: seq<string>)
      ensures r == report + Section(title, marker, files, blankAfter)
    {
      r := report;
      var total := |files|;
      if total > 0 {
        ghost var shown := files[..Min(Preview, total)];
        r := r + [title];
        r := AppendPathLines(r, marker, files[..Min(Preview, total)]);
        ghost var more: seq<string> := [];
        if total > Preview {
          more := [MoreLine(marker, total - Preview)];
          r := r + [marker + "... and " + NatToString(total - Preview) + " more"];
        }
        ghost var blank: seq<string> := [];
        if blankAfter {
          blank := [""];
          r := r + [""];
        }
        assert Section(title, marker, files, blankAfter) == [title] + PathLines(marker, shown) + more + blank;
        Regroup(report, [title], PathLines(marker, shown), more, blank);
      }
    }

    /** The report text for a classification. */
    method GenerateSyncReport(candidates: Candidates, scanTime: string, formatMb: int -> string) returns (text: string)
      ensures text == JoinLines(ReportLines(candidates, scanTime, formatMb))
    {
      var report := ["=== DOPPLER SYNC ANALYSIS ==="];
      report := report + ["Scan completed: " + scanTime];
      report := report + [""];
      var totalNew := |candidates.newFiles|;
      var totalModified := |candidates.modifiedFiles|;
      var totalSize := TotalSize(candidates.newFiles + candidates.modifiedFiles);
      report := report + ["Files to sync: " + NatToString(totalNew + totalModified)];
      report := report + [Bullet + "New files: " + NatToString(totalNew)];
      report := report + [Bullet + "Modified files: " + NatToString(totalModified)];
      report := report + ["Total size: " + formatMb(totalSize) + " MB"];
      report := report + [""];
      assert report == Header(candidates, scanTime, formatMb);
      report := AppendSection(report, "NEW FILES:", NewMarker, candidates.newFiles, true);
      report := AppendSection(report, "MODIFIED FILES:", ModifiedMarker, candidates.modifiedFiles, false);
      text := JoinLines(report);
    }
  }
}
