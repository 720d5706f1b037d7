/** The device music lister: it walks the device's media folders through the
    file service, keeps the music files, asks the tag reader for each file's
    metadata, and reports progress as it goes.

    The device is given by what its file service answers: a `Listing` is what
    `listdir` returns for one directory, and every name in it carries what
    `stat` returns for the joined path and, for a directory, its own listing. */
module DeviceMusic {
  import opened Common
  import PyPath
  import opened Afc

  datatype Listing = Unreadable(message: string) | Listed(entries: seq<DirEntry>)
  datatype DirEntry = DirEntry(name: string, stat: Attempt<Stat>, contents: Listing)

  datatype MusicFile = MusicFile(path: string, name: string, size: int)

  /** The dictionary `extract_metadata` builds: each of its three keys is
      absent (`None` here) when the file has no such tag, and otherwise holds
      the first value of the tag, or `None` when the tag's value list was empty. */
  datatype Metadata = Metadata(artist: Option<Option<string>>, title: Option<Option<string>>, album: Option<Option<string>>)

  datatype LibraryFile = LibraryFile(path: string, name: string, size: int, metadata: Option<Metadata>)

  datatype Sample = Sample(title: Option<string>, artist: Option<string>, album: Option<string>)

  /** The progress lines written to standard error. */
  datatype Progress = MetadataExtraction(total: nat) | Extracting(current: nat, total: nat, sample: Option<Sample>)

  datatype LibraryResult = Library(files: seq<LibraryFile>, total: nat, withMetadata: nat) | LibraryError(error: string)

  /** What a connected device offers: listings under any path, and the tag
      reader's answer (`extract_metadata`) for any file path. */
  datatype MusicDevice = MusicDevice(listing: string -> Listing, extract: string -> Option<Metadata>)

  const MusicExtensions: set<string> := {".mp3", ".m4a", ".aac", ".flac", ".wav", ".ogg", ".opus", ".wma"}
  const MusicRoots: seq<string> := ["Media/iTunes_Control/Music", "iTunes_Control/Music", "Media/Music"]
  /** Progress is reported after every this many files. */
  const ProgressStep := 10

  predicate IsMusicName(name: string) {
    PyPath.Ext(PyPath.Lower(name)) in MusicExtensions
  }

  predicate IsDotEntry(name: string) {
    name == "." || name == ".."
  }

  // ---------------------------------------------------------------- the scan

  /** What `scan_directory` returns for the directory at `base`. */
  function Scan(l: Listing, base: string): seq<MusicFile>
    decreases l
  {
    match l
    case Unreadable(_) => []
    case Listed(entries) => ScanEntries(entries, base)
  }

  function ScanEntries(es: seq<DirEntry>, base: string): seq<MusicFile>
    decreases es
  {
    if es == [] then []
    else ScanEntries(es[..|es| - 1], base) + EntryFiles(es[|es| - 1], base)
  }

  /** The files one listed name contributes. */
  function EntryFiles(e: DirEntry, base: string): seq<MusicFile>
    decreases e
  {
    if IsDotEntry(e.name) then []
    else
      var fullPath := base + "/" + e.name;
      match e.stat
      case Raised(_) => []
      case Ok(st) =>
        if st.ifmt.None? then []
        else if st.ifmt.value == Directory then Scan(e.contents, fullPath)
        else if IsMusicName(e.name) then [MusicFile(fullPath, e.name, st.size.GetOr(0))]
        else []
  }

  /** `scan_directory(afc, path)`: the recursive walk itself. */
  method ScanDirectory(listing: Listing, path: string) returns (files: seq<MusicFile>)
    ensures files == Scan(listing, path)
    decreases listing
  {
    files := [];
    if listing.Unreadable? {
      return;
    }
    var entries := listing.entries;
    var i := 0;
    while i < |entries|
      invariant 0 <= i <= |entries|
      invariant files == ScanEntries(entries[..i], path)
    {
      var entry := entries[i];
      assert entries[..i + 1][..i] == entries[..i];
      i := i + 1;
      if entry.name == "." || entry.name == ".." {
        continue;
      }
      var fullPath := path + "/" + entry.name;
      if entry.stat.Raised? {
        continue;
      }
      var stat := entry.stat.value;
      if stat.ifmt.None? {
        continue;
      }
      if stat.ifmt.value == Directory {
        var sub := ScanDirectory(entry.contents, fullPath);
        files := files + sub;
      } else {
        var ext := PyPath.Ext(PyPath.Lower(entry.name));
        if ext in MusicExtensions {
          files := files + [MusicFile(fullPath, entry.name, stat.size.GetOr(0))];
        }
      }
    }
    assert entries[..i] == entries;
  }

  // ------------------------------------------------------ what the scan keeps

  /** `d` is `base` or lies below it. */
  ghost predicate Under(d: string, base: string) {
    d == base || StartsWith(d, base + "/")
  }

  /** `f` is named `f.name` inside a directory at or below `base`. */
  ghost predicate Placed(f: MusicFile, base: string) {
    exists d :: Under(d, base) && f.path == d + "/" + f.name
  }

  lemma UnderNested(d: string, base: string, name: string)
    requires Under(d, base + "/" + name)
    ensures Under(d, base) && |d| > |base|
  {
    var sub := base + "/" + name;
    assert sub[..|base| + 1] == base + "/";
    if d != sub {
      assert d[..|sub| + 1][..|base| + 1] == d[..|base| + 1];
    }
  }

  /** Every emitted file is a music file, never `.` or `..`, and its path is
      its parent directory's path, a slash and its name, for a parent at or
      below the scanned directory. */
  lemma {:induction false} ScanSound(l: Listing, base: string)
    ensures forall f :: f in Scan(l, base) ==> !IsDotEntry(f.name) && IsMusicName(f.name) && Placed(f, base)
    decreases l
  {
    match l
    case Unreadable(_) =>
    case Listed(entries) => ScanEntriesSound(entries, base);
  }

  lemma {:induction false} ScanEntriesSound(es: seq<DirEntry>, base: string)
    ensures forall f :: f in ScanEntries(es, base) ==> !IsDotEntry(f.name) && IsMusicName(f.name) && Placed(f, base)
    decreases es
  {
    if es != [] {
      ScanEntriesSound(es[..|es| - 1], base);
      EntryFilesSound(es[|es| - 1], base);
    }
  }

  lemma {:induction false} EntryFilesSound(e: DirEntry, base: string)
    ensures forall f :: f in EntryFiles(e, base) ==> !IsDotEntry(f.name) && IsMusicName(f.name) && Placed(f, base)
    decreases e
  {
    if !IsDotEntry(e.name) && e.stat.Ok? && e.stat.value.ifmt.Some? {
      var sub := base + "/" + e.name;
      if e.stat.value.ifmt.value == Directory {
        ScanSound(e.contents, sub);
        forall f | f in EntryFiles(e, base) ensures Placed(f, base) {
          var d :| Under(d, sub) && f.path == d + "/" + f.name;
          UnderNested(d, base, e.name);
        }
      } else {
        forall f | f in EntryFiles(e, base) ensures Placed(f, base) {
          assert Under(base, base) && f.path == base + "/" + f.name;
        }
      }
    }
  }

  /** A directory is recursed into and never emitted itself: every file it
      contributes has a path strictly longer than the directory's. */
  lemma DirectoryNotEmitted(e: DirEntry, base: string)
    requires !IsDotEntry(e.name) && e.stat.Ok? && e.stat.value.ifmt == Some(Directory)
    ensures EntryFiles(e, base) == Scan(e.contents, base + "/" + e.name)
    ensures forall f :: f in EntryFiles(e, base) ==> |f.path| > |base + "/" + e.name|
  {
    var sub := base + "/" + e.name;
    ScanSound(e.contents, sub);
    forall f | f in EntryFiles(e, base) ensures |f.path| > |sub| {
      var d :| Under(d, sub) && f.path == d + "/" + f.name;
      assert |d| >= |sub|;
    }
  }

  lemma {:induction false} ScanEntriesAppend(a: seq<DirEntry>, b: seq<DirEntry>, base: string)
    ensures ScanEntries(a + b, base) == ScanEntries(a, base) + ScanEntries(b, base)
    decreases |b|
  {
    if b == [] {
      assert a + b == a;
    } else {
      var init := b[..|b| - 1];
      assert (a + b)[..|a + b| - 1] == a + init;
      assert (a + b)[|a + b| - 1] == b[|b| - 1];
      ScanEntriesAppend(a, init, base);
      ConcatAssoc(ScanEntries(a, base), ScanEntries(init, base), EntryFiles(b[|b| - 1], base));
    }
  }

  lemma ScanEntriesSplit(es: seq<DirEntry>, i: int, base: string)
    requires 0 <= i < |es|
    ensures ScanEntries(es, base) == ScanEntries(es[..i], base) + EntryFiles(es[i], base) + ScanEntries(es[i + 1..], base)
  {
    assert es == es[..i] + [es[i]] + es[i + 1..];
    ScanEntriesAppend(es[..i] + [es[i]], es[i + 1..], base);
    ScanEntriesAppend(es[..i], [es[i]], base);
    assert [es[i]][..0] == [];
  }

  /** An entry the scan skips (a dot entry, one whose `stat` raises or lacks
      `st_ifmt`, a non-music file, or a directory whose own `listdir` fails)
      drops out alone: the rest of the directory is scanned as if it were not
      listed. Neither failure aborts the scan. */
  lemma SkippedEntryDropsOnlyItself(es: seq<DirEntry>, i: int, base: string)
    requires 0 <= i < |es|
    requires
      var e := es[i];
      || IsDotEntry(e.name)
      || e.stat.Raised?
      || e.stat.value.ifmt.None?
      || (e.stat.value.ifmt.value != Directory && !IsMusicName(e.name))
      || (e.stat.value.ifmt.value == Directory && e.contents.Unreadable?)
    ensures ScanEntries(es, base) == ScanEntries(es[..i], base) + ScanEntries(es[i + 1..], base)
  {
    ScanEntriesSplit(es, i, base);
  }

  /** A listed music file that stats as a non-directory is emitted, with the
      joined path and `st_size`, or 0 when that key is absent. */
  lemma MusicFileEmitted(es: seq<DirEntry>, i: int, base: string)
    requires 0 <= i < |es|
    requires !IsDotEntry(es[i].name) && es[i].stat.Ok? && es[i].stat.value.ifmt.Some?
    requires es[i].stat.value.ifmt.value != Directory && IsMusicName(es[i].name)
    ensures MusicFile(base + "/" + es[i].name, es[i].name, es[i].stat.value.size.GetOr(0)) in ScanEntries(es, base)
  {
    ScanEntriesSplit(es, i, base);
  }

  // ------------------------------------------------------------- the library

  /** `all_files`: the scans of the roots, concatenated in order. */
  function AllFiles(roots: seq<string>, listing: string -> Listing): seq<MusicFile> {
    if roots == [] then []
    else AllFiles(roots[..|roots| - 1], listing) + Scan(listing(roots[|roots| - 1]), roots[|roots| - 1])
  }

  lemma {:induction false} AllFilesAppend(a: seq<string>, b: seq<string>, listing: string -> Listing)
    ensures AllFiles(a + b, listing) == AllFiles(a, listing) + AllFiles(b, listing)
    decreases |b|
  {
    if b == [] {
      assert a + b == a;
    } else {
      AllFilesAppend(a, b[..|b| - 1], listing);
      assert (a + b)[..|a + b| - 1] == a + b[..|b| - 1];
    }
  }

  lemma AllFilesSingle(root: string, listing: string -> Listing)
    ensures AllFiles([root], listing) == Scan(listing(root), root)
  {
    assert [root][..0] == [];
  }

  lemma AllFilesSplit(roots: seq<string>, j: int, listing: string -> Listing)
    requires 0 <= j < |roots|
    ensures AllFiles(roots, listing) ==
      AllFiles(roots[..j], listing) + Scan(listing(roots[j]), roots[j]) + AllFiles(roots[j + 1..], listing)
  {
    var before, rest, after := roots[..j], roots[j..], roots[j + 1..];
    assert roots == before + rest;
    assert rest == [roots[j]] + after;
    var f, s, g := AllFiles(before, listing), Scan(listing(roots[j]), roots[j]), AllFiles(after, listing);
    AllFilesAppend(before, rest, listing);
    assert AllFiles(roots, listing) == f + AllFiles(rest, listing);
    AllFilesAppend([roots[j]], after, listing);
    AllFilesSingle(roots[j], listing);
    assert AllFiles(rest, listing) == s + g;
    ConcatAssoc(f, s, g);
  }

  /** A root whose listing fails contributes nothing: the result is that of
      the other roots, in their order. */
  lemma UnreadableRootContributesNothing(roots: seq<string>, j: int, listing: string -> Listing)
    requires 0 <= j < |roots| && listing(roots[j]).Unreadable?
    ensures AllFiles(roots, listing) == AllFiles(roots[..j] + roots[j + 1..], listing)
  {
    AllFilesSplit(roots, j, listing);
    AllFilesAppend(roots[..j], roots[j + 1..], listing);
    assert AllFiles(roots[..j], listing) + [] == AllFiles(roots[..j], listing);
  }

  /** `if metadata:` — present and holding at least one key. */
  predicate Truthy(md: Option<Metadata>) {
    md.Some? && (md.value.artist.Some? || md.value.title.Some? || md.value.album.Some?)
  }

  function Annotate(f: MusicFile, md: Option<Metadata>): LibraryFile {
    LibraryFile(f.path, f.name, f.size, if Truthy(md) then md else None)
  }

  /** `sum(1 for f in all_files if 'metadata' in f)`. */
  function CountWithMetadata(files: seq<LibraryFile>): nat {
    if files == [] then 0
    else CountWithMetadata(files[..|files| - 1]) + (if files[|files| - 1].metadata.Some? then 1 else 0)
  }

  ghost function MetadataIndices(files: seq<LibraryFile>): set<int> {
    set i | 0 <= i < |files| && files[i].metadata.Some?
  }

  /** The count is the number of files that carry metadata. */
  lemma {:induction false} CountWithMetadataCounts(files: seq<LibraryFile>)
    ensures CountWithMetadata(files) == |MetadataIndices(files)|
  {
    if files != [] {
      var init := files[..|files| - 1];
      CountWithMetadataCounts(init);
      var n := |files| - 1;
      if files[n].metadata.Some? {
        assert MetadataIndices(files) == MetadataIndices(init) + {n};
      } else {
        assert MetadataIndices(files) == MetadataIndices(init);
      }
    }
  }

  /** `with_metadata` counts exactly the files for which the tag reader found
      some tag, and those files carry what it found. */
  lemma WithMetadataCountsTaggedFiles(files: seq<LibraryFile>, all: seq<MusicFile>, extract: string -> Option<Metadata>)
    requires |files| == |all|
    requires forall i :: 0 <= i < |all| ==> files[i] == Annotate(all[i], extract(all[i].path))
    ensures CountWithMetadata(files) == |set i | 0 <= i < |all| && Truthy(extract(all[i].path))|
    ensures forall i :: 0 <= i < |all| && files[i].metadata.Some? ==> files[i].metadata == extract(all[i].path)
  {
    CountWithMetadataCounts(files);
    assert MetadataIndices(files) == set i | 0 <= i < |all| && Truthy(extract(all[i].path));
  }

  /** `metadata.get(key)`: the stored value, or `None` when the key is absent. */
  function Get(entry: Option<Option<string>>): Option<string> {
    if entry.Some? then entry.value else None
  }

  function SampleOf(md: Option<Metadata>): Option<Sample> {
    if Truthy(md) then Some(Sample(Get(md.value.title), Get(md.value.artist), Get(md.value.album))) else None
  }

  predicate ReportsAt(i: nat, total: nat) {
    (i + 1) % ProgressStep == 0 || i + 1 == total
  }

  /** The `extracting` records written for the first `n` files. */
  function ProgressRecords(all: seq<MusicFile>, extract: string -> Option<Metadata>, n: nat): seq<Progress>
    requires n <= |all|
  {
    if n == 0 then []
    else
      ProgressRecords(all, extract, n - 1) +
        (if ReportsAt(n - 1, |all|) then [Extracting(n, |all|, SampleOf(extract(all[n - 1].path)))] else [])
  }

  lemma ProgressRecordsNext(all: seq<MusicFile>, extract: string -> Option<Metadata>, i: nat)
    requires i < |all|
    ensures ProgressRecords(all, extract, i + 1) == ProgressRecords(all, extract, i) +
      (if ReportsAt(i, |all|) then [Extracting(i + 1, |all|, SampleOf(extract(all[i].path)))] else [])
  {
  }

  function Currents(ps: seq<Progress>): seq<int> {
    if ps == [] then []
    else Currents(ps[..|ps| - 1]) + (if ps[|ps| - 1].Extracting? then [ps[|ps| - 1].current] else [])
  }

  lemma CurrentsAppendOne(ps: seq<Progress>, p: Progress)
    ensures Currents(ps + [p]) == Currents(ps) + (if p.Extracting? then [p.current] else [])
  {
    assert (ps + [p])[..|ps|] == ps;
  }

  /** A progress record for file number c (counting from 1) is written exactly
      when c is a multiple of 10 or the last file. */
  lemma {:induction false} ProgressTrigger(all: seq<MusicFile>, extract: string -> Option<Metadata>, n: nat)
    requires n <= |all|
    ensures forall c :: c in Currents(ProgressRecords(all, extract, n)) <==>
      1 <= c <= n && (c % ProgressStep == 0 || c == |all|)
  {
    if n > 0 {
      ProgressTrigger(all, extract, n - 1);
      var before := ProgressRecords(all, extract, n - 1);
      if ReportsAt(n - 1, |all|) {
        CurrentsAppendOne(before, Extracting(n, |all|, SampleOf(extract(all[n - 1].path))));
      } else {
        assert before + [] == before;
      }
    }
  }

  /** Every record counts against the same total, and the record for a file
      carries the sample of that file's own metadata. */
  lemma {:induction false} ProgressRecordsCarryTotal(all: seq<MusicFile>, extract: string -> Option<Metadata>, n: nat)
    requires n <= |all|
    ensures forall p :: p in ProgressRecords(all, extract, n) ==>
      p.Extracting? && p.total == |all| && 1 <= p.current <= n && p.sample == SampleOf(extract(all[p.current - 1].path))
  {
    if n > 0 {
      ProgressRecordsCarryTotal(all, extract, n - 1);
    }
  }

  /** Records come in increasing order of file number. */
  lemma {:induction false} ProgressInOrder(all: seq<MusicFile>, extract: string -> Option<Metadata>, n: nat)
    requires n <= |all|
    ensures forall j, k :: 0 <= j < k < |Currents(ProgressRecords(all, extract, n))| ==>
      Currents(ProgressRecords(all, extract, n))[j] < Currents(ProgressRecords(all, extract, n))[k]
  {
    if n > 0 {
      ProgressInOrder(all, extract, n - 1);
      var before := ProgressRecords(all, extract, n - 1);
      if ReportsAt(n - 1, |all|) {
        ProgressTrigger(all, extract, n - 1);
        CurrentsAppendOne(before, Extracting(n, |all|, SampleOf(extract(all[n - 1].path))));
        var cs := Currents(before);
        assert forall j :: 0 <= j < |cs| ==> cs[j] in cs;
      } else {
        assert before + [] == before;
      }
    }
  }

  /** The root loop of `list_music_library`. */
  method CollectMusicFiles(listing: string -> Listing) returns (allFiles: seq<MusicFile>)
    ensures allFiles == AllFiles(MusicRoots, listing)
  {
    allFiles := [];
    var r := 0;
    while r < |MusicRoots|
      invariant 0 <= r <= |MusicRoots|
      invariant allFiles == AllFiles(MusicRoots[..r], listing)
    {
      var basePath := MusicRoots[r];
      var files := ScanDirectory(listing(basePath), basePath);
      assert MusicRoots[..r + 1][..r] == MusicRoots[..r];
      allFiles := allFiles + files;
      r := r + 1;
    }
    assert MusicRoots[..r] == MusicRoots;
  }

  /** The progress report written after file number `i + 1` of `total`: one
      record every tenth file and after the last, with a sample of the file's
      tags when the tag reader found any. */
  method ProgressLine(i: nat, total: nat, metadata: Option<Metadata>) returns (line: seq<Progress>)
    ensures line == if ReportsAt(i, total) then [Extracting(i + 1, total, SampleOf(metadata))] else []
  {
    line := [];
    if (i + 1) % ProgressStep == 0 || i + 1 == total {
      var sample: Option<Sample> := None;
      if Truthy(metadata) {
        sample := Some(Sample(Get(metadata.value.title), Get(metadata.value.artist), Get(metadata.value.album)));
      }
      line := [Extracting(i + 1, total, sample)];
    }
  }

  /** The metadata loop of `list_music_library`: each file record gains its
      tags in place when the tag reader found any, and a progress record is
      written every tenth file and after the last one. */
  method ExtractAll(allFiles: seq<MusicFile>, extract: string -> Option<Metadata>)
    returns (files: seq<LibraryFile>, progress: seq<Progress>)
    ensures |files| == |allFiles|
    ensures forall i :: 0 <= i < |allFiles| ==> files[i] == Annotate(allFiles[i], extract(allFiles[i].path))
    ensures progress == ProgressRecords(allFiles, extract, |allFiles|)
  {
    var total := |allFiles|;
    ghost var wanted := seq(total, k requires 0 <= k < total => Annotate(allFiles[k], extract(allFiles[k].path)));
    progress := [];
    var annotated := new LibraryFile[total](k requires 0 <= k < total =>
      LibraryFile(allFiles[k].path, allFiles[k].name, allFiles[k].size, None));
    var i := 0;
    while i < total
      invariant 0 <= i <= total
      invariant forall k :: 0 <= k < i ==> annotated[k] == wanted[k]
      invariant forall k :: i <= k < total ==> annotated[k] == Annotate(allFiles[k], None)
      invariant progress == ProgressRecords(allFiles, extract, i)
    {
      var fileInfo := annotated[i];
      assert fileInfo == Annotate(allFiles[i], None);
      var metadata := extract(fileInfo.path);
      if Truthy(metadata) {
        annotated[i] := fileInfo.(metadata := metadata);
      }
      assert annotated[i] == wanted[i];
      ProgressRecordsNext(allFiles, extract, i);
      var line := ProgressLine(i, total, metadata);
      progress := progress + line;
      i := i + 1;
    }
    files := annotated[..];
  }

  /** `list_music_library`: `session` is what connecting to the device and
      opening its file service gives, or the exception either raised. */
  method ListMusicLibrary(session: Attempt<MusicDevice>) returns (result: LibraryResult, progress: seq<Progress>, exitCode: int)
    ensures session.Raised? ==> result == LibraryError(session.message) && progress == [] && exitCode == 1
    ensures session.Ok? ==>
      var all := AllFiles(MusicRoots, session.value.listing);
      var extract := session.value.extract;
      && exitCode == 0
      && result.Library?
      && |result.files| == |all| == result.total
      && (forall i :: 0 <= i < |all| ==> result.files[i] == Annotate(all[i], extract(all[i].path)))
      && result.withMetadata == CountWithMetadata(result.files)
      && progress == [MetadataExtraction(|all|)] + ProgressRecords(all, extract, |all|)
  {
    if session.Raised? {
      return LibraryError(session.message), [], 1;
    }
    var device := session.value;
    var allFiles := CollectMusicFiles(device.listing);
    var files, extracting := ExtractAll(allFiles, device.extract);
    progress := [MetadataExtraction(|allFiles|)] + extracting;
    result := Library(files, |allFiles|, CountWithMetadata(files));
    exitCode := 0;
  }
}
