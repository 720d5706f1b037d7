/** The app-container file lister: it opens the house-arrest file service
    of one installed app and lists the regular, non-hidden files directly
    under one folder of its container.

    The device library is given by what its calls answer: connecting, the
    plain file service and the house-arrest service each either return or
    raise, and the container's `listdir` and `stat` are functions of the path
    that do the same. */
module AppFiles {
  import opened Common
  import opened Afc
  import PyPath

  const BundleId := "com.redshiftplayer.mobile"
  const MusicFolder := "Documents/Music"

  /** An app container opened through house arrest. */
  datatype Container = Container(listdir: string -> Attempt<seq<string>>, stat: string -> Attempt<Stat>)

  /** A device connection: the plain file service, which is opened and then
      unused, and the house-arrest service for any bundle identifier. */
  datatype Lockdown = Lockdown(afc: Attempt<()>, houseArrest: string -> Attempt<Container>)

  /** One output record. */
  datatype AppFile = AppFile(name: string, size: int, path: string)

  /** What the lister prints: a file array, or the app-not-installed record. */
  datatype Outcome = Files(entries: seq<AppFile>) | AppNotInstalled(message: string)

  /** `item.startswith('.')`. */
  predicate IsHidden(item: string) {
    item != [] && item[0] == '.'
  }

  /** The record one listed name yields, if any. A hidden name is skipped
      before it is looked at; a `stat` that raises, or a result without
      `st_ifmt`, or a regular file without `st_size` (both read with `[...]`,
      so a missing key raises) skips the name; so does any type other than
      a regular file. */
  function EntryOf(remotePath: string, item: string, stat: string -> Attempt<Stat>): Option<AppFile> {
    if IsHidden(item) then None
    else
      var filePath := PyPath.Join(remotePath, item);
      match stat(filePath)
      case Raised(_) => None
      case Ok(info) =>
        if info.ifmt.None? then None
        else if info.ifmt.value != RegularFile then None
        else if info.size.None? then None
        else Some(AppFile(item, info.size.value, filePath))
  }

  /** The files the loop over `items` collects, in listing order. */
  function AppFilter(items: seq<string>, remotePath: string, stat: string -> Attempt<Stat>): seq<AppFile> {
    if items == [] then []
    else AppFilter(items[..|items| - 1], remotePath, stat) + Kept(EntryOf(remotePath, items[|items| - 1], stat))
  }

  /** The records one name adds to the output: none or one. */
  function Kept(e: Option<AppFile>): seq<AppFile> {
    if e.Some? then [e.value] else []
  }

  /** The listing step: the files under `remotePath` of an open container;
      a `listdir` that raises gives no files. */
  method CollectFiles(container: Container, remotePath: string) returns (files: seq<AppFile>)
    ensures container.listdir(remotePath).Raised? ==> files == []
    ensures container.listdir(remotePath).Ok? ==> files == AppFilter(container.listdir(remotePath).value, remotePath, container.stat)
  {
    files := [];
    var listing := container.listdir(remotePath);
    if listing.Raised? {
      return;
    }
    var items := listing.value;
    var i := 0;
    while i < |items|
      invariant 0 <= i <= |items|
      invariant files == AppFilter(items[..i], remotePath, container.stat)
    {
      var item := items[i];
      assert items[..i + 1][..i] == items[..i];
      if !(item != [] && item[0] == '.') {
        var filePath := PyPath.Join(remotePath, item);
        var info := container.stat(filePath);
        if info.Ok? && info.value.ifmt.Some? && info.value.ifmt.value == RegularFile && info.value.size.Some? {
          files := files + [AppFile(item, info.value.size.value, filePath)];
        }
      }
      i := i + 1;
    }
    assert items[..i] == items;
  }

  /** What listing an open container gives: `[]` when `listdir` raises,
      and otherwise the filtered listing. */
  predicate CollectFilesOutcome(container: Container, remotePath: string, outcome: Outcome) {
    if container.listdir(remotePath).Raised? then outcome == Files([])
    else outcome == Files(AppFilter(container.listdir(remotePath).value, remotePath, container.stat))
  }

  /** The printed outcome and exit code of `list_app_files`: a failing
      connection or file service gives `[]` with 0, a failing house arrest
      gives `APP_NOT_INSTALLED` with the exception's text and 1, and an
      open container gives its listing with 0. */
  predicate ListedAs(bundleId: string, remotePath: string, connect: Attempt<Lockdown>, outcome: Outcome, exitCode: int) {
    if connect.Raised? || connect.value.afc.Raised? then
      outcome == Files([]) && exitCode == 0
    else if connect.value.houseArrest(bundleId).Raised? then
      outcome == AppNotInstalled(connect.value.houseArrest(bundleId).message) && exitCode == 1
    else
      CollectFilesOutcome(connect.value.houseArrest(bundleId).value, remotePath, outcome) && exitCode == 0
  }

  /** `list_app_files(bundle_id, remote_path)`; `connect` is what connecting
      to the device gives, or the exception it raised. */
  method ListAppFiles(bundleId: string, remotePath: string, connect: Attempt<Lockdown>) returns (outcome: Outcome, exitCode: int)
    ensures exitCode == (if outcome.AppNotInstalled? then 1 else 0)
    ensures ListedAs(bundleId, remotePath, connect, outcome, exitCode)
  {
    if connect.Raised? {
      return Files([]), 0;
    }
    var lockdown := connect.value;
    if lockdown.afc.Raised? {
      return Files([]), 0;
    }
    var houseArrest := lockdown.houseArrest(bundleId);
    if houseArrest.Raised? {
      return AppNotInstalled(houseArrest.message), 1;
    }
    var files := CollectFiles(houseArrest.value, remotePath);
    return Files(files), 0;
  }

  /** The script as run: when the device library cannot be imported it
      prints an empty array; otherwise it lists the music folder of the
      player app. */
  method ListDeviceFiles(libraryAvailable: bool, connect: Attempt<Lockdown>) returns (outcome: Outcome, exitCode: int)
    ensures !libraryAvailable ==> outcome == Files([]) && exitCode == 0
    ensures libraryAvailable ==> ListedAs(BundleId, MusicFolder, connect, outcome, exitCode)
    ensures exitCode == 1 <==> libraryAvailable && ExitsOne(connect)
    ensures outcome.AppNotInstalled? <==> exitCode == 1
  {
    if !libraryAvailable {
      return Files([]), 0;
    }
    outcome, exitCode := ListAppFiles(BundleId, MusicFolder, connect);
  }

  /** The one way to exit with code 1: connected, the file service opened,
      and the house-arrest service for the player app refused. */
  predicate ExitsOne(connect: Attempt<Lockdown>) {
    connect.Ok? && connect.value.afc.Ok? && connect.value.houseArrest(BundleId).Raised?
  }

  // ----------------------------------------------------------------- lemmas

  /** The outcome relation is a function of the device's answers: it fixes
      exactly one printed outcome and one exit code. */
  lemma ListedAsDeterministic(bundleId: string, remotePath: string, connect: Attempt<Lockdown>,
                              o1: Outcome, e1: int, o2: Outcome, e2: int)
    requires ListedAs(bundleId, remotePath, connect, o1, e1)
    requires ListedAs(bundleId, remotePath, connect, o2, e2)
    ensures o1 == o2 && e1 == e2
  {
  }

  lemma {:induction false} AppFilterAppend(a: seq<string>, b: seq<string>, remotePath: string, stat: string -> Attempt<Stat>)
    ensures AppFilter(a + b, remotePath, stat) == AppFilter(a, remotePath, stat) + AppFilter(b, remotePath, stat)
    decreases |b|
  {
    if b == [] {
      assert a + b == a;
    } else {
      var init := b[..|b| - 1];
      assert (a + b)[..|a + b| - 1] == a + init;
      assert (a + b)[|a + b| - 1] == b[|b| - 1];
      AppFilterAppend(a, init, remotePath, stat);
      ConcatAssoc(AppFilter(a, remotePath, stat), AppFilter(init, remotePath, stat), Kept(EntryOf(remotePath, b[|b| - 1], stat)));
    }
  }

  lemma AppFilterSingle(item: string, remotePath: string, stat: string -> Attempt<Stat>)
    ensures AppFilter([item], remotePath, stat) == Kept(EntryOf(remotePath, item, stat))
  {
    assert [item][..0] == [];
  }

  lemma AppFilterSplit(items: seq<string>, i: int, remotePath: string, stat: string -> Attempt<Stat>)
    requires 0 <= i < |items|
    ensures AppFilter(items, remotePath, stat) ==
      AppFilter(items[..i], remotePath, stat) + AppFilter([items[i]], remotePath, stat) + AppFilter(items[i + 1..], remotePath, stat)
  {
    var rest := items[i..];
    assert items == items[..i] + rest;
    assert rest == [items[i]] + items[i + 1..];
    AppFilterAppend(items[..i], rest, remotePath, stat);
    AppFilterAppend([items[i]], items[i + 1..], remotePath, stat);
    ConcatAssoc(AppFilter(items[..i], remotePath, stat), AppFilter([items[i]], remotePath, stat), AppFilter(items[i + 1..], remotePath, stat));
  }

  /** Every output record is a listed, non-hidden name whose path joins the
      folder and the name and whose `stat` found a regular file of that size:
      no hidden entry, directory or other type is ever listed. */
  lemma {:induction false} AppFilterSound(items: seq<string>, remotePath: string, stat: string -> Attempt<Stat>)
    ensures forall e :: e in AppFilter(items, remotePath, stat) ==>
      && e.name in items
      && !IsHidden(e.name)
      && e.path == PyPath.Join(remotePath, e.name)
      && stat(e.path) == Ok(Stat(Some(RegularFile), Some(e.size)))
  {
    if items != [] {
      var init := items[..|items| - 1];
      AppFilterSound(init, remotePath, stat);
      assert forall x :: x in init ==> x in items;
    }
  }

  /** A non-hidden listed name whose `stat` finds a regular file with a size
      is listed, with that size and the joined path. */
  lemma AppFilterComplete(items: seq<string>, i: int, remotePath: string, stat: string -> Attempt<Stat>, size: int)
    requires 0 <= i < |items| && !IsHidden(items[i])
    requires stat(PyPath.Join(remotePath, items[i])).Ok?
    requires
      var info := stat(PyPath.Join(remotePath, items[i])).value;
      info.ifmt == Some(RegularFile) && info.size == Some(size)
    ensures AppFile(items[i], size, PyPath.Join(remotePath, items[i])) in AppFilter(items, remotePath, stat)
  {
    AppFilterSplit(items, i, remotePath, stat);
    AppFilterSingle(items[i], remotePath, stat);
  }

  /** A name whose `stat` raises, or finds no regular file, drops out alone:
      the rest of the listing is kept as if that name were not there. */
  lemma SkippedItemDropsOnlyItself(items: seq<string>, i: int, remotePath: string, stat: string -> Attempt<Stat>)
    requires 0 <= i < |items|
    requires
      var info := stat(PyPath.Join(remotePath, items[i]));
      IsHidden(items[i]) || info.Raised? || info.value.ifmt != Some(RegularFile) || info.value.size.None?
    ensures AppFilter(items, remotePath, stat) == AppFilter(items[..i] + items[i + 1..], remotePath, stat)
  {
    AppFilterSplit(items, i, remotePath, stat);
    AppFilterSingle(items[i], remotePath, stat);
    AppFilterAppend(items[..i], items[i + 1..], remotePath, stat);
    assert AppFilter(items[..i], remotePath, stat) + [] == AppFilter(items[..i], remotePath, stat);
  }

  /** Output order follows listing order: of two listed names that both
      yield records, the earlier one's record comes first. */
  lemma AppFilterInOrder(items: seq<string>, i: int, j: int, remotePath: string, stat: string -> Attempt<Stat>)
    requires 0 <= i < j < |items|
    requires EntryOf(remotePath, items[i], stat).Some? && EntryOf(remotePath, items[j], stat).Some?
    ensures exists p, q :: (0 <= p < q < |AppFilter(items, remotePath, stat)| &&
      AppFilter(items, remotePath, stat)[p] == EntryOf(remotePath, items[i], stat).value &&
      AppFilter(items, remotePath, stat)[q] == EntryOf(remotePath, items[j], stat).value)
  {
    var r := AppFilter(items, remotePath, stat);
    var head := items[..j];
    AppFilterSplit(items, j, remotePath, stat);
    AppFilterSingle(items[j], remotePath, stat);
    AppFilterSplit(head, i, remotePath, stat);
    AppFilterSingle(items[i], remotePath, stat);
    var left := AppFilter(head, remotePath, stat);
    var p := |AppFilter(head[..i], remotePath, stat)|;
    assert head[i] == items[i];
    assert left[p] == EntryOf(remotePath, items[i], stat).value;
    assert r[p] == left[p];
    assert r[|left|] == EntryOf(remotePath, items[j], stat).value;
  }

  /** Three listed names of which only the middle one yields a record
      give exactly that record. */
  lemma OnlyMiddleKept(first: string, middle: string, last: string, remotePath: string, stat: string -> Attempt<Stat>, rec: AppFile)
    requires EntryOf(remotePath, first, stat) == None && EntryOf(remotePath, last, stat) == None
    requires EntryOf(remotePath, middle, stat) == Some(rec)
    ensures AppFilter([first, middle, last], remotePath, stat) == [rec]
  {
    assert AppFilter([first, middle], remotePath, stat) == [rec] by {
      AppFilterSingle(first, remotePath, stat);
      AppFilterSingle(middle, remotePath, stat);
      AppFilterAppend([first], [middle], remotePath, stat);
      assert [first] + [middle] == [first, middle];
    }
    AppFilterSingle(last, remotePath, stat);
    AppFilterAppend([first, middle], [last], remotePath, stat);
    assert [first, middle] + [last] == [first, middle, last];
  }

  lemma JoinPath(item: string, joined: string)
    requires !PyPath.IsAbsolute(item) && joined == MusicFolder + "/" + item
    ensures PyPath.Join(MusicFolder, item) == joined
  {
    assert MusicFolder[|MusicFolder| - 1] != '/';
  }

  lemma TrackEntry(stat: string -> Attempt<Stat>)
    requires stat("Documents/Music/track1.mp3") == Ok(Stat(Some(RegularFile), Some(1000)))
    ensures EntryOf(MusicFolder, "track1.mp3", stat) == Some(AppFile("track1.mp3", 1000, "Documents/Music/track1.mp3"))
  {
    JoinPath("track1.mp3", "Documents/Music/track1.mp3");
  }

  lemma CoversEntry(stat: string -> Attempt<Stat>)
    requires stat("Documents/Music/covers").Ok? && stat("Documents/Music/covers").value.ifmt == Some(Directory)
    ensures EntryOf(MusicFolder, "covers", stat) == None
  {
    JoinPath("covers", "Documents/Music/covers");
  }

  /** The example listing: a hidden entry, a one-kilobyte track and a
      sub-folder give exactly the track, under the joined path. */
  lemma ExampleListing(stat: string -> Attempt<Stat>)
    requires stat("Documents/Music/track1.mp3") == Ok(Stat(Some(RegularFile), Some(1000)))
    requires stat("Documents/Music/covers").Ok? && stat("Documents/Music/covers").value.ifmt == Some(Directory)
    ensures AppFilter([".DS_Store", "track1.mp3", "covers"], MusicFolder, stat) ==
      [AppFile("track1.mp3", 1000, "Documents/Music/track1.mp3")]
  {
    assert IsHidden(".DS_Store");
    TrackEntry(stat);
    CoversEntry(stat);
    OnlyMiddleKept(".DS_Store", "track1.mp3", "covers", MusicFolder, stat, AppFile("track1.mp3", 1000, "Documents/Music/track1.mp3"));
  }
}
