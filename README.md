# RedShift desktop helpers: the sync manager and the device scripts

This project models the decision and filtering logic of the RedShift desktop
helpers in Dafny and proves properties of it. The helpers are four pieces:

- **The Doppler sync manager** (`DopplerSyncManager`, module `Sync`). It scans the
  master music library and keeps audio files by extension. It compares them with
  the `transferred_files` table and sorts them into new files and modified files.
  The hash of a file is computed only when its size or mtime changed. It builds
  the transfer queue and the text report, and it records a file as transferred
  with an upsert keyed by relative path. The class keeps the table as a field of
  type `map` that `MarkAsTransferred` updates in place. Its methods are loops,
  each proved against a specification function (`AudioFiles`, `Classify`,
  `QueueEntries`/`TotalSize`, `ReportLines`).
- **The device music lister** (module `DeviceMusic`). It walks the three media
  roots of the phone recursively through the file service. It keeps music files
  and absorbs per-entry and per-directory failures. Then it tags every file with
  its metadata in place and writes a progress record every tenth file and after
  the last one.
- **The app-container file lister** (module `AppFiles`). It opens the
  house-arrest service of the player app and lists the regular, non-hidden files
  of its music folder. Its outcome is a file array, an empty array, or
  `APP_NOT_INSTALLED` with exit code 1.
- **The device identity query** (module `DeviceName`). It chooses the device
  name (the display name, with `DeviceName` as fallback) and the model
  (`ProductType`, with "iOS Device" as placeholder), and maps them to a success
  record or an error record, each with its exit code.

Shared pieces:

- `Common` holds `Option`, `Attempt` (a call that returned a value or raised an
  exception with a message) and Python's `str(int)`.
- `PyPath` models the Python path and string operations the scripts use:
  `str.lower`, `PurePath.suffix`, `os.path.splitext` and `os.path.join`.
- `Afc` holds the `stat` dictionary of the device file service. Both of its
  keys may be absent.

Every call into the device library, the filesystem, the hash function or the
tag reader is a parameter:

- the recursive walk of the master directory is a sequence of `WalkEntry`;
- `calculate_file_hash` is a function `HashOracle`;
- a device directory is a `Listing` tree that already holds what `listdir` and
  `stat` answer;
- the tag reader is a function from path to optional `Metadata`;
- the lockdown and house-arrest services are records of `Attempt` values and
  functions.

## Model

| member | source | states |
|---|---|---|
| PyPath.Lower | RedShift_Desktop/reference/sync_script.py:67 | `lower()` keeps the length, turns every ASCII capital into its small letter (code point plus 32), keeps every other character, and leaves no ASCII capital |
| PyPath.LowerIdempotent | RedShift_Desktop/reference/sync_script.py:67 | lowering twice is lowering once |
| PyPath.Suffix | RedShift_Desktop/reference/sync_script.py:67 | with `d` the last dot of the path and `start` the first position of its final component, the suffix is non-empty exactly when `start < d < len - 1`, and it is then the path from `d` on; a non-empty suffix starts with its only dot and has no separator |
| PyPath.PlainExtensions | RedShift_Desktop/reference/sync_script.py:67 | `b.MP3` has suffix `.MP3`, which lowers to `.mp3`; `Music/b.flac` splits into `Music/b` and `.flac` |
| PyPath.SplitExt | RedShift_Desktop/reference/list-device-music.py:161 | root plus extension gives back the path; the extension is empty or a single dot-part with no separator; it is non-empty only when the final component has a non-dot before the root's end, and it is empty only when every dot of the final component is preceded, within that component, by dots alone |
| PyPath.DotsThenExtension | RedShift_Desktop/reference/list-device-music.py:161 | the two rules differ: `..mp3` has suffix `.mp3` but `splitext` finds no extension in it |
| PyPath.HiddenNameHasNoExtension | RedShift_Desktop/reference/list-device-music.py:161 | `.mp3` has no extension under either rule |
| PyPath.JoinShape | RedShift_Desktop/scripts/list-device-files.py:43 | `os.path.join` ends with the name; an absolute name replaces the folder; otherwise the result is the folder and the name, with one `/` between them added exactly when the folder is non-empty and does not end in one |
| Common.NatToString | RedShift_Desktop/reference/sync_script.py:199-201 | the count rendered in the report is a non-empty string of decimal digits |
| Common.NatToStringRoundTrip | RedShift_Desktop/reference/sync_script.py:199-201 | the rendered count reads back as the same number and has no leading zero |
| Sync.DopplerSyncManager.constructor | RedShift_Desktop/reference/sync_script.py:17-24 | the master, sync, database and queue paths are built under the home directory, the audio extensions are the six listed ones, and the table holds the rows already stored |
| Sync.DopplerSyncManager.ScanMasterLibrary | RedShift_Desktop/reference/sync_script.py:62-78 | the loop returns exactly `AudioFiles` of the walk: the audio files, in walk order |
| Sync.AudioFilesMembers | RedShift_Desktop/reference/sync_script.py:24-76 | a record is kept exactly for a regular file whose lower-cased suffix is one of `.mp3 .m4a .flac .wav .aac .m4p`, and every kept record has no hash |
| Sync.DopplerSyncManager.IdentifySyncCandidates | RedShift_Desktop/reference/sync_script.py:100-137 | the loop yields `Classify` of the scan against the table; `missing_transfers` is empty; the paths handed to the hash function are exactly `HashedPaths`, in order |
| Sync.NewFilesMembers | RedShift_Desktop/reference/sync_script.py:119-121 | a scanned file is in `new_files` if and only if its relative path is not a key of the table |
| Sync.ModifiedFilesMembers | RedShift_Desktop/reference/sync_script.py:124-135 | `modified_files` holds exactly the scanned files that are in the table, differ in size or mtime, and whose new hash differs from the stored one; each carries that hash |
| Sync.RecordedFileIsNoCandidate | RedShift_Desktop/reference/sync_script.py:124-128 | a file whose row has its size and mtime is neither new nor modified |
| Sync.HashedPathsMembers | RedShift_Desktop/reference/sync_script.py:127-131 | the hash function is asked about a file if and only if it is in the table and its size or mtime differs |
| Sync.HashOnlyAtHashedPaths | RedShift_Desktop/reference/sync_script.py:127-135 | two hash functions that agree on the paths asked about give the same modified files, so the other hashes never matter |
| Sync.CandidatesDisjoint | RedShift_Desktop/reference/sync_script.py:116-135 | no relative path is both in `new_files` and in `modified_files` |
| Sync.NewFilesInOrder | RedShift_Desktop/reference/sync_script.py:116-121 | `new_files` is the scan's files at strictly increasing positions |
| Sync.ModifiedFilesInOrder | RedShift_Desktop/reference/sync_script.py:116-135 | `modified_files` is the scan's files (up to the added hash) at strictly increasing positions |
| Sync.CandidatesInScanOrder | RedShift_Desktop/reference/sync_script.py:108-137 | both candidate lists are order-preserving subsequences of the scan |
| Sync.Upsert | RedShift_Desktop/reference/sync_script.py:173-184 | `INSERT OR REPLACE` on the unique path: the key gets the new row, no other key appears, and every other row is unchanged |
| Sync.DopplerSyncManager.MarkAsTransferred | RedShift_Desktop/reference/sync_script.py:163-186 | a failing `stat` or a path outside the master directory leaves the table unchanged; otherwise the table is the upsert of the relative path with the file's hash, size, mtime, date and method (by default `manual`) |
| Sync.MarkLeavesOtherNewFiles | RedShift_Desktop/reference/sync_script.py:119-184 | after an upsert, the new files are the former ones minus those at the marked path |
| Sync.MarkLeavesOtherModifiedFiles | RedShift_Desktop/reference/sync_script.py:124-184 | after an upsert, the modified files at every other path are what they were |
| Sync.MarkThenRescan | RedShift_Desktop/reference/sync_script.py:119-184 | marking an unchanged file and rescanning: it is neither new nor modified, and the candidates at all other paths are unchanged |
| Sync.MarkAllRows | RedShift_Desktop/reference/sync_script.py:173-184 | after marking each file of a scan with distinct paths, each path's row is that file's row |
| Sync.NoCandidates | RedShift_Desktop/reference/sync_script.py:116-135 | when every scanned file matches its row in size and mtime, both candidate lists are empty |
| Sync.MarkAllThenRescan | RedShift_Desktop/reference/sync_script.py:116-184 | marking every file of a scan and rescanning the unchanged library gives no candidates at all |
| Sync.DopplerSyncManager.CreateTransferQueue | RedShift_Desktop/reference/sync_script.py:139-161 | `total_files` is `len(new) + len(modified)`, which is the number of entries; entry k is the k-th of new files then modified files, with status `queued`; `total_size` is the sum of their sizes |
| Sync.QueueEntriesAt | RedShift_Desktop/reference/sync_script.py:148-156 | the queue has one entry per file, position by position |
| Sync.TotalSizeAppend | RedShift_Desktop/reference/sync_script.py:148-156 | the total size of two lists is the sum of their totals |
| Sync.DopplerSyncManager.GenerateSyncReport | RedShift_Desktop/reference/sync_script.py:188-220 | the report is the newline-join of the header and the two sections of `ReportLines` |
| Sync.DopplerSyncManager.AppendSection | RedShift_Desktop/reference/sync_script.py:205-218 | one `if total > 0` block appends exactly `Section` to the report |
| Sync.DopplerSyncManager.AppendPathLines | RedShift_Desktop/reference/sync_script.py:207-208 | the loop appends one marked line per shown file |
| Sync.PathLinesAt | RedShift_Desktop/reference/sync_script.py:205-218 | line j is the marker followed by the j-th file's relative path |
| Sync.SectionShape | RedShift_Desktop/reference/sync_script.py:205-218 | an empty section has no lines; otherwise it has the title, the first min(10, n) paths in order, a "... and n-10 more" line exactly when n > 10, and the optional blank line |
| Sync.MarkedLinesCount | RedShift_Desktop/reference/sync_script.py:205-218 | a section has min(10, n) lines with its own marker, plus one exactly when n > 10, and none with the other marker |
| Sync.ReportListsAtMostTen | RedShift_Desktop/reference/sync_script.py:205-218 | in the whole report, the `  + ` lines number min(10, new) plus one exactly when there are more than ten new files, and the same holds for `  ~ ` and modified files |
| Sync.HeaderLines | RedShift_Desktop/reference/sync_script.py:191-203 | no header line carries a path marker or is a section title |
| Sync.SectionLinesBut | RedShift_Desktop/reference/sync_script.py:205-218 | a section holds its own title exactly when it is non-empty, and never the other title |
| Sync.ReportSectionTitles | RedShift_Desktop/reference/sync_script.py:205-218 | the title `NEW FILES:` (or `MODIFIED FILES:`) is in the report exactly when that count is positive |
| DeviceMusic.ScanDirectory | RedShift_Desktop/reference/list-device-music.py:139-176 | the recursive loop returns exactly `Scan` of the directory |
| DeviceMusic.ScanSound | RedShift_Desktop/reference/list-device-music.py:146-167 | no emitted file is `.` or `..`; each has a music extension; each path is its parent's path, `/` and its name, with the parent at or below the scanned directory |
| DeviceMusic.ScanEntriesSound | RedShift_Desktop/reference/list-device-music.py:146-167 | the same for the records of a list of entries |
| DeviceMusic.EntryFilesSound | RedShift_Desktop/reference/list-device-music.py:150-167 | the same for the records of one entry |
| DeviceMusic.DirectoryNotEmitted | RedShift_Desktop/reference/list-device-music.py:156-158 | a directory contributes exactly the scan of its own path, and every file it contributes has a longer path, so the directory itself is never emitted |
| DeviceMusic.MusicFileEmitted | RedShift_Desktop/reference/list-device-music.py:159-167 | a listed music file that stats as a non-directory is emitted with the joined path, its name and `st_size`, or 0 when that key is absent |
| DeviceMusic.SkippedEntryDropsOnlyItself | RedShift_Desktop/reference/list-device-music.py:146-174 | a dot entry, a failing `stat`, a missing `st_ifmt`, a non-music file or an unreadable sub-directory drops out alone: the result is the scan of the other entries |
| DeviceMusic.UnreadableRootContributesNothing | RedShift_Desktop/reference/list-device-music.py:81-88 | a root whose listing fails adds nothing, and the other roots keep their order |
| DeviceMusic.CollectMusicFiles | RedShift_Desktop/reference/list-device-music.py:73-88 | the root loop returns the scans of the three roots concatenated in the listed order |
| DeviceMusic.CountWithMetadataCounts | RedShift_Desktop/reference/list-device-music.py:124 | `with_metadata` equals the number of positions whose file carries metadata |
| DeviceMusic.WithMetadataCountsTaggedFiles | RedShift_Desktop/reference/list-device-music.py:95-124 | `with_metadata` counts exactly the files for which the tag reader found some tag, and a file's metadata is what was found |
| DeviceMusic.ProgressTrigger | RedShift_Desktop/reference/list-device-music.py:101 | a record for file number c exists if and only if c is a multiple of 10 or the last file |
| DeviceMusic.ProgressRecordsCarryTotal | RedShift_Desktop/reference/list-device-music.py:103-117 | every record carries the total, a current number in range, and the sample of that same file's tags |
| DeviceMusic.ProgressInOrder | RedShift_Desktop/reference/list-device-music.py:95-117 | the records' file numbers strictly increase |
| DeviceMusic.ProgressLine | RedShift_Desktop/reference/list-device-music.py:100-117 | one file's progress output: one record with the title/artist/album sample, or nothing |
| DeviceMusic.ExtractAll | RedShift_Desktop/reference/list-device-music.py:92-117 | the in-place loop tags file i with its metadata exactly when the metadata is non-empty, keeps the count of files, and writes exactly the progress records of `ProgressRecords` |
| DeviceMusic.ListMusicLibrary | RedShift_Desktop/reference/list-device-music.py:63-137 | a failed connection gives the error record, no progress and exit 1; otherwise exit 0, `total` equal to the number of files, each file tagged as above, `with_metadata` counting the tagged files, and the stage record followed by the progress records |
| AppFiles.CollectFiles | RedShift_Desktop/scripts/list-device-files.py:36-59 | a failing `listdir` gives no files; otherwise the filtered listing |
| AppFiles.ListAppFiles | RedShift_Desktop/scripts/list-device-files.py:16-67 | the outcome and exit code are exactly `ListedAs`: a failing connection or file service gives `[]` with 0; a failing house arrest gives `APP_NOT_INSTALLED` with its message and 1; a failing `listdir` gives `[]` with 0; otherwise the filtered listing with 0 |
| AppFiles.ListedAsDeterministic | RedShift_Desktop/scripts/list-device-files.py:16-67 | the device's answers fix exactly one outcome and one exit code |
| AppFiles.ListDeviceFiles | RedShift_Desktop/scripts/list-device-files.py:9-72 | without the device library the output is `[]` with exit 0; otherwise the output is that of `list_app_files` for the player app's music folder; exit 1 happens exactly when house arrest fails after a connection, and exactly for `APP_NOT_INSTALLED` |
| AppFiles.AppFilterSound | RedShift_Desktop/scripts/list-device-files.py:41-53 | every output record is a listed, non-hidden name whose path is the joined path and whose `stat` found a regular file of that size |
| AppFiles.AppFilterComplete | RedShift_Desktop/scripts/list-device-files.py:41-53 | a non-hidden name whose `stat` finds a regular file with a size is listed, with that size and the joined path |
| AppFiles.SkippedItemDropsOnlyItself | RedShift_Desktop/scripts/list-device-files.py:42-56 | a hidden name, a failing `stat`, a non-regular type or a missing `st_size` drops that name alone |
| AppFiles.AppFilterInOrder | RedShift_Desktop/scripts/list-device-files.py:41-53 | of two listed names that both yield records, the earlier one's record comes first |
| AppFiles.ExampleListing | RedShift_Desktop/scripts/list-device-files.py:36-53 | `.DS_Store`, a 1000-byte `track1.mp3` and a `covers` folder give exactly the track, at `Documents/Music/track1.mp3` |
| DeviceName.GetDeviceName | RedShift_Desktop/scripts/get-device-name.py:14-38 | the exit code is 0 exactly on the success record and 1 otherwise; a success record's model is never empty |
| DeviceName.IdentityQuery | RedShift_Desktop/scripts/get-device-name.py:8-41 | without the device library the record is `NO_PYMOBILEDEVICE3` with exit 1; otherwise it is `get_device_name` |
| DeviceName.ExitCodeMeansSuccess | RedShift_Desktop/scripts/get-device-name.py:8-38 | the script exits with 0 or 1, and with 0 exactly on success |
| DeviceName.NameAndModelFallback | RedShift_Desktop/scripts/get-device-name.py:21-30 | the name is the display name when truthy and the `DeviceName` value otherwise; the model is the product type when truthy and "iOS Device" otherwise |
| DeviceName.DeviceNameUnreadWhenDisplayNameSet | RedShift_Desktop/scripts/get-device-name.py:21 | with a truthy display name the `DeviceName` read does not matter, even when it would raise |
| DeviceName.FailuresReportNoDevice | RedShift_Desktop/scripts/get-device-name.py:32-38 | each failure that is reached (connect, display name, `DeviceName` when needed, `ProductType`) gives `NO_DEVICE` with that exception's text and exit 1 |
| DeviceName.ExampleMyPhone | RedShift_Desktop/scripts/get-device-name.py:21-30 | a device named "MyPhone" with no product type is reported as "MyPhone" with model "iOS Device" and exit 0 |

## Left out

- SQLite: `init_database`, the `transfer_sessions` table and the connect/execute/commit calls. The `transferred_files` table is the map `DopplerSyncManager.transferred`, and `get_transferred_files` is a direct read of that map.
- The filesystem walk of the master directory (`rglob`, `is_file`, `stat`, `relative_to`) is an input sequence of `WalkEntry` values. A `stat` that raises during the scan is not modelled.
- SHA-256 (`calculate_file_hash`) is an uninterpreted function from path to hex digest. A hash computation that raises (an unreadable file) is not modelled.
- Sync.DopplerSyncManager.MarkAsTransferred: `relative_to` is modelled on normalised string paths (`RelativeTo`), without `..` or repeated separators, and the hash is taken as not raising.
- Clocks: the queue's `created` timestamp, the transfer date (a parameter `now`) and the report's scan time (a parameter string).
- The JSON queue file write, and all printing to standard output and standard error. The records are returned as values instead.
- Floating point: the report's MB figure is rendered by a parameter function `formatMb`, and the `percent` field of the progress records is not modelled.
- mutagen, the temporary file and `get_file_contents` inside `extract_metadata` are given as a tag-reader function. Its answer already has the shape `extract_metadata` builds (`None`, or the three optional keys). The "no tag found gives `None`" rule of line 50 is in `Truthy`.
- The mutagen import failure at start-up (exit 1) is not modelled.
- Every pymobiledevice3 call (usbmux, lockdown, AFC, house arrest) is an input. The AFC service opened in `list_app_files` is modelled only by whether opening it raises.
- The `__main__` argument handling of `list-device-music.py` (the usage error) is not modelled.
- `pull-from-device.py`, `pull-device-music.py` and `get-device-udids.py` are not part of this model. They move or print data without decisions.
- PyPath.Lower: lower-cases ASCII letters only. The extension sets hold only ASCII, and no non-ASCII letter lower-cases to one of their letters, so membership is unaffected.
- The property values of the identity query (`DeviceName`, `ProductType`) are optional strings. Other value types the library could return are not modelled.
- Exception messages (`str(e)`) are arbitrary strings and may be empty: the code passes `str(e)` through unchanged, and so does the model.
