# coub-dl: a verified model of the per-user clip downloader

`coub-dl.go` archives one user's clips ("coubs"). It reads the user's catalog file
`<root>/<user>.json` and drops the reposts. Then, for each remaining clip in catalog order, it:

1. trims the title;
2. creates the clip's directory;
3. writes `metadata.json` and a human-readable `info.txt`;
4. hands the clip to a background task.

Each background task fetches three groups of files:
- the first-frame renditions;
- the image renditions;
- seven fixed media files.

The driver waits for the background tasks after every clip whose index is a multiple of 5, and once more at the end.

This project models that logic in Dafny. The modules follow the structure of the program:

| module | models |
|---|---|
| `Wrappers` | `Option` (a Go `error` that may be nil) and `Result` |
| `Text` | `strings.Replace(s, pat, rep, -1)`, `strings.TrimSpace`, `strconv.Itoa`, `%v` of a bool, joining with a separator |
| `Records` | the clip record `Coub` with the fields the core reads; `Trimmed`; the `Error` values |
| `Host` | the disk (`Disk`) and the network (`Fetcher`, `Net`) as oracles |
| `Catalog` | `GetNonRecoubs` |
| `Summary` | `CreateCoubInfoFiles`, with the layout of `info.txt` and the error handling of its writes |
| `Downloads` | `DownloadFileVersions`, `DownloadImageVersions`, `DownloadFirstFrameVersions`, `DownloadCoubData` |
| `Driver` | `ReadCoub`: the preparation loop, the wait-group counter and the download tasks |

## How the outside world is represented

The disk and the network are not modelled in detail. They are answered by oracles, so every
property holds for every sequence of operation outcomes. A failed write is modelled as writing
nothing (see `Host.Disk.WriteFile` and `Host.Disk.WriteString` under "Left out").

**The disk.** Every fallible disk operation consumes the next index of
`Disk.outcome: nat -> Option<Error>`. These operations are:
- creating a directory;
- `ioutil.WriteFile`;
- `os.Create`;
- each `WriteString`;
- `Close`.

`Disk.ops` counts the indices used so far. `Disk.dirLog` records the directories made, and
`Disk.files` holds the contents of the text files.

**The network.** Every download attempt is appended to `Fetcher.log` as a `Fetch(path, url)`.
The attempt at log position `n` is answered by `Net.outcome(n, fetch)`.

**The catalog.** What opening and decoding the catalog yields is `Disk.catalog(path)`. It is
either an open error, or the decoded records together with the decoder's error.

The lemmas about sequences of steps are stated over fold functions:
- `Summary.Run` for the writes on `info.txt`;
- `Downloads.Group` for a rendition group;
- `Driver.Prepare` for the preparation loop;
- `Driver.Downloaded` for the download log.

The methods are proved to leave exactly the state those folds describe.

## Behaviour modelled as the code has it

- `GetNonRecoubs` returns the open error when the catalog cannot be opened. A decode error is
  stored and then dropped: the records the decoder produced are filtered and returned with a
  nil error (coub-dl.go:79-86), so a malformed catalog is not fatal.
- The errors of the `"Source: "` and `"Tags: "` writes are overwritten before anything reads
  them, so a failure there is silent (`Summary.SourceWriteFailureIsSilent`). Every other write
  on `info.txt` returns its error at once.
- When `os.Create` of `info.txt` fails, the error is only printed. The first `WriteString` on
  the nil file then returns `os.ErrInvalid`, which becomes the function's result (`ErrInvalid`).
- `ReadCoub` trims the title of its loop copy of the record. The directory and the info files
  are made from that trimmed copy. The background task is started with `coubs[coubID]`, the
  record as the catalog has it, so the task carries the untrimmed title. That includes the
  `<title>.mp4` copy of the share file. `Driver.Tasks` states this.
- `DownloadImageVersions` and `DownloadFirstFrameVersions` return at the first failing fetch.
  `DownloadFileVersions` attempts all seven fetches whatever they return, and always returns
  nil. `DownloadCoubData` returns nil in the modelled schedule. The race on its shared `err`
  can make it return an error in a real run; see "Left out".

## Model

| member | source | states |
|---|---|---|
| Text.ReplaceAll | coub-dl.go:261 | `strings.Replace(template, "%{version}", version, -1)`, as called at lines 261 and 276, for a non-empty pattern only: a replacement no longer than the pattern never lengthens the text, one no shorter never shortens it |
| Text.ReplaceAbsent | coub-dl.go:261 | a template without the pattern comes back unchanged from the substitution |
| Text.SubstituteJoin | coub-dl.go:259-262 | for a template made of parts without `%{version}` joined by `%{version}`, every placeholder is replaced by the version and the text between them is kept |
| Text.NoPlaceholderAtSeam | coub-dl.go:261 | text without the placeholder, followed by nothing or by a `%`, does not start with the placeholder |
| Text.TrimSpace | coub-dl.go:33 | `strings.TrimSpace` of the title: the result is never longer than the title (its other properties are the two lemmas below) |
| Text.TrimSpaceCutsBlanks | coub-dl.go:33 | the trimmed title is a slice of the title; everything cut off is white space; the result neither starts nor ends with white space |
| Text.TrimSpaceIdempotent | coub-dl.go:33 | trimming a trimmed title changes nothing |
| Text.IntText | coub-dl.go:116-121 | `strconv.Itoa` of the view and repost counts (lines 116 and 121): never empty, and it starts with a minus sign iff the number is negative |
| Text.IntTextRoundTrip | coub-dl.go:116-121 | the decimal text `strconv.Itoa` writes for the view and repost counts reads back as the same number |
| Text.BoolText | coub-dl.go:126 | `fmt.Sprintf("%v", ...)` of the external-download flag: `"true"` iff the flag is set and `"false"` iff it is not |
| Records.Trimmed | coub-dl.go:33 | the record with its title trimmed: the title is `TrimSpace` of the old one, every other field is unchanged, and so is whether the record is a repost |
| Catalog.NonRecoubsMembers | coub-dl.go:81-85 | a record is kept iff it is in the input and its type is not `"Coub::Recoub"` |
| Catalog.NonRecoubsInOrder | coub-dl.go:81-85 | the kept records are a subsequence of the input, in the input's order |
| Catalog.NonRecoubsLength | coub-dl.go:81-85 | exactly one record is dropped per repost, so the result is never longer than the input |
| Catalog.NonRecoubsAppend | coub-dl.go:81-85 | filtering a concatenation filters each part: records are judged one at a time |
| Catalog.NonRecoubsIdempotent | coub-dl.go:81-85 | filtering twice equals filtering once |
| Catalog.GetNonRecoubs | coub-dl.go:68-87 | an open error is returned; otherwise the non-reposts among the decoded records are returned with no error, whatever the decoder reported |
| Summary.TagStepsLayout | coub-dl.go:130-139 | the tag writes produce the titles joined by `", "` plus a final newline, and nothing for an empty tag list |
| Summary.TagStepsAt | coub-dl.go:130-139 | there is one write per tag; the i-th is its title followed by `", "`, or by `"\n"` for the last tag |
| Summary.InfoStepsShape | coub-dl.go:102-139 | the writes on `info.txt` are the seven labelled ones, then one per tag |
| Summary.HeaderLayout | coub-dl.go:102-128 | the seven labelled writes give Title, Created At, Duration, Views, Recoubs and Source lines, then `"Tags: "`, in that order |
| Summary.InfoStepsLayout | coub-dl.go:102-139 | written in full, the writes give exactly the summary text `SummaryText` (the layout of `info.txt`) |
| Summary.SummaryEnding | coub-dl.go:128-139 | without tags the summary ends with `"Tags: "` and no newline; with tags it ends with a newline |
| Summary.RunSticks | coub-dl.go:102-139 | after a checked write fails and returns, later writes change nothing |
| Summary.RunStopsAtFirstCheckedFailure | coub-dl.go:102-139 | the writes stop at the first failing checked write and return its error; with no such failure every write is made |
| Summary.RunSucceedsIff | coub-dl.go:102-139 | the writes report success iff none of the checked writes fails |
| Summary.RunUnchecked | coub-dl.go:126-128 | when no checked write fails, every write is made and only the texts of the successful writes reach the file |
| Summary.InfoRunClean | coub-dl.go:89-147 | on a disk that does not fail, `metadata.json` holds the dump, `info.txt` holds the summary text `SummaryText`, 10 + (number of tags) operations are used, and nil is returned |
| Summary.OnlyUncheckedFails | coub-dl.go:126-128 | when the only failing operation is an unchecked write, the function returns nil and `info.txt` gets every other text |
| Summary.SourceWriteFailureIsSilent | coub-dl.go:126 | a failing `"Source: "` write alone leaves the summary with exactly its Source line missing, and nil is returned |
| Summary.Put | coub-dl.go:102-104 | one `WriteString` on `info.txt` is answered by the next disk operation and advances the run by one write |
| Summary.WriteLabels | coub-dl.go:102-124 | the five checked labelled writes; the first failing one returns its error |
| Summary.WriteHeader | coub-dl.go:102-128 | the seven labelled writes; the Source and Tags writes never return an error |
| Summary.WriteTags | coub-dl.go:130-139 | the tag loop; the first failing tag write returns its error |
| Summary.WriteInfo | coub-dl.go:102-144 | the writes on the open `info.txt` and the `Close`: the file holds what the run delivered, and the error is that of the failing write or of `Close` |
| Summary.CreateCoubInfoFiles | coub-dl.go:89-147 | the error, the operations used and the new file contents are those `InfoRun` describes; an `os.Create` failure makes the result `ErrInvalid` |
| Host.Disk.CreateCoubDir | coub-dl.go:36 | one fallible operation; the directory is that of the clip it is given, and is recorded only when making it succeeds |
| Host.Disk.WriteFile | coub-dl.go:92 | one fallible operation that replaces the whole file when it succeeds |
| Host.Disk.Create | coub-dl.go:97 | one fallible operation that truncates the file to empty when it succeeds |
| Host.Disk.WriteString | coub-dl.go:102 | one fallible operation that appends to the file when it succeeds |
| Host.Disk.Close | coub-dl.go:141 | one fallible operation that leaves the contents unchanged |
| Host.Fetcher.DownloadFile | coub-dl.go:190 | every attempt is logged, and answered by the network according to its position in the log |
| Downloads.FilePlanShape | coub-dl.go:186-253 | seven fetches, all into the clip's directory, in the order video Med, High, Higher, audio High, Med, then the default share file twice, the second time as `<title>.mp4` |
| Downloads.DownloadFileVersions | coub-dl.go:186-254 | all seven fetches of the plan are attempted in order whatever they return, and the result is nil |
| Downloads.GroupSticks | coub-dl.go:260-267 | once a rendition group has failed, later versions change nothing |
| Downloads.GroupStopsAtFirstFailure | coub-dl.go:256-269 | the i-th attempt is the template with the i-th version substituted; attempts stop at the first failure, whose error is returned; with no failure every version is attempted and nil is returned |
| Downloads.GroupSucceedsIff | coub-dl.go:256-269 | a rendition group returns nil iff every one of its fetches succeeds |
| Downloads.PlainTemplateRepeats | coub-dl.go:261-262 | a template without `%{version}` names the same URL for every version |
| Downloads.DownloadRenditions | coub-dl.go:259-268 | the version loop leaves the log and the error that `Group` describes |
| Downloads.DownloadImageVersions | coub-dl.go:256-269 | the image versions, as `Group` describes |
| Downloads.DownloadFirstFrameVersions | coub-dl.go:271-284 | the first-frame versions, as `Group` describes |
| Downloads.CoubDataAlwaysFetchesFiles | coub-dl.go:149-184 | a failing image or first-frame group never keeps the seven media fetches from closing the schedule; at most one fetch per version precedes them |
| Downloads.DownloadCoubData | coub-dl.go:149-184 | first frames, then images, then media files are fetched, whatever each group returns, and the result is nil |
| Driver.TaskPool.Submit | coub-dl.go:48-49 | one more task is started and outstanding; the peak is updated |
| Driver.TaskPool.Wait | coub-dl.go:59-63 | no task is outstanding afterwards |
| Driver.OutstandingClosedForm | coub-dl.go:58-61 | after n clips, (n - 1) mod 5 tasks are outstanding, because the loop waits after clips 0, 5, 10, ... |
| Driver.PeakClosedForm | coub-dl.go:48-61 | the most tasks ever outstanding over the first n clips is n for n <= 1 and min(n - 1, 5) afterwards |
| Driver.PeakAtMostFive | coub-dl.go:48-63 | at most five downloads are ever outstanding at once |
| Driver.PrepareAfterError | coub-dl.go:37-45 | by the definition of `Prepare`: after a returned error, a later clip's turn changes nothing |
| Driver.PrepareDirFails | coub-dl.go:36-39 | by the definition of `Prepare`: a clip whose directory cannot be made ends the run with that error, and nothing else changes |
| Driver.PrepareDirMade | coub-dl.go:36-42 | by the definition of `Prepare`: a clip whose directory is made goes on to its info files |
| Driver.InformedShape | coub-dl.go:42-55 | by the definition of `Informed`: a clip whose directory is made has that directory recorded; its task is started iff its info files return no error |
| Driver.InformedClean | coub-dl.go:42-55 | on a disk that does not fail, such a clip is started and its `info.txt` holds the summary text `SummaryText` of the trimmed clip |
| Driver.PrepareStepShape | coub-dl.go:32-55 | one clip's turn makes at most its directory and starts at most its task; it starts the task exactly when it returns no error |
| Driver.DirsAndTasksAt | coub-dl.go:33-55 | the j-th directory is that of the j-th trimmed clip; the j-th task downloads the j-th clip as the catalog has it into that directory |
| Driver.PrepareSticks | coub-dl.go:37-45 | once preparation has failed, later clips change nothing |
| Driver.PrepareCounts | coub-dl.go:32-55 | one directory per clip until the first error, one task per clip that raised none; with no error, every clip gets both |
| Driver.PrepareTasksFollow | coub-dl.go:48-55 | the k-th task started is that of the k-th clip |
| Driver.PrepareDirsFollow | coub-dl.go:33-39 | the k-th directory made is that of the k-th trimmed clip |
| Driver.PrepareFollowsCatalog | coub-dl.go:32-55 | the directories and tasks are those of a prefix of the filtered catalog; the directory list may additionally hold the clip whose info files stopped the run |
| Driver.PrepareClean | coub-dl.go:32-55 | on a disk that does not fail, every clip is prepared and started |
| Driver.PrepareCleanSummary | coub-dl.go:33-45 | on such a disk, the `info.txt` of the last clip holds the summary text `SummaryText` of its trimmed form |
| Driver.DownloadedSnoc | coub-dl.go:49-55 | by the definition of `Downloaded`: a task started later downloads after every earlier one |
| Driver.DownloadedBounds | coub-dl.go:49-55 | the download log only grows, by at least seven fetches per task and by no more than seven plus one per image and first-frame version per task |
| Driver.DownloadedGrows | coub-dl.go:49-55 | the log after the first k tasks is a prefix of the log after all of them |
| Driver.DownloadedFetchesFiles | coub-dl.go:49-55 | every started task fetches its seven media files: the log once that task is done ends with its file plan, and later tasks only add to it |
| Driver.PrepareClip | coub-dl.go:33-45 | one round of preparation (trim, make the directory, write the info files) leaves the disk as `Prepare` describes; the clip is started iff no error is returned |
| Driver.StartDownload | coub-dl.go:48-61 | one round of downloading appends the task and its fetches, and keeps the outstanding count and the peak as `Outstanding` and `Peak` describe |
| Driver.ReadCoub | coub-dl.go:20-66 | an open error of the catalog is returned with nothing changed; otherwise the error, the tasks, the directories, the files and the download log are those of preparing the filtered catalog in order; at most five tasks are ever outstanding, and none are after a nil return |

## Left out

- Concurrency. The goroutines of `ReadCoub` and `DownloadCoubData` are modelled as running one
  at a time, in the order they are started. The model covers only that launch-order schedule.
- The race on `DownloadCoubData`'s shared `err` is not modelled. Each group function's
  deferred `wg.Done()` (coub-dl.go:187, 257, 272) runs before its goroutine assigns `err`
  (coub-dl.go:157, 166, 175). So `wg.Wait()` (coub-dl.go:181) does not order those writes
  before `return nil` (coub-dl.go:183).
  - A failing group's late write can become `DownloadCoubData`'s result, and `ReadCoub`'s
    goroutine then logs it (coub-dl.go:51-53).
  - The checks at coub-dl.go:158, 167 and 176 read the shared variable, so an error can go
    unlogged or be logged under another group's message.
- Driver.ReadCoub: the download log is stated for one schedule, in which each task runs to
  completion when it is started. A real run may interleave the fetches of concurrent tasks.
- Downloads.DownloadCoubData: the three groups are stated in launch order: first frames, then
  images, then media files. Other interleavings of the three goroutines are not modelled.
- The `sync.WaitGroup` is modelled as a counter of outstanding tasks. `Wait` resets it to
  zero, because every started task is complete once `Wait` returns. `Done` has no separate step.
- `time.Sleep` pacing, `log` output and the `fmt.Println` on a failed `os.Create` are left out.
  They have no logical effect.
- JSON decoding of the catalog is an oracle input (`Disk.catalog`). `json.MarshalIndent` is
  the oracle `Disk.encode`. Their formats are not modelled.
- `time.Time.String()` and `%.2f` of the duration are kept as opaque strings in the record.
- `DownloadFile`, `FileNameFromURL` and `CreateCoubDir` are not part of this model. They are
  oracles: `Fetcher.DownloadFile`, `Net.fileName` and `Disk.CreateCoubDir` with `Disk.dirOf`.
- The `Coub` struct is not part of this model either. The record keeps only the fields the
  core reads.
- Host.Disk.WriteString: a failed write adds nothing. Partial writes are not modelled.
- Host.Disk.WriteFile: a failed `ioutil.WriteFile` leaves the file unchanged.
  - The real call opens with truncation, writes, then returns the error of `Close` even after
    a complete write. After a reported failure, `metadata.json` may be empty, partly written
    or complete.
  - The model does not capture that. The file map in `Driver.ReadCoub`'s and
    `Summary.CreateCoubInfoFiles`' contracts, and `InfoRunOf`'s `metadata: None` on that path,
    assume the file was left as it was.
- Text.ReplaceAll: requires a non-empty pattern. The only pattern the core uses is
  `%{version}`, so the empty-pattern case of `strings.Replace` is not modelled.
- Integers are unbounded. The view and repost counts are Go `int`s, and printing them has no
  wrap-around, so nothing is lost.
