/** ReadCoub: the per-user driver. It reads the catalog, prepares each clip (directory and
    info files) in catalog order, hands each prepared clip to a background download task, and
    waits for the tasks in batches. */
module Driver {
  import opened Wrappers
  import opened Text
  import opened Records
  import opened Host
  import opened Catalog
  import opened Summary
  import opened Downloads

  /** A background download: DownloadCoubData(outdir, coub). */
  datatype Task = Task(outdir: string, coub: Coub)

  /** The sync.WaitGroup of ReadCoub together with the tasks handed to it. */
  class TaskPool {
    /** Tasks started and not yet waited for. */
    var outstanding: nat
    /** The largest number of tasks ever outstanding at once. */
    ghost var peak: nat
    /** Every task started, in order. */
    var tasks: seq<Task>

    constructor ()
      ensures outstanding == 0 && peak == 0 && tasks == []
    {
      outstanding := 0;
      peak := 0;
      tasks := [];
    }

    /** wg.Add(1) followed by `go DownloadCoubData(...)`. */
    method Submit(t: Task)
      modifies this
      ensures tasks == old(tasks) + [t] && outstanding == old(outstanding) + 1
      ensures peak == if outstanding > old(peak) then outstanding else old(peak)
    {
      tasks := tasks + [t];
      outstanding := outstanding + 1;
      if outstanding > peak {
        peak := outstanding;
      }
    }

    /** wg.Wait(): returns once every started task has called Done. */
    method Wait()
      modifies this
      ensures outstanding == 0 && tasks == old(tasks) && peak == old(peak)
    {
      outstanding := 0;
    }
  }

  // ---------------------------------------------------------------------------
  // Batching
  // ---------------------------------------------------------------------------

  /** Tasks outstanding after the first n clips have been started, given that the loop waits
      after every clip whose index is a multiple of 5. */
  function Outstanding(n: nat): nat
  {
    if n == 0 then 0 else if (n - 1) % 5 == 0 then 0 else Outstanding(n - 1) + 1
  }

  /** The most tasks outstanding at once while the first n clips are started. */
  function Peak(n: nat): nat
  {
    if n == 0 then 0
    else
      var p := Peak(n - 1);
      var now := Outstanding(n - 1) + 1;
      if now > p then now else p
  }

  /** After n clips, (n - 1) mod 5 tasks are still running: the loop waits after clips
      0, 5, 10, ... */
  lemma {:induction false} OutstandingClosedForm(n: nat)
    ensures Outstanding(n) == if n == 0 then 0 else (n - 1) % 5
  {
    if n > 1 {
      OutstandingClosedForm(n - 1);
    }
  }

  /** The first batch holds one clip and every later batch five: the peak over the first n
      clips is n for n <= 1 and min(n - 1, 5) afterwards. */
  lemma {:induction false} PeakClosedForm(n: nat)
    ensures Peak(n) == if n <= 1 then n else if n - 1 < 5 then n - 1 else 5
  {
    if n > 0 {
      PeakClosedForm(n - 1);
      OutstandingClosedForm(n - 1);
    }
  }

  /** At most five downloads ever run at once. */
  lemma PeakAtMostFive(n: nat)
    ensures Peak(n) <= 5
  {
    PeakClosedForm(n);
  }

  // ---------------------------------------------------------------------------
  // Preparing the clips
  // ---------------------------------------------------------------------------

  /** What preparing clips has left: the error returned, the tasks started, the directories
      made, the disk operations used so far (as an index) and the text files. */
  datatype PrepState = PrepState(err: Option<Error>, tasks: seq<Task>, dirs: seq<string>,
                                 ops: nat, files: map<string, string>)

  /** The clips of `cs` with their titles trimmed, in the same order. */
  function TrimmedAll(cs: seq<Coub>): (ts: seq<Coub>)
    ensures |ts| == |cs| && forall j :: 0 <= j < |cs| ==> ts[j] == Trimmed(cs[j])
  {
    seq(|cs|, j requires 0 <= j < |cs| => Trimmed(cs[j]))
  }

  /** The first n clips of `cs` prepared in order from state `s0`, where `ts` holds the same
      clips with their titles trimmed (`TrimmedAll(cs)`). */
  function Prepare(disk: Disk, root: string, cs: seq<Coub>, ts: seq<Coub>, n: nat, s0: PrepState): PrepState
    requires n <= |cs| && |ts| == |cs|
    decreases n, 3
  {
    if n == 0 then s0 else Prepared(disk, root, cs, ts, n, s0)
  }

  /** The state once clip n - 1 has had its turn. After an earlier error nothing happens.
      Otherwise the directory of the trimmed clip is made; if that fails, its error ends the
      run. */
  function Prepared(disk: Disk, root: string, cs: seq<Coub>, ts: seq<Coub>, n: nat, s0: PrepState): PrepState
    requires 0 < n <= |cs| && |ts| == |cs|
    decreases n, 2
  {
    var s := Prepare(disk, root, cs, ts, n - 1, s0);
    if s.err.Some? then s
    else if disk.outcome(s.ops).Some? then s.(err := disk.outcome(s.ops), ops := s.ops + 1)
    else Informed(disk, root, cs, ts, n, s0)
  }

  /** The state once the directory of clip n - 1 has been made: its info files are written
      into it, and when that succeeds its download task is started, with the directory of the
      trimmed clip and the clip as the catalog has it. */
  function Informed(disk: Disk, root: string, cs: seq<Coub>, ts: seq<Coub>, n: nat, s0: PrepState): PrepState
    requires 0 < n <= |cs| && |ts| == |cs|
    decreases n, 1
  {
    var s := Prepare(disk, root, cs, ts, n - 1, s0);
    var dir := disk.dirOf(root, ts[n - 1]);
    var r := InfoOf(disk, root, cs, ts, n, s0);
    PrepState(r.err, if r.err.None? then s.tasks + [Task(dir, cs[n - 1])] else s.tasks,
              s.dirs + [dir], s.ops + 1 + r.used, ApplyInfo(s.files, dir, r))
  }

  /** What writing the info files of the trimmed clip n - 1 does, right after its directory
      has been made. */
  function InfoOf(disk: Disk, root: string, cs: seq<Coub>, ts: seq<Coub>, n: nat, s0: PrepState): InfoOutcome
    requires 0 < n <= |cs| && |ts| == |cs|
    decreases n, 0
  {
    InfoRun(ts[n - 1], disk.encode, Prepare(disk, root, cs, ts, n - 1, s0).ops + 1, disk.outcome)
  }

  /** After an error, a clip's turn changes nothing. */
  lemma PrepareAfterError(disk: Disk, root: string, cs: seq<Coub>, ts: seq<Coub>, n: nat, s0: PrepState)
    requires n < |cs| && |ts| == |cs| && Prepare(disk, root, cs, ts, n, s0).err.Some?
    ensures Prepare(disk, root, cs, ts, n + 1, s0) == Prepare(disk, root, cs, ts, n, s0)
  {
    assert Prepare(disk, root, cs, ts, n + 1, s0) == Prepared(disk, root, cs, ts, n + 1, s0);
  }

  /** A clip whose directory cannot be made ends the run with that error. */
  lemma PrepareDirFails(disk: Disk, root: string, cs: seq<Coub>, ts: seq<Coub>, n: nat, s0: PrepState)
    requires n < |cs| && |ts| == |cs|
    requires var s := Prepare(disk, root, cs, ts, n, s0); s.err.None? && disk.outcome(s.ops).Some?
    ensures var s := Prepare(disk, root, cs, ts, n, s0);
      Prepare(disk, root, cs, ts, n + 1, s0) == s.(err := disk.outcome(s.ops), ops := s.ops + 1)
  {
    assert Prepare(disk, root, cs, ts, n + 1, s0) == Prepared(disk, root, cs, ts, n + 1, s0);
  }

  /** A clip whose directory is made goes on to its info files. */
  lemma PrepareDirMade(disk: Disk, root: string, cs: seq<Coub>, ts: seq<Coub>, n: nat, s0: PrepState)
    requires n < |cs| && |ts| == |cs|
    requires var s := Prepare(disk, root, cs, ts, n, s0); s.err.None? && disk.outcome(s.ops).None?
    ensures Prepare(disk, root, cs, ts, n + 1, s0) == Informed(disk, root, cs, ts, n + 1, s0)
  {
    assert Prepare(disk, root, cs, ts, n + 1, s0) == Prepared(disk, root, cs, ts, n + 1, s0);
  }

  /** A clip whose directory is made has it recorded, and is started exactly when its info
      files are written without error. */
  lemma InformedShape(disk: Disk, root: string, cs: seq<Coub>, ts: seq<Coub>, n: nat, s0: PrepState)
    requires 0 < n <= |cs| && |ts| == |cs|
    ensures var s := Prepare(disk, root, cs, ts, n - 1, s0);
      var s' := Informed(disk, root, cs, ts, n, s0);
      var dir := disk.dirOf(root, ts[n - 1]);
      s'.dirs == s.dirs + [dir]
      && (s'.err.None? ==> s'.tasks == s.tasks + [Task(dir, cs[n - 1])])
      && (s'.err.Some? ==> s'.tasks == s.tasks)
  {
  }

  /** On a disk that does not fail, a clip whose directory is made is started, and its
      info.txt holds the summary text (SummaryText) of the trimmed clip. */
  lemma InformedClean(disk: Disk, root: string, cs: seq<Coub>, ts: seq<Coub>, n: nat, s0: PrepState)
    requires 0 < n <= |cs| && |ts| == |cs|
    requires forall j :: j > Prepare(disk, root, cs, ts, n - 1, s0).ops ==> disk.outcome(j).None?
    ensures var s := Prepare(disk, root, cs, ts, n - 1, s0);
      var s' := Informed(disk, root, cs, ts, n, s0);
      var path := InfoPath(disk.dirOf(root, ts[n - 1]));
      s'.err.None? && |s'.tasks| == |s.tasks| + 1 && s'.ops > s.ops
      && path in s'.files && s'.files[path] == SummaryText(ts[n - 1])
  {
    var s := Prepare(disk, root, cs, ts, n - 1, s0);
    assert InfoOf(disk, root, cs, ts, n, s0) == InfoRun(ts[n - 1], disk.encode, s.ops + 1, disk.outcome);
    InfoRunClean(ts[n - 1], disk.encode, s.ops + 1, disk.outcome);
  }

  /** A clip's turn makes at most its directory and starts at most its task, and starts the
      task exactly when it returns no error. */
  lemma PrepareStepShape(disk: Disk, root: string, cs: seq<Coub>, ts: seq<Coub>, n: nat, s0: PrepState)
    requires n < |cs| && |ts| == |cs| && Prepare(disk, root, cs, ts, n, s0).err.None?
    ensures var s := Prepare(disk, root, cs, ts, n, s0);
      var s' := Prepare(disk, root, cs, ts, n + 1, s0);
      var dir := disk.dirOf(root, ts[n]);
      (s'.err.None? ==> s'.tasks == s.tasks + [Task(dir, cs[n])] && s'.dirs == s.dirs + [dir])
      && (s'.err.Some? ==> s'.tasks == s.tasks && (s'.dirs == s.dirs || s'.dirs == s.dirs + [dir]))
  {
    var s := Prepare(disk, root, cs, ts, n, s0);
    if disk.outcome(s.ops).Some? {
      PrepareDirFails(disk, root, cs, ts, n, s0);
    } else {
      PrepareDirMade(disk, root, cs, ts, n, s0);
      InformedShape(disk, root, cs, ts, n + 1, s0);
    }
  }

  /** The directories of the first m clips, each made from the trimmed clip. */
  function Dirs(disk: Disk, root: string, ts: seq<Coub>, m: nat): seq<string>
    requires m <= |ts|
    decreases m
  {
    if m == 0 then [] else Dirs(disk, root, ts, m - 1) + [disk.dirOf(root, ts[m - 1])]
  }

  /** The download tasks of the first m clips: the directory of the trimmed clip and the clip
      as the catalog has it. */
  function Tasks(disk: Disk, root: string, cs: seq<Coub>, ts: seq<Coub>, m: nat): seq<Task>
    requires m <= |cs| && |ts| == |cs|
    decreases m
  {
    if m == 0 then [] else Tasks(disk, root, cs, ts, m - 1) + [Task(disk.dirOf(root, ts[m - 1]), cs[m - 1])]
  }

  /** The j-th directory is made for the j-th clip and the j-th task downloads the j-th clip. */
  lemma {:induction false} DirsAndTasksAt(disk: Disk, root: string, cs: seq<Coub>, ts: seq<Coub>, m: nat, j: nat)
    requires j < m <= |cs| && |ts| == |cs|
    ensures |Dirs(disk, root, ts, m)| == |Tasks(disk, root, cs, ts, m)| == m
    ensures Dirs(disk, root, ts, m)[j] == disk.dirOf(root, ts[j])
    ensures Tasks(disk, root, cs, ts, m)[j] == Task(disk.dirOf(root, ts[j]), cs[j])
    decreases m
  {
    if j < m - 1 {
      DirsAndTasksAt(disk, root, cs, ts, m - 1, j);
    } else if m > 1 {
      DirsAndTasksAt(disk, root, cs, ts, m - 1, 0);
    }
  }

  /** Once preparing has failed, later clips change nothing. */
  lemma {:induction false} PrepareSticks(disk: Disk, root: string, cs: seq<Coub>, ts: seq<Coub>, j: nat, n: nat, s0: PrepState)
    requires j <= n <= |cs| && |ts| == |cs| && Prepare(disk, root, cs, ts, j, s0).err.Some?
    ensures Prepare(disk, root, cs, ts, n, s0) == Prepare(disk, root, cs, ts, j, s0)
    decreases n
  {
    if j < n {
      PrepareSticks(disk, root, cs, ts, j, n - 1, s0);
      PrepareAfterError(disk, root, cs, ts, n - 1, s0);
    }
  }

  /** One directory is made per clip until the first error, and one task started per clip
      that raised none; the clip that stopped the run has its directory when only its info
      files failed. */
  lemma {:induction false} PrepareCounts(disk: Disk, root: string, cs: seq<Coub>, ts: seq<Coub>, n: nat, s0: PrepState)
    requires n <= |cs| && |ts| == |cs| && s0.err.None? && s0.tasks == [] && s0.dirs == []
    ensures var s := Prepare(disk, root, cs, ts, n, s0);
      |s.tasks| <= |s.dirs| <= n && |s.dirs| <= |s.tasks| + 1 && (s.err.None? ==> |s.dirs| == |s.tasks| == n)
    decreases n
  {
    if n > 0 {
      PrepareCounts(disk, root, cs, ts, n - 1, s0);
      if Prepare(disk, root, cs, ts, n - 1, s0).err.None? {
        PrepareStepShape(disk, root, cs, ts, n - 1, s0);
      } else {
        PrepareAfterError(disk, root, cs, ts, n - 1, s0);
      }
    }
  }

  /** The k-th task started downloads the k-th clip, untrimmed, into the directory made for its
      trimmed form. */
  lemma {:induction false} PrepareTasksFollow(disk: Disk, root: string, cs: seq<Coub>, ts: seq<Coub>, n: nat, s0: PrepState)
    requires n <= |cs| && |ts| == |cs| && s0.err.None? && s0.tasks == [] && s0.dirs == []
    ensures var s := Prepare(disk, root, cs, ts, n, s0);
      |s.tasks| <= n && s.tasks == Tasks(disk, root, cs, ts, |s.tasks|)
    decreases n
  {
    if n > 0 {
      PrepareTasksFollow(disk, root, cs, ts, n - 1, s0);
      var s := Prepare(disk, root, cs, ts, n - 1, s0);
      if s.err.None? {
        PrepareCounts(disk, root, cs, ts, n - 1, s0);
        PrepareStepShape(disk, root, cs, ts, n - 1, s0);
        if Prepare(disk, root, cs, ts, n, s0).err.None? {
          var dir := disk.dirOf(root, ts[n - 1]);
          assert Tasks(disk, root, cs, ts, n) == Tasks(disk, root, cs, ts, n - 1) + [Task(dir, cs[n - 1])];
        }
      } else {
        PrepareAfterError(disk, root, cs, ts, n - 1, s0);
      }
      PrepareCounts(disk, root, cs, ts, n, s0);
    }
  }

  /** The k-th directory made is that of the k-th clip, trimmed. */
  lemma {:induction false} PrepareDirsFollow(disk: Disk, root: string, cs: seq<Coub>, ts: seq<Coub>, n: nat, s0: PrepState)
    requires n <= |cs| && |ts| == |cs| && s0.err.None? && s0.tasks == [] && s0.dirs == []
    ensures var s := Prepare(disk, root, cs, ts, n, s0);
      |s.dirs| <= n && s.dirs == Dirs(disk, root, ts, |s.dirs|)
    decreases n
  {
    if n > 0 {
      PrepareDirsFollow(disk, root, cs, ts, n - 1, s0);
      var s := Prepare(disk, root, cs, ts, n - 1, s0);
      if s.err.None? {
        PrepareCounts(disk, root, cs, ts, n - 1, s0);
        PrepareStepShape(disk, root, cs, ts, n - 1, s0);
        if |Prepare(disk, root, cs, ts, n, s0).dirs| == n {
          var dir := disk.dirOf(root, ts[n - 1]);
          assert Dirs(disk, root, ts, n) == Dirs(disk, root, ts, n - 1) + [dir];
        }
      } else {
        PrepareAfterError(disk, root, cs, ts, n - 1, s0);
      }
      PrepareCounts(disk, root, cs, ts, n, s0);
    }
  }

  /** Preparing follows the catalog: the tasks are those of the first clips, and the
      directories those of the same clips plus, when its info files failed, the clip that
      stopped the run; with no error every clip gets its directory and its task. */
  lemma PrepareFollowsCatalog(disk: Disk, root: string, cs: seq<Coub>, ts: seq<Coub>, n: nat, s0: PrepState)
    requires n <= |cs| && |ts| == |cs| && s0.err.None? && s0.tasks == [] && s0.dirs == []
    ensures var s := Prepare(disk, root, cs, ts, n, s0);
      |s.tasks| <= |s.dirs| <= n
      && |s.dirs| <= |s.tasks| + 1
      && s.dirs == Dirs(disk, root, ts, |s.dirs|)
      && s.tasks == Tasks(disk, root, cs, ts, |s.tasks|)
      && (s.err.None? ==> |s.dirs| == |s.tasks| == n)
  {
    PrepareCounts(disk, root, cs, ts, n, s0);
    PrepareTasksFollow(disk, root, cs, ts, n, s0);
    PrepareDirsFollow(disk, root, cs, ts, n, s0);
  }

  /** On a disk that never fails from operation s0.ops on, every clip is prepared and started. */
  lemma {:induction false} PrepareClean(disk: Disk, root: string, cs: seq<Coub>, ts: seq<Coub>, n: nat, s0: PrepState)
    requires n <= |cs| && |ts| == |cs| && s0.err.None? && forall j :: j >= s0.ops ==> disk.outcome(j).None?
    ensures var s := Prepare(disk, root, cs, ts, n, s0);
      s.err.None? && |s.tasks| == |s0.tasks| + n && s.ops >= s0.ops
    decreases n
  {
    if n > 0 {
      PrepareClean(disk, root, cs, ts, n - 1, s0);
      var s := Prepare(disk, root, cs, ts, n - 1, s0);
      assert disk.outcome(s.ops).None?;
      PrepareDirMade(disk, root, cs, ts, n - 1, s0);
      InformedClean(disk, root, cs, ts, n, s0);
    }
  }

  /** On such a disk the info.txt of the last clip prepared holds the summary text
      (SummaryText) of the trimmed clip. */
  lemma PrepareCleanSummary(disk: Disk, root: string, cs: seq<Coub>, ts: seq<Coub>, n: nat, s0: PrepState)
    requires 0 < n <= |cs| && |ts| == |cs| && s0.err.None? && forall j :: j >= s0.ops ==> disk.outcome(j).None?
    ensures var s := Prepare(disk, root, cs, ts, n, s0);
      var path := InfoPath(disk.dirOf(root, ts[n - 1]));
      path in s.files && s.files[path] == SummaryText(ts[n - 1])
  {
    PrepareClean(disk, root, cs, ts, n - 1, s0);
    var s := Prepare(disk, root, cs, ts, n - 1, s0);
    assert disk.outcome(s.ops).None?;
    PrepareDirMade(disk, root, cs, ts, n - 1, s0);
    InformedClean(disk, root, cs, ts, n, s0);
  }

  // ---------------------------------------------------------------------------
  // The downloads
  // ---------------------------------------------------------------------------

  /** The download log once `tasks` have run, one after another and each with its three groups
      in order, on top of `log`. */
  function Downloaded(net: Net, tasks: seq<Task>, log: seq<Fetch>): seq<Fetch>
    decreases |tasks|
  {
    if tasks == [] then log
    else
      var l := Downloaded(net, tasks[..|tasks| - 1], log);
      var t := tasks[|tasks| - 1];
      l + CoubDataPlan(net, t.outdir, t.coub, |l|)
  }

  /** A task started later runs after every earlier one. */
  lemma DownloadedSnoc(net: Net, tasks: seq<Task>, t: Task, log: seq<Fetch>)
    ensures var l := Downloaded(net, tasks, log);
      Downloaded(net, tasks + [t], log) == l + CoubDataPlan(net, t.outdir, t.coub, |l|)
  {
    assert (tasks + [t])[..|tasks|] == tasks;
  }

  /** The most fetches the tasks can make: seven per task, plus one per image and first-frame
      version. */
  function FetchBudget(tasks: seq<Task>): nat
    decreases |tasks|
  {
    if tasks == [] then 0
    else
      var c := tasks[|tasks| - 1].coub;
      FetchBudget(tasks[..|tasks| - 1]) + 7 + |c.firstFrames.versions| + |c.images.versions|
  }

  /** The downloads only add to the log: at least seven fetches per task, and no more than the
      budget. */
  lemma {:induction false} DownloadedBounds(net: Net, tasks: seq<Task>, log: seq<Fetch>)
    ensures var l := Downloaded(net, tasks, log);
      log <= l && |log| + 7 * |tasks| <= |l| <= |log| + FetchBudget(tasks)
    decreases |tasks|
  {
    if tasks != [] {
      var init := tasks[..|tasks| - 1];
      var t := tasks[|tasks| - 1];
      DownloadedBounds(net, init, log);
      var l := Downloaded(net, init, log);
      CoubDataAlwaysFetchesFiles(net, t.outdir, t.coub, |l|);
    }
  }

  /** Later tasks only add to the log. */
  lemma {:induction false} DownloadedGrows(net: Net, tasks: seq<Task>, log: seq<Fetch>, k: nat)
    requires k <= |tasks|
    ensures Downloaded(net, tasks[..k], log) <= Downloaded(net, tasks, log)
    decreases |tasks|
  {
    if k < |tasks| {
      var init := tasks[..|tasks| - 1];
      DownloadedGrows(net, init, log, k);
      assert init[..k] == tasks[..k];
    } else {
      assert tasks[..k] == tasks;
    }
  }

  /** Every task fetches its seven media files: the log as it stands once task `k` is done ends
      with that task's file fetches, and the later tasks only add to it. */
  lemma DownloadedFetchesFiles(net: Net, tasks: seq<Task>, log: seq<Fetch>, k: nat)
    requires k < |tasks|
    ensures var p := Downloaded(net, tasks[..k + 1], log);
      p <= Downloaded(net, tasks, log) && 7 <= |p|
      && p[|p| - 7..] == FilePlan(net, tasks[k].outdir, tasks[k].coub)
  {
    var done := tasks[..k + 1];
    assert done[..k] == tasks[..k] && done[k] == tasks[k];
    DownloadedGrows(net, tasks, log, k + 1);
    CoubDataAlwaysFetchesFiles(net, tasks[k].outdir, tasks[k].coub, |Downloaded(net, tasks[..k], log)|);
  }

  // ---------------------------------------------------------------------------
  // ReadCoub
  // ---------------------------------------------------------------------------

  /** The loop state of ReadCoub after `i` clips. */
  ghost predicate Progress(disk: Disk, f: Fetcher, pool: TaskPool, root: string, cs: seq<Coub>, ts: seq<Coub>,
                           i: nat, s0: PrepState, dirLog0: seq<string>, log0: seq<Fetch>)
    reads disk, f, pool
  {
    i <= |cs| && |ts| == |cs|
    && var s := Prepare(disk, root, cs, ts, i, s0);
    s.err.None? && |s.tasks| == i
    && disk.ops == s.ops && disk.dirLog == dirLog0 + s.dirs && disk.files == s.files
    && pool.tasks == s.tasks && pool.outstanding == Outstanding(i) && pool.peak == Peak(i)
    && f.log == Downloaded(f.net, s.tasks, log0)
  }

  /** ReadCoub(rootdir, user). Downloads run in the order they are started. */
  method ReadCoub(disk: Disk, f: Fetcher, root: string, user: string) returns (err: Option<Error>, pool: TaskPool)
    modifies disk, f
    ensures fresh(pool)
    ensures var file := disk.catalog(CatalogPath(root, user));
      file.Missing? ==>
        err == Some(file.openError) && pool.tasks == []
        && disk.ops == old(disk.ops) && disk.dirLog == old(disk.dirLog) && disk.files == old(disk.files)
        && f.log == old(f.log)
    ensures var file := disk.catalog(CatalogPath(root, user));
      file.Present? ==>
        var cs := NonRecoubs(file.decoded);
        var s := Prepare(disk, root, cs, TrimmedAll(cs), |cs|, PrepState(None, [], [], old(disk.ops), old(disk.files)));
        err == s.err && pool.tasks == s.tasks
        && disk.ops == s.ops && disk.dirLog == old(disk.dirLog) + s.dirs && disk.files == s.files
        && f.log == Downloaded(f.net, s.tasks, old(f.log))
    ensures pool.peak <= 5
    ensures err.None? ==> pool.outstanding == 0
  {
    pool := new TaskPool();
    var found := GetNonRecoubs(disk, root, user);
    if found.Failure? {
      return Some(found.error), pool;
    }
    var cs := found.value;
    ghost var s0 := PrepState(None, [], [], disk.ops, disk.files);
    ghost var dirLog0 := disk.dirLog;
    ghost var log0 := f.log;
    ghost var ts := TrimmedAll(cs);
    var i := 0;
    while i < |cs|
      invariant Progress(disk, f, pool, root, cs, ts, i, s0, dirLog0, log0)
      invariant fresh(pool)
    {
      var outdir;
      err, outdir := PrepareClip(disk, root, cs, i, ts, s0, dirLog0);
      if err.Some? {
        PrepareSticks(disk, root, cs, ts, i + 1, |cs|, s0);
        PeakAtMostFive(i);
        return;
      }
      StartDownload(f, pool, Task(outdir, cs[i]), i, log0);
      i := i + 1;
    }
    pool.Wait();
    PeakAtMostFive(|cs|);
    err := None;
  }

  /** The preparing half of one round of the ReadCoub loop, for the clip at index i: trim the
      title, make the directory and write the info files. */
  method PrepareClip(disk: Disk, root: string, cs: seq<Coub>, i: nat, ghost ts: seq<Coub>, ghost s0: PrepState,
                     ghost dirLog0: seq<string>)
    returns (err: Option<Error>, outdir: string)
    requires i < |cs| && |ts| == |cs| && ts[i] == Trimmed(cs[i])
    requires var s := Prepare(disk, root, cs, ts, i, s0);
      s.err.None? && disk.ops == s.ops && disk.dirLog == dirLog0 + s.dirs && disk.files == s.files
    modifies disk
    ensures var s := Prepare(disk, root, cs, ts, i, s0);
      var s' := Prepare(disk, root, cs, ts, i + 1, s0);
      err == s'.err && disk.ops == s'.ops && disk.dirLog == dirLog0 + s'.dirs && disk.files == s'.files
      && s'.tasks == (if err.None? then s.tasks + [Task(outdir, cs[i])] else s.tasks)
  {
    var coub := Trimmed(cs[i]);
    var e;
    outdir, e := disk.CreateCoubDir(root, coub);
    if e.Some? {
      PrepareDirFails(disk, root, cs, ts, i, s0);
      return e, outdir;
    }
    err := CreateCoubInfoFiles(disk, outdir, coub);
    PrepareDirMade(disk, root, cs, ts, i, s0);
    InformedShape(disk, root, cs, ts, i + 1, s0);
    assert InfoOf(disk, root, cs, ts, i + 1, s0) == InfoRun(coub, disk.encode, old(disk.ops) + 1, disk.outcome);
  }

  /** The downloading half of one round: start the task, let it run, and wait after every clip
      whose index is a multiple of 5. */
  method StartDownload(f: Fetcher, pool: TaskPool, t: Task, i: nat, ghost log0: seq<Fetch>)
    requires pool.outstanding == Outstanding(i) && pool.peak == Peak(i)
    requires f.log == Downloaded(f.net, pool.tasks, log0)
    modifies f, pool
    ensures pool.tasks == old(pool.tasks) + [t]
    ensures pool.outstanding == Outstanding(i + 1) && pool.peak == Peak(i + 1)
    ensures f.log == Downloaded(f.net, pool.tasks, log0)
  {
    DownloadedSnoc(f.net, pool.tasks, t, log0);
    pool.Submit(t);
    var _ := DownloadCoubData(f, t.outdir, t.coub);
    if i % 5 == 0 {
      pool.Wait();
    }
  }
}
