/** CreateCoubInfoFiles: the machine-readable dump `metadata.json` and the human-readable
    summary `info.txt` of one clip. */
module Summary {
  import opened Wrappers
  import opened Text
  import opened Records
  import opened Host

  /** One WriteString call on info.txt, and whether the code looks at its error. */
  datatype Step = Step(text: string, checked: bool)

  /** One labelled line of the summary. */
  function Line(heading: string, value: string): string
  {
    heading + value + "\n"
  }

  /** The seven labelled writes. The errors of the "Source: " and "Tags: " writes are assigned
      to `err` and overwritten before anything reads them, so they are not checked. */
  function HeaderSteps(c: Coub): seq<Step>
  {
    [ Step(Line("Title: ", c.title), true),
      Step(Line("Created At: ", c.createdAt), true),
      Step(Line("Duration: ", c.duration), true),
      Step(Line("Views: ", IntText(c.views)), true),
      Step(Line("Recoubs: ", IntText(c.recoubs)), true),
      Step(Line("Source: ", BoolText(c.externalDownload)), false),
      Step("Tags: ", false) ]
  }

  /** One write per tag: its title, then ", ", or "\n" after the last one. */
  function TagSteps(tags: seq<Tag>): seq<Step>
    decreases |tags|
  {
    if tags == [] then []
    else [Step(tags[0].title + (if |tags| == 1 then "\n" else ", "), true)] + TagSteps(tags[1..])
  }

  function InfoSteps(c: Coub): seq<Step>
  {
    HeaderSteps(c) + TagSteps(c.tags)
  }

  function Titles(tags: seq<Tag>): seq<string>
    decreases |tags|
  {
    if tags == [] then [] else [tags[0].title] + Titles(tags[1..])
  }

  /** The tag titles joined by ", ", with a final newline only when there is at least one tag. */
  function TagList(tags: seq<Tag>): string
  {
    Join(Titles(tags), ", ") + (if tags == [] then "" else "\n")
  }

  /** The layout of info.txt: the labelled lines Title, Created At, Duration,
      Views, Recoubs and Source, then "Tags: " and the tag list. */
  function SummaryText(c: Coub): string
  {
    Line("Title: ", c.title) + Line("Created At: ", c.createdAt) + Line("Duration: ", c.duration)
    + Line("Views: ", IntText(c.views)) + Line("Recoubs: ", IntText(c.recoubs))
    + Line("Source: ", BoolText(c.externalDownload)) + "Tags: " + TagList(c.tags)
  }

  /** All the texts of `steps`, in order. */
  function Concat(steps: seq<Step>): string
    decreases |steps|
  {
    if steps == [] then "" else steps[0].text + Concat(steps[1..])
  }

  /** What a run of writes has left: the text that reached the file, the error returned (that of
      the first failing checked write), and how many fallible operations it used. */
  datatype WriteOutcome = WriteOutcome(text: string, err: Option<Error>, used: nat)

  /** One more write, answered with `e`: nothing happens after a returned error; a failed
      checked write returns its error; any other write adds its text only if it succeeded. */
  function Next(w: WriteOutcome, x: Step, e: Option<Error>): WriteOutcome
  {
    if w.err.Some? then w
    else if e.Some? && x.checked then WriteOutcome(w.text, e, w.used + 1)
    else WriteOutcome(w.text + (if e.None? then x.text else ""), None, w.used + 1)
  }

  /** The first n writes of `steps`, in order, the j-th answered by the disk's operation k + j. */
  function Run(steps: seq<Step>, n: nat, k: nat, outcome: nat -> Option<Error>): WriteOutcome
    requires n <= |steps|
    decreases n
  {
    if n == 0 then WriteOutcome("", None, 0)
    else Next(Run(steps, n - 1, k, outcome), steps[n - 1], outcome(k + n - 1))
  }

  /** The texts of those of the first n writes that succeeded, in order. */
  function Delivered(steps: seq<Step>, n: nat, k: nat, outcome: nat -> Option<Error>): string
    requires n <= |steps|
    decreases n
  {
    if n == 0 then ""
    else Delivered(steps, n - 1, k, outcome) + (if outcome(k + n - 1).None? then steps[n - 1].text else "")
  }

  /** What CreateCoubInfoFiles(dir, coub) does, answered by the disk from operation `k` on:
      the new contents of metadata.json and of info.txt (None: not written), the error, and
      the number of operations used. */
  datatype InfoOutcome = InfoOutcome(metadata: Option<string>, info: Option<string>, err: Option<Error>, used: nat)

  function InfoRun(c: Coub, encode: Coub -> string, k: nat, outcome: nat -> Option<Error>): InfoOutcome
  {
    InfoRunOf(encode(c), InfoSteps(c), k, outcome)
  }

  /** The same for any dump `meta` and any writes `steps` on info.txt. */
  function InfoRunOf(meta: string, steps: seq<Step>, k: nat, outcome: nat -> Option<Error>): InfoOutcome
  {
    if outcome(k).Some? then
      InfoOutcome(None, None, outcome(k), 1)
    else if outcome(k + 1).Some? then
      // os.Create failed: the nil file rejects the first write with ErrInvalid
      InfoOutcome(Some(meta), None, Some(ErrInvalid), 2)
    else
      var w := Run(steps, |steps|, k + 2, outcome);
      if w.err.Some? then InfoOutcome(Some(meta), Some(w.text), w.err, 2 + w.used)
      else InfoOutcome(Some(meta), Some(w.text), outcome(k + 2 + w.used), 3 + w.used)
  }

  function MetadataPath(dir: string): string { dir + "/metadata.json" }

  function InfoPath(dir: string): string { dir + "/info.txt" }

  /** The file map after a run. */
  function ApplyInfo(files: map<string, string>, dir: string, r: InfoOutcome): map<string, string>
  {
    var f1 := if r.metadata.Some? then files[MetadataPath(dir) := r.metadata.value] else files;
    if r.info.Some? then f1[InfoPath(dir) := r.info.value] else f1
  }

  // ---------------------------------------------------------------------------
  // The layout
  // ---------------------------------------------------------------------------

  lemma {:induction false} ConcatAppend(a: seq<Step>, b: seq<Step>)
    ensures Concat(a + b) == Concat(a) + Concat(b)
    decreases |a|
  {
    if a == [] {
      assert a + b == b;
    } else {
      assert (a + b)[1..] == a[1..] + b;
      ConcatAppend(a[1..], b);
    }
  }

  /** The tag writes produce the titles joined by ", " and a final "\n", and nothing at all
      for an empty tag list. */
  lemma {:induction false} TagStepsLayout(tags: seq<Tag>)
    ensures Concat(TagSteps(tags)) == TagList(tags)
    decreases |tags|
  {
    if |tags| == 1 {
      assert TagSteps(tags)[1..] == [];
    } else if |tags| > 1 {
      TagStepsLayout(tags[1..]);
      assert Titles(tags)[1..] == Titles(tags[1..]);
      assert TagSteps(tags)[1..] == TagSteps(tags[1..]);
    }
  }

  /** The i-th tag write is the i-th title followed by ", ", or by "\n" for the last one. */
  lemma {:induction false} TagStepsAt(tags: seq<Tag>, i: nat)
    requires i < |tags|
    ensures |TagSteps(tags)| == |tags|
    ensures TagSteps(tags)[i] == Step(tags[i].title + (if i == |tags| - 1 then "\n" else ", "), true)
    decreases |tags|
  {
    if i > 0 {
      TagStepsAt(tags[1..], i - 1);
    } else if |tags| > 1 {
      TagStepsAt(tags[1..], 0);
    }
  }

  /** InfoSteps holds the seven labelled writes, then one write per tag. */
  lemma InfoStepsShape(c: Coub)
    ensures var s := InfoSteps(c);
      |s| == 7 + |c.tags| && s[..7] == HeaderSteps(c) && s[7..] == TagSteps(c.tags)
      && forall j :: 0 <= j < 7 ==> s[j] == HeaderSteps(c)[j]
  {
    if c.tags != [] {
      TagStepsAt(c.tags, 0);
    }
  }

  /** Concat split around one write. */
  lemma ConcatAround(steps: seq<Step>, i: nat)
    requires i < |steps|
    ensures Concat(steps) == Concat(steps[..i]) + steps[i].text + Concat(steps[i + 1..])
  {
    assert steps[..i + 1] + steps[i + 1..] == steps;
    ConcatAppend(steps[..i + 1], steps[i + 1..]);
    ConcatSnoc(steps, i);
  }

  /** Seven writes give their seven texts, in order. */
  lemma ConcatSeven(h: seq<Step>)
    requires |h| == 7
    ensures Concat(h) == h[0].text + h[1].text + h[2].text + h[3].text + h[4].text + h[5].text + h[6].text
  {
    assert h[..0] == [];
    ConcatSnoc(h, 0);
    assert "" + h[0].text == h[0].text;
    ConcatSnoc(h, 1);
    ConcatSnoc(h, 2);
    ConcatSnoc(h, 3);
    ConcatSnoc(h, 4);
    ConcatSnoc(h, 5);
    ConcatSnoc(h, 6);
    assert h[..7] == h;
  }

  /** The header writes give the labelled lines and the "Tags: " label, in order. */
  lemma HeaderLayout(c: Coub)
    ensures Concat(HeaderSteps(c)) ==
      Line("Title: ", c.title) + Line("Created At: ", c.createdAt) + Line("Duration: ", c.duration)
      + Line("Views: ", IntText(c.views)) + Line("Recoubs: ", IntText(c.recoubs))
      + Line("Source: ", BoolText(c.externalDownload)) + "Tags: "
  {
    ConcatSeven(HeaderSteps(c));
  }

  /** Written in full, the sequence of writes is the summary text (SummaryText). */
  lemma InfoStepsLayout(c: Coub)
    ensures Concat(InfoSteps(c)) == SummaryText(c)
  {
    ConcatAppend(HeaderSteps(c), TagSteps(c.tags));
    HeaderLayout(c);
    TagStepsLayout(c.tags);
  }

  /** With no tags the summary ends with the bare "Tags: " label and no newline; with tags it
      ends with the newline after the last title. */
  lemma SummaryEnding(c: Coub)
    ensures var t := SummaryText(c);
      (c.tags == [] ==> |t| >= 6 && t[|t| - 6..] == "Tags: ")
      && (c.tags != [] ==> |t| > 0 && t[|t| - 1] == '\n')
  {
    var head := Line("Title: ", c.title) + Line("Created At: ", c.createdAt) + Line("Duration: ", c.duration)
      + Line("Views: ", IntText(c.views)) + Line("Recoubs: ", IntText(c.recoubs))
      + Line("Source: ", BoolText(c.externalDownload)) + "Tags: ";
    var t := SummaryText(c);
    assert t == head + TagList(c.tags);
    if c.tags == [] {
      assert t == head;
    } else {
      var j := Join(Titles(c.tags), ", ");
      assert t == (head + j) + "\n";
    }
  }

  // ---------------------------------------------------------------------------
  // Runs of writes
  // ---------------------------------------------------------------------------

  /** The first n + 1 texts are the first n and one more. */
  lemma ConcatSnoc(steps: seq<Step>, n: nat)
    requires n < |steps|
    ensures Concat(steps[..n + 1]) == Concat(steps[..n]) + steps[n].text
  {
    assert steps[..n + 1] == steps[..n] + [steps[n]];
    ConcatAppend(steps[..n], [steps[n]]);
    assert Concat([steps[n]]) == steps[n].text;
  }

  /** Once a run has failed, later writes change nothing. */
  lemma {:induction false} RunSticks(steps: seq<Step>, k: nat, outcome: nat -> Option<Error>, j: nat, n: nat)
    requires j <= n <= |steps| && Run(steps, j, k, outcome).err.Some?
    ensures Run(steps, n, k, outcome) == Run(steps, j, k, outcome)
    decreases n
  {
    if j < n {
      RunSticks(steps, k, outcome, j, n - 1);
    }
  }

  /** A run of writes ends exactly at its first failing checked write and returns that write's
      error; with no such failure it performs every write and returns nil. */
  lemma {:induction false} RunStopsAtFirstCheckedFailure(steps: seq<Step>, n: nat, k: nat, outcome: nat -> Option<Error>)
    requires n <= |steps|
    ensures var w := Run(steps, n, k, outcome);
      w.used <= n
      && (w.err.None? ==> w.used == n)
      && (w.err.Some? ==> w.used >= 1 && steps[w.used - 1].checked && w.err == outcome(k + w.used - 1))
      && (forall j :: 0 <= j < w.used - 1 ==> !(steps[j].checked && outcome(k + j).Some?))
      && (forall j :: 0 <= j < n && w.err.None? ==> !(steps[j].checked && outcome(k + j).Some?))
    decreases n
  {
    if n > 0 {
      RunStopsAtFirstCheckedFailure(steps, n - 1, k, outcome);
    }
  }

  /** A run of writes reports success iff none of its checked writes fails. */
  lemma RunSucceedsIff(steps: seq<Step>, k: nat, outcome: nat -> Option<Error>)
    ensures Run(steps, |steps|, k, outcome).err.None? <==>
      forall j :: 0 <= j < |steps| ==> steps[j].checked ==> outcome(k + j).None?
  {
    RunStopsAtFirstCheckedFailure(steps, |steps|, k, outcome);
    var w := Run(steps, |steps|, k, outcome);
    if w.err.Some? {
      assert steps[w.used - 1].checked && outcome(k + (w.used - 1)).Some?;
    }
  }

  /** When no checked write fails, every write is made and exactly the texts of the
      successful ones reach the file. */
  lemma {:induction false} RunUnchecked(steps: seq<Step>, n: nat, k: nat, outcome: nat -> Option<Error>)
    requires n <= |steps|
    requires forall j :: 0 <= j < n && steps[j].checked ==> outcome(k + j).None?
    ensures Run(steps, n, k, outcome) == WriteOutcome(Delivered(steps, n, k, outcome), None, n)
    decreases n
  {
    if n > 0 {
      RunUnchecked(steps, n - 1, k, outcome);
    }
  }

  /** With no failure at all, what is delivered is every text. */
  lemma {:induction false} DeliveredClean(steps: seq<Step>, n: nat, k: nat, outcome: nat -> Option<Error>)
    requires n <= |steps|
    requires forall j :: k <= j < k + n ==> outcome(j).None?
    ensures Delivered(steps, n, k, outcome) == Concat(steps[..n])
    decreases n
  {
    if n > 0 {
      DeliveredClean(steps, n - 1, k, outcome);
      assert outcome(k + n - 1).None?;
      ConcatSnoc(steps, n - 1);
    }
  }

  /** The same for a slice. */
  lemma ConcatSliceSnoc(steps: seq<Step>, a: nat, b: nat)
    requires a <= b < |steps|
    ensures Concat(steps[a..b + 1]) == Concat(steps[a..b]) + steps[b].text
  {
    var t := steps[a..b + 1];
    assert t[..b - a] == steps[a..b] && t[b - a] == steps[b];
    ConcatSnoc(t, b - a);
    assert t[..b - a + 1] == t;
  }

  /** With exactly one failing write, at position i, what is delivered is every other text. */
  lemma {:induction false} DeliveredAllBut(steps: seq<Step>, n: nat, k: nat, outcome: nat -> Option<Error>, i: nat)
    requires i < n <= |steps| && outcome(k + i).Some?
    requires forall j :: k <= j < k + n && j != k + i ==> outcome(j).None?
    ensures Delivered(steps, n, k, outcome) == Concat(steps[..i]) + Concat(steps[i + 1..n])
    decreases n
  {
    var head := Concat(steps[..i]);
    if n == i + 1 {
      DeliveredClean(steps, i, k, outcome);
      assert Delivered(steps, n, k, outcome) == head + "";
      assert steps[i + 1..n] == [];
    } else {
      DeliveredAllBut(steps, n - 1, k, outcome, i);
      assert outcome(k + n - 1).None?;
      DeliveredAfter(steps, n, k, outcome, i + 1, head);
    }
  }

  /** One more successful write after position m appends its text to the slice from m. */
  lemma DeliveredAfter(steps: seq<Step>, n: nat, k: nat, outcome: nat -> Option<Error>, m: nat, head: string)
    requires m < n <= |steps| && outcome(k + n - 1).None?
    requires Delivered(steps, n - 1, k, outcome) == head + Concat(steps[m..n - 1])
    ensures Delivered(steps, n, k, outcome) == head + Concat(steps[m..n])
  {
    ConcatSliceSnoc(steps, m, n - 1);
    assert (head + Concat(steps[m..n - 1])) + steps[n - 1].text
      == head + (Concat(steps[m..n - 1]) + steps[n - 1].text);
  }

  /** With a disk that never fails, CreateCoubInfoFiles writes the JSON dump and exactly the
      summary text (SummaryText), uses 10 + |tags| operations and returns nil. */
  lemma InfoRunClean(c: Coub, encode: Coub -> string, k: nat, outcome: nat -> Option<Error>)
    requires forall j :: k <= j < k + 10 + |c.tags| ==> outcome(j).None?
    ensures InfoRun(c, encode, k, outcome) ==
      InfoOutcome(Some(encode(c)), Some(SummaryText(c)), None, 10 + |c.tags|)
  {
    var s := InfoSteps(c);
    InfoStepsShape(c);
    assert outcome(k).None? && outcome(k + 1).None?;
    RunUnchecked(s, |s|, k + 2, outcome);
    DeliveredClean(s, |s|, k + 2, outcome);
    assert s[..|s|] == s;
    InfoStepsLayout(c);
    assert outcome(k + 2 + |s|).None?;
  }

  /** When the only failing operation is an unchecked write, at position i, CreateCoubInfoFiles
      returns nil and info.txt receives every other text. */
  lemma {:induction false} OnlyUncheckedFails(meta: string, steps: seq<Step>, k: nat, outcome: nat -> Option<Error>, i: nat)
    requires i < |steps| && !steps[i].checked && outcome(k + 2 + i).Some?
    requires forall j :: k <= j < k + 3 + |steps| && j != k + 2 + i ==> outcome(j).None?
    ensures var r := InfoRunOf(meta, steps, k, outcome);
      r.err.None? && r.info == Some(Concat(steps[..i]) + Concat(steps[i + 1..]))
  {
    assert outcome(k).None? && outcome(k + 1).None?;
    RunUnchecked(steps, |steps|, k + 2, outcome);
    DeliveredAllBut(steps, |steps|, k + 2, outcome, i);
    assert steps[i + 1..|steps|] == steps[i + 1..];
    assert outcome(k + 2 + |steps|).None?;
  }

  /** The unchecked "Source: " write: when it is the only failing operation, info.txt holds the
      summary text with exactly its Source line cut out, and the function returns nil. */
  lemma SourceWriteFailureIsSilent(c: Coub, encode: Coub -> string, k: nat, outcome: nat -> Option<Error>)
    requires outcome(k + 7).Some?
    requires forall j :: k <= j < k + 10 + |c.tags| && j != k + 7 ==> outcome(j).None?
    ensures var r := InfoRun(c, encode, k, outcome);
      var before := Concat(InfoSteps(c)[..5]);
      var after := Concat(InfoSteps(c)[6..]);
      r.err.None? && r.info == Some(before + after)
      && SummaryText(c) == before + Line("Source: ", BoolText(c.externalDownload)) + after
  {
    var s := InfoSteps(c);
    InfoStepsShape(c);
    OnlyUncheckedFails(encode(c), s, k, outcome, 5);
    InfoStepsLayout(c);
    ConcatAround(s, 5);
  }

  // ---------------------------------------------------------------------------
  // The method
  // ---------------------------------------------------------------------------


  /** State shared by the writes on info.txt: the first j writes of `steps`, answered by the
      disk from operation `base` on, are the run `w`, which has not failed, and its text is what
      info.txt holds. */
  ghost predicate OnTrack(disk: Disk, info: string, steps: seq<Step>, base: nat, files1: map<string, string>, j: nat, w: WriteOutcome)
    reads disk
  {
    j <= |steps| && Run(steps, j, base, disk.outcome) == w && w.used == j
    && disk.ops == base + j && disk.files == files1[info := w.text]
  }

  /** One WriteString on info.txt, the j-th write of `steps`. */
  method Put(disk: Disk, info: string, s: string, ghost steps: seq<Step>, ghost base: nat,
             ghost files1: map<string, string>, ghost j: nat, ghost w: WriteOutcome)
    returns (err: Option<Error>, ghost after: WriteOutcome)
    requires j < |steps| && s == steps[j].text && w.err.None?
    requires OnTrack(disk, info, steps, base, files1, j, w)
    modifies disk
    ensures disk.dirLog == old(disk.dirLog)
    ensures err == disk.outcome(base + j) && after == Next(w, steps[j], err)
    ensures OnTrack(disk, info, steps, base, files1, j + 1, after)
  {
    assert Contents(disk.files, info) == w.text;
    err := disk.WriteString(info, s);
    after := Next(w, steps[j], err);
    if err.None? {
      assert files1[info := w.text][info := w.text + s] == files1[info := w.text + s];
    } else {
      assert w.text + "" == w.text;
    }
  }

  /** The five checked labelled writes of CreateCoubInfoFiles, "Title: " to "Recoubs: ", on the
      open info.txt. A failing one returns its error at once. */
  method WriteLabels(disk: Disk, info: string, c: Coub, ghost steps: seq<Step>, ghost base: nat, ghost files1: map<string, string>)
    returns (err: Option<Error>, ghost w: WriteOutcome)
    requires |steps| >= 7 && forall j :: 0 <= j < 7 ==> steps[j] == HeaderSteps(c)[j]
    requires OnTrack(disk, info, steps, base, files1, 0, WriteOutcome("", None, 0))
    modifies disk
    ensures disk.dirLog == old(disk.dirLog)
    ensures w.used <= 5 && OnTrack(disk, info, steps, base, files1, w.used, w) && err == w.err
    ensures err.None? ==> w.used == 5
  {
    w := WriteOutcome("", None, 0);
    err, w := Put(disk, info, "Title: " + c.title + "\n", steps, base, files1, 0, w);
    if err.Some? {
      return;
    }
    err, w := Put(disk, info, "Created At: " + c.createdAt + "\n", steps, base, files1, 1, w);
    if err.Some? {
      return;
    }
    err, w := Put(disk, info, "Duration: " + c.duration + "\n", steps, base, files1, 2, w);
    if err.Some? {
      return;
    }
    err, w := Put(disk, info, "Views: " + IntText(c.views) + "\n", steps, base, files1, 3, w);
    if err.Some? {
      return;
    }
    err, w := Put(disk, info, "Recoubs: " + IntText(c.recoubs) + "\n", steps, base, files1, 4, w);
  }

  /** The seven labelled writes of CreateCoubInfoFiles: the five checked ones, then "Source: "
      and "Tags: ", whose errors are never looked at. */
  method WriteHeader(disk: Disk, info: string, c: Coub, ghost steps: seq<Step>, ghost base: nat, ghost files1: map<string, string>)
    returns (err: Option<Error>, ghost w: WriteOutcome)
    requires |steps| >= 7 && forall j :: 0 <= j < 7 ==> steps[j] == HeaderSteps(c)[j]
    requires OnTrack(disk, info, steps, base, files1, 0, WriteOutcome("", None, 0))
    modifies disk
    ensures disk.dirLog == old(disk.dirLog)
    ensures w.used <= 7 && OnTrack(disk, info, steps, base, files1, w.used, w) && err == w.err
    ensures err.None? ==> w.used == 7
  {
    err, w := WriteLabels(disk, info, c, steps, base, files1);
    if err.Some? {
      return;
    }
    err, w := Put(disk, info, "Source: " + BoolText(c.externalDownload) + "\n", steps, base, files1, 5, w);
    err, w := Put(disk, info, "Tags: ", steps, base, files1, 6, w);
    err := None;
  }

  /** The tag loop of CreateCoubInfoFiles: each title followed by ", ", the last by "\n".
      A failing write returns its error at once. */
  method WriteTags(disk: Disk, info: string, c: Coub, ghost steps: seq<Step>, ghost base: nat,
                   ghost files1: map<string, string>, ghost w0: WriteOutcome)
    returns (err: Option<Error>, ghost w: WriteOutcome)
    requires |steps| == 7 + |c.tags| && steps[7..] == TagSteps(c.tags) && w0.err.None?
    requires OnTrack(disk, info, steps, base, files1, 7, w0)
    modifies disk
    ensures disk.dirLog == old(disk.dirLog)
    ensures w.used <= |steps| && OnTrack(disk, info, steps, base, files1, w.used, w) && err == w.err
    ensures err.None? ==> w.used == |steps|
  {
    w, err := w0, None;
    var i := 0;
    while i < |c.tags|
      invariant 0 <= i <= |c.tags| && w.err.None? && err.None?
      invariant disk.dirLog == old(disk.dirLog)
      invariant OnTrack(disk, info, steps, base, files1, 7 + i, w)
    {
      TagStepsAt(c.tags, i);
      assert steps[7 + i] == TagSteps(c.tags)[i] by {
        assert steps[7..][i] == steps[7 + i];
      }
      if i == |c.tags| - 1 {
        err, w := Put(disk, info, c.tags[i].title + "\n", steps, base, files1, 7 + i, w);
      } else {
        err, w := Put(disk, info, c.tags[i].title + ", ", steps, base, files1, 7 + i, w);
      }
      if err.Some? {
        return;
      }
      i := i + 1;
    }
  }

  /** Everything CreateCoubInfoFiles does on the open info.txt: the writes of `steps` (the
      header, then the tags), stopping at the first failing checked one, and then Close. */
  method WriteInfo(disk: Disk, info: string, c: Coub, ghost steps: seq<Step>, ghost base: nat, ghost files1: map<string, string>)
    returns (err: Option<Error>, ghost w: WriteOutcome)
    requires steps == InfoSteps(c)
    requires OnTrack(disk, info, steps, base, files1, 0, WriteOutcome("", None, 0))
    modifies disk
    ensures disk.dirLog == old(disk.dirLog)
    ensures w == Run(steps, |steps|, base, disk.outcome) && disk.files == files1[info := w.text]
    ensures w.err.Some? ==> err == w.err && disk.ops == base + w.used
    ensures w.err.None? ==> err == disk.outcome(base + w.used) && disk.ops == base + w.used + 1
  {
    InfoStepsShape(c);
    err, w := WriteHeader(disk, info, c, steps, base, files1);
    if err.None? {
      err, w := WriteTags(disk, info, c, steps, base, files1, w);
    }
    if err.Some? {
      RunSticks(steps, base, disk.outcome, w.used, |steps|);
      return;
    }
    err := disk.Close(info);
  }

  /** CreateCoubInfoFiles(dir, coub): the disk ends up as InfoRun describes. */
  method CreateCoubInfoFiles(disk: Disk, dir: string, c: Coub) returns (err: Option<Error>)
    modifies disk
    ensures var r := InfoRun(c, disk.encode, old(disk.ops), disk.outcome);
      err == r.err && disk.ops == old(disk.ops) + r.used
      && disk.files == ApplyInfo(old(disk.files), dir, r)
    ensures disk.dirLog == old(disk.dirLog)
  {
    ghost var k := disk.ops;
    ghost var files1 := disk.files[MetadataPath(dir) := disk.encode(c)];
    err := disk.WriteFile(MetadataPath(dir), disk.encode(c));
    if err.Some? {
      return;
    }
    var info := InfoPath(dir);
    var created := disk.Create(info);
    if created.Some? {
      // a nil *os.File rejects the first write
      err := Some(ErrInvalid);
      return;
    }
    ghost var w;
    err, w := WriteInfo(disk, info, c, InfoSteps(c), k + 2, files1);
  }
}
