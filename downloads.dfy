/** The download groups of one clip: the fixed media files, and the image and first-frame
    renditions produced from a URL template. */
module Downloads {
  import opened Wrappers
  import opened Text
  import opened Records
  import opened Host

  /** DownloadFile(dir + "/" + FileNameFromURL(url), url). */
  function Target(net: Net, dir: string, url: string): Fetch
  {
    Fetch(dir + "/" + net.fileName(url), url)
  }

  // ---------------------------------------------------------------------------
  // DownloadFileVersions
  // ---------------------------------------------------------------------------

  /** The seven fetches of DownloadFileVersions, in order: medium, high and higher video,
      high and medium audio, the default share file under its own name, and the default
      share file again under the clip's title. Mobile renditions are not fetched. */
  function FilePlan(net: Net, dir: string, c: Coub): seq<Fetch>
  {
    [ Target(net, dir, c.files.videoMed),
      Target(net, dir, c.files.videoHigh),
      Target(net, dir, c.files.videoHigher),
      Target(net, dir, c.files.audioHigh),
      Target(net, dir, c.files.audioMed),
      Target(net, dir, c.files.shareDefault),
      Fetch(dir + "/" + c.title + ".mp4", c.files.shareDefault) ]
  }

  /** The plan has seven fetches, all into `dir`; the default share URL is fetched twice, the
      second time under the clip's title with the ".mp4" extension. */
  lemma FilePlanShape(net: Net, dir: string, c: Coub)
    ensures var p := FilePlan(net, dir, c);
      |p| == 7
      && (forall i :: 0 <= i < 7 ==> p[i].path[..|dir| + 1] == dir + "/")
      && p[5].url == p[6].url == c.files.shareDefault
      && p[6].path == dir + "/" + c.title + ".mp4"
      && [p[0].url, p[1].url, p[2].url, p[3].url, p[4].url] ==
         [c.files.videoMed, c.files.videoHigh, c.files.videoHigher, c.files.audioHigh, c.files.audioMed]
  {
    var p := FilePlan(net, dir, c);
    forall i | 0 <= i < 7
      ensures p[i].path[..|dir| + 1] == dir + "/"
    {
      var rest := if i < 6 then net.fileName(p[i].url) else c.title + ".mp4";
      assert p[i].path == dir + "/" + rest;
      assert (dir + "/" + rest)[..|dir + "/"|] == dir + "/";
    }
  }

  /** DownloadFileVersions(filepath, coub): every one of the seven fetches is attempted whatever
      the earlier ones returned (failures are only logged), and the result is always nil. */
  method DownloadFileVersions(f: Fetcher, dir: string, c: Coub) returns (err: Option<Error>)
    modifies f
    ensures f.log == old(f.log) + FilePlan(f.net, dir, c)
    ensures err == None
  {
    ghost var log0 := f.log;
    var url := c.files.videoMed;
    err := f.DownloadFile(dir + "/" + f.net.fileName(url), url);
    url := c.files.videoHigh;
    err := f.DownloadFile(dir + "/" + f.net.fileName(url), url);
    url := c.files.videoHigher;
    err := f.DownloadFile(dir + "/" + f.net.fileName(url), url);
    url := c.files.audioHigh;
    err := f.DownloadFile(dir + "/" + f.net.fileName(url), url);
    url := c.files.audioMed;
    err := f.DownloadFile(dir + "/" + f.net.fileName(url), url);
    url := c.files.shareDefault;
    err := f.DownloadFile(dir + "/" + f.net.fileName(url), url);
    url := c.files.shareDefault;
    err := f.DownloadFile(dir + "/" + c.title + ".mp4", url);
    assert f.log == log0 + FilePlan(f.net, dir, c);
    return None;
  }

  // ---------------------------------------------------------------------------
  // DownloadImageVersions and DownloadFirstFrameVersions
  // ---------------------------------------------------------------------------

  /** strings.Replace(template, "%{version}", version, -1). */
  function RenditionUrl(template: string, version: string): string
  {
    ReplaceAll(template, Placeholder, version)
  }

  /** The fetch for the i-th version of a rendition set. */
  function RenditionFetch(net: Net, dir: string, rs: RenditionSet, i: nat): Fetch
    requires i < |rs.versions|
  {
    Target(net, dir, RenditionUrl(rs.template, rs.versions[i]))
  }

  /** The fetches a rendition group has attempted, and the error it returns. */
  datatype GroupOutcome = GroupOutcome(attempts: seq<Fetch>, err: Option<Error>)

  /** The first n versions of `rs`, the i-th answered as download attempt `start + i`:
      after a failure nothing more is attempted and that failure is the result. */
  function Group(net: Net, dir: string, rs: RenditionSet, n: nat, start: nat): GroupOutcome
    requires n <= |rs.versions|
    decreases n
  {
    if n == 0 then GroupOutcome([], None)
    else
      var g := Group(net, dir, rs, n - 1, start);
      var x := RenditionFetch(net, dir, rs, n - 1);
      if g.err.Some? then g else GroupOutcome(g.attempts + [x], net.outcome(start + n - 1, x))
  }

  /** Once a group has failed, later versions change nothing. */
  lemma {:induction false} GroupSticks(net: Net, dir: string, rs: RenditionSet, j: nat, n: nat, start: nat)
    requires j <= n <= |rs.versions| && Group(net, dir, rs, j, start).err.Some?
    ensures Group(net, dir, rs, n, start) == Group(net, dir, rs, j, start)
    decreases n
  {
    if j < n {
      GroupSticks(net, dir, rs, j, n - 1, start);
    }
  }

  /** A rendition group attempts the versions in order, one fetch each, until the first
      failure, whose error it returns; with no failure it attempts them all and returns nil. */
  lemma {:induction false} GroupStopsAtFirstFailure(net: Net, dir: string, rs: RenditionSet, n: nat, start: nat)
    requires n <= |rs.versions|
    ensures var g := Group(net, dir, rs, n, start);
      |g.attempts| <= n
      && (forall i :: 0 <= i < |g.attempts| ==> g.attempts[i] == RenditionFetch(net, dir, rs, i))
      && (forall i :: 0 <= i < |g.attempts| - 1 ==> net.outcome(start + i, g.attempts[i]).None?)
      && (g.err.None? ==> |g.attempts| == n && forall i :: 0 <= i < n ==> net.outcome(start + i, g.attempts[i]).None?)
      && (g.err.Some? ==>
            |g.attempts| >= 1 && g.err == net.outcome(start + |g.attempts| - 1, g.attempts[|g.attempts| - 1]))
    decreases n
  {
    if n > 0 {
      GroupStopsAtFirstFailure(net, dir, rs, n - 1, start);
    }
  }

  /** A rendition group returns nil iff every one of its fetches succeeds. */
  lemma GroupSucceedsIff(net: Net, dir: string, rs: RenditionSet, start: nat)
    ensures Group(net, dir, rs, |rs.versions|, start).err.None? <==>
      forall i :: 0 <= i < |rs.versions| ==> net.outcome(start + i, RenditionFetch(net, dir, rs, i)).None?
  {
    var n := |rs.versions|;
    var g := Group(net, dir, rs, n, start);
    GroupStopsAtFirstFailure(net, dir, rs, n, start);
    if g.err.Some? {
      var m := |g.attempts| - 1;
      assert g.attempts[m] == RenditionFetch(net, dir, rs, m);
      assert net.outcome(start + m, RenditionFetch(net, dir, rs, m)).Some?;
    }
  }

  /** A template without "%{version}" names the same URL for every version. */
  lemma PlainTemplateRepeats(net: Net, dir: string, rs: RenditionSet, i: nat)
    requires i < |rs.versions| && !Contains(rs.template, Placeholder)
    ensures RenditionFetch(net, dir, rs, i) == Target(net, dir, rs.template)
  {
    ReplaceAbsent(rs.template, Placeholder, rs.versions[i]);
  }

  /** The loop shared by DownloadImageVersions and DownloadFirstFrameVersions. */
  method DownloadRenditions(f: Fetcher, dir: string, rs: RenditionSet) returns (err: Option<Error>)
    modifies f
    ensures var g := Group(f.net, dir, rs, |rs.versions|, |old(f.log)|);
      f.log == old(f.log) + g.attempts && err == g.err
  {
    ghost var log0 := f.log;
    ghost var start := |f.log|;
    var template := rs.template;
    var i := 0;
    while i < |rs.versions|
      invariant 0 <= i <= |rs.versions|
      invariant var g := Group(f.net, dir, rs, i, start);
        g.err.None? && f.log == log0 + g.attempts && |g.attempts| == i
    {
      var url := ReplaceAll(template, Placeholder, rs.versions[i]);
      err := f.DownloadFile(dir + "/" + f.net.fileName(url), url);
      if err.Some? {
        GroupSticks(f.net, dir, rs, i + 1, |rs.versions|, start);
        return;
      }
      i := i + 1;
    }
    err := None;
  }

  /** DownloadImageVersions(filepath, coub). */
  method DownloadImageVersions(f: Fetcher, dir: string, c: Coub) returns (err: Option<Error>)
    modifies f
    ensures var g := Group(f.net, dir, c.images, |c.images.versions|, |old(f.log)|);
      f.log == old(f.log) + g.attempts && err == g.err
  {
    err := DownloadRenditions(f, dir, c.images);
  }

  /** DownloadFirstFrameVersions(filepath, coub). */
  method DownloadFirstFrameVersions(f: Fetcher, dir: string, c: Coub) returns (err: Option<Error>)
    modifies f
    ensures var g := Group(f.net, dir, c.firstFrames, |c.firstFrames.versions|, |old(f.log)|);
      f.log == old(f.log) + g.attempts && err == g.err
  {
    err := DownloadRenditions(f, dir, c.firstFrames);
  }

  // ---------------------------------------------------------------------------
  // DownloadCoubData
  // ---------------------------------------------------------------------------

  /** The fetches of DownloadCoubData when the three groups run one after another in the
      order they are started: first frames, images, then the media files. */
  function CoubDataPlan(net: Net, dir: string, c: Coub, start: nat): seq<Fetch>
  {
    var frames := Group(net, dir, c.firstFrames, |c.firstFrames.versions|, start).attempts;
    var images := Group(net, dir, c.images, |c.images.versions|, start + |frames|).attempts;
    frames + images + FilePlan(net, dir, c)
  }

  /** A failing image or first-frame fetch never keeps the media files from being fetched:
      the seven file fetches close every schedule, after at most one fetch per version. */
  lemma CoubDataAlwaysFetchesFiles(net: Net, dir: string, c: Coub, start: nat)
    ensures var p := CoubDataPlan(net, dir, c, start);
      7 <= |p| <= 7 + |c.firstFrames.versions| + |c.images.versions|
      && p[|p| - 7..] == FilePlan(net, dir, c)
  {
    var frames := Group(net, dir, c.firstFrames, |c.firstFrames.versions|, start);
    GroupStopsAtFirstFailure(net, dir, c.firstFrames, |c.firstFrames.versions|, start);
    GroupStopsAtFirstFailure(net, dir, c.images, |c.images.versions|, start + |frames.attempts|);
  }

  lemma AppendFour<T>(a: seq<T>, b: seq<T>, c: seq<T>, d: seq<T>)
    ensures a + b + c + d == a + (b + c + d)
  {
  }

  /** DownloadCoubData(rootdir, coub): all three groups run, whatever each returns, and the
      result is always nil. */
  method DownloadCoubData(f: Fetcher, dir: string, c: Coub) returns (err: Option<Error>)
    modifies f
    ensures f.log == old(f.log) + CoubDataPlan(f.net, dir, c, |old(f.log)|)
    ensures err == None
  {
    ghost var log0 := f.log;
    ghost var frames := Group(f.net, dir, c.firstFrames, |c.firstFrames.versions|, |log0|).attempts;
    err := DownloadFirstFrameVersions(f, dir, c);
    ghost var images := Group(f.net, dir, c.images, |c.images.versions|, |log0| + |frames|).attempts;
    err := DownloadImageVersions(f, dir, c);
    err := DownloadFileVersions(f, dir, c);
    AppendFour(log0, frames, images, FilePlan(f.net, dir, c));
    return None;
  }
}
