/** The clip record ("coub") as the downloader reads it from the catalog file.
    Only the fields the core uses are kept; the JSON encoding itself is not modelled. */
module Records {
  import opened Text

  datatype Tag = Tag(title: string)

  /** The fixed set of file renditions (FileVersions.HTML5 and FileVersions.Share). */
  datatype FileVersions = FileVersions(
    videoMed: string,
    videoHigh: string,
    videoHigher: string,
    audioHigh: string,
    audioMed: string,
    shareDefault: string)

  /** An image or first-frame set: a URL template and the versions to put into it, in order. */
  datatype RenditionSet = RenditionSet(template: string, versions: seq<string>)

  /** One clip record. `kind` is the record's `Type` discriminator; `createdAt` is the text
      `time.Time.String()` gives and `duration` the `%.2f` rendering of the duration, both kept opaque. */
  datatype Coub = Coub(
    title: string,
    createdAt: string,
    duration: string,
    views: int,
    recoubs: int,
    kind: string,
    externalDownload: bool,
    tags: seq<Tag>,
    files: FileVersions,
    images: RenditionSet,
    firstFrames: RenditionSet)

  /** The discriminator of a repost. */
  const RecoubKind: string := "Coub::Recoub"

  predicate IsRecoub(c: Coub)
  {
    c.kind == RecoubKind
  }

  /** The record with its title passed through strings.TrimSpace; every other field, and so
      whether the record is a repost, is unchanged. */
  function Trimmed(c: Coub): (r: Coub)
    ensures r.title == TrimSpace(c.title)
    ensures r.(title := c.title) == c
    ensures IsRecoub(r) == IsRecoub(c)
  {
    c.(title := TrimSpace(c.title))
  }

  /** A Go `error` value. `ErrInvalid` is what a write on a nil *os.File returns. */
  datatype Error = IoError(detail: string) | ErrInvalid
}
