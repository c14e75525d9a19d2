/** The outside world the downloader talks to, reduced to oracles.
    The local disk answers each fallible operation in turn from `Disk.outcome`, and the network
    answers the n-th download attempt from `Net.outcome`. Neither is run; their answers are
    inputs of the model, so every property below holds for any behaviour of disk and network. */
module Host {
  import opened Wrappers
  import opened Records

  /** What opening and decoding `<dir>/<user>.json` yields: an open error, or the records the
      decoder produced together with the decode error it reported, if any. */
  datatype CatalogFile = Missing(openError: Error) | Present(decoded: seq<Coub>, decodeError: Option<Error>)

  /** The local file system. */
  class Disk {
    /** What opening and decoding a catalog path yields. */
    const catalog: string -> CatalogFile
    /** The directory CreateCoubDir chooses for a clip under a root directory. */
    const dirOf: (string, Coub) -> string
    /** json.MarshalIndent of a record. */
    const encode: Coub -> string
    /** The error, if any, of the k-th fallible disk operation. */
    const outcome: nat -> Option<Error>

    /** Fallible operations performed so far. */
    var ops: nat
    /** Directories CreateCoubDir made, in order. */
    var dirLog: seq<string>
    /** Contents of the text files written. */
    var files: map<string, string>

    constructor (catalog: string -> CatalogFile, dirOf: (string, Coub) -> string,
                 encode: Coub -> string, outcome: nat -> Option<Error>)
      ensures this.catalog == catalog && this.dirOf == dirOf
      ensures this.encode == encode && this.outcome == outcome
      ensures ops == 0 && dirLog == [] && files == map[]
    {
      this.catalog := catalog;
      this.dirOf := dirOf;
      this.encode := encode;
      this.outcome := outcome;
      ops := 0;
      dirLog := [];
      files := map[];
    }

    /** CreateCoubDir(rootdir, coub): makes (or finds) the clip's directory. */
    method CreateCoubDir(root: string, c: Coub) returns (outdir: string, err: Option<Error>)
      modifies this
      ensures outdir == dirOf(root, c)
      ensures err == outcome(old(ops)) && ops == old(ops) + 1
      ensures dirLog == if err.None? then old(dirLog) + [outdir] else old(dirLog)
      ensures files == old(files)
    {
      err := outcome(ops);
      ops := ops + 1;
      outdir := dirOf(root, c);
      if err.None? {
        dirLog := dirLog + [outdir];
      }
    }

    /** ioutil.WriteFile: replaces the whole file when it succeeds. */
    method WriteFile(path: string, data: string) returns (err: Option<Error>)
      modifies this
      ensures err == outcome(old(ops)) && ops == old(ops) + 1
      ensures files == if err.None? then old(files)[path := data] else old(files)
      ensures dirLog == old(dirLog)
    {
      err := outcome(ops);
      ops := ops + 1;
      if err.None? {
        files := files[path := data];
      }
    }

    /** os.Create: creates the file or truncates it to empty. */
    method Create(path: string) returns (err: Option<Error>)
      modifies this
      ensures err == outcome(old(ops)) && ops == old(ops) + 1
      ensures files == if err.None? then old(files)[path := ""] else old(files)
      ensures dirLog == old(dirLog)
    {
      err := outcome(ops);
      ops := ops + 1;
      if err.None? {
        files := files[path := ""];
      }
    }

    /** (*os.File).WriteString: appends `s` when it succeeds; a failed write adds nothing. */
    method WriteString(path: string, s: string) returns (err: Option<Error>)
      modifies this
      ensures err == outcome(old(ops)) && ops == old(ops) + 1
      ensures files == if err.None? then old(files)[path := Contents(old(files), path) + s] else old(files)
      ensures dirLog == old(dirLog)
    {
      err := outcome(ops);
      ops := ops + 1;
      if err.None? {
        files := files[path := Contents(files, path) + s];
      }
    }

    /** (*os.File).Close. */
    method Close(path: string) returns (err: Option<Error>)
      modifies this
      ensures err == outcome(old(ops)) && ops == old(ops) + 1
      ensures files == old(files) && dirLog == old(dirLog)
    {
      err := outcome(ops);
      ops := ops + 1;
    }
  }

  /** The text of a file, empty when it does not exist. */
  function Contents(files: map<string, string>, path: string): string
  {
    if path in files then files[path] else ""
  }

  /** One call of DownloadFile(path, url). */
  datatype Fetch = Fetch(path: string, url: string)

  /** The network and the helpers to compute file names: `outcome(n, f)` is the error, if any,
      of the n-th download attempt of the run; `fileName` is FileNameFromURL. */
  datatype Net = Net(outcome: (nat, Fetch) -> Option<Error>, fileName: string -> string)

  /** The download primitive, with a log of every attempt in order. */
  class Fetcher {
    const net: Net
    var log: seq<Fetch>

    constructor (net: Net)
      ensures this.net == net && log == []
    {
      this.net := net;
      log := [];
    }

    /** DownloadFile(path, url): one attempt, answered by the network. */
    method DownloadFile(path: string, url: string) returns (err: Option<Error>)
      modifies this
      ensures log == old(log) + [Fetch(path, url)]
      ensures err == net.outcome(|old(log)|, Fetch(path, url))
    {
      err := net.outcome(|log|, Fetch(path, url));
      log := log + [Fetch(path, url)];
    }
  }
}
