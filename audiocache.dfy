/** The audio cache: the deterministic local path of a call's recording, and the
    download step that fetches it only when no file exists at that path.
    The file system is the set of existing paths; the network is the log of
    requested URLs, whose responses come from an oracle indexed by the number
    of requests made before. */
module AudioCache {
  import opened Wrappers
  import opened Filenames
  import opened Listing

  const RECORDINGS_DIR := "temp_recordings"
  const URL_PREFIX := "https://controlpanel.voipfone.co.uk/api/srv?callRecordingsGetFile/"

  /** The cache filename: sanitised date, from, to, owner tag and identifier,
      joined by '_', with the ".mp3" extension. Only the date is sanitised. */
  function CacheFileName(c: CallRecord): (name: string)
    ensures |name| == |c.dateTime| + |c.fromNumber| + |c.toNumber| + |c.userTag| + |c.dataId| + 8
    ensures IsSafe(name[..|c.dateTime|])
    ensures name[..|c.dateTime|] == SanitizeFilename(c.dateTime)
    ensures name[|c.dateTime|] == '_'
    ensures name[|name| - 4..] == ".mp3"
    ensures name[|name| - 5 - |c.dataId|..|name| - 4] == "_" + c.dataId
  {
    SanitizePointwise(c.dateTime);
    SanitizeIsSafe(c.dateTime);
    var name := SanitizeFilename(c.dateTime) + "_" + c.fromNumber + "_" + c.toNumber + "_" +
                c.userTag + "_" + c.dataId + ".mp3";
    assert name[..|c.dateTime|] == SanitizeFilename(c.dateTime);
    name
  }

  /** Python's `os.path.join(dir, name)` for two components on a POSIX system:
      an absolute second component replaces the first. */
  function PathJoin(dir: string, name: string): string {
    if |name| > 0 && name[0] == '/' then name
    else if dir == [] || dir[|dir| - 1] == '/' then dir + name
    else dir + "/" + name
  }

  /** Only the date is sanitised: the from number, the to number and the owner
      tag appear verbatim after it, each followed by '_'. */
  lemma CacheFileNameFields(c: CallRecord)
    ensures CacheFileName(c)[|c.dateTime| + 1..|c.dateTime| + 1 + |c.fromNumber|] == c.fromNumber
    ensures CacheFileName(c)[|c.dateTime| + 1 + |c.fromNumber|] == '_'
    ensures CacheFileName(c)[|c.dateTime| + 2 + |c.fromNumber|..|c.dateTime| + 2 + |c.fromNumber| + |c.toNumber|] == c.toNumber
    ensures CacheFileName(c)[|c.dateTime| + 2 + |c.fromNumber| + |c.toNumber|] == '_'
    ensures CacheFileName(c)[|c.dateTime| + 3 + |c.fromNumber| + |c.toNumber|..|c.dateTime| + 3 + |c.fromNumber| + |c.toNumber| + |c.userTag|] == c.userTag
  {
  }

  /** The owner tag is one of three fixed words, so it never holds a path-unsafe
      character. */
  lemma OwnerTagIsSafe(rec: string)
    ensures IsSafe(OwnerTag(rec))
  {
  }

  /** The local path of a call's recording. Because the sanitised date comes
      first, the filename never starts with '/', so the join never discards
      the recordings directory. */
  function CachePath(c: CallRecord): (path: string)
    ensures path == RECORDINGS_DIR + "/" + CacheFileName(c)
  {
    var name := CacheFileName(c);
    assert name[0] != '/' by {
      if |c.dateTime| > 0 { assert name[0] == name[..|c.dateTime|][0]; }
    }
    PathJoin(RECORDINGS_DIR, name)
  }

  /** Calls with different identifiers but the same other fields never share a
      cache file. */
  lemma CachePathSeparatesIds(c: CallRecord, d: CallRecord)
    requires c.dateTime == d.dateTime && c.fromNumber == d.fromNumber
    requires c.toNumber == d.toNumber && c.userTag == d.userTag
    requires CachePath(c) == CachePath(d)
    ensures c.dataId == d.dataId
  {
    var n, m := CacheFileName(c), CacheFileName(d);
    assert n == CachePath(c)[|RECORDINGS_DIR| + 1..];
    assert m == CachePath(d)[|RECORDINGS_DIR| + 1..];
    assert |c.dataId| == |d.dataId|;
    assert n[|n| - 5 - |c.dataId|..|n| - 4][1..] == c.dataId;
  }

  /** Only the date is sanitised: an unsafe character in a number reaches the filename. */
  lemma UnsafeNumberReachesFileName()
    ensures !IsSafe(CacheFileName(CallRecord("A1", "", "1:2", "3", "Vikki")))
  {
    var name := CacheFileName(CallRecord("A1", "", "1:2", "3", "Vikki"));
    assert name[2] == ':';
  }

  /** The remote endpoint, parameterised only by the call's identifier. */
  function RecordingUrl(c: CallRecord): (url: string)
    ensures |url| == |URL_PREFIX| + |c.dataId| + 4
    ensures url[..|URL_PREFIX|] == URL_PREFIX
    ensures url[|URL_PREFIX|..] == c.dataId + ".mp3"
  {
    URL_PREFIX + c.dataId + ".mp3"
  }

  /** Two calls are fetched from the same URL exactly when they have the same identifier. */
  lemma RecordingUrlIdentifiesCall(c: CallRecord, d: CallRecord)
    ensures RecordingUrl(c) == RecordingUrl(d) <==> c.dataId == d.dataId
  {
    if RecordingUrl(c) == RecordingUrl(d) {
      assert |c.dataId| == |d.dataId|;
      assert c.dataId == RecordingUrl(c)[|URL_PREFIX|..|URL_PREFIX| + |c.dataId|];
      assert d.dataId == RecordingUrl(d)[|URL_PREFIX|..|URL_PREFIX| + |d.dataId|];
    }
  }

  /** What a request yields: the whole body written to the file; a refused
      request (a network error or a 4xx/5xx status, which `raise_for_status`
      turns into an exception) that creates no file; or a
      body stream that broke after the file had been opened. */
  datatype Response = Complete | Refused | Interrupted

  /** The error the download step raises. */
  datatype FetchError = HttpError | StreamInterrupted

  /** The file system, the request log and the result after one download step. */
  datatype Fetched = Fetched(files: set<string>, requests: seq<string>, result: Result<string, FetchError>)

  /** One download step from a file set and a request log. */
  function Download(files: set<string>, requests: seq<string>, c: CallRecord, net: nat -> Response): (f: Fetched)
    ensures f.result.Ok? ==> f.result.value == CachePath(c) && CachePath(c) in f.files
    ensures CachePath(c) in files ==> f == Fetched(files, requests, Ok(CachePath(c)))
    ensures CachePath(c) !in files ==> f.requests == requests + [RecordingUrl(c)]
    ensures f.result.Err? <==> CachePath(c) !in files && net(|requests|) != Complete
    ensures f.files == files || f.files == files + {CachePath(c)}
    ensures f.result.Err? ==> (f.files == files <==> net(|requests|) == Refused)
    ensures f.result.Err? ==> f.result.error == (if net(|requests|) == Refused then HttpError else StreamInterrupted)
  {
    var path := CachePath(c);
    if path in files then Fetched(files, requests, Ok(path))
    else
      var requests' := requests + [RecordingUrl(c)];
      match net(|requests|)
      case Complete => Fetched(files + {path}, requests', Ok(path))
      case Refused => Fetched(files, requests', Err(HttpError))
      case Interrupted => Fetched(files + {path}, requests', Err(StreamInterrupted))
  }

  /** Fetching a call a second time after a successful fetch makes no request
      and returns the same path; the two calls make at most one request. */
  lemma DownloadTwice(files: set<string>, requests: seq<string>, c: CallRecord, net: nat -> Response)
    requires Download(files, requests, c, net).result.Ok?
    ensures var f1 := Download(files, requests, c, net);
            var f2 := Download(f1.files, f1.requests, c, net);
            f2 == Fetched(f1.files, f1.requests, f1.result) && |f2.requests| <= |requests| + 1
  {
  }

  /** The cache checks only that a file exists: after an interrupted download
      the truncated file is served as a cache hit, with no further request. */
  lemma InterruptedDownloadIsCached(files: set<string>, requests: seq<string>, c: CallRecord, net: nat -> Response)
    requires CachePath(c) !in files && net(|requests|) == Interrupted
    ensures var f1 := Download(files, requests, c, net);
            f1.result == Err(StreamInterrupted) &&
            Download(f1.files, f1.requests, c, net) == Fetched(f1.files, f1.requests, Ok(CachePath(c)))
  {
  }
}
