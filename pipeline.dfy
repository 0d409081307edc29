/** The batch: the report file's header is written when the file is missing,
    then each call is downloaded, transcribed and summarised in order, a row is
    appended for each call whose download did not raise, a raising call is
    logged and skipped, and the progress count advances for every call. */
module Pipeline {
  import opened Wrappers
  import opened Listing
  import opened AudioCache
  import opened Adapters

  const CSV_PATH := "calls_summary.csv"

  /** A line of the report file: the header, or a row with the columns
      Date (+time), From, To and Summary. */
  datatype CsvLine = Header | DataRow(date: string, from: string, to: string, summary: string)

  /** What the batch can change: the existing files, the report's lines, the
      request log, the identifiers of the calls reported as failed, and the
      progress count. */
  datatype World = World(
    files: set<string>, csv: seq<CsvLine>, requests: seq<string>, failedIds: seq<string>, progress: nat)

  /** The external engines: the network's response to the n-th request, the
      transcription model and the summarisation model (`None` when it raises). */
  datatype Engines = Engines(
    net: nat -> Response, transcriber: string -> Option<string>, summarizer: string -> Option<string>)

  /** The call's download does not raise in this world. */
  predicate FetchSucceeds(w: World, c: CallRecord, e: Engines) {
    Download(w.files, w.requests, c, e.net).result.Ok?
  }

  /** The report row of a call whose download succeeded. */
  function ReportRow(c: CallRecord, e: Engines): (line: CsvLine)
    ensures line.DataRow?
    ensures line.date == c.dateTime && line.from == c.fromNumber && line.to == c.toNumber
    ensures e.transcriber(CachePath(c)).None? ==> line.summary == NO_TRANSCRIPT
    ensures line.summary == SummarizeText(TranscribeAudio(CachePath(c), e.transcriber), e.summarizer)
  {
    DataRow(c.dateTime, c.fromNumber, c.toNumber,
            SummarizeText(TranscribeAudio(CachePath(c), e.transcriber), e.summarizer))
  }

  /** One iteration of the batch loop: the body of the `try` and its handler,
      followed by the progress update. */
  function Step(w: World, c: CallRecord, e: Engines): (w': World)
    ensures w'.progress == w.progress + 1
    ensures w.files <= w'.files <= w.files + {CachePath(c)}
    ensures |w.requests| <= |w'.requests| <= |w.requests| + 1
    ensures w'.requests[..|w.requests|] == w.requests
    ensures FetchSucceeds(w, c, e) ==> w'.csv == w.csv + [ReportRow(c, e)] && w'.failedIds == w.failedIds
    ensures !FetchSucceeds(w, c, e) ==> w'.csv == w.csv && w'.failedIds == w.failedIds + [c.dataId]
  {
    var f := Download(w.files, w.requests, c, e.net);
    match f.result
    case Ok(path) =>
      var transcript := TranscribeAudio(path, e.transcriber);
      var summary := SummarizeText(transcript, e.summarizer);
      w.(files := f.files, requests := f.requests,
         csv := w.csv + [DataRow(c.dateTime, c.fromNumber, c.toNumber, summary)],
         progress := w.progress + 1)
    case Err(_) =>
      w.(files := f.files, requests := f.requests,
         failedIds := w.failedIds + [c.dataId], progress := w.progress + 1)
  }

  /** The batch loop over the calls, in order. */
  function RunLoop(w: World, calls: seq<CallRecord>, e: Engines): World
    decreases |calls|
  {
    if calls == [] then w else RunLoop(Step(w, calls[0], e), calls[1..], e)
  }

  /** Whether each call's download succeeded, in the world the loop had reached
      when it came to that call. */
  function Outcomes(w: World, calls: seq<CallRecord>, e: Engines): (ok: seq<bool>)
    ensures |ok| == |calls|
    decreases |calls|
  {
    if calls == [] then []
    else [FetchSucceeds(w, calls[0], e)] + Outcomes(Step(w, calls[0], e), calls[1..], e)
  }

  /** The elements of `s` whose flag in `flags` is `want`, in order. */
  function Select<T>(s: seq<T>, flags: seq<bool>, want: bool): (r: seq<T>)
    requires |s| == |flags|
    ensures |r| <= |s|
  {
    if s == [] then []
    else (if flags[0] == want then [s[0]] else []) + Select(s[1..], flags[1..], want)
  }

  /** The report rows of a sequence of calls. */
  function ReportRows(calls: seq<CallRecord>, e: Engines): seq<CsvLine> {
    if calls == [] then [] else [ReportRow(calls[0], e)] + ReportRows(calls[1..], e)
  }

  /** The identifiers of a sequence of calls. */
  function Ids(calls: seq<CallRecord>): seq<string> {
    if calls == [] then [] else [calls[0].dataId] + Ids(calls[1..])
  }

  /** The number of header lines. */
  function HeaderCount(lines: seq<CsvLine>): nat {
    if lines == [] then 0 else (if lines[0].Header? then 1 else 0) + HeaderCount(lines[1..])
  }

  /** The report file is created with its header only when it does not exist. */
  function WithHeader(w: World): World {
    if CSV_PATH in w.files then w else w.(files := w.files + {CSV_PATH}, csv := [Header])
  }

  /** The whole batch: the header step, the progress count reset to 0, and the loop. */
  function Run(w: World, calls: seq<CallRecord>, e: Engines): World {
    RunLoop(WithHeader(w).(progress := 0), calls, e)
  }

  /** Each call's flag is true or false, so the two selections share out the calls:
      every call lands in exactly one of them. */
  lemma {:induction false} SelectPartition<T>(s: seq<T>, flags: seq<bool>)
    requires |s| == |flags|
    ensures |Select(s, flags, true)| + |Select(s, flags, false)| == |s|
    ensures multiset(Select(s, flags, true)) + multiset(Select(s, flags, false)) == multiset(s)
  {
    if s != [] {
      SelectPartition(s[1..], flags[1..]);
      assert s == [s[0]] + s[1..];
    }
  }

  lemma {:induction false} ReportRowsConcat(a: seq<CallRecord>, b: seq<CallRecord>, e: Engines)
    ensures ReportRows(a + b, e) == ReportRows(a, e) + ReportRows(b, e)
  {
    if a == [] {
      assert a + b == b;
    } else {
      assert (a + b)[0] == a[0];
      assert (a + b)[1..] == a[1..] + b;
      ReportRowsConcat(a[1..], b, e);
    }
  }

  lemma {:induction false} IdsConcat(a: seq<CallRecord>, b: seq<CallRecord>)
    ensures Ids(a + b) == Ids(a) + Ids(b)
  {
    if a == [] {
      assert a + b == b;
    } else {
      assert (a + b)[0] == a[0];
      assert (a + b)[1..] == a[1..] + b;
      IdsConcat(a[1..], b);
    }
  }

  lemma {:induction false} HeaderCountConcat(a: seq<CsvLine>, b: seq<CsvLine>)
    ensures HeaderCount(a + b) == HeaderCount(a) + HeaderCount(b)
  {
    if a == [] {
      assert a + b == b;
    } else {
      assert (a + b)[0] == a[0];
      assert (a + b)[1..] == a[1..] + b;
      HeaderCountConcat(a[1..], b);
    }
  }

  /** Report rows are data rows only. */
  lemma {:induction false} ReportRowsHaveNoHeader(calls: seq<CallRecord>, e: Engines)
    ensures HeaderCount(ReportRows(calls, e)) == 0
  {
    if calls != [] {
      ReportRowsHaveNoHeader(calls[1..], e);
    }
  }

  /** Running the loop over `a + b` is running it over `a`, then over `b`. */
  lemma {:induction false} RunLoopSplit(w: World, a: seq<CallRecord>, b: seq<CallRecord>, e: Engines)
    ensures RunLoop(w, a + b, e) == RunLoop(RunLoop(w, a, e), b, e)
    ensures Outcomes(w, a + b, e) == Outcomes(w, a, e) + Outcomes(RunLoop(w, a, e), b, e)
    decreases |a|
  {
    if a == [] {
      assert a + b == b;
    } else {
      assert (a + b)[0] == a[0];
      assert (a + b)[1..] == a[1..] + b;
      RunLoopSplit(Step(w, a[0], e), a[1..], b, e);
    }
  }

  /** The loop over a prefix extended by one call is one more iteration. */
  lemma RunLoopSnoc(w: World, s: seq<CallRecord>, c: CallRecord, e: Engines)
    ensures RunLoop(w, s + [c], e) == Step(RunLoop(w, s, e), c, e)
  {
    RunLoopSplit(w, s, [c], e);
    assert [c][1..] == [];
  }

  /** The rows the loop appends are the report rows of exactly the calls whose
      download succeeded, in input order. */
  lemma {:induction false} RunLoopRows(w: World, calls: seq<CallRecord>, e: Engines)
    ensures RunLoop(w, calls, e).csv == w.csv + ReportRows(Select(calls, Outcomes(w, calls, e), true), e)
    decreases |calls|
  {
    if calls != [] {
      var c := calls[0];
      var w1 := Step(w, c, e);
      RunLoopRows(w1, calls[1..], e);
      var ok := Outcomes(w, calls, e);
      var rest := Outcomes(w1, calls[1..], e);
      assert ok == [FetchSucceeds(w, c, e)] + rest;
      var yes := Select(calls[1..], rest, true);
      assert Select(calls, ok, true) == (if FetchSucceeds(w, c, e) then [c] else []) + yes;
      assert RunLoop(w, calls, e).csv == w1.csv + ReportRows(yes, e);
      if FetchSucceeds(w, c, e) {
        ReportRowsCons(c, yes, e);
        assert w1.csv == w.csv + [ReportRow(c, e)];
        assert w1.csv + ReportRows(yes, e) == w.csv + ([ReportRow(c, e)] + ReportRows(yes, e));
      } else {
        assert Select(calls, ok, true) == yes;
      }
    }
  }

  /** The identifiers the loop logs are exactly those of the calls whose
      download raised, in input order. */
  lemma {:induction false} RunLoopFailures(w: World, calls: seq<CallRecord>, e: Engines)
    ensures RunLoop(w, calls, e).failedIds == w.failedIds + Ids(Select(calls, Outcomes(w, calls, e), false))
    decreases |calls|
  {
    if calls != [] {
      var c := calls[0];
      var w1 := Step(w, c, e);
      RunLoopFailures(w1, calls[1..], e);
      var ok := Outcomes(w, calls, e);
      var rest := Outcomes(w1, calls[1..], e);
      assert ok == [FetchSucceeds(w, c, e)] + rest;
      var no := Select(calls[1..], rest, false);
      assert Select(calls, ok, false) == (if FetchSucceeds(w, c, e) then [] else [c]) + no;
      assert RunLoop(w, calls, e).failedIds == w1.failedIds + Ids(no);
      if !FetchSucceeds(w, c, e) {
        IdsCons(c, no);
        assert w1.failedIds == w.failedIds + [c.dataId];
        assert w1.failedIds + Ids(no) == w.failedIds + ([c.dataId] + Ids(no));
      } else {
        assert Select(calls, ok, false) == no;
      }
    }
  }

  /** The loop advances the progress count once per call, whatever happens to
      the call, and no file disappears. */
  lemma {:induction false} RunLoopProgress(w: World, calls: seq<CallRecord>, e: Engines)
    ensures RunLoop(w, calls, e).progress == w.progress + |calls|
    ensures w.files <= RunLoop(w, calls, e).files
    decreases |calls|
  {
    if calls != [] {
      RunLoopProgress(Step(w, calls[0], e), calls[1..], e);
    }
  }

  lemma ReportRowsCons(c: CallRecord, s: seq<CallRecord>, e: Engines)
    ensures ReportRows([c] + s, e) == [ReportRow(c, e)] + ReportRows(s, e)
  {
    assert ([c] + s)[0] == c && ([c] + s)[1..] == s;
  }

  lemma IdsCons(c: CallRecord, s: seq<CallRecord>)
    ensures Ids([c] + s) == [c.dataId] + Ids(s)
  {
    assert ([c] + s)[0] == c && ([c] + s)[1..] == s;
  }

  /** The report after the batch: when the file was missing it starts with the
      one header, followed only by data rows; when it existed its old lines are
      kept, no header is added, and the rows are appended after them. Either
      way the file exists afterwards, even when no row was written. */
  lemma RunWritesHeaderOnce(w: World, calls: seq<CallRecord>, e: Engines)
    ensures var w' := Run(w, calls, e);
            var rows := ReportRows(Select(calls, Outcomes(WithHeader(w).(progress := 0), calls, e), true), e);
            && CSV_PATH in w'.files
            && (CSV_PATH !in w.files ==> w'.csv == [Header] + rows && HeaderCount(w'.csv) == 1)
            && (CSV_PATH in w.files ==> w'.csv == w.csv + rows && HeaderCount(w'.csv) == HeaderCount(w.csv))
  {
    var w0 := WithHeader(w).(progress := 0);
    RunLoopRows(w0, calls, e);
    RunLoopProgress(w0, calls, e);
    var rows := ReportRows(Select(calls, Outcomes(w0, calls, e), true), e);
    ReportRowsHaveNoHeader(Select(calls, Outcomes(w0, calls, e), true), e);
    HeaderCountConcat(w0.csv, rows);
    assert HeaderCount([Header]) == 1;
  }

  /** After the batch the progress count equals the number of calls, and every
      call either produced a row or was logged as failed. */
  lemma RunAccountsForEveryCall(w: World, calls: seq<CallRecord>, e: Engines)
    ensures var w' := Run(w, calls, e);
            var w0 := WithHeader(w).(progress := 0);
            && w'.progress == |calls|
            && (|w'.csv| - |w0.csv|) + (|w'.failedIds| - |w.failedIds|) == |calls|
  {
    var w0 := WithHeader(w).(progress := 0);
    var ok := Outcomes(w0, calls, e);
    RunLoopRows(w0, calls, e);
    RunLoopFailures(w0, calls, e);
    RunLoopProgress(w0, calls, e);
    SelectPartition(calls, ok);
    ReportRowsLength(Select(calls, ok, true), e);
    IdsLength(Select(calls, ok, false));
  }

  lemma {:induction false} ReportRowsLength(calls: seq<CallRecord>, e: Engines)
    ensures |ReportRows(calls, e)| == |calls|
  {
    if calls != [] { ReportRowsLength(calls[1..], e); }
  }

  lemma {:induction false} IdsLength(calls: seq<CallRecord>)
    ensures |Ids(calls)| == |calls|
  {
    if calls != [] { IdsLength(calls[1..]); }
  }

  /** The network schedule seen after `d` requests have already been made. */
  function ShiftNet(e: Engines, d: nat): Engines {
    e.(net := (n: nat) => e.net(n + d))
  }

  /** Two worlds with the same files and report whose request logs differ in length by `d`. */
  predicate SameStore(w: World, v: World, d: nat) {
    w.files == v.files && w.csv == v.csv && |w.requests| == |v.requests| + d
  }

  /** A call is processed alike in two such worlds, given the same future responses. */
  lemma StepShift(w: World, v: World, d: nat, c: CallRecord, e: Engines)
    requires SameStore(w, v, d)
    ensures FetchSucceeds(w, c, e) == FetchSucceeds(v, c, ShiftNet(e, d))
    ensures SameStore(Step(w, c, e), Step(v, c, ShiftNet(e, d)), d)
  {
    assert ShiftNet(e, d).net(|v.requests|) == e.net(|w.requests|);
  }

  lemma {:induction false} RunLoopShift(w: World, v: World, d: nat, calls: seq<CallRecord>, e: Engines)
    requires SameStore(w, v, d)
    ensures Outcomes(w, calls, e) == Outcomes(v, calls, ShiftNet(e, d))
    ensures SameStore(RunLoop(w, calls, e), RunLoop(v, calls, ShiftNet(e, d)), d)
    decreases |calls|
  {
    if calls != [] {
      StepShift(w, v, d, calls[0], e);
      RunLoopShift(Step(w, calls[0], e), Step(v, calls[0], ShiftNet(e, d)), d, calls[1..], e);
    }
  }

  /** Failure isolation: a call whose download is refused leaves the files and
      the report as they were, so the calls after it get the same outcomes and
      the report gets the same rows as if the failed call had not been in the
      batch (the network having already answered the one refused request). */
  lemma RefusedCallIsIsolated(w: World, c: CallRecord, rest: seq<CallRecord>, e: Engines)
    requires CachePath(c) !in w.files && e.net(|w.requests|) == Refused
    ensures !Outcomes(w, [c] + rest, e)[0]
    ensures Outcomes(w, [c] + rest, e)[1..] == Outcomes(w, rest, ShiftNet(e, 1))
    ensures RunLoop(w, [c] + rest, e).csv == RunLoop(w, rest, ShiftNet(e, 1)).csv
    ensures RunLoop(w, [c] + rest, e).files == RunLoop(w, rest, ShiftNet(e, 1)).files
  {
    var w1 := Step(w, c, e);
    assert ([c] + rest)[0] == c && ([c] + rest)[1..] == rest;
    assert SameStore(w1, w, 1);
    RunLoopShift(w1, w, 1, rest, e);
  }

  /** A listing of three calls on extensions *200, *201 and *199. */
  const SCENARIO_ROWS: seq<Row> := [
    Row(Some("A1"), Some("d1"), Number("*200"), Number("1"), Number("2")),
    Row(Some("A2"), Some("d2"), Number("*201"), Number("1"), Number("2")),
    Row(Some("A3"), Some("d3"), Number("*199"), Number("1"), Number("2"))]

  /** The listing parses to three calls, tagged Vikki, Assistant and UnknownUser. */
  lemma ScenarioParse()
    ensures NoneRaise(SCENARIO_ROWS)
    ensures Records(SCENARIO_ROWS) == [
      CallRecord("A1", "d1", "1", "2", "Vikki"),
      CallRecord("A2", "d2", "1", "2", "Assistant"),
      CallRecord("A3", "d3", "1", "2", "UnknownUser")]
  {
    var rows := SCENARIO_ROWS;
    var r1, r2, r3 := rows[0], rows[1], rows[2];
    assert RemoveSpaces("1") == "1" by { assert "1"[1..] == []; }
    assert RemoveSpaces("2") == "2" by { assert "2"[1..] == []; }
    assert BuildRecord(r1) == CallRecord("A1", "d1", "1", "2", "Vikki");
    assert BuildRecord(r2) == CallRecord("A2", "d2", "1", "2", "Assistant");
    assert BuildRecord(r3) == CallRecord("A3", "d3", "1", "2", "UnknownUser");
    assert rows[..2] == [r1, r2] && [r1, r2][..1] == [r1];
    RecordsOfOneRow(r1);
  }

  /** The report file is never mistaken for a cached recording. */
  lemma CsvPathIsNotCachePath(c: CallRecord)
    ensures CachePath(c) != CSV_PATH
  {
    assert CachePath(c)[0] == 't' && CSV_PATH[0] == 'c';
  }

  /** Three calls with distinct cache files, none downloaded yet, and only the
      second download refused: a missing report is created with the header and
      rows for the first and third calls, and one failure is logged. */
  lemma ThreeCallRun(calls: seq<CallRecord>, e: Engines)
    requires |calls| == 3
    requires CachePath(calls[0]) != CachePath(calls[1]) && CachePath(calls[0]) != CachePath(calls[2])
    requires CachePath(calls[1]) != CachePath(calls[2])
    requires e.net(0) == Complete && e.net(1) == Refused && e.net(2) == Complete
    ensures var w' := Run(World({}, [], [], [], 0), calls, e);
            && w'.csv == [Header, ReportRow(calls[0], e), ReportRow(calls[2], e)]
            && w'.failedIds == [calls[1].dataId]
            && w'.progress == 3
  {
    var c1, c2, c3 := calls[0], calls[1], calls[2];
    CsvPathIsNotCachePath(c1);
    CsvPathIsNotCachePath(c2);
    CsvPathIsNotCachePath(c3);
    var w0 := World({CSV_PATH}, [Header], [], [], 0);
    assert WithHeader(World({}, [], [], [], 0)).(progress := 0) == w0;
    var w1 := Step(w0, c1, e);
    assert w1 == World({CSV_PATH, CachePath(c1)}, [Header, ReportRow(c1, e)], [RecordingUrl(c1)], [], 1);
    var w2 := Step(w1, c2, e);
    assert w2.csv == w1.csv && w2.failedIds == [c2.dataId] && |w2.requests| == 2;
    assert w2.files == w1.files;
    var w3 := Step(w2, c3, e);
    assert w3.csv == [Header, ReportRow(c1, e), ReportRow(c3, e)];
    assert calls[1..] == [c2, c3] && [c2, c3][1..] == [c3] && [c3][1..] == [];
    assert RunLoop(w2, [c3], e) == w3;
    assert RunLoop(w1, [c2, c3], e) == w3;
    assert RunLoop(w0, calls, e) == w3;
  }

  /** End to end: the three-row listing, with only the download of A2 refused,
      gives a new report with rows for A1 (tag Vikki) and A3 (tag UnknownUser)
      and logs A2 as the one failure. */
  lemma ScenarioEndToEnd(e: Engines)
    requires e.net(0) == Complete && e.net(1) == Refused && e.net(2) == Complete
    ensures var w' := Run(World({}, [], [], [], 0), Records(SCENARIO_ROWS), e);
            && w'.csv == [Header, ReportRow(CallRecord("A1", "d1", "1", "2", "Vikki"), e),
                                  ReportRow(CallRecord("A3", "d3", "1", "2", "UnknownUser"), e)]
            && w'.failedIds == ["A2"]
            && w'.progress == 3
  {
    ScenarioParse();
    var calls := Records(SCENARIO_ROWS);
    assert |CachePath(calls[0])| != |CachePath(calls[1])|;
    assert |CachePath(calls[0])| != |CachePath(calls[2])|;
    assert |CachePath(calls[1])| != |CachePath(calls[2])|;
    ThreeCallRun(calls, e);
  }

  /** The dashboard's mutable environment: the file system, the report file's
      lines, the request log, the error log and the progress bar. */
  class Dashboard {
    var files: set<string>
    var csv: seq<CsvLine>
    var requests: seq<string>
    var failedIds: seq<string>
    var progress: nat

    function State(): World
      reads this
    {
      World(files, csv, requests, failedIds, progress)
    }

    /** An environment with the given files and report contents, before any request. */
    constructor (files: set<string>, csv: seq<CsvLine>)
      ensures State() == World(files, csv, [], [], 0)
    {
      this.files := files;
      this.csv := csv;
      this.requests := [];
      this.failedIds := [];
      this.progress := 0;
    }

    /** The download step: a cache hit returns at once; otherwise one request is
        made, a refused one raises before any file is opened, and a stream that
        breaks leaves the opened file behind. */
    method DownloadAudio(c: CallRecord, net: nat -> Response) returns (result: Result<string, FetchError>)
      modifies this
      ensures var f := Download(old(files), old(requests), c, net);
              files == f.files && requests == f.requests && result == f.result
      ensures csv == old(csv) && failedIds == old(failedIds) && progress == old(progress)
    {
      var path := CachePath(c);
      if path in files {
        return Ok(path);
      }
      var response := net(|requests|);
      requests := requests + [RecordingUrl(c)];
      if response == Refused {
        return Err(HttpError);
      }
      files := files + {path};
      if response == Interrupted {
        return Err(StreamInterrupted);
      }
      return Ok(path);
    }

    /** One iteration of the batch loop: download, transcribe, summarise and
        append a row, or log the call when its download raises; then advance
        the progress count. */
    method ProcessCall(call: CallRecord, e: Engines)
      modifies this
      ensures State() == Step(old(State()), call, e)
    {
      var fetched := DownloadAudio(call, e.net);
      match fetched {
        case Ok(path) =>
          var transcript := TranscribeAudio(path, e.transcriber);
          var summary := SummarizeText(transcript, e.summarizer);
          csv := csv + [DataRow(call.dateTime, call.fromNumber, call.toNumber, summary)];
        case Err(_) =>
          failedIds := failedIds + [call.dataId];
      }
      progress := progress + 1;
    }

    /** The header step: the report file is created with its header line when it
        does not exist, and left alone otherwise. */
    method WriteHeader()
      modifies this
      ensures State() == WithHeader(old(State()))
    {
      if CSV_PATH !in files {
        files := files + {CSV_PATH};
        csv := [Header];
      }
    }

    /** The loop over the calls, in order, each isolated from the others. */
    method ProcessEach(calls: seq<CallRecord>, e: Engines)
      modifies this
      ensures State() == RunLoop(old(State()), calls, e)
    {
      ghost var start := State();
      var i := 0;
      while i < |calls|
        invariant 0 <= i <= |calls|
        invariant State() == RunLoop(start, calls[..i], e)
      {
        var call := calls[i];
        ProcessCall(call, e);
        RunLoopSnoc(start, calls[..i], call, e);
        assert calls[..i + 1] == calls[..i] + [call];
        i := i + 1;
      }
      assert calls[..i] == calls;
    }

    /** The batch: header when the report is missing, then every call in order. */
    method ProcessCalls(calls: seq<CallRecord>, e: Engines)
      modifies this
      ensures State() == Run(old(State()), calls, e)
    {
      WriteHeader();
      progress := 0;
      ProcessEach(calls, e);
    }
  }
}
