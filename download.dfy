/** The extension sniffer and the file downloader of utils/download.js.
    The network is a pair of functions of the url (the HEAD probe and the
    GET transfer); the filesystem is a set of directories and a map from
    path to contents, held by a `Disk` object that also logs the requests it
    makes. */
module Download {
  import opened Wrappers
  import opened Js
  import opened Functions

  // =====================================================================
  // getFileExtension

  /** The regular expression `/token=([^&]+)/` can match at `i`: `token=`
      starts there and is followed by at least one character other than `&`. */
  predicate TokenStartsAt(s: string, i: nat) {
    OccursAt(s, "token=", i) && i + 6 < |s| && s[i + 6] != '&'
  }

  /** `[^&]+` taken greedily: the longest prefix without `&`. */
  function RunToAmp(s: string): (r: string)
    ensures StartsWith(s, r) && '&' !in r
    ensures |r| == |s| || s[|r|] == '&'
    decreases |s|
  {
    if s == [] || s[0] == '&' then []
    else [s[0]] + RunToAmp(s[1..])
  }

  /** The leftmost match at or after `i` and its captured group. */
  function TokenFrom(s: string, i: nat): (r: Option<string>)
    ensures r.None? ==> forall j :: i <= j < |s| ==> !TokenStartsAt(s, j)
    ensures r.Some? ==> exists j :: (i <= j < |s| && TokenStartsAt(s, j)
      && (forall k :: i <= k < j ==> !TokenStartsAt(s, k))
      && r.value == RunToAmp(s[j + 6..]))
    decreases |s| - i
  {
    if i >= |s| then None
    else if TokenStartsAt(s, i) then Some(RunToAmp(s[i + 6..]))
    else TokenFrom(s, i + 1)
  }

  /** `url.match(/token=([^&]+)/)[1]`, when there is a match. */
  function TokenValue(s: string): Option<string> {
    TokenFrom(s, 0)
  }

  /** What `JSON.parse(Buffer.from(payload, 'base64').toString())` gives;
      None when decoding or parsing throws. */
  type Decoder = string -> Option<Json>

  /** `getFileExtension(url, defaultExt)`. Every failure on the way (a url
      without `match`, no token, too few segments, a decode or parse error,
      a null payload, a missing or non-string filename) falls back to the
      default; nothing escapes the `try`. */
  function GetFileExtension(url: Json, defaultExt: string, decode: Decoder): string {
    if !url.Str? then defaultExt
    else match TokenValue(url.s)
      case None => defaultExt
      case Some(token) =>
        var parts := Split(token, '.');
        if |parts| < 2 then defaultExt
        else match decode(parts[1])
          case None => defaultExt
          case Some(decoded) =>
            var name := Get(decoded, "filename");
            if Nullish(decoded) || !name.Str? || name.s == "" then defaultExt
            else
              var ext := Lower(LastSegment(name.s, '.'));
              if ext == "" then defaultExt else ext
  }

  /** A url with no `token=` in it gets the default extension. */
  lemma NoTokenGivesDefault(s: string, defaultExt: string, decode: Decoder)
    requires !Contains(s, "token=")
    ensures GetFileExtension(Str(s), defaultExt, decode) == defaultExt
  {
    ContainsIffOccurs(s, "token=");
    assert forall j :: 0 <= j < |s| ==> !TokenStartsAt(s, j);
  }

  /** The token read is the one at the leftmost `token=` that is followed by
      a character other than `&`; it is non-empty, has no `&` and runs up to
      the next `&` or the end of the url. */
  lemma {:induction false} TokenRunsToAmp(s: string)
    requires TokenValue(s).Some?
    ensures var t := TokenValue(s).value;
      t != [] && '&' !in t
      && exists j :: (0 <= j && j + 6 + |t| <= |s| && TokenStartsAt(s, j)
        && (forall k :: 0 <= k < j ==> !TokenStartsAt(s, k))
        && s[j + 6..j + 6 + |t|] == t
        && (j + 6 + |t| == |s| || s[j + 6 + |t|] == '&'))
  {
    var t := TokenValue(s).value;
    var j :| 0 <= j < |s| && TokenStartsAt(s, j) && (forall k :: 0 <= k < j ==> !TokenStartsAt(s, k))
      && t == RunToAmp(s[j + 6..]);
    var rest := s[j + 6..];
    assert rest[0] != '&';
    assert t == [rest[0]] + RunToAmp(rest[1..]);
    assert rest[..|t|] == s[j + 6..j + 6 + |t|];
    if j + 6 + |t| < |s| {
      assert s[j + 6 + |t|] == rest[|t|];
    }
  }

  /** A token with no `.` splits into one segment, so the default is used. */
  lemma OneSegmentGivesDefault(s: string, defaultExt: string, decode: Decoder)
    requires TokenValue(s).Some? && '.' !in TokenValue(s).value
    ensures GetFileExtension(Str(s), defaultExt, decode) == defaultExt
  {
    SplitNoSeparator(TokenValue(s).value, '.');
  }

  /** Only segment 1 of the token is decoded: two decoders that agree on it
      give the same extension. */
  lemma OnlySecondSegmentDecoded(s: string, defaultExt: string, decode1: Decoder, decode2: Decoder)
    requires TokenValue(s).Some?
    requires var parts := Split(TokenValue(s).value, '.');
      |parts| >= 2 ==> decode1(parts[1]) == decode2(parts[1])
    ensures GetFileExtension(Str(s), defaultExt, decode1) == GetFileExtension(Str(s), defaultExt, decode2)
  {
  }

  /** A decoded string `filename` gives its last `.`-segment in lower case,
      or the default when that segment is empty. The result never holds a
      `.` unless the default does. */
  lemma FilenameGivesLastSegment(s: string, defaultExt: string, decode: Decoder, name: string)
    requires TokenValue(s).Some?
    requires var parts := Split(TokenValue(s).value, '.');
      |parts| >= 2 && decode(parts[1]).Some?
      && decode(parts[1]).value.Obj? && Get(decode(parts[1]).value, "filename") == Str(name) && name != ""
    ensures var ext := Lower(LastSegment(name, '.'));
      GetFileExtension(Str(s), defaultExt, decode) == (if ext == "" then defaultExt else ext)
    ensures '.' !in defaultExt ==> '.' !in GetFileExtension(Str(s), defaultExt, decode)
  {
    var last := LastSegment(name, '.');
    forall k | 0 <= k < |last| ensures Lower(last)[k] != '.' {
      assert last[k] != '.';
    }
  }

  /** A failed decode, a null payload or a filename that is not a non-empty
      string gives the default. */
  lemma DecodeFailureGivesDefault(s: string, defaultExt: string, decode: Decoder)
    requires TokenValue(s).Some?
    requires var parts := Split(TokenValue(s).value, '.');
      |parts| >= 2 &&
      (decode(parts[1]).None? || Nullish(decode(parts[1]).value)
       || !Get(decode(parts[1]).value, "filename").Str? || Get(decode(parts[1]).value, "filename") == Str(""))
    ensures GetFileExtension(Str(s), defaultExt, decode) == defaultExt
  {
  }

  /** A token `AAA.<payload>.BBB` whose payload decodes to
      `{"filename":"clip.webp"}` gives `webp`. */
  lemma ClipWebpExample(payload: string, decode: Decoder)
    requires '.' !in payload && '&' !in payload && payload != ""
    requires decode(payload) == Some(Obj(map["filename" := Str("clip.webp")]))
    ensures GetFileExtension(Str("https://h/v?token=AAA." + payload + ".BBB"), "mp4", decode) == "webp"
  {
    var s := "https://h/v?token=AAA." + payload + ".BBB";
    ExampleToken(payload);
    ExampleSegments(payload);
    assert Get(decode(payload).value, "filename") == Str("clip.webp");
    FilenameGivesLastSegment(s, "mp4", decode, "clip.webp");
    WebpTail();
  }

  lemma WebpTail()
    ensures Lower(LastSegment("clip.webp", '.')) == "webp"
  {
    SplitJoin(["clip", "webp"], '.');
    assert Join(["clip", "webp"], '.') == "clip.webp";
    assert Lower("webp") == "webp";
  }

  lemma ExampleToken(payload: string)
    requires '&' !in payload
    ensures TokenValue("https://h/v?token=AAA." + payload + ".BBB") == Some("AAA." + payload + ".BBB")
  {
    var s := "https://h/v?token=AAA." + payload + ".BBB";
    var head := "https://h/v?token=";
    var t := "AAA." + payload + ".BBB";
    assert s == head + t;
    assert s[12..18] == "token=";
    assert TokenStartsAt(s, 12);
    var lead := "https://h/v?token";
    assert s[..17] == lead;
    assert '=' !in lead;
    forall k | 0 <= k < 12 ensures !TokenStartsAt(s, k) {
      assert s[k + 5] == lead[k + 5];
      assert s[k..k + 6][5] == s[k + 5];
    }
    assert s[18..] == t;
    assert '&' !in t;
    AmpFreeRun(t);
    FirstTokenAt(s, 12);
  }

  lemma ExampleSegments(payload: string)
    requires '.' !in payload
    ensures Split("AAA." + payload + ".BBB", '.') == ["AAA", payload, "BBB"]
  {
    var parts := ["AAA", payload, "BBB"];
    assert parts[1..][1..] == ["BBB"];
    assert Join(parts[1..], '.') == payload + "." + "BBB";
    assert "AAA." + payload + ".BBB" == Join(parts, '.');
    SplitJoin(parts, '.');
  }

  lemma {:induction false} AmpFreeRun(s: string)
    requires '&' !in s
    ensures RunToAmp(s) == s
    decreases |s|
  {
    if s != [] {
      assert '&' !in s[1..] by {
        assert forall x :: x in s[1..] ==> x in s;
      }
      AmpFreeRun(s[1..]);
      assert [s[0]] + s[1..] == s;
    }
  }

  /** The match found is the leftmost one. */
  lemma FirstTokenAt(s: string, j: nat)
    requires j < |s| && TokenStartsAt(s, j)
    requires forall k :: 0 <= k < j ==> !TokenStartsAt(s, k)
    ensures TokenValue(s) == Some(RunToAmp(s[j + 6..]))
  {
    var r := TokenValue(s);
    assert r.Some?;
    var j' :| 0 <= j' < |s| && TokenStartsAt(s, j') && (forall k :: 0 <= k < j' ==> !TokenStartsAt(s, k))
      && r.value == RunToAmp(s[j' + 6..]);
    assert j' == j;
  }

  // =====================================================================
  // downloadFile

  type Bytes = seq<bv8>

  /** What the streamed GET gave: the request failed (nothing is written),
      the write stream failed after `partial` was written, or it finished. */
  datatype Transfer = GetFailed | StreamFailed(partial: Bytes) | Finished(content: Bytes)

  /** The network as seen by the downloader. */
  datatype Net = Net(head: Json -> Probe, get: Json -> Transfer)

  /** A request the downloader sent. */
  datatype Request = HeadRequest(url: Json) | GetRequest(url: Json)

  /** Directories, files and the requests sent so far. */
  datatype FsState = FsState(dirs: set<string>, files: map<string, Bytes>, log: seq<Request>)

  /** One call `downloadFile(url, filename, spinner, basePath, maxSize)`. */
  datatype Job = Job(url: Json, filename: string, basePath: string, maxSize: Json)

  /** The default `basePath`. */
  const DefaultBase: string := "resultdownload_preniv"

  /** `path.join(basePath, filename)`, without normalisation. */
  function JoinPath(basePath: string, filename: string): string {
    basePath + "/" + filename
  }

  /** The probe asked for `job` and whether its answer aborts the download. */
  predicate Probes(job: Job) {
    Truthy(job.maxSize)
  }

  predicate TooLarge(job: Job, net: Net) {
    Probes(job) && var info := CheckFileSize(net.head(job.url)); info.Some? && info.value.exceedsLimit
  }

  /** The state after `downloadFile` and what it returned: the path, null
      when the file is too large, or a throw. */
  function Fetch(st: FsState, job: Job, net: Net): (FsState, Result<Option<string>>) {
    var probed := st.log + (if Probes(job) then [HeadRequest(job.url)] else []);
    if TooLarge(job, net) then (FsState(st.dirs, st.files, probed), Ok(None))
    else
      var dirs := st.dirs + {job.basePath};
      var path := JoinPath(job.basePath, job.filename);
      var log := probed + [GetRequest(job.url)];
      match net.get(job.url)
      case GetFailed => (FsState(dirs, st.files, log), Throw)
      case StreamFailed(partial) => (FsState(dirs, st.files[path := partial], log), Throw)
      case Finished(content) => (FsState(dirs, st.files[path := content], log), Ok(Some(path)))
  }

  /** A HEAD request is sent exactly when `maxSize` is truthy. */
  lemma ProbeOnlyWithMaxSize(st: FsState, job: Job, net: Net)
    ensures var log := Fetch(st, job, net).0.log;
      |st.log| <= |log| && log[..|st.log|] == st.log
      && (HeadRequest(job.url) in log[|st.log|..] <==> Truthy(job.maxSize))
  {
    var log := Fetch(st, job, net).0.log;
    var head: seq<Request> := if Probes(job) then [HeadRequest(job.url)] else [];
    var get: seq<Request> := if TooLarge(job, net) then [] else [GetRequest(job.url)];
    assert log == st.log + head + get;
    assert log[..|st.log|] == st.log;
    assert log[|st.log|..] == head + get;
  }

  /** A file over the 35 MiB cap, on a probed job, returns null and leaves
      directories and files as they were, and no GET is sent. The cap is
      `MaxFileSize`, whatever `maxSize` says. */
  lemma TooLargeAborts(st: FsState, job: Job, net: Net, n: int)
    requires Truthy(job.maxSize) && net.head(job.url) == Probed(Some(n)) && n > MaxFileSize
    ensures var (st', r) := Fetch(st, job, net);
      r == Ok(None) && st'.dirs == st.dirs && st'.files == st.files && GetRequest(job.url) !in st'.log[|st.log|..]
  {
    var st' := Fetch(st, job, net).0;
    assert st'.log[|st.log|..] == [HeadRequest(job.url)];
  }

  /** A failed probe, a size at or under the cap, or a length that is not a
      number does not stop the download; neither does a falsy `maxSize`. */
  lemma ProbeFailureDoesNotStop(st: FsState, job: Job, net: Net)
    requires !Truthy(job.maxSize) || net.head(job.url).ProbeFailed?
      || net.head(job.url).contentLength.None? || net.head(job.url).contentLength.value <= 36700160
    ensures var st' := Fetch(st, job, net).0;
      job.basePath in st'.dirs && st'.log[|st'.log| - 1] == GetRequest(job.url)
  {
  }

  /** Once past the probe, the directory exists afterwards (created only
      when absent, so nothing else changes in the directory set), and a
      finished transfer writes its content to `basePath/filename` and
      returns that path; other paths keep their contents. */
  lemma WriteTarget(st: FsState, job: Job, net: Net)
    requires !TooLarge(job, net)
    ensures var (st', r) := Fetch(st, job, net);
      var path := JoinPath(job.basePath, job.filename);
      st'.dirs == st.dirs + {job.basePath}
      && (job.basePath in st.dirs ==> st'.dirs == st.dirs)
      && (net.get(job.url).Finished? ==> r == Ok(Some(path)) && st'.files == st.files[path := net.get(job.url).content])
      && (net.get(job.url).GetFailed? ==> r.Throw? && st'.files == st.files)
      && (net.get(job.url).StreamFailed? ==> r.Throw? && path in st'.files)
      && (forall q :: q != path && q in st.files ==> q in st'.files && st'.files[q] == st.files[q])
  {
  }

  /** Each job in turn, stopping at the first throw: the state reached and
      either every result or the throw. */
  function RunAll(st: FsState, jobs: seq<Job>, net: Net): (FsState, Result<seq<Option<string>>>)
    decreases |jobs|
  {
    if jobs == [] then (st, Ok([]))
    else
      var (mid, done) := RunAll(st, jobs[..|jobs| - 1], net);
      if done.Throw? then (mid, Throw)
      else
        var (last, r) := Fetch(mid, jobs[|jobs| - 1], net);
        if r.Throw? then (last, Throw) else (last, Ok(done.value + [r.value]))
  }

  /** When a job throws, the jobs after it are not attempted: the run
      ends in the state that job left and throws. */
  lemma {:induction false} StopsAtFirstThrow(st: FsState, jobs: seq<Job>, net: Net, k: nat)
    requires k < |jobs|
    requires RunAll(st, jobs[..k], net).1.Ok?
    requires Fetch(RunAll(st, jobs[..k], net).0, jobs[k], net).1.Throw?
    ensures RunAll(st, jobs, net) == (Fetch(RunAll(st, jobs[..k], net).0, jobs[k], net).0, Throw)
    decreases |jobs|
  {
    if |jobs| == k + 1 {
      assert jobs[..|jobs| - 1] == jobs[..k];
    } else {
      var front := jobs[..|jobs| - 1];
      assert front[..k] == jobs[..k];
      StopsAtFirstThrow(st, front, net, k);
    }
  }

  /** A single job is one `downloadFile` call. */
  lemma RunOne(st: FsState, job: Job, net: Net)
    ensures var (st', r) := Fetch(st, job, net);
      RunAll(st, [job], net) == (st', if r.Throw? then Throw else Ok([r.value]))
  {
    assert [job][..0] == [];
    assert RunAll(st, [], net) == (st, Ok([]));
    var r := Fetch(st, job, net).1;
    if r.Ok? {
      assert [] + [r.value] == [r.value];
    }
  }

  /** Running `a + b` runs `a`, then, unless it threw, `b` from where `a`
      left off. */
  lemma {:induction false} RunAllAppend(st: FsState, a: seq<Job>, b: seq<Job>, net: Net)
    ensures var (mid, ra) := RunAll(st, a, net);
      var (last, rb) := RunAll(mid, b, net);
      RunAll(st, a + b, net) ==
        if ra.Throw? then (mid, Throw)
        else if rb.Throw? then (last, Throw)
        else (last, Ok(ra.value + rb.value))
    decreases |b|
  {
    if b == [] {
      assert a + b == a;
      var (mid, ra) := RunAll(st, a, net);
      assert RunAll(mid, b, net) == (mid, Ok([]));
      if ra.Ok? {
        assert ra.value + [] == ra.value;
      }
    } else {
      var n := |b| - 1;
      assert (a + b)[..|a + b| - 1] == a + b[..n];
      assert (a + b)[|a + b| - 1] == b[n];
      RunAllAppend(st, a, b[..n], net);
      var (mid, ra) := RunAll(st, a, net);
      var (m2, rb2) := RunAll(mid, b[..n], net);
      if ra.Ok? && rb2.Ok? {
        var (last, r) := Fetch(m2, b[n], net);
        if r.Ok? {
          assert ra.value + (rb2.value + [r.value]) == (ra.value + rb2.value) + [r.value];
        }
      }
    }
  }

  /** A run that does not throw returns one result per job, in order. */
  lemma {:induction false} RunAllResults(st: FsState, jobs: seq<Job>, net: Net)
    requires RunAll(st, jobs, net).1.Ok?
    ensures |RunAll(st, jobs, net).1.value| == |jobs|
    decreases |jobs|
  {
    if jobs != [] {
      RunAllResults(st, jobs[..|jobs| - 1], net);
    }
  }

  /** How a route handler ends. */
  datatype Plan =
    | Fail(message: string)          // spinner.fail(message) and return
    | Note(message: string)          // a console notice and return
    | Cancel                         // the user picked Cancel
    | Crash                          // an exception reaches handleError
    | Run(jobs: seq<Job>, thenThrows: bool)  // download these; then throw if set

  datatype Outcome = Failed(message: string) | Noted(message: string) | Cancelled | Crashed | Completed(results: seq<Option<string>>)

  /** Running a plan: the state reached and the outcome. */
  function Perform(st: FsState, plan: Plan, net: Net): (FsState, Outcome) {
    match plan
    case Fail(m) => (st, Failed(m))
    case Note(m) => (st, Noted(m))
    case Cancel => (st, Cancelled)
    case Crash => (st, Crashed)
    case Run(jobs, thenThrows) =>
      var (st', r) := RunAll(st, jobs, net);
      (st', if r.Throw? || thenThrows then Crashed else Completed(r.value))
  }

  /** The filesystem and the request log, updated in place. */
  class Disk {
    var dirs: set<string>
    var files: map<string, Bytes>
    var log: seq<Request>

    function State(): FsState
      reads this
    {
      FsState(dirs, files, log)
    }

    constructor(dirs0: set<string>, files0: map<string, Bytes>)
      ensures State() == FsState(dirs0, files0, [])
    {
      dirs, files, log := dirs0, files0, [];
    }

    /** `downloadFile(url, filename, spinner, basePath, maxSize)`. */
    method DownloadFile(job: Job, net: Net) returns (r: Result<Option<string>>)
      modifies this
      ensures State() == Fetch(old(State()), job, net).0
      ensures r == Fetch(old(State()), job, net).1
    {
      if Truthy(job.maxSize) {
        log := log + [HeadRequest(job.url)];
        var sizeInfo := CheckFileSize(net.head(job.url));
        if sizeInfo.Some? && sizeInfo.value.exceedsLimit {
          return Ok(None);
        }
      }
      assert !TooLarge(job, net);
      if job.basePath !in dirs {
        dirs := dirs + {job.basePath};
      }
      assert dirs == old(dirs) + {job.basePath};
      var fullPath := JoinPath(job.basePath, job.filename);
      assert log == old(log) + (if Probes(job) then [HeadRequest(job.url)] else []);
      log := log + [GetRequest(job.url)];
      var response := net.get(job.url);
      match response
      case GetFailed =>
        r := Throw;
      case StreamFailed(partial) =>
        files := files[fullPath := partial];
        r := Throw;
      case Finished(content) =>
        files := files[fullPath := content];
        r := Ok(Some(fullPath));
    }

    /** Awaiting `downloadFile` for each job in order; a throw ends the loop. */
    method RunJobs(jobs: seq<Job>, net: Net) returns (r: Result<seq<Option<string>>>)
      modifies this
      ensures State() == RunAll(old(State()), jobs, net).0
      ensures r == RunAll(old(State()), jobs, net).1
    {
      var results: seq<Option<string>> := [];
      var i := 0;
      while i < |jobs|
        invariant 0 <= i <= |jobs|
        invariant RunAll(old(State()), jobs[..i], net).0 == State()
        invariant RunAll(old(State()), jobs[..i], net).1 == Ok(results)
      {
        assert jobs[..i + 1][..i] == jobs[..i];
        var saved := DownloadFile(jobs[i], net);
        if saved.Throw? {
          StopsAtFirstThrow(old(State()), jobs, net, i);
          return Throw;
        }
        results := results + [saved.value];
        i := i + 1;
      }
      assert jobs[..i] == jobs;
      return Ok(results);
    }

    /** Carrying out a route handler's plan. */
    method Handle(plan: Plan, net: Net) returns (o: Outcome)
      modifies this
      ensures State() == Perform(old(State()), plan, net).0
      ensures o == Perform(old(State()), plan, net).1
    {
      match plan
      case Fail(m) => o := Failed(m);
      case Note(m) => o := Noted(m);
      case Cancel => o := Cancelled;
      case Crash => o := Crashed;
      case Run(jobs, thenThrows) =>
        var r := RunJobs(jobs, net);
        o := if r.Throw? || thenThrows then Crashed else Completed(r.value);
    }
  }
}
