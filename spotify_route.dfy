/** The `spotify` handler (routes/spotify.js): the response check, a menu
    built inline with one entry per track and an optional cover image, and
    the one download the user picks, with its size cap. The prompt is shown
    even for a single track. */
module SpotifyRoute {
  import opened Wrappers
  import opened Js
  import opened Normalizer
  import opened Functions
  import opened Choices
  import opened Download
  import opened Routes

  /** The value of track `i`'s entry. */
  function TrackValue(t: Track, i: nat): Json {
    Obj(map["url" := t.url, "type" := Str("audio"), "format" := t.format, "quality" := t.quality, "index" := Num(i)])
  }

  /** `data.downloads.map(...)`: the label calls `download.format.toUpperCase()`,
      which throws unless the format is a string. */
  function TrackEntries(tracks: seq<Track>): (r: Result<seq<Choice>>)
    ensures r.Ok? <==> forall i :: 0 <= i < |tracks| ==> tracks[i].format.Str?
    ensures r.Ok? ==> |r.value| == |tracks| && forall i :: 0 <= i < |tracks| ==> r.value[i] == Entry(TrackValue(tracks[i], i))
  {
    if exists i :: 0 <= i < |tracks| && !tracks[i].format.Str? then Throw
    else Ok(seq(|tracks|, i requires 0 <= i < |tracks| => Entry(TrackValue(tracks[i], i))))
  }

  /** `{ url: thumbnail, type: 'image', format: 'jpg' }`. */
  function CoverValue(thumbnail: Json): Json {
    Obj(map["url" := thumbnail, "type" := Str("image"), "format" := Str("jpg")])
  }

  /** The cover entry, pushed only for a truthy thumbnail. */
  function Cover(thumbnail: Json): seq<Choice> {
    if Truthy(thumbnail) then [Entry(CoverValue(thumbnail))] else []
  }

  /** The picked entry: `getSelectedOption('spotify', sel)` is the `Pick`
      with the 10 MiB cap for audio (`Functions.ExtractorFields`), and the
      name is `generateFilename('spotify', { title, type, ext: format })`,
      here `SpotifyFilename` (`Functions.SpotifyNaming`). Reading
      `sel.type` throws on null; a title that is truthy but not a string
      throws in `sanitize`. */
  function PickJob(sel: Json, title: Json, ts: nat, basePath: string): Result<Job> {
    if Nullish(sel) then Throw
    else
      var options := Obj(Pick(sel, {"url", "type", "format"})["maxSize" := MaxSizeOf(sel, "audio")]);
      var name :- SpotifyFilename(Obj(map["title" := title, "type" := Get(sel, "type"), "ext" := Get(sel, "format")]), ts);
      Ok(Job(Get(options, "url"), name, basePath, Get(options, "maxSize")))
  }

  function Select(sel: Json, title: Json, ts: nat, basePath: string): Plan {
    match PickJob(sel, title, ts, basePath)
    case Throw => Crash
    case Ok(job) => Run([job], false)
  }

  function Next(title: Json, ts: nat, basePath: string): Json -> Plan {
    sel => Select(sel, title, ts, basePath)
  }

  /** Everything after the normalizer. */
  function TracksStage(d: SpotifyData, clock: nat -> nat, basePath: string): Stage {
    if |d.downloads| == 0 then Stop(Fail(" Invalid track data received"))
    else match TrackEntries(d.downloads)
      case Throw => Stop(Crash)
      case Ok(es) => Prompt(es + Cover(d.thumbnail) + [CancelChoice], Next(d.title, clock(0), basePath))
  }

  function SpotifyStage(raw: Json, clock: nat -> nat, basePath: string): Stage {
    if !Truthy(raw) || !Truthy(Get(raw, "status")) then Stop(Fail(" Failed to fetch Spotify track data"))
    else match NormalizeSpotify(Get(raw, "data"), Primary)
      case Throw => Stop(Crash)
      case Ok(d) => TracksStage(d, clock, basePath)
  }

  /** `downloadSpotify(url, basePath)` with the response and the pick. */
  function SpotifyPlan(raw: Json, pick: nat, clock: nat -> nat, basePath: string): Plan
    requires CanAnswer(SpotifyStage(raw, clock, basePath), pick)
  {
    Answer(SpotifyStage(raw, clock, basePath), pick)
  }

  /** `downloadSpotify` step by step, up to the normalizer. */
  method DownloadSpotify(disk: Disk, raw: Json, pick: nat, clock: nat -> nat, net: Net, basePath: string)
    returns (o: Outcome)
    requires CanAnswer(SpotifyStage(raw, clock, basePath), pick)
    modifies disk
    ensures disk.State() == Perform(old(disk.State()), SpotifyPlan(raw, pick, clock, basePath), net).0
    ensures o == Perform(old(disk.State()), SpotifyPlan(raw, pick, clock, basePath), net).1
  {
    if !Truthy(raw) || !Truthy(Get(raw, "status")) {
      return Failed(" Failed to fetch Spotify track data");
    }
    var normalized := NormalizeSpotify(Get(raw, "data"), Primary);
    if normalized.Throw? {
      return Crashed;
    }
    assert SpotifyStage(raw, clock, basePath) == TracksStage(normalized.value, clock, basePath);
    o := DownloadTracks(disk, normalized.value, pick, clock, net, basePath);
  }

  /** The rest of `downloadSpotify`: the menu map and pushes, the prompt and
      the download. */
  method DownloadTracks(disk: Disk, data: SpotifyData, pick: nat, clock: nat -> nat, net: Net, basePath: string)
    returns (o: Outcome)
    requires CanAnswer(TracksStage(data, clock, basePath), pick)
    modifies disk
    ensures disk.State() == Perform(old(disk.State()), Answer(TracksStage(data, clock, basePath), pick), net).0
    ensures o == Perform(old(disk.State()), Answer(TracksStage(data, clock, basePath), pick), net).1
  {
    if |data.downloads| == 0 {
      return Failed(" Invalid track data received");
    }
    var downloadChoices: seq<Choice> := [];
    var i := 0;
    while i < |data.downloads|
      invariant 0 <= i <= |data.downloads|
      invariant |downloadChoices| == i
      invariant forall j :: 0 <= j < i ==> data.downloads[j].format.Str? && downloadChoices[j] == Entry(TrackValue(data.downloads[j], j))
    {
      var download := data.downloads[i];
      if !download.format.Str? {
        return Crashed;
      }
      downloadChoices := downloadChoices + [Entry(TrackValue(download, i))];
      i := i + 1;
    }
    if Truthy(data.thumbnail) {
      downloadChoices := downloadChoices + [Entry(CoverValue(data.thumbnail))];
    }
    downloadChoices := downloadChoices + [CancelChoice];
    ghost var stage := TracksStage(data, clock, basePath);
    assert stage == Prompt(downloadChoices, Next(data.title, clock(0), basePath));
    var sel := downloadChoices[pick].value;
    if sel == Str("cancel") {
      return Cancelled;
    }
    AnswerPrompt(stage, pick);
    var job := PickJob(sel, data.title, clock(0), basePath);
    if job.Throw? {
      return Crashed;
    }
    o := DownloadOne(disk, job.value, net);
  }

  // ---------------------------------------------------------------------
  // Properties

  /** A falsy response or `status` fails, and so does an empty track list. */
  lemma BadResponseFails(raw: Json, clock: nat -> nat, basePath: string)
    ensures !Truthy(raw) || !Truthy(Get(raw, "status"))
      ==> SpotifyStage(raw, clock, basePath) == Stop(Fail(" Failed to fetch Spotify track data"))
    ensures Truthy(raw) && Truthy(Get(raw, "status")) && NormalizeSpotify(Get(raw, "data"), Primary).Ok?
        && NormalizeSpotify(Get(raw, "data"), Primary).value.downloads == []
      ==> SpotifyStage(raw, clock, basePath) == Stop(Fail(" Invalid track data received"))
  {
  }

  /** A track whose format is not a string makes the menu throw. */
  lemma NonStringFormatCrashes(d: SpotifyData, clock: nat -> nat, basePath: string, k: nat)
    requires k < |d.downloads| && !d.downloads[k].format.Str?
    ensures TracksStage(d, clock, basePath) == Stop(Crash)
  {
  }

  /** The menu: one entry per track, in order, each typed `audio` with its
      index; then the cover image exactly when the thumbnail is truthy; then
      Cancel. It is shown even for a single track. */
  lemma MenuShown(d: SpotifyData, clock: nat -> nat, basePath: string)
    requires |d.downloads| > 0 && forall i :: 0 <= i < |d.downloads| ==> d.downloads[i].format.Str?
    ensures var s := TracksStage(d, clock, basePath);
      var n := |d.downloads|;
      s.Prompt? && s.next == Next(d.title, clock(0), basePath)
      && |s.menu| == n + (if Truthy(d.thumbnail) then 1 else 0) + 1
      && (forall i :: 0 <= i < n ==> s.menu[i] == Entry(TrackValue(d.downloads[i], i)))
      && (Truthy(d.thumbnail) ==> s.menu[n] == Entry(CoverValue(d.thumbnail)))
      && s.menu[|s.menu| - 1] == CancelChoice
  {
  }

  /** `spotify_<...>`-style names: `<title>_<type>_<ts>.<ext>` with the title
      sanitized and every part defaulted. */
  lemma PickedName(title: Json, sel: Json, ts: nat)
    requires title.Str? || !Truthy(title)
    requires Get(sel, "type").Str? && Get(sel, "format").Str?
    ensures var tt := if Truthy(title) then title.s else "track";
      var t := Get(sel, "type").s;
      var f := Get(sel, "format").s;
      SpotifyFilename(Obj(map["title" := title, "type" := Get(sel, "type"), "ext" := Get(sel, "format")]), ts)
        == Ok(SanitizeText(tt) + "_" + (if t == "" then "audio" else t) + "_" + Stamp(ts) + "." + (if f == "" then "mp3" else f))
  {
    var d := Obj(map["title" := title, "type" := Get(sel, "type"), "ext" := Get(sel, "format")]);
    assert Get(d, "title") == title && Get(d, "type") == Get(sel, "type") && Get(d, "ext") == Get(sel, "format");
    OrString(Get(sel, "type").s, "audio");
    OrString(Get(sel, "format").s, "mp3");
  }

  /** `PickJob` once the file name is known. */
  lemma PickJobParts(sel: Json, title: Json, ts: nat, basePath: string, name: string)
    requires !Nullish(sel)
    requires SpotifyFilename(Obj(map["title" := title, "type" := Get(sel, "type"), "ext" := Get(sel, "format")]), ts) == Ok(name)
    ensures Select(sel, title, ts, basePath) == Run([Job(Get(sel, "url"), name, basePath, MaxSizeOf(sel, "audio"))], false)
  {
    var options := Obj(Pick(sel, {"url", "type", "format"})["maxSize" := MaxSizeOf(sel, "audio")]);
    assert Get(options, "url") == Get(sel, "url");
    assert Get(options, "maxSize") == MaxSizeOf(sel, "audio");
  }

  /** A picked entry with a string type and format downloads its url as
      `<title>_<type>_<ts>.<format>`, capped at 10 MiB exactly when it is
      audio. */
  lemma PickedSelection(sel: Json, title: Json, ts: nat, basePath: string)
    requires sel.Obj? && Get(sel, "type").Str? && Get(sel, "format").Str?
    requires title.Str? || !Truthy(title)
    ensures var tt := if Truthy(title) then title.s else "track";
      var t := Get(sel, "type").s;
      var f := Get(sel, "format").s;
      Select(sel, title, ts, basePath)
        == Run([Job(Get(sel, "url"),
                    SanitizeText(tt) + "_" + (if t == "" then "audio" else t) + "_" + Stamp(ts) + "." + (if f == "" then "mp3" else f),
                    basePath,
                    if t == "audio" then Num(10485760) else Null)], false)
  {
    var tt := if Truthy(title) then title.s else "track";
    var t := Get(sel, "type").s;
    var f := Get(sel, "format").s;
    PickedName(title, sel, ts);
    PickJobParts(sel, title, ts, basePath,
                 SanitizeText(tt) + "_" + (if t == "" then "audio" else t) + "_" + Stamp(ts) + "." + (if f == "" then "mp3" else f));
  }

  /** Picking track `i` downloads its url as `<title>_audio_<ts>.<format>`
      with the 10 MiB cap. */
  lemma PickTrack(d: SpotifyData, clock: nat -> nat, basePath: string, i: nat)
    requires |d.downloads| > 0 && forall j :: 0 <= j < |d.downloads| ==> d.downloads[j].format.Str?
    requires i < |d.downloads| && (d.title.Str? || !Truthy(d.title))
    ensures CanAnswer(TracksStage(d, clock, basePath), i)
    ensures var t := d.downloads[i];
      var tt := if Truthy(d.title) then d.title.s else "track";
      var f := t.format.s;
      Answer(TracksStage(d, clock, basePath), i)
        == Run([Job(t.url, SanitizeText(tt) + "_audio_" + Stamp(clock(0)) + "." + (if f == "" then "mp3" else f), basePath, Num(10485760))], false)
  {
    MenuShown(d, clock, basePath);
    AnswerEntry(TracksStage(d, clock, basePath), i, TrackValue(d.downloads[i], i));
    TrackJob(d.downloads[i], i, d.title, clock(0), basePath);
  }

  lemma TrackJob(t: Track, i: nat, title: Json, ts: nat, basePath: string)
    requires t.format.Str? && (title.Str? || !Truthy(title))
    ensures var tt := if Truthy(title) then title.s else "track";
      var f := t.format.s;
      Select(TrackValue(t, i), title, ts, basePath)
        == Run([Job(t.url, SanitizeText(tt) + "_audio_" + Stamp(ts) + "." + (if f == "" then "mp3" else f), basePath, Num(10485760))], false)
  {
    var sel := TrackValue(t, i);
    assert Get(sel, "type") == Str("audio") && Get(sel, "format") == t.format && Get(sel, "url") == t.url;
    PickedSelection(sel, title, ts, basePath);
    var tt := if Truthy(title) then title.s else "track";
    var f := t.format.s;
    Regroup(SanitizeText(tt), "audio", Stamp(ts), if f == "" then "mp3" else f);
    Literals();
  }

  /** Picking the cover downloads the thumbnail as `<title>_image_<ts>.jpg`
      with no size cap. */
  lemma PickCover(d: SpotifyData, clock: nat -> nat, basePath: string)
    requires |d.downloads| > 0 && forall j :: 0 <= j < |d.downloads| ==> d.downloads[j].format.Str?
    requires Truthy(d.thumbnail) && (d.title.Str? || !Truthy(d.title))
    ensures CanAnswer(TracksStage(d, clock, basePath), |d.downloads|)
    ensures var tt := if Truthy(d.title) then d.title.s else "track";
      Answer(TracksStage(d, clock, basePath), |d.downloads|)
        == Run([Job(d.thumbnail, SanitizeText(tt) + "_image_" + Stamp(clock(0)) + ".jpg", basePath, Null)], false)
  {
    MenuShown(d, clock, basePath);
    AnswerEntry(TracksStage(d, clock, basePath), |d.downloads|, CoverValue(d.thumbnail));
    CoverJob(d.thumbnail, d.title, clock(0), basePath);
  }

  lemma CoverJob(thumbnail: Json, title: Json, ts: nat, basePath: string)
    requires title.Str? || !Truthy(title)
    ensures var tt := if Truthy(title) then title.s else "track";
      Select(CoverValue(thumbnail), title, ts, basePath)
        == Run([Job(thumbnail, SanitizeText(tt) + "_image_" + Stamp(ts) + ".jpg", basePath, Null)], false)
  {
    var sel := CoverValue(thumbnail);
    assert Get(sel, "type") == Str("image") && Get(sel, "format") == Str("jpg") && Get(sel, "url") == thumbnail;
    PickedSelection(sel, title, ts, basePath);
    var tt := if Truthy(title) then title.s else "track";
    Regroup(SanitizeText(tt), "image", Stamp(ts), "jpg");
    Literals();
    DotJpg(SanitizeText(tt) + "_image_" + Stamp(ts));
  }

  /** Regrouping of a name's parts, kept apart so that the literal
      concatenations above stay cheap. */
  lemma Literals()
    ensures "_" + "image" + "_" == "_image_" && "_" + "audio" + "_" == "_audio_"
  {
  }

  lemma DotJpg(a: string)
    ensures a + "." + "jpg" == a + ".jpg"
  {
    assert "." + "jpg" == ".jpg";
  }

  lemma Regroup(a: string, b: string, x: string, y: string)
    ensures a + "_" + b + "_" + x + "." + y == a + ("_" + b + "_") + x + "." + y
  {
  }

  /** A title that is truthy but not a string makes every pick fail in
      `sanitize`. */
  lemma NonStringTitleCrashes(sel: Json, title: Json, ts: nat, basePath: string)
    requires Truthy(title) && !title.Str?
    ensures Select(sel, title, ts, basePath) == Crash
  {
    if !Nullish(sel) {
      var d := Obj(map["title" := title, "type" := Get(sel, "type"), "ext" := Get(sel, "format")]);
      assert Get(d, "title") == title;
    }
  }

  /** Cancel is always the last entry, and picking it downloads nothing. */
  lemma CancelLast(raw: Json, clock: nat -> nat, basePath: string, st: FsState, net: Net)
    requires SpotifyStage(raw, clock, basePath).Prompt?
    ensures var s := SpotifyStage(raw, clock, basePath);
      |s.menu| > 0 && s.menu[|s.menu| - 1] == CancelChoice
      && Perform(st, SpotifyPlan(raw, |s.menu| - 1, clock, basePath), net) == (st, Cancelled)
  {
    PickCancel(SpotifyStage(raw, clock, basePath), st, net);
  }
}
