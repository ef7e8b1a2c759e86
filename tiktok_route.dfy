/** The `tiktok` handler (routes/tiktok.js): the primary endpoint with one
    v1 fallback, the empty check, the menu, the all-images batch and the
    single download with its extension picker. */
module TikTokRoute {
  import opened Wrappers
  import opened Js
  import opened Normalizer
  import opened Functions
  import opened Choices
  import opened Download
  import opened Routes

  /** `response && response.status && response.data`. */
  predicate Usable(response: Json) {
    Truthy(response) && Truthy(Get(response, "status")) && Truthy(Get(response, "data"))
  }

  /** One endpoint's try block: the normalized data, or a throw. */
  function Attempt(response: Json, source: Source): (r: Result<TikTokData>)
    ensures r.Ok? <==> Usable(response)
  {
    if Usable(response) then NormalizeTikTok(Get(response, "data"), source) else Throw
  }

  /** The primary endpoint, then the v1 endpoint when the first attempt
      throws. A throw from the second reaches `handleError`. */
  function Fetched(primary: Json, v1: Json): Result<TikTokData> {
    var first := Attempt(primary, Primary);
    if first.Ok? then first else Attempt(v1, V1)
  }

  /** `{ videos, audios, images }` handed to the menu builder. */
  function Buckets(d: TikTokData): Json {
    Obj(map["videos" := Arr(d.video), "audios" := Arr(d.audio), "images" := Arr(d.image)])
  }

  /** The extension picker, on the lower-cased url: jpg/jpeg before png
      before webp, and jpg when none of them occurs. */
  function ImageExt(lower: string): (r: string)
    ensures r == "jpg" || r == "png" || r == "webp"
    ensures Contains(lower, ".jpeg") || Contains(lower, ".jpg") ==> r == "jpg"
    ensures r == "png" ==> Contains(lower, ".png")
    ensures r == "webp" ==> Contains(lower, ".webp") && !Contains(lower, ".png")
  {
    if Contains(lower, ".jpeg") || Contains(lower, ".jpg") then "jpg"
    else if Contains(lower, ".png") then "png"
    else if Contains(lower, ".webp") then "webp"
    else "jpg"
  }

  /** The `i`-th job of the all-images loop; `url.toLowerCase()` throws on
      anything but a string. No size cap is passed. */
  function ImageJob(url: Json, i: nat, ts: nat, basePath: string): (r: Result<Job>)
    ensures r.Ok? <==> url.Str?
  {
    match LowerOf(url)
    case Throw => Throw
    case Ok(lower) =>
      Ok(Job(url, "tiktok_" + Stamp(ts) + "_image_" + NatToString(i + 1) + "." + ImageExt(lower), basePath, Undefined))
  }

  /** The loop body, with the one timestamp taken before the loop. */
  function ImageMaker(ts: nat, basePath: string): (Json, nat) -> Result<Job> {
    (url: Json, i: nat) => ImageJob(url, i, ts, basePath)
  }

  /** The extension of a single download: mp3 for audio, the picker's
      answer for an image, mp4 otherwise. */
  function SingleExt(sel: Json): Result<string> {
    var t := Get(sel, "type");
    if t == Str("audio") then Ok("mp3")
    else if t == Str("image") then
      var lower :- LowerOf(Get(sel, "url"));
      Ok(ImageExt(lower))
    else Ok("mp4")
  }

  /** The single download: the option's url under the generated name.
      `getSelectedOption('tiktok', sel)` is the `Pick` below and
      `generateFilename('tiktok', ...)` is `TikTokFilename`
      (`Functions.ExtractorFields`, `Functions.TikTokNaming`). */
  function SingleJob(sel: Json, ts: nat, basePath: string): Result<Job> {
    if Nullish(sel) then Throw
    else
      var options := Obj(Pick(sel, {"url", "type", "text"}));
      var ext :- SingleExt(sel);
      var name := TikTokFilename(Obj(map["type" := Get(sel, "type"), "ext" := Str(ext)]), ts);
      Ok(Job(Get(options, "url"), name, basePath, Undefined))
  }

  /** After the prompt. */
  function Select(sel: Json, ts: nat, basePath: string): Plan {
    if Nullish(sel) then Crash
    else if Get(sel, "type") == Str("all-images") then
      var urls := Get(sel, "urls");
      if Nullish(urls) then Crash else BatchPlan(Elements(urls), ImageMaker(ts, basePath))
    else match SingleJob(sel, ts, basePath)
      case Throw => Crash
      case Ok(job) => Run([job], false)
  }

  function Next(ts: nat, basePath: string): Json -> Plan {
    sel => Select(sel, ts, basePath)
  }

  /** Up to the prompt. Both branches after it read the clock once. */
  function TikTokStage(primary: Json, v1: Json, clock: nat -> nat, basePath: string): Stage {
    match Fetched(primary, v1)
    case Throw => Stop(Crash)
    case Ok(d) => DataStage(d, clock, basePath)
  }

  /** Everything after the normalizer. */
  function DataStage(d: TikTokData, clock: nat -> nat, basePath: string): Stage {
    if |d.video| == 0 && |d.audio| == 0 && |d.image| == 0 then Stop(Fail(" Failed to fetch TikTok video data"))
    else match TikTokChoices(Buckets(d))
      case Throw => Stop(Crash)
      case Ok(cs) => Prompt(cs + [CancelChoice], Next(clock(0), basePath))
  }

  /** `downloadTikTok(url, basePath)` with the two responses and the pick. */
  function TikTokPlan(primary: Json, v1: Json, pick: nat, clock: nat -> nat, basePath: string): Plan
    requires CanAnswer(TikTokStage(primary, v1, clock, basePath), pick)
  {
    Answer(TikTokStage(primary, v1, clock, basePath), pick)
  }

  /** `downloadTikTok(url, basePath)` step by step: the nested try blocks
      that reassign `data`, the pushed Cancel entry, the all-images loop and
      the single download. */
  method DownloadTikTok(disk: Disk, primary: Json, v1: Json, pick: nat, clock: nat -> nat, net: Net, basePath: string)
    returns (o: Outcome)
    requires CanAnswer(TikTokStage(primary, v1, clock, basePath), pick)
    modifies disk
    ensures disk.State() == Perform(old(disk.State()), TikTokPlan(primary, v1, pick, clock, basePath), net).0
    ensures o == Perform(old(disk.State()), TikTokPlan(primary, v1, pick, clock, basePath), net).1
  {
    var data: Option<TikTokData> := None;
    if Usable(primary) {
      var normalized := NormalizeTikTok(Get(primary, "data"), Primary);
      if normalized.Ok? {
        data := Some(normalized.value);
      }
    }
    if data.None? {
      if Usable(v1) {
        var normalized := NormalizeTikTok(Get(v1, "data"), V1);
        if normalized.Ok? {
          data := Some(normalized.value);
        }
      }
    }
    if data.None? {
      return Crashed;
    }
    var d := data.value;
    assert Fetched(primary, v1) == Ok(d);
    o := DownloadData(disk, d, pick, clock, net, basePath);
  }

  /** The rest of `downloadTikTok`: the menu, the pushed Cancel entry and
      the prompt. */
  method DownloadData(disk: Disk, d: TikTokData, pick: nat, clock: nat -> nat, net: Net, basePath: string)
    returns (o: Outcome)
    requires CanAnswer(DataStage(d, clock, basePath), pick)
    modifies disk
    ensures disk.State() == Perform(old(disk.State()), Answer(DataStage(d, clock, basePath), pick), net).0
    ensures o == Perform(old(disk.State()), Answer(DataStage(d, clock, basePath), pick), net).1
  {
    if |d.video| == 0 && |d.audio| == 0 && |d.image| == 0 {
      return Failed(" Failed to fetch TikTok video data");
    }
    TikTokDispatch(Buckets(d));
    var built := BuildDownloadChoices("tiktok", Buckets(d));
    if built.Throw? {
      return Crashed;
    }
    var downloadChoices := built.value;
    downloadChoices := downloadChoices + [CancelChoice];
    ghost var stage := DataStage(d, clock, basePath);
    assert stage == Prompt(downloadChoices, Next(clock(0), basePath));
    var sel := downloadChoices[pick].value;
    if sel == Str("cancel") {
      return Cancelled;
    }
    AnswerPrompt(stage, pick);
    o := DownloadSelected(disk, sel, clock(0), net, basePath);
  }

  /** The all-images loop or the single download. */
  method DownloadSelected(disk: Disk, sel: Json, timestamp: nat, net: Net, basePath: string) returns (o: Outcome)
    modifies disk
    ensures disk.State() == Perform(old(disk.State()), Select(sel, timestamp, basePath), net).0
    ensures o == Perform(old(disk.State()), Select(sel, timestamp, basePath), net).1
  {
    if Nullish(sel) {
      return Crashed;
    }
    if Get(sel, "type") == Str("all-images") {
      var urls := Get(sel, "urls");
      if Nullish(urls) {
        return Crashed;
      }
      o := DownloadEach(disk, Elements(urls), ImageMaker(timestamp, basePath), net);
      return;
    }
    var job := SingleJob(sel, timestamp, basePath);
    if job.Throw? {
      return Crashed;
    }
    o := DownloadOne(disk, job.value, net);
  }

  // ---------------------------------------------------------------------
  // Properties

  /** A usable primary response is normalized with the primary shape, and
      the v1 response is never looked at. */
  lemma PrimaryPreferred(primary: Json, v1: Json, other: Json)
    requires Usable(primary)
    ensures Fetched(primary, v1) == NormalizeTikTok(Get(primary, "data"), Primary)
    ensures Fetched(primary, v1).Ok?
    ensures Fetched(primary, v1) == Fetched(primary, other)
  {
  }

  /** Otherwise the one v1 attempt decides, with the v1 shape. */
  lemma FallbackToV1(primary: Json, v1: Json)
    requires !Usable(primary)
    ensures Fetched(primary, v1) == Attempt(v1, V1)
    ensures Usable(v1) ==> Fetched(primary, v1) == NormalizeTikTok(Get(v1, "data"), V1)
  {
  }

  /** When neither response is usable the handler ends in `handleError`:
      no prompt and no download. */
  lemma BothFailCrash(primary: Json, v1: Json, clock: nat -> nat, basePath: string)
    requires !Usable(primary) && !Usable(v1)
    ensures TikTokStage(primary, v1, clock, basePath) == Stop(Crash)
  {
  }

  /** All three buckets empty: the handler fails before building a menu. */
  lemma EmptyFails(primary: Json, v1: Json, clock: nat -> nat, basePath: string)
    requires Fetched(primary, v1).Ok?
    requires var d := Fetched(primary, v1).value; d.video == [] && d.audio == [] && d.image == []
    ensures TikTokStage(primary, v1, clock, basePath) == Stop(Fail(" Failed to fetch TikTok video data"))
  {
  }

  /** Some media: the menu is the builder's tiktok list (videos, audios,
      images, then All Images when there is more than one image) followed
      by Cancel as the last entry. */
  lemma MenuShown(primary: Json, v1: Json, clock: nat -> nat, basePath: string)
    requires Fetched(primary, v1).Ok?
    requires var d := Fetched(primary, v1).value; d.video != [] || d.audio != [] || d.image != []
    ensures var d := Fetched(primary, v1).value;
      var s := TikTokStage(primary, v1, clock, basePath);
      s.Prompt? && s.next == Next(clock(0), basePath)
      && s.menu == Entries(TikTokUrl("video", "Video"), d.video).value + Entries(TikTokUrl("audio", "Audio"), d.audio).value
                 + Entries(TikTokUrl("image", "Image"), d.image).value + AllImagesTail(d.image) + [CancelChoice]
  {
    var d := Fetched(primary, v1).value;
    StageOfData(primary, v1, clock, basePath);
    DataMenuShown(d, clock, basePath);
  }

  lemma DataMenuShown(d: TikTokData, clock: nat -> nat, basePath: string)
    requires d.video != [] || d.audio != [] || d.image != []
    ensures var s := DataStage(d, clock, basePath);
      s.Prompt? && s.next == Next(clock(0), basePath)
      && s.menu == Entries(TikTokUrl("video", "Video"), d.video).value + Entries(TikTokUrl("audio", "Audio"), d.audio).value
                 + Entries(TikTokUrl("image", "Image"), d.image).value + AllImagesTail(d.image) + [CancelChoice]
  {
    var b := Buckets(d);
    assert List(b, "videos") == Ok(d.video) && List(b, "audios") == Ok(d.audio) && List(b, "images") == Ok(d.image);
    TikTokChoicesValue(b);
  }

  /** The image jobs of the all-images batch when every url is a string:
      each url in order, named `tiktok_<ts>_image_<i+1>.<ext>` with one
      shared timestamp, and no size cap. */
  lemma AllImagesBatch(urls: seq<Json>, ts: nat, basePath: string)
    requires forall i :: 0 <= i < |urls| ==> urls[i].Str?
    ensures var sel := AllImagesValue(urls);
      var plan := Select(sel, ts, basePath);
      plan.Run? && !plan.thenThrows && |plan.jobs| == |urls|
      && forall i :: 0 <= i < |urls| ==>
           plan.jobs[i] == Job(urls[i], "tiktok_" + Stamp(ts) + "_image_" + NatToString(i + 1) + "." + ImageExt(Lower(urls[i].s)),
                               basePath, Undefined)
  {
    BatchAllMade(urls, ImageMaker(ts, basePath));
  }

  /** A url that is not a string stops the batch there: the urls before it
      are downloaded and the handler then ends in `handleError`. */
  lemma AllImagesStopsAtNonString(urls: seq<Json>, ts: nat, basePath: string, k: nat)
    requires k < |urls| && !urls[k].Str? && forall i :: 0 <= i < k ==> urls[i].Str?
    ensures var sel := AllImagesValue(urls);
      var plan := Select(sel, ts, basePath);
      plan.Run? && plan.thenThrows && |plan.jobs| == k
  {
    BatchFirstThrow(urls, ImageMaker(ts, basePath), k);
  }

  /** Single downloads: audio is saved as mp3, an image with the picker's
      extension, anything else as mp4, under `tiktok_<type>_<ts>.<ext>`,
      from the entry's url and without a size cap. */
  lemma SingleDownload(url: string, tag: string, ts: nat, basePath: string)
    requires tag != "all-images" && tag != ""
    ensures var sel := Obj(map["url" := Str(url), "text" := Str("x"), "type" := Str(tag)]);
      var ext := if tag == "audio" then "mp3" else if tag == "image" then ImageExt(Lower(url)) else "mp4";
      Select(sel, ts, basePath) == Run([Job(Str(url), "tiktok_" + tag + "_" + Stamp(ts) + "." + ext, basePath, Undefined)], false)
  {
    var sel := Obj(map["url" := Str(url), "text" := Str("x"), "type" := Str(tag)]);
    var ext := if tag == "audio" then "mp3" else if tag == "image" then ImageExt(Lower(url)) else "mp4";
    SingleJobValue(sel, tag, ext, Str(url), ts, basePath);
  }

  lemma SingleJobValue(sel: Json, tag: string, ext: string, url: Json, ts: nat, basePath: string)
    requires sel.Obj? && Get(sel, "type") == Str(tag) && Get(sel, "url") == url && tag != ""
    requires SingleExt(sel) == Ok(ext) && ext != ""
    ensures SingleJob(sel, ts, basePath) == Ok(Job(url, "tiktok_" + tag + "_" + Stamp(ts) + "." + ext, basePath, Undefined))
  {
    var options := Obj(Pick(sel, {"url", "type", "text"}));
    assert Get(options, "url") == url;
    var d := Obj(map["type" := Str(tag), "ext" := Str(ext)]);
    assert TikTokType(d) == Str(tag);
    assert TikTokIndexSuffix(d) == "";
    assert TikTokExt(d) == Str(ext);
    assert TikTokFilename(d, ts) == "tiktok_" + tag + "_" + Stamp(ts) + "." + ext;
  }

  /** Once the responses are normalized, the rest depends on the data
      alone. */
  lemma StageOfData(primary: Json, v1: Json, clock: nat -> nat, basePath: string)
    requires Fetched(primary, v1).Ok?
    ensures TikTokStage(primary, v1, clock, basePath) == DataStage(Fetched(primary, v1).value, clock, basePath)
  {
  }

  /** Picking the All Images entry downloads every image the menu was built
      from. */
  lemma AllImagesEntryDownloadsImages(d: TikTokData, clock: nat -> nat, basePath: string)
    requires |d.image| > 1
    ensures CanAnswer(DataStage(d, clock, basePath), |d.video| + |d.audio| + |d.image|)
    ensures Answer(DataStage(d, clock, basePath), |d.video| + |d.audio| + |d.image|) == BatchPlan(d.image, ImageMaker(clock(0), basePath))
  {
    AllImagesEntryAt(d, clock, basePath);
    AllImagesPicked(DataStage(d, clock, basePath), |d.video| + |d.audio| + |d.image|, d.image, clock(0), basePath);
  }

  /** Any prompt of this handler answered at an All Images entry. */
  lemma AllImagesPicked(s: Stage, pick: nat, images: seq<Json>, ts: nat, basePath: string)
    requires s.Prompt? && s.next == Next(ts, basePath) && pick < |s.menu| && s.menu[pick] == Entry(AllImagesValue(images))
    ensures CanAnswer(s, pick) && Answer(s, pick) == BatchPlan(images, ImageMaker(ts, basePath))
  {
    SelectAllImages(images, ts, basePath);
    AnswerEntry(s, pick, AllImagesValue(images));
  }

  /** Where the All Images entry sits: after every video, audio and image. */
  lemma AllImagesEntryAt(d: TikTokData, clock: nat -> nat, basePath: string)
    requires |d.image| > 1
    ensures var pick := |d.video| + |d.audio| + |d.image|;
      var s := DataStage(d, clock, basePath);
      s.Prompt? && s.next == Next(clock(0), basePath) && pick < |s.menu|
      && s.menu[pick] == Entry(AllImagesValue(d.image))
  {
    DataMenuShown(d, clock, basePath);
    var a := Entries(TikTokUrl("video", "Video"), d.video).value;
    var b := Entries(TikTokUrl("audio", "Audio"), d.audio).value;
    var c := Entries(TikTokUrl("image", "Image"), d.image).value;
    assert |a| == |d.video| && |b| == |d.audio| && |c| == |d.image|;
    var tail := AllImagesTail(d.image);
    var s := DataStage(d, clock, basePath);
    assert s.menu == (a + b + c) + (tail + [CancelChoice]);
  }

  lemma SelectAllImages(images: seq<Json>, ts: nat, basePath: string)
    ensures var sel := AllImagesValue(images);
      sel != Str("cancel") && Next(ts, basePath)(sel) == BatchPlan(images, ImageMaker(ts, basePath))
  {
  }

  /** Cancel is always the last entry, and picking it downloads nothing. */
  lemma CancelLast(primary: Json, v1: Json, clock: nat -> nat, basePath: string, st: FsState, net: Net)
    requires TikTokStage(primary, v1, clock, basePath).Prompt?
    ensures var s := TikTokStage(primary, v1, clock, basePath);
      |s.menu| > 0 && s.menu[|s.menu| - 1] == CancelChoice
      && Perform(st, TikTokPlan(primary, v1, |s.menu| - 1, clock, basePath), net) == (st, Cancelled)
  {
    PickCancel(TikTokStage(primary, v1, clock, basePath), st, net);
  }
}
