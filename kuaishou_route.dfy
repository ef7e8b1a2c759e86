/** The `kuaishou` handler (routes/kuaishou.js): the response checks, the
    video and image flags, the sectioned menu, the `'all'` run over the
    original video and atlas, and the single selection by type. */
module KuaishouRoute {
  import opened Wrappers
  import opened Js
  import opened Functions
  import opened Choices
  import opened Download
  import opened Routes

  function Original(dd: Json): Json {
    Get(dd, "original")
  }

  function Atlas(dd: Json): Json {
    Get(Original(dd), "atlas")
  }

  /** `hasVideo && original && original.videoUrl`. */
  predicate HasVideo(dd: Json) {
    Truthy(Get(dd, "hasVideo")) && Truthy(Original(dd)) && Truthy(Get(Original(dd), "videoUrl"))
  }

  /** `hasAtlas && original && original.atlas && original.atlas.length > 0`. */
  predicate HasImages(dd: Json) {
    Truthy(Get(dd, "hasAtlas")) && Truthy(Original(dd)) && Truthy(Atlas(dd))
    && LengthOf(Atlas(dd)).Some? && LengthOf(Atlas(dd)).value > 0
  }

  /** The builder's input: the download list only when there is a video, and
      the image list only when there are images. */
  function MenuData(dd: Json): Json {
    Obj(map["videos" := if HasVideo(dd) then Get(dd, "downloads") else Arr([]),
            "images" := if HasImages(dd) then Get(dd, "images") else Arr([])])
  }

  /** The download of one item of a given type, named by
      `generateFilename('kuaishou', { type, index })` (`TypedFilename`, see
      `Functions.KuaishouNaming`); `getSelectedOption('kuaishou', { url, type })`
      hands the url back unchanged. */
  function TypedJob(url: Json, d: Json, ts: nat, basePath: string): Job {
    Job(url, TypedFilename("kuaishou", d, ts), basePath, Undefined)
  }

  function Typed(t: string): Json {
    Obj(map["type" := Str(t)])
  }

  function TypedAt(t: string, i: nat): Json {
    Obj(map["type" := Str(t), "index" := Num(i)])
  }

  /** The video of `'all'`: `original.videoUrl`, named `kuaishou_video_<ts>.mp4`. */
  function VideoJob(dd: Json, ts: nat, basePath: string): Job {
    TypedJob(Get(Original(dd), "videoUrl"), Typed("video"), ts, basePath)
  }

  /** Atlas image `i`: `{ url: image, type: 'image' }` named with index `i`
      and the clock reading after `k` earlier names. */
  function ImageJob(image: Json, i: nat, clock: nat -> nat, k: nat, basePath: string): (r: Result<Job>)
    ensures r == Ok(TypedJob(image, TypedAt("image", i), clock(k + i), basePath))
  {
    Ok(TypedJob(image, TypedAt("image", i), clock(k + i), basePath))
  }

  /** The atlas loop body. */
  function ImageMaker(clock: nat -> nat, k: nat, basePath: string): (Json, nat) -> Result<Job> {
    (image: Json, i: nat) => ImageJob(image, i, clock, k, basePath)
  }

  /** The jobs `'all'` runs: the video first when there is one, then every
      atlas image. Making a job never throws here. */
  function AllJobs(dd: Json, clock: nat -> nat, basePath: string): seq<Job> {
    var video := VideoJobs(dd, clock, basePath);
    video + Batch(AtlasItems(dd), ImageMaker(clock, |video|, basePath)).0
  }

  /** The video job of `'all'`, when there is a video. */
  function VideoJobs(dd: Json, clock: nat -> nat, basePath: string): seq<Job> {
    if HasVideo(dd) then [VideoJob(dd, clock(0), basePath)] else []
  }

  /** The atlas images `'all'` walks, when there are any. */
  function AtlasItems(dd: Json): seq<Json> {
    if HasImages(dd) then Elements(Atlas(dd)) else []
  }

  /** One picked entry: the download depends on its `type` alone; any other
      type downloads nothing. */
  function Selected(sel: Json, ts: nat, basePath: string): Plan {
    if Nullish(sel) then Crash
    else
      var options := Obj(Pick(sel, {"url", "type"}));
      var t := Get(sel, "type");
      if t == Str("video") then Run([TypedJob(Get(options, "url"), Typed("video"), ts, basePath)], false)
      else if t == Str("image") then Run([TypedJob(Get(options, "url"), Typed("image"), ts, basePath)], false)
      else Run([], false)
  }

  function Select(sel: Json, dd: Json, clock: nat -> nat, basePath: string): Plan {
    if sel == Str("all") then Run(AllJobs(dd, clock, basePath), false)
    else Selected(sel, clock(0), basePath)
  }

  function Next(dd: Json, clock: nat -> nat, basePath: string): Json -> Plan {
    sel => Select(sel, dd, clock, basePath)
  }

  /** `data.data.title && data.data.title.trim()`: only a string has `trim`. */
  predicate TitleThrows(dd: Json) {
    Truthy(Get(dd, "title")) && !Get(dd, "title").Str?
  }

  function KuaishouStage(data: Json, clock: nat -> nat, basePath: string): Stage {
    if !Truthy(data) || !Truthy(Get(data, "status")) then Stop(Fail(" Failed to fetch Kuaishou video data"))
    else
      var dd := Get(data, "data");
      if !Truthy(dd) then Stop(Fail(" Invalid video data received"))
      else if TitleThrows(dd) then Stop(Crash)
      else MediaStage(dd, clock, basePath)
  }

  /** From the media checks on: the note, or the menu. */
  function MediaStage(dd: Json, clock: nat -> nat, basePath: string): Stage {
    if !HasVideo(dd) && !HasImages(dd) then Stop(Note(" No downloadable media found in this post."))
    else match MediaChoices(MenuData(dd), KuaishouVideo, KuaishouImage)
      case Throw => Stop(Crash)
      case Ok(cs) => Prompt(cs + [CancelChoice], Next(dd, clock, basePath))
  }

  /** `downloadKuaishou(url, basePath)` with the response and the pick. */
  function KuaishouPlan(data: Json, pick: nat, clock: nat -> nat, basePath: string): Plan
    requires CanAnswer(KuaishouStage(data, clock, basePath), pick)
  {
    Answer(KuaishouStage(data, clock, basePath), pick)
  }

  /** The atlas loop never throws while making its jobs. */
  lemma ImagesAllMade(items: seq<Json>, clock: nat -> nat, k: nat, basePath: string)
    ensures var (jobs, thrown) := Batch(items, ImageMaker(clock, k, basePath));
      !thrown && |jobs| == |items|
      && forall i :: 0 <= i < |items| ==> jobs[i] == TypedJob(items[i], TypedAt("image", i), clock(k + i), basePath)
  {
    BatchAllMade(items, ImageMaker(clock, k, basePath));
  }

  /** An item without an index: `kuaishou_video_<ts>.mp4` and
      `kuaishou_image_<ts>.jpg`. */
  lemma TypedName(ts: nat)
    ensures TypedFilename("kuaishou", Typed("video"), ts) == "kuaishou_video_" + Stamp(ts) + ".mp4"
    ensures TypedFilename("kuaishou", Typed("image"), ts) == "kuaishou_image_" + Stamp(ts) + ".jpg"
  {
    assert Get(Typed("video"), "type") == Str("video");
    assert Get(Typed("image"), "type") == Str("image");
    TypedFilenameIndexOmitted("kuaishou", Typed("video"), ts);
    TypedFilenameIndexOmitted("kuaishou", Typed("image"), ts);
    LiteralName("video", "mp4", Stamp(ts));
    LiteralName("image", "jpg", Stamp(ts));
    assert "kuaishou_" + "video" + "_" == "kuaishou_video_" && "." + "mp4" == ".mp4";
    assert "kuaishou_" + "image" + "_" == "kuaishou_image_" && "." + "jpg" == ".jpg";
  }

  lemma LiteralName(t: string, ext: string, x: string)
    ensures "kuaishou" + "_" + t + "_" + x + "." + ext == ("kuaishou_" + t + "_") + x + ("." + ext)
  {
    assert "kuaishou" + "_" == "kuaishou_";
  }

  /** The first atlas image has index 0, which is falsy: its name carries
      no index. */
  lemma FirstImageName(ts: nat)
    ensures TypedFilename("kuaishou", TypedAt("image", 0), ts) == "kuaishou_image_" + Stamp(ts) + ".jpg"
  {
    var d := TypedAt("image", 0);
    assert Get(d, "type") == Str("image") && Get(d, "index") == Num(0);
    TypedFilenameIndexOmitted("kuaishou", d, ts);
    LiteralName("image", "jpg", Stamp(ts));
    assert "kuaishou_" + "image" + "_" == "kuaishou_image_" && "." + "jpg" == ".jpg";
  }

  /** Every later atlas image carries its zero-based index. */
  lemma LaterImageName(i: nat, ts: nat)
    requires i > 0
    ensures TypedFilename("kuaishou", TypedAt("image", i), ts) == "kuaishou_image_" + NatToString(i) + "_" + Stamp(ts) + ".jpg"
  {
    var d := TypedAt("image", i);
    assert Get(d, "type") == Str("image") && Get(d, "index") == Num(i);
    TypedFilenameIndexKept("kuaishou", d, ts, i);
    Regroup(NatToString(i), Stamp(ts));
  }

  lemma Regroup(a: string, b: string)
    ensures "kuaishou" + "_" + "image" + "_" + a + "_" + b + "." + "jpg" == "kuaishou_image_" + a + "_" + b + ".jpg"
  {
  }

  /** The `'all'` branch: the video, then the counting loop over the atlas. */
  method DownloadAll(disk: Disk, dd: Json, clock: nat -> nat, net: Net, basePath: string) returns (o: Outcome)
    modifies disk
    ensures disk.State() == Perform(old(disk.State()), Run(AllJobs(dd, clock, basePath), false), net).0
    ensures o == Perform(old(disk.State()), Run(AllJobs(dd, clock, basePath), false), net).1
  {
    ghost var st0 := disk.State();
    var video := VideoJobs(dd, clock, basePath);
    var items := AtlasItems(dd);
    var make := ImageMaker(clock, |video|, basePath);
    assert !Batch(items, make).1 by {
      ImagesAllMade(items, clock, |video|, basePath);
    }
    var first := DownloadVideo(disk, video, net);
    if first.Throw? {
      RunAllAppend(st0, video, Batch(items, make).0, net);
      return Crashed;
    }
    RunThenBatch(st0, video, first.value, disk.State(), items, make, net);
    var rest := DownloadEach(disk, items, make, net);
    o := if rest.Completed? then Completed(first.value + rest.results) else rest;
  }

  /** `if (hasVideo) await downloadFile(...)`: the video, when there is one. */
  method DownloadVideo(disk: Disk, video: seq<Job>, net: Net) returns (r: Result<seq<Option<string>>>)
    requires |video| <= 1
    modifies disk
    ensures (disk.State(), r) == RunAll(old(disk.State()), video, net)
  {
    if video == [] {
      return Ok([]);
    }
    RunOne(disk.State(), video[0], net);
    assert video == [video[0]];
    var d := disk.DownloadFile(video[0], net);
    r := if d.Throw? then Throw else Ok([d.value]);
  }

  /** `downloadKuaishou` step by step. */
  method DownloadKuaishou(disk: Disk, data: Json, pick: nat, clock: nat -> nat, net: Net, basePath: string)
    returns (o: Outcome)
    requires CanAnswer(KuaishouStage(data, clock, basePath), pick)
    modifies disk
    ensures disk.State() == Perform(old(disk.State()), KuaishouPlan(data, pick, clock, basePath), net).0
    ensures o == Perform(old(disk.State()), KuaishouPlan(data, pick, clock, basePath), net).1
  {
    if !Truthy(data) || !Truthy(Get(data, "status")) {
      return Failed(" Failed to fetch Kuaishou video data");
    }
    var dd := Get(data, "data");
    if !Truthy(dd) {
      return Failed(" Invalid video data received");
    }
    if Truthy(Get(dd, "title")) && !Get(dd, "title").Str? {
      return Crashed;
    }
    assert KuaishouStage(data, clock, basePath) == MediaStage(dd, clock, basePath);
    o := DownloadMedia(disk, dd, pick, clock, net, basePath);
  }

  /** The rest of `downloadKuaishou`: the media checks, the menu and the
      pick. */
  method DownloadMedia(disk: Disk, dd: Json, pick: nat, clock: nat -> nat, net: Net, basePath: string)
    returns (o: Outcome)
    requires CanAnswer(MediaStage(dd, clock, basePath), pick)
    modifies disk
    ensures disk.State() == Perform(old(disk.State()), Answer(MediaStage(dd, clock, basePath), pick), net).0
    ensures o == Perform(old(disk.State()), Answer(MediaStage(dd, clock, basePath), pick), net).1
  {
    var hasVideo := HasVideo(dd);
    var hasImages := HasImages(dd);
    if !hasVideo && !hasImages {
      return Noted(" No downloadable media found in this post.");
    }
    KuaishouDispatch(MenuData(dd));
    var built := BuildDownloadChoices("kuaishou", MenuData(dd));
    if built.Throw? {
      return Crashed;
    }
    var downloadChoices := built.value + [CancelChoice];
    ghost var stage := MediaStage(dd, clock, basePath);
    assert stage == Prompt(downloadChoices, Next(dd, clock, basePath));
    var sel := downloadChoices[pick].value;
    if sel == Str("cancel") {
      return Cancelled;
    }
    AnswerPrompt(stage, pick);
    o := DownloadSelected(disk, sel, dd, clock, net, basePath);
  }

  /** The rest of `downloadKuaishou` once a choice other than Cancel is
      made. */
  method DownloadSelected(disk: Disk, sel: Json, dd: Json, clock: nat -> nat, net: Net, basePath: string)
    returns (o: Outcome)
    modifies disk
    ensures disk.State() == Perform(old(disk.State()), Select(sel, dd, clock, basePath), net).0
    ensures o == Perform(old(disk.State()), Select(sel, dd, clock, basePath), net).1
  {
    if sel == Str("all") {
      o := DownloadAll(disk, dd, clock, net, basePath);
      return;
    }
    if Nullish(sel) {
      return Crashed;
    }
    var options := Obj(Pick(sel, {"url", "type"}));
    if Get(sel, "type") == Str("video") {
      o := DownloadOne(disk, TypedJob(Get(options, "url"), Typed("video"), clock(0), basePath), net);
    } else if Get(sel, "type") == Str("image") {
      o := DownloadOne(disk, TypedJob(Get(options, "url"), Typed("image"), clock(0), basePath), net);
    } else {
      assert RunAll(disk.State(), [], net) == (disk.State(), Ok([]));
      o := Completed([]);
    }
  }

  // ---------------------------------------------------------------------
  // Properties

  /** A falsy response or `status` fails; so does a falsy `data`. */
  lemma BadResponseFails(data: Json, clock: nat -> nat, basePath: string)
    ensures !Truthy(data) || !Truthy(Get(data, "status"))
      ==> KuaishouStage(data, clock, basePath) == Stop(Fail(" Failed to fetch Kuaishou video data"))
    ensures Truthy(data) && Truthy(Get(data, "status")) && !Truthy(Get(data, "data"))
      ==> KuaishouStage(data, clock, basePath) == Stop(Fail(" Invalid video data received"))
  {
  }

  /** With neither a video nor images the handler only prints a notice:
      this is not a failure. */
  lemma NothingToDownload(data: Json, clock: nat -> nat, basePath: string)
    requires Truthy(data) && Truthy(Get(data, "status")) && Truthy(Get(data, "data")) && !TitleThrows(Get(data, "data"))
    requires !HasVideo(Get(data, "data")) && !HasImages(Get(data, "data"))
    ensures KuaishouStage(data, clock, basePath) == Stop(Note(" No downloadable media found in this post."))
  {
  }

  /** `hasVideo` alone is not enough: the original's `videoUrl` must be
      truthy too, and likewise for the atlas. */
  lemma FlagsNeedOriginal(dd: Json)
    ensures HasVideo(dd) ==> Truthy(Get(Original(dd), "videoUrl"))
    ensures HasImages(dd) ==> |Elements(Atlas(dd))| > 0
  {
  }

  /** The atlas loop's names: the first image has no index in its name
      (index 0 is falsy); image `i > 0` is `kuaishou_image_<i>_<ts>.jpg`.
      The clock is read once per name, after `k` earlier ones. */
  lemma ImagesNamed(items: seq<Json>, clock: nat -> nat, k: nat, basePath: string)
    ensures var jobs := Batch(items, ImageMaker(clock, k, basePath)).0;
      |jobs| == |items|
      && (|items| > 0 ==> jobs[0] == Job(items[0], "kuaishou_image_" + Stamp(clock(k)) + ".jpg", basePath, Undefined))
      && forall i :: 1 <= i < |items| ==>
           jobs[i] == Job(items[i], "kuaishou_image_" + NatToString(i) + "_" + Stamp(clock(k + i)) + ".jpg", basePath, Undefined)
  {
    ImagesAllMade(items, clock, k, basePath);
    FirstImageName(clock(k));
    forall i | 1 <= i < |items|
      ensures TypedFilename("kuaishou", TypedAt("image", i), clock(k + i))
        == "kuaishou_image_" + NatToString(i) + "_" + Stamp(clock(k + i)) + ".jpg"
    {
      LaterImageName(i, clock(k + i));
    }
  }

  /** `'all'` downloads the original video first, as `kuaishou_video_<ts>.mp4`,
      then every atlas image in order, named as `ImagesNamed` says with the
      clock read from the second reading on. */
  lemma AllOrder(dd: Json, clock: nat -> nat, basePath: string)
    requires HasVideo(dd) && HasImages(dd)
    ensures var jobs := AllJobs(dd, clock, basePath);
      var atlas := Elements(Atlas(dd));
      |jobs| == 1 + |atlas|
      && jobs[0] == Job(Get(Original(dd), "videoUrl"), "kuaishou_video_" + Stamp(clock(0)) + ".mp4", basePath, Undefined)
      && jobs[1..] == Batch(atlas, ImageMaker(clock, 1, basePath)).0
  {
    var atlas := Elements(Atlas(dd));
    ImagesAllMade(atlas, clock, 1, basePath);
    TypedName(clock(0));
  }

  /** The menu plays no part in `'all'`: it downloads `original.videoUrl`
      and `original.atlas`, whatever `downloads` and `images` list. */
  lemma AllIgnoresMenuLists(dd: Json, downloads: Json, images: Json, clock: nat -> nat, basePath: string)
    requires dd.Obj?
    ensures var dd' := Obj(dd.fields["downloads" := downloads]["images" := images]);
      AllJobs(dd', clock, basePath) == AllJobs(dd, clock, basePath)
  {
    var dd' := Obj(dd.fields["downloads" := downloads]["images" := images]);
    assert Get(dd', "hasVideo") == Get(dd, "hasVideo");
    assert Get(dd', "hasAtlas") == Get(dd, "hasAtlas");
    assert Original(dd') == Original(dd);
  }

  /** A picked entry of type `video` or `image` downloads its url alone,
      with no index in the name; any other type downloads nothing and
      leaves the filesystem as it was. */
  lemma PickByType(sel: Json, ts: nat, basePath: string, st: FsState, net: Net)
    requires !Nullish(sel)
    ensures Get(sel, "type") == Str("video") ==>
      Selected(sel, ts, basePath) == Run([Job(Get(sel, "url"), "kuaishou_video_" + Stamp(ts) + ".mp4", basePath, Undefined)], false)
    ensures Get(sel, "type") == Str("image") ==>
      Selected(sel, ts, basePath) == Run([Job(Get(sel, "url"), "kuaishou_image_" + Stamp(ts) + ".jpg", basePath, Undefined)], false)
    ensures Get(sel, "type") != Str("video") && Get(sel, "type") != Str("image") ==>
      Perform(st, Selected(sel, ts, basePath), net) == (st, Completed([]))
  {
    TypedName(ts);
    assert Get(Obj(Pick(sel, {"url", "type"})), "url") == Get(sel, "url");
    assert RunAll(st, [], net) == (st, Ok([]));
  }

  /** With a video and images the menu is the Videos section over
      `downloads`, the Images section over `images`, `'all'`, then Cancel. */
  lemma MenuShown(data: Json, clock: nat -> nat, basePath: string)
    requires Truthy(data) && Truthy(Get(data, "status")) && Truthy(Get(data, "data"))
    requires var dd := Get(data, "data");
      !TitleThrows(dd) && HasVideo(dd) && HasImages(dd)
      && Get(dd, "downloads").Arr? && |Get(dd, "downloads").items| > 0
      && (forall i :: 0 <= i < |Get(dd, "downloads").items| ==> !Nullish(Get(dd, "downloads").items[i]))
      && Get(dd, "images").Arr? && |Get(dd, "images").items| > 0
    ensures var dd := Get(data, "data");
      var s := KuaishouStage(data, clock, basePath);
      s.Prompt? && s.next == Next(dd, clock, basePath)
      && s.menu == Sections(Get(dd, "downloads").items, Get(dd, "images").items) + [CancelChoice]
  {
    var dd := Get(data, "data");
    var m := MenuData(dd);
    assert Get(m, "videos") == Get(dd, "downloads");
    assert Get(m, "images") == Get(dd, "images");
    SectionsValue(m, Get(dd, "downloads").items, Get(dd, "images").items);
  }

  /** The two sections and `'all'`, for non-empty lists. */
  function Sections(videos: seq<Json>, images: seq<Json>): (r: seq<Choice>)
    requires forall i :: 0 <= i < |videos| ==> !Nullish(videos[i])
    ensures |r| == |videos| + |images| + 3
    ensures r[0] == Header(" Videos") && r[1 + |videos|] == Header(" Images") && r[|r| - 1] == All
    ensures forall i :: 0 <= i < |videos| ==> r[1 + i] == Entry(VideoChoice(videos[i], i))
    ensures forall i :: 0 <= i < |images| ==> r[2 + |videos| + i] == Entry(ImageChoice(images[i], i))
  {
    var vs := Entries(KuaishouVideo, videos);
    var ims := Entries(KuaishouImage, images);
    VideoEntries(videos);
    ImageEntries(images);
    FiveParts(Header(" Videos"), vs.value, Header(" Images"), ims.value, All);
    [Header(" Videos")] + vs.value + [Header(" Images")] + ims.value + [All]
  }

  /** The value of the entry for video `v` at position `i`. */
  function VideoChoice(v: Json, i: nat): Json {
    Obj(map["url" := Get(v, "url"), "type" := Str("video"), "quality" := Get(v, "quality"), "index" := Num(i)])
  }

  /** The value of the entry for image url `im` at position `i`. */
  function ImageChoice(im: Json, i: nat): Json {
    Obj(map["url" := im, "type" := Str("image"), "index" := Num(i)])
  }

  lemma VideoEntries(videos: seq<Json>)
    requires forall i :: 0 <= i < |videos| ==> !Nullish(videos[i])
    ensures var vs := Entries(KuaishouVideo, videos);
      vs.Ok? && |vs.value| == |videos| && forall i :: 0 <= i < |videos| ==> vs.value[i] == Entry(VideoChoice(videos[i], i))
  {
    var vs := Entries(KuaishouVideo, videos);
    forall i | 0 <= i < |videos| ensures vs.value[i] == Entry(VideoChoice(videos[i], i)) {
      assert MakeEntry(KuaishouVideo, videos[i], i).value == VideoChoice(videos[i], i);
    }
  }

  lemma ImageEntries(images: seq<Json>)
    ensures var ims := Entries(KuaishouImage, images);
      ims.Ok? && |ims.value| == |images| && forall i :: 0 <= i < |images| ==> ims.value[i] == Entry(ImageChoice(images[i], i))
  {
    var ims := Entries(KuaishouImage, images);
    forall i | 0 <= i < |images| ensures ims.value[i] == Entry(ImageChoice(images[i], i)) {
      assert MakeEntry(KuaishouImage, images[i], i).value == ImageChoice(images[i], i);
    }
  }

  lemma FiveParts(h1: Choice, a: seq<Choice>, h2: Choice, b: seq<Choice>, z: Choice)
    ensures var r := [h1] + a + [h2] + b + [z];
      |r| == |a| + |b| + 3 && r[0] == h1 && r[1 + |a|] == h2 && r[|r| - 1] == z
      && (forall i :: 0 <= i < |a| ==> r[1 + i] == a[i])
      && (forall i :: 0 <= i < |b| ==> r[2 + |a| + i] == b[i])
  {
  }

  lemma SectionsValue(m: Json, videos: seq<Json>, images: seq<Json>)
    requires Get(m, "videos") == Arr(videos) && Get(m, "images") == Arr(images)
    requires |videos| > 0 && |images| > 0 && forall i :: 0 <= i < |videos| ==> !Nullish(videos[i])
    ensures MediaChoices(m, KuaishouVideo, KuaishouImage) == Ok(Sections(videos, images))
  {
    var vs := Entries(KuaishouVideo, videos);
    var ims := Entries(KuaishouImage, images);
    assert vs.Ok? && ims.Ok?;
    assert Section(" Videos", KuaishouVideo, videos) == Ok([Header(" Videos")] + vs.value);
    assert Section(" Images", KuaishouImage, images) == Ok([Header(" Images")] + ims.value);
    assert ([Header(" Videos")] + vs.value) + ([Header(" Images")] + ims.value) + [All]
        == [Header(" Videos")] + vs.value + [Header(" Images")] + ims.value + [All];
  }

  /** Cancel is always the last entry, and picking it downloads nothing. */
  lemma CancelLast(data: Json, clock: nat -> nat, basePath: string, st: FsState, net: Net)
    requires KuaishouStage(data, clock, basePath).Prompt?
    ensures var s := KuaishouStage(data, clock, basePath);
      |s.menu| > 0 && s.menu[|s.menu| - 1] == CancelChoice
      && Perform(st, KuaishouPlan(data, |s.menu| - 1, clock, basePath), net) == (st, Cancelled)
  {
    PickCancel(KuaishouStage(data, clock, basePath), st, net);
  }
}
