/** The `youtube` handler (routes/youtube.js): the response check, the
    normalized formats split into three sections by `type`, and the one
    download the user picks, with its size cap. There is no download-all. */
module YouTubeRoute {
  import opened Wrappers
  import opened Js
  import opened Normalizer
  import opened Functions
  import opened Choices
  import opened Download
  import opened Routes

  /** `formats.filter(f => f.type === tag)`: reading `type` throws on a null
      entry. */
  function TypeFilter(fs: seq<Json>, tag: string): (r: Result<seq<Json>>)
    ensures r.Ok? <==> forall i :: 0 <= i < |fs| ==> !Nullish(fs[i])
    ensures r.Ok? ==> |r.value| <= |fs|
    ensures r.Ok? ==> forall j :: 0 <= j < |r.value| ==> Get(r.value[j], "type") == Str(tag) && r.value[j] in fs
    ensures r.Ok? ==> forall i :: 0 <= i < |fs| && Get(fs[i], "type") == Str(tag) ==> fs[i] in r.value
    decreases |fs|
  {
    if fs == [] then Ok([])
    else
      var n := |fs| - 1;
      var front := TypeFilter(fs[..n], tag);
      assert forall i :: 0 <= i < n ==> fs[..n][i] == fs[i];
      assert forall x :: x in fs[..n] ==> x in fs;
      if front.Throw? || Nullish(fs[n]) then Throw
      else if Get(fs[n], "type") == Str(tag) then Ok(front.value + [fs[n]])
      else front
  }

  /** The menu data: `{ videoWithAudio, videoOnly, audioOnly }`. */
  function MenuData(withAudio: seq<Json>, videoOnly: seq<Json>, audio: seq<Json>): Json {
    Obj(map["videoWithAudio" := Arr(withAudio), "videoOnly" := Arr(videoOnly), "audioOnly" := Arr(audio)])
  }

  /** The picked format: `getSelectedOption('youtube', sel)` is the `Pick`
      with the 10 MiB cap for a video (`Functions.ExtractorFields`), and the
      name is `generateFilename('youtube', { title, quality, ext: format })`,
      here `YouTubeFilename` (`Functions.YouTubeNaming`). Reading
      `sel.type` throws on null; a title or quality that is truthy but not a
      string throws in `sanitize`. */
  function PickJob(sel: Json, title: Json, basePath: string): Result<Job> {
    if Nullish(sel) then Throw
    else
      var options := Obj(Pick(sel, {"url", "type", "quality", "format"})["maxSize" := MaxSizeOf(sel, "video")]);
      var name :- YouTubeFilename(Obj(map["title" := title, "quality" := Get(sel, "quality"), "ext" := Get(sel, "format")]));
      Ok(Job(Get(options, "url"), name, basePath, Get(options, "maxSize")))
  }

  function Select(sel: Json, title: Json, basePath: string): Plan {
    match PickJob(sel, title, basePath)
    case Throw => Crash
    case Ok(job) => Run([job], false)
  }

  function Next(title: Json, basePath: string): Json -> Plan {
    sel => Select(sel, title, basePath)
  }

  /** Everything after the normalizer. */
  function FormatsStage(video: seq<Json>, audio: seq<Json>, title: Json, basePath: string): Stage {
    if |video| == 0 && |audio| == 0 then Stop(Fail(" No download formats available"))
    else match TypeFilter(video, "video_with_audio")
      case Throw => Stop(Crash)
      case Ok(withAudio) =>
        // both filters read the same entries, so the second cannot throw
        MenuStage(withAudio, TypeFilter(video, "video").value, audio, title, basePath)
  }

  /** The prompt over the three filtered lists. */
  function MenuStage(withAudio: seq<Json>, videoOnly: seq<Json>, audio: seq<Json>, title: Json, basePath: string): Stage {
    match YouTubeChoices(MenuData(withAudio, videoOnly, audio))
    case Throw => Stop(Crash)
    case Ok(cs) => Prompt(cs + [CancelChoice], Next(title, basePath))
  }

  function YouTubeStage(raw: Json, basePath: string): Stage {
    if !Truthy(raw) || !Truthy(Get(raw, "status")) then Stop(Fail(" Failed to fetch YouTube video data"))
    else match NormalizeYouTube(Get(raw, "data"), Primary)
      case Throw => Stop(Crash)
      case Ok(y) => FormatsStage(y.video, y.audio, y.title, basePath)
  }

  /** `downloadYouTube(url, basePath)` with the response and the pick. */
  function YouTubePlan(raw: Json, pick: nat, basePath: string): Plan
    requires CanAnswer(YouTubeStage(raw, basePath), pick)
  {
    Answer(YouTubeStage(raw, basePath), pick)
  }

  /** `downloadYouTube` step by step, up to the normalizer. */
  method DownloadYouTube(disk: Disk, raw: Json, pick: nat, net: Net, basePath: string) returns (o: Outcome)
    requires CanAnswer(YouTubeStage(raw, basePath), pick)
    modifies disk
    ensures disk.State() == Perform(old(disk.State()), YouTubePlan(raw, pick, basePath), net).0
    ensures o == Perform(old(disk.State()), YouTubePlan(raw, pick, basePath), net).1
  {
    if !Truthy(raw) || !Truthy(Get(raw, "status")) {
      return Failed(" Failed to fetch YouTube video data");
    }
    var normalized := NormalizeYouTube(Get(raw, "data"), Primary);
    if normalized.Throw? {
      return Crashed;
    }
    var data := normalized.value;
    assert YouTubeStage(raw, basePath) == FormatsStage(data.video, data.audio, data.title, basePath);
    o := DownloadFormats(disk, data.video, data.audio, data.title, pick, net, basePath);
  }

  /** The rest of `downloadYouTube`: the filters, the prompt and the
      download. */
  method DownloadFormats(disk: Disk, video: seq<Json>, audio: seq<Json>, title: Json, pick: nat, net: Net, basePath: string)
    returns (o: Outcome)
    requires CanAnswer(FormatsStage(video, audio, title, basePath), pick)
    modifies disk
    ensures disk.State() == Perform(old(disk.State()), Answer(FormatsStage(video, audio, title, basePath), pick), net).0
    ensures o == Perform(old(disk.State()), Answer(FormatsStage(video, audio, title, basePath), pick), net).1
  {
    if |video| == 0 && |audio| == 0 {
      return Failed(" No download formats available");
    }
    var videoWithAudio := TypeFilter(video, "video_with_audio");
    if videoWithAudio.Throw? {
      return Crashed;
    }
    var videoOnly := TypeFilter(video, "video");
    o := DownloadMenu(disk, videoWithAudio.value, videoOnly.value, audio, title, pick, net, basePath);
  }

  /** The prompt and the download of the picked format. */
  method DownloadMenu(disk: Disk, withAudio: seq<Json>, videoOnly: seq<Json>, audio: seq<Json>, title: Json,
                      pick: nat, net: Net, basePath: string)
    returns (o: Outcome)
    requires CanAnswer(MenuStage(withAudio, videoOnly, audio, title, basePath), pick)
    modifies disk
    ensures disk.State() == Perform(old(disk.State()), Answer(MenuStage(withAudio, videoOnly, audio, title, basePath), pick), net).0
    ensures o == Perform(old(disk.State()), Answer(MenuStage(withAudio, videoOnly, audio, title, basePath), pick), net).1
  {
    var menuData := MenuData(withAudio, videoOnly, audio);
    YouTubeDispatch(menuData);
    var built := BuildDownloadChoices("youtube", menuData);
    if built.Throw? {
      return Crashed;
    }
    var downloadChoices := built.value + [CancelChoice];
    assert MenuStage(withAudio, videoOnly, audio, title, basePath) == Prompt(downloadChoices, Next(title, basePath));
    o := DownloadPicked(disk, downloadChoices, title, pick, net, basePath);
  }

  /** The pick from the shown menu and its download. */
  method DownloadPicked(disk: Disk, downloadChoices: seq<Choice>, title: Json, pick: nat, net: Net, basePath: string)
    returns (o: Outcome)
    requires CanAnswer(Prompt(downloadChoices, Next(title, basePath)), pick)
    modifies disk
    ensures disk.State() == Perform(old(disk.State()), Answer(Prompt(downloadChoices, Next(title, basePath)), pick), net).0
    ensures o == Perform(old(disk.State()), Answer(Prompt(downloadChoices, Next(title, basePath)), pick), net).1
  {
    ghost var stage := Prompt(downloadChoices, Next(title, basePath));
    var sel := downloadChoices[pick].value;
    if sel == Str("cancel") {
      return Cancelled;
    }
    AnswerPrompt(stage, pick);
    var job := PickJob(sel, title, basePath);
    if job.Throw? {
      return Crashed;
    }
    o := DownloadOne(disk, job.value, net);
  }

  // ---------------------------------------------------------------------
  // Properties

  /** A falsy response or `status` fails; normalized data with no format at
      all fails too. */
  lemma BadResponseFails(raw: Json, basePath: string)
    ensures !Truthy(raw) || !Truthy(Get(raw, "status"))
      ==> YouTubeStage(raw, basePath) == Stop(Fail(" Failed to fetch YouTube video data"))
    ensures Truthy(raw) && Truthy(Get(raw, "status")) && NormalizeYouTube(Get(raw, "data"), Primary).Ok?
        && NormalizeYouTube(Get(raw, "data"), Primary).value.video == []
        && NormalizeYouTube(Get(raw, "data"), Primary).value.audio == []
      ==> YouTubeStage(raw, basePath) == Stop(Fail(" No download formats available"))
  {
  }

  /** A response whose `data` is null or absent ends in `handleError`. */
  lemma MissingDataCrashes(raw: Json, basePath: string)
    requires Truthy(raw) && Truthy(Get(raw, "status")) && Nullish(Get(raw, "data"))
    ensures YouTubeStage(raw, basePath) == Stop(Crash)
  {
  }

  /** The filter keeps order: filtering a concatenation concatenates the
      filtered parts. */
  lemma {:induction false} TypeFilterAppend(a: seq<Json>, b: seq<Json>, tag: string)
    requires TypeFilter(a + b, tag).Ok?
    ensures TypeFilter(a, tag).Ok? && TypeFilter(b, tag).Ok?
    ensures TypeFilter(a + b, tag).value == TypeFilter(a, tag).value + TypeFilter(b, tag).value
    decreases |b|
  {
    if b == [] {
      assert a + b == a;
      assert TypeFilter(b, tag) == Ok([]);
    } else {
      var n := |b| - 1;
      var front := b[..n];
      assert b == front + [b[n]];
      assert a + b == (a + front) + [b[n]];
      TypeFilterSnoc(a + front, b[n], tag);
      TypeFilterSnoc(front, b[n], tag);
      TypeFilterAppend(a, front, tag);
      var fa := TypeFilter(a, tag).value;
      var fb := TypeFilter(front, tag).value;
      assert fa + fb + [b[n]] == fa + (fb + [b[n]]);
    }
  }

  /** One more format at the end: the filter of the front, then the test on
      the newcomer. */
  lemma TypeFilterSnoc(s: seq<Json>, x: Json, tag: string)
    ensures TypeFilter(s + [x], tag)
      == if TypeFilter(s, tag).Throw? || Nullish(x) then Throw
         else if Get(x, "type") == Str(tag) then Ok(TypeFilter(s, tag).value + [x])
         else TypeFilter(s, tag)
  {
    assert (s + [x])[..|s|] == s;
    assert (s + [x])[|s|] == x;
  }

  /** A format whose type is neither `video_with_audio` nor `video` is in
      neither video section: in particular an untyped mp4 format, which the
      normalizer keeps as a video, is never offered. */
  lemma UntypedVideoDropped(fs: seq<Json>, f: Json)
    requires TypeFilter(fs, "video").Ok?
    requires Get(f, "type") != Str("video_with_audio") && Get(f, "type") != Str("video")
    ensures f !in TypeFilter(fs, "video_with_audio").value && f !in TypeFilter(fs, "video").value
  {
  }

  /** The two filters split the typed video formats: each such format lands
      in exactly the section its type names. */
  lemma TypedVideoPlaced(fs: seq<Json>, i: nat)
    requires TypeFilter(fs, "video").Ok? && i < |fs|
    ensures Get(fs[i], "type") == Str("video_with_audio") ==>
      fs[i] in TypeFilter(fs, "video_with_audio").value && fs[i] !in TypeFilter(fs, "video").value
    ensures Get(fs[i], "type") == Str("video") ==>
      fs[i] in TypeFilter(fs, "video").value && fs[i] !in TypeFilter(fs, "video_with_audio").value
  {
  }

  /** No menu offers `'all'`: every entry the builder makes is a format
      object. */
  lemma NoDownloadAll(raw: Json, basePath: string)
    requires YouTubeStage(raw, basePath).Prompt?
    ensures var menu := YouTubeStage(raw, basePath).menu;
      forall i :: 0 <= i < |menu| - 1 ==> menu[i] != All && menu[i] != CancelChoice
  {
    var y := NormalizeYouTube(Get(raw, "data"), Primary).value;
    assert YouTubeStage(raw, basePath) == FormatsStage(y.video, y.audio, y.title, basePath);
    FormatsNoDownloadAll(y.video, y.audio, y.title, basePath);
  }

  lemma FormatsNoDownloadAll(video: seq<Json>, audio: seq<Json>, title: Json, basePath: string)
    requires FormatsStage(video, audio, title, basePath).Prompt?
    ensures var menu := FormatsStage(video, audio, title, basePath).menu;
      forall i :: 0 <= i < |menu| - 1 ==> menu[i] != All && menu[i] != CancelChoice
  {
    var withAudio := TypeFilter(video, "video_with_audio").value;
    var videoOnly := TypeFilter(video, "video").value;
    var cs := YouTubeChoices(MenuData(withAudio, videoOnly, audio)).value;
    var menu := FormatsStage(video, audio, title, basePath).menu;
    assert menu == cs + [CancelChoice];
    ChoicesObjects(withAudio, videoOnly, audio);
    forall i | 0 <= i < |menu| - 1 ensures menu[i] != All && menu[i] != CancelChoice {
      assert menu[i] == cs[i];
      assert cs[i] in cs;
    }
  }

  /** The builder reads the three lists back out of the menu data. */
  lemma MenuDataLists(withAudio: seq<Json>, videoOnly: seq<Json>, audio: seq<Json>)
    ensures var d := MenuData(withAudio, videoOnly, audio);
      GuardedList(d, "videoWithAudio") == Ok(withAudio)
      && GuardedList(d, "videoOnly") == Ok(videoOnly)
      && GuardedList(d, "audioOnly") == Ok(audio)
  {
    var d := MenuData(withAudio, videoOnly, audio);
    assert Get(d, "videoWithAudio") == Arr(withAudio);
    assert Get(d, "videoOnly") == Arr(videoOnly);
    assert Get(d, "audioOnly") == Arr(audio);
  }

  /** Every choice the builder makes from the menu data is a header or an
      entry carrying a format object. */
  lemma ChoicesObjects(withAudio: seq<Json>, videoOnly: seq<Json>, audio: seq<Json>)
    requires YouTubeChoices(MenuData(withAudio, videoOnly, audio)).Ok?
    ensures forall c :: c in YouTubeChoices(MenuData(withAudio, videoOnly, audio)).value ==> c.Header? || c.value.Obj?
  {
    var d := MenuData(withAudio, videoOnly, audio);
    MenuDataLists(withAudio, videoOnly, audio);
    YouTubeChoicesValue(d);
    SectionsObjects(" Video with Audio", "video", withAudio);
    SectionsObjects(" Video Only (no audio)", "video", videoOnly);
    SectionsObjects(" Audio Only", "audio", audio);
  }

  /** With formats of all three kinds the menu is the three sections in
      order, each under its header, then Cancel; entries in both video
      sections are typed `video`, so either kind of video gets the cap. */
  lemma MenuShown(video: seq<Json>, audio: seq<Json>, title: Json, basePath: string)
    requires TypeFilter(video, "video").Ok? && forall i :: 0 <= i < |audio| ==> !Nullish(audio[i])
    requires var withAudio := TypeFilter(video, "video_with_audio").value;
      var videoOnly := TypeFilter(video, "video").value;
      |withAudio| > 0 && |videoOnly| > 0 && |audio| > 0
    ensures var withAudio := TypeFilter(video, "video_with_audio").value;
      var videoOnly := TypeFilter(video, "video").value;
      var s := FormatsStage(video, audio, title, basePath);
      s.Prompt? && s.next == Next(title, basePath)
      && s.menu == [Header(" Video with Audio")] + Entries(YouTubeFormat("video"), withAudio).value
                   + [Header(" Video Only (no audio)")] + Entries(YouTubeFormat("video"), videoOnly).value
                   + [Header(" Audio Only")] + Entries(YouTubeFormat("audio"), audio).value + [CancelChoice]
  {
    var withAudio := TypeFilter(video, "video_with_audio").value;
    var videoOnly := TypeFilter(video, "video").value;
    var a := Entries(YouTubeFormat("video"), withAudio);
    var b := Entries(YouTubeFormat("video"), videoOnly);
    var c := Entries(YouTubeFormat("audio"), audio);
    assert a.Ok? && b.Ok? && c.Ok?;
    MenuValue(withAudio, videoOnly, audio);
    StageOfMenu(video, audio, title, basePath, YouTubeChoices(MenuData(withAudio, videoOnly, audio)).value);
    SixParts([Header(" Video with Audio")], a.value, [Header(" Video Only (no audio)")], b.value,
             [Header(" Audio Only")], c.value, [CancelChoice]);
  }

  /** The builder's choices for three non-empty lists of non-null formats. */
  lemma MenuValue(withAudio: seq<Json>, videoOnly: seq<Json>, audio: seq<Json>)
    requires |withAudio| > 0 && |videoOnly| > 0 && |audio| > 0
    requires Entries(YouTubeFormat("video"), withAudio).Ok? && Entries(YouTubeFormat("video"), videoOnly).Ok?
    requires Entries(YouTubeFormat("audio"), audio).Ok?
    ensures YouTubeChoices(MenuData(withAudio, videoOnly, audio))
      == Ok([Header(" Video with Audio")] + Entries(YouTubeFormat("video"), withAudio).value
            + ([Header(" Video Only (no audio)")] + Entries(YouTubeFormat("video"), videoOnly).value)
            + ([Header(" Audio Only")] + Entries(YouTubeFormat("audio"), audio).value))
  {
    MenuDataLists(withAudio, videoOnly, audio);
  }

  /** The stage once the filters and the builder have succeeded. */
  lemma StageOfMenu(video: seq<Json>, audio: seq<Json>, title: Json, basePath: string, cs: seq<Choice>)
    requires |video| > 0 && TypeFilter(video, "video_with_audio").Ok?
    requires YouTubeChoices(MenuData(TypeFilter(video, "video_with_audio").value, TypeFilter(video, "video").value, audio)) == Ok(cs)
    ensures FormatsStage(video, audio, title, basePath) == Prompt(cs + [CancelChoice], Next(title, basePath))
  {
  }

  /** Regrouping three headed sections and a tail. */
  lemma SixParts(h1: seq<Choice>, a: seq<Choice>, h2: seq<Choice>, b: seq<Choice>, h3: seq<Choice>, c: seq<Choice>, e: seq<Choice>)
    ensures h1 + a + h2 + b + h3 + c + e == h1 + a + (h2 + b) + (h3 + c) + e
  {
  }

  /** A section's entries are all format objects. */
  lemma SectionsObjects(title: string, tag: string, items: seq<Json>)
    requires Section(title, YouTubeFormat(tag), items).Ok?
    ensures forall c :: c in Section(title, YouTubeFormat(tag), items).value ==> c.Header? || c.value.Obj?
  {
    if |items| > 0 {
      var es := Entries(YouTubeFormat(tag), items).value;
      forall c | c in [Header(title)] + es ensures c.Header? || c.value.Obj? {
        if c !in [Header(title)] {
          var i :| 0 <= i < |es| && es[i] == c;
        }
      }
    }
  }

  /** A picked format downloads its url as `<title>_<quality>.<format>`,
      each sanitized part defaulted, with no timestamp; a video carries the
      10 MiB cap and audio none. */
  lemma PickedFormat(sel: Json, title: string, basePath: string)
    requires sel.Obj? && Get(sel, "quality").Str? && Get(sel, "format").Str?
    requires Get(sel, "type") == Str("video") || Get(sel, "type") == Str("audio")
    ensures var q := Get(sel, "quality").s;
      var f := Get(sel, "format").s;
      Select(sel, Str(title), basePath)
        == Run([Job(Get(sel, "url"),
                    SanitizeText(if title == "" then "video" else title) + "_" + SanitizeText(if q == "" then "default" else q)
                    + "." + (if f == "" then "mp4" else f),
                    basePath,
                    if Get(sel, "type") == Str("video") then Num(10485760) else Null)], false)
  {
    var q := Get(sel, "quality").s;
    var f := Get(sel, "format").s;
    PickedName(sel, title);
    var name := SanitizeText(if title == "" then "video" else title) + "_" + SanitizeText(if q == "" then "default" else q)
      + "." + (if f == "" then "mp4" else f);
    PickJobParts(sel, Str(title), basePath, name);
  }

  /** The name a picked format with string quality and format gets. */
  lemma PickedName(sel: Json, title: string)
    requires Get(sel, "quality").Str? && Get(sel, "format").Str?
    ensures var q := Get(sel, "quality").s;
      var f := Get(sel, "format").s;
      YouTubeFilename(Obj(map["title" := Str(title), "quality" := Get(sel, "quality"), "ext" := Get(sel, "format")]))
        == Ok(SanitizeText(if title == "" then "video" else title) + "_" + SanitizeText(if q == "" then "default" else q)
              + "." + (if f == "" then "mp4" else f))
  {
    var q := Get(sel, "quality").s;
    var f := Get(sel, "format").s;
    var d := Obj(map["title" := Str(title), "quality" := Get(sel, "quality"), "ext" := Get(sel, "format")]);
    assert Get(d, "title") == Str(title) && Get(d, "quality") == Str(q) && Get(d, "ext") == Str(f);
    assert Get(d, "format") == Undefined;
    OrString(title, "video");
    OrString(q, "default");
    OrString(f, "mp4");
    NamedParts(d, if title == "" then "video" else title, if q == "" then "default" else q, if f == "" then "mp4" else f);
  }

  /** `PickJob` once the file name is known. */
  lemma PickJobParts(sel: Json, title: Json, basePath: string, name: string)
    requires !Nullish(sel)
    requires YouTubeFilename(Obj(map["title" := title, "quality" := Get(sel, "quality"), "ext" := Get(sel, "format")])) == Ok(name)
    ensures Select(sel, title, basePath) == Run([Job(Get(sel, "url"), name, basePath, MaxSizeOf(sel, "video"))], false)
  {
    var options := Obj(Pick(sel, {"url", "type", "quality", "format"})["maxSize" := MaxSizeOf(sel, "video")]);
    assert Get(options, "url") == Get(sel, "url");
    assert Get(options, "maxSize") == MaxSizeOf(sel, "video");
  }

  /** `YouTubeFilename` once its three defaulted parts are known strings. */
  lemma NamedParts(d: Json, t: string, q: string, f: string)
    requires Or(Get(d, "title"), Str("video")) == Str(t)
    requires Or(Get(d, "quality"), Str("default")) == Str(q)
    requires Or(Get(d, "format"), Or(Get(d, "ext"), Str("mp4"))) == Str(f)
    ensures YouTubeFilename(d) == Ok(SanitizeText(t) + "_" + SanitizeText(q) + "." + f)
  {
  }

  /** A title that is truthy but not a string makes every pick fail in
      `sanitize`. */
  lemma NonStringTitleCrashes(sel: Json, title: Json, basePath: string)
    requires Truthy(title) && !title.Str?
    ensures Select(sel, title, basePath) == Crash
  {
    if !Nullish(sel) {
      var d := Obj(map["title" := title, "quality" := Get(sel, "quality"), "ext" := Get(sel, "format")]);
      assert Get(d, "title") == title;
    }
  }

  /** Cancel is always the last entry, and picking it downloads nothing. */
  lemma CancelLast(raw: Json, basePath: string, st: FsState, net: Net)
    requires YouTubeStage(raw, basePath).Prompt?
    ensures var s := YouTubeStage(raw, basePath);
      |s.menu| > 0 && s.menu[|s.menu| - 1] == CancelChoice
      && Perform(st, YouTubePlan(raw, |s.menu| - 1, basePath), net) == (st, Cancelled)
  {
    PickCancel(YouTubeStage(raw, basePath), st, net);
  }
}
