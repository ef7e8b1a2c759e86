/** The `instagram` handler (routes/instagram.js): the response check, the
    single-item shortcut, the menu with a sniffed extension per item, the
    `'all'` batch and the single selection. */
module InstagramRoute {
  import opened Wrappers
  import opened Js
  import opened Normalizer
  import opened Functions
  import opened Choices
  import opened Download
  import opened Routes

  /** The media list of a response that passed the check: always the
      primary shape. */
  function MediaOf(raw: Json): (r: seq<Json>)
    ensures r == InstagramPrimaryMedia(Get(raw, "data"))
  {
    NormalizeInstagram(Get(raw, "data"), Primary).value.media
  }

  /** `getFileExtension(url, 'jpg')`. */
  function Sniff(url: Json, decode: Decoder): string {
    GetFileExtension(url, "jpg", decode)
  }

  /** `{ ...media, ext: getFileExtension(media.url, 'jpg') }`. */
  function WithExt(media: Json, decode: Decoder): Json {
    Obj(Fields(media)["ext" := Str(Sniff(Get(media, "url"), decode))])
  }

  function WithExts(media: seq<Json>, decode: Decoder): (r: seq<Json>)
    ensures |r| == |media| && forall i :: 0 <= i < |media| ==> r[i] == WithExt(media[i], decode)
  {
    seq(|media|, i requires 0 <= i < |media| => WithExt(media[i], decode))
  }

  lemma WithExtsSnoc(media: seq<Json>, i: nat, decode: Decoder)
    requires i < |media|
    ensures WithExts(media[..i + 1], decode) == WithExts(media[..i], decode) + [WithExt(media[i], decode)]
  {
    assert media[..i + 1] == media[..i] + [media[i]];
  }

  /** The download of item `i` (the shortcut uses it with `i = 0`):
      `getSelectedOption('instagram', { url, index: i, ext })` and
      `generateFilename('instagram', { index: i, ext })`, here the `Pick`
      and `InstagramFilename` they reduce to (`Functions.ExtractorFields`,
      `Functions.InstagramNaming`). Reading `media.url` throws on null. */
  function ItemJob(media: Json, i: nat, ts: nat, decode: Decoder, basePath: string): Result<Job> {
    if Nullish(media) then Throw
    else
      var ext := Sniff(Get(media, "url"), decode);
      var options := Obj(Pick(Obj(map["url" := Get(media, "url"), "index" := Num(i), "ext" := Str(ext)]), {"url", "index", "ext"}));
      var name := InstagramFilename(Obj(map["index" := Num(i), "ext" := Str(ext)]), ts);
      Ok(Job(Get(options, "url"), name, basePath, Undefined))
  }

  /** The loop body; each name reads the clock anew. */
  function ItemMaker(clock: nat -> nat, decode: Decoder, basePath: string): (Json, nat) -> Result<Job> {
    (media: Json, i: nat) => ItemJob(media, i, clock(i), decode, basePath)
  }

  /** One picked entry: its own `ext`, else the sniffed one, and its index. */
  function SelectedJob(sel: Json, ts: nat, decode: Decoder, basePath: string): Result<Job> {
    if Nullish(sel) then Throw
    else
      var ext := Or(Get(sel, "ext"), Str(Sniff(Get(sel, "url"), decode)));
      var options := Obj(Pick(sel, {"url", "index", "ext"}));
      var name := InstagramFilename(Obj(map["index" := Get(sel, "index"), "ext" := ext]), ts);
      Ok(Job(Get(options, "url"), name, basePath, Undefined))
  }

  function Select(sel: Json, media: seq<Json>, clock: nat -> nat, decode: Decoder, basePath: string): Plan {
    if sel == Str("all") then BatchPlan(media, ItemMaker(clock, decode, basePath))
    else match SelectedJob(sel, clock(0), decode, basePath)
      case Throw => Crash
      case Ok(job) => Run([job], false)
  }

  function Next(media: seq<Json>, clock: nat -> nat, decode: Decoder, basePath: string): Json -> Plan {
    sel => Select(sel, media, clock, decode, basePath)
  }

  /** The menu data: `{ media: mediaWithExt }`. */
  function MenuData(media: seq<Json>, decode: Decoder): Json {
    Obj(map["media" := Arr(WithExts(media, decode))])
  }

  function InstagramStage(raw: Json, clock: nat -> nat, decode: Decoder, basePath: string): Stage {
    if !Truthy(raw) || !Truthy(Get(raw, "status")) then Stop(Fail(" Failed to fetch Instagram media data"))
    else
      var media := MediaOf(raw);
      if |media| == 0 then Stop(Fail(" Invalid media data received"))
      else if |media| == 1 then
        Stop(match ItemJob(media[0], 0, clock(0), decode, basePath)
             case Throw => Crash
             case Ok(job) => Run([job], false))
      else MenuStage(media, clock, decode, basePath)
  }

  /** Two or more items: the `map` that adds extensions, the menu and the
      prompt. */
  function MenuStage(media: seq<Json>, clock: nat -> nat, decode: Decoder, basePath: string): Stage {
    if exists i :: 0 <= i < |media| && Nullish(media[i]) then Stop(Crash)
    else match InstagramChoices(MenuData(media, decode))
      case Throw => Stop(Crash)
      case Ok(cs) => Prompt(cs + [CancelChoice], Next(media, clock, decode, basePath))
  }

  /** The entry of item `i`: the item's url and thumbnail, its index, and
      the sniffed extension, `jpg` when nothing is found. */
  function MenuEntry(media: Json, i: nat, decode: Decoder): Json {
    var url := Get(media, "url");
    Obj(map["url" := url, "thumbnail" := Get(media, "thumbnail"), "index" := Num(i), "ext" := Str(ExtName(Sniff(url, decode)))])
  }

  /** `downloadInstagram(url, basePath)` with the response and the pick. */
  function InstagramPlan(raw: Json, pick: nat, clock: nat -> nat, decode: Decoder, basePath: string): Plan
    requires CanAnswer(InstagramStage(raw, clock, decode, basePath), pick)
  {
    Answer(InstagramStage(raw, clock, decode, basePath), pick)
  }

  /** `downloadInstagram` step by step: the checks, the shortcut, the
      `map` that adds extensions, the pushed Cancel entry and the loops. */
  method DownloadInstagram(disk: Disk, raw: Json, pick: nat, clock: nat -> nat, decode: Decoder, net: Net, basePath: string)
    returns (o: Outcome)
    requires CanAnswer(InstagramStage(raw, clock, decode, basePath), pick)
    modifies disk
    ensures disk.State() == Perform(old(disk.State()), InstagramPlan(raw, pick, clock, decode, basePath), net).0
    ensures o == Perform(old(disk.State()), InstagramPlan(raw, pick, clock, decode, basePath), net).1
  {
    if !Truthy(raw) || !Truthy(Get(raw, "status")) {
      return Failed(" Failed to fetch Instagram media data");
    }
    var media := NormalizeInstagram(Get(raw, "data"), Primary).value.media;
    if |media| == 0 {
      return Failed(" Invalid media data received");
    }
    if |media| == 1 {
      var job := ItemJob(media[0], 0, clock(0), decode, basePath);
      if job.Throw? {
        return Crashed;
      }
      o := DownloadOne(disk, job.value, net);
      return;
    }
    assert InstagramStage(raw, clock, decode, basePath) == MenuStage(media, clock, decode, basePath);
    o := DownloadMenu(disk, media, pick, clock, decode, net, basePath);
  }

  /** The rest of `downloadInstagram` for two or more items. */
  method DownloadMenu(disk: Disk, media: seq<Json>, pick: nat, clock: nat -> nat, decode: Decoder, net: Net, basePath: string)
    returns (o: Outcome)
    requires CanAnswer(MenuStage(media, clock, decode, basePath), pick)
    modifies disk
    ensures disk.State() == Perform(old(disk.State()), Answer(MenuStage(media, clock, decode, basePath), pick), net).0
    ensures o == Perform(old(disk.State()), Answer(MenuStage(media, clock, decode, basePath), pick), net).1
  {
    var mediaWithExt := AddExtensions(media, decode);
    if mediaWithExt.Throw? {
      return Crashed;
    }
    InstagramDispatch(MenuData(media, decode));
    var built := BuildDownloadChoices("instagram", Obj(map["media" := Arr(mediaWithExt.value)]));
    if built.Throw? {
      return Crashed;
    }
    var downloadChoices := built.value + [CancelChoice];
    ghost var stage := MenuStage(media, clock, decode, basePath);
    assert stage == Prompt(downloadChoices, Next(media, clock, decode, basePath));
    var sel := downloadChoices[pick].value;
    if sel == Str("cancel") {
      return Cancelled;
    }
    AnswerPrompt(stage, pick);
    o := DownloadSelected(disk, sel, media, clock, decode, net, basePath);
  }

  /** `media.map(m => ({ ...m, ext: getFileExtension(m.url, 'jpg') }))`:
      the items in order, each with its sniffed extension; spreading
      `null.url` throws. */
  method AddExtensions(media: seq<Json>, decode: Decoder) returns (r: Result<seq<Json>>)
    ensures r.Throw? <==> exists i :: 0 <= i < |media| && Nullish(media[i])
    ensures r.Ok? ==> r.value == WithExts(media, decode)
  {
    var mediaWithExt: seq<Json> := [];
    var i := 0;
    while i < |media|
      invariant 0 <= i <= |media|
      invariant mediaWithExt == WithExts(media[..i], decode)
      invariant forall j :: 0 <= j < i ==> !Nullish(media[j])
    {
      if Nullish(media[i]) {
        return Throw;
      }
      WithExtsSnoc(media, i, decode);
      mediaWithExt := mediaWithExt + [WithExt(media[i], decode)];
      i := i + 1;
    }
    assert media[..i] == media;
    return Ok(mediaWithExt);
  }

  /** The loop over every item for `'all'`, or the one picked download. */
  method DownloadSelected(disk: Disk, sel: Json, media: seq<Json>, clock: nat -> nat, decode: Decoder, net: Net, basePath: string)
    returns (o: Outcome)
    modifies disk
    ensures disk.State() == Perform(old(disk.State()), Select(sel, media, clock, decode, basePath), net).0
    ensures o == Perform(old(disk.State()), Select(sel, media, clock, decode, basePath), net).1
  {
    if sel == Str("all") {
      o := DownloadEach(disk, media, ItemMaker(clock, decode, basePath), net);
      return;
    }
    var job := SelectedJob(sel, clock(0), decode, basePath);
    if job.Throw? {
      return Crashed;
    }
    o := DownloadOne(disk, job.value, net);
  }

  // ---------------------------------------------------------------------
  // Properties

  /** A falsy response or a falsy `status` fails with no prompt. */
  lemma BadResponseFails(raw: Json, clock: nat -> nat, decode: Decoder, basePath: string)
    requires !Truthy(raw) || !Truthy(Get(raw, "status"))
    ensures InstagramStage(raw, clock, decode, basePath) == Stop(Fail(" Failed to fetch Instagram media data"))
  {
  }

  /** An empty media list fails before any prompt. */
  lemma EmptyMediaFails(raw: Json, clock: nat -> nat, decode: Decoder, basePath: string)
    requires Truthy(raw) && Truthy(Get(raw, "status")) && MediaOf(raw) == []
    ensures InstagramStage(raw, clock, decode, basePath) == Stop(Fail(" Invalid media data received"))
  {
  }

  /** Exactly one item is downloaded at once, with no prompt, as
      `instagram_media_1_<ts>.<ext>` where ext is the sniffed extension. */
  lemma SingleItemShortcut(raw: Json, clock: nat -> nat, decode: Decoder, basePath: string)
    requires Truthy(raw) && Truthy(Get(raw, "status")) && |MediaOf(raw)| == 1 && !Nullish(MediaOf(raw)[0])
    ensures var url := Get(MediaOf(raw)[0], "url");
      InstagramStage(raw, clock, decode, basePath)
        == Stop(Run([Job(url, "instagram_media_1_" + Stamp(clock(0)) + "." + ExtName(Sniff(url, decode)), basePath, Undefined)], false))
  {
    var media := MediaOf(raw);
    ItemJobValue(media[0], 0, clock(0), decode, basePath);
    var job := ItemJob(media[0], 0, clock(0), decode, basePath);
    assert InstagramStage(raw, clock, decode, basePath) == Stop(Run([job.value], false));
    var url := Get(media[0], "url");
    assert NatToString(0 + 1) == "1";
    assert "instagram_media_" + NatToString(0 + 1) + "_" == "instagram_media_1_";
  }

  /** The job of item `i`: its url, named with the one-based position and
      the sniffed extension, with no size cap. */
  lemma ItemJobValue(media: Json, i: nat, ts: nat, decode: Decoder, basePath: string)
    requires !Nullish(media)
    ensures var url := Get(media, "url");
      ItemJob(media, i, ts, decode, basePath)
        == Ok(Job(url, "instagram_media_" + NatToString(i + 1) + "_" + Stamp(ts) + "." + ExtName(Sniff(url, decode)), basePath, Undefined))
  {
    var ext := Sniff(Get(media, "url"), decode);
    var d := Obj(map["index" := Num(i), "ext" := Str(ext)]);
    assert InstagramIndex(d) == Num(i + 1);
    assert Show(Or(Get(d, "ext"), Str("jpg"))) == ExtName(ext);
  }

  /** With several items the menu has one entry per item, in order, each
      carrying its index and its sniffed extension, then `'all'`, then
      Cancel. */
  lemma MenuShown(raw: Json, clock: nat -> nat, decode: Decoder, basePath: string)
    requires Truthy(raw) && Truthy(Get(raw, "status"))
    requires |MediaOf(raw)| > 1 && forall i :: 0 <= i < |MediaOf(raw)| ==> !Nullish(MediaOf(raw)[i])
    ensures var media := MediaOf(raw);
      var s := InstagramStage(raw, clock, decode, basePath);
      s.Prompt? && s.next == Next(media, clock, decode, basePath)
      && |s.menu| == |media| + 2 && s.menu[|media|] == All && s.menu[|media| + 1] == CancelChoice
      && forall i :: 0 <= i < |media| ==> s.menu[i] == Entry(MenuEntry(media[i], i, decode))
  {
    var media := MediaOf(raw);
    assert InstagramStage(raw, clock, decode, basePath) == MenuStage(media, clock, decode, basePath);
    MenuStageShown(media, clock, decode, basePath);
  }

  lemma MenuStageShown(media: seq<Json>, clock: nat -> nat, decode: Decoder, basePath: string)
    requires forall i :: 0 <= i < |media| ==> !Nullish(media[i])
    ensures var s := MenuStage(media, clock, decode, basePath);
      s.Prompt? && s.next == Next(media, clock, decode, basePath)
      && |s.menu| == |media| + 2 && s.menu[|media|] == All && s.menu[|media| + 1] == CancelChoice
      && forall i :: 0 <= i < |media| ==> s.menu[i] == Entry(MenuEntry(media[i], i, decode))
  {
    var es := MenuEntries(media, decode);
    assert InstagramChoices(MenuData(media, decode)) == Ok(es + [All]);
    var s := MenuStage(media, clock, decode, basePath);
    assert s.menu == es + [All] + [CancelChoice];
  }

  /** The builder's entries, one per item. */
  function MenuEntries(media: seq<Json>, decode: Decoder): (r: seq<Choice>)
    requires forall i :: 0 <= i < |media| ==> !Nullish(media[i])
    ensures Flat(MenuData(media, decode), "media", InstagramItem) == Ok(r)
    ensures |r| == |media| && forall i :: 0 <= i < |media| ==> r[i] == Entry(MenuEntry(media[i], i, decode))
  {
    var withExt := WithExts(media, decode);
    assert List(MenuData(media, decode), "media") == Ok(withExt);
    var es := Entries(InstagramItem, withExt);
    forall i | 0 <= i < |media| ensures es.value[i] == Entry(MenuEntry(media[i], i, decode)) {
      EntryOf(media[i], i, decode);
    }
    es.value
  }

  /** The builder's entry for an item with its extension added. */
  lemma EntryOf(media: Json, i: nat, decode: Decoder)
    ensures MakeEntry(InstagramItem, WithExt(media, decode), i) == Ok(MenuEntry(media, i, decode))
  {
    var w := WithExt(media, decode);
    assert Get(w, "url") == Get(media, "url");
    assert Get(w, "thumbnail") == Get(media, "thumbnail");
    assert Get(w, "ext") == Str(Sniff(Get(media, "url"), decode));
  }

  /** `'all'` downloads every item in source order, the i-th as
      `instagram_media_<i+1>_<ts_i>.<ext_i>`, reading the clock once per
      item. */
  lemma AllDownloadsEveryItem(raw: Json, clock: nat -> nat, decode: Decoder, basePath: string)
    requires Truthy(raw) && Truthy(Get(raw, "status"))
    requires |MediaOf(raw)| > 1 && forall i :: 0 <= i < |MediaOf(raw)| ==> !Nullish(MediaOf(raw)[i])
    ensures var media := MediaOf(raw);
      CanAnswer(InstagramStage(raw, clock, decode, basePath), |media|)
      && var plan := InstagramPlan(raw, |media|, clock, decode, basePath);
      plan.Run? && !plan.thenThrows && |plan.jobs| == |media|
      && forall i :: 0 <= i < |media| ==>
           var url := Get(media[i], "url");
           plan.jobs[i] == Job(url, "instagram_media_" + NatToString(i + 1) + "_" + Stamp(clock(i)) + "."
                               + ExtName(Sniff(url, decode)), basePath, Undefined)
  {
    var media := MediaOf(raw);
    MenuShown(raw, clock, decode, basePath);
    var s := InstagramStage(raw, clock, decode, basePath);
    AnswerPrompt(s, |media|);
    var make := ItemMaker(clock, decode, basePath);
    forall i | 0 <= i < |media|
      ensures make(media[i], i).Ok?
      ensures var url := Get(media[i], "url");
        make(media[i], i).value == Job(url, "instagram_media_" + NatToString(i + 1) + "_" + Stamp(clock(i)) + "."
                                       + ExtName(Sniff(url, decode)), basePath, Undefined)
    {
      ItemJobValue(media[i], i, clock(i), decode, basePath);
    }
    BatchAllMade(media, make);
  }

  /** Picking item `i` downloads it alone, with the extension its entry
      carries and its one-based position in the name. */
  lemma PickOneItem(raw: Json, clock: nat -> nat, decode: Decoder, basePath: string, i: nat)
    requires Truthy(raw) && Truthy(Get(raw, "status"))
    requires |MediaOf(raw)| > 1 && forall j :: 0 <= j < |MediaOf(raw)| ==> !Nullish(MediaOf(raw)[j])
    requires i < |MediaOf(raw)|
    ensures CanAnswer(InstagramStage(raw, clock, decode, basePath), i)
    ensures var url := Get(MediaOf(raw)[i], "url");
      InstagramPlan(raw, i, clock, decode, basePath)
        == Run([Job(url, "instagram_media_" + NatToString(i + 1) + "_" + Stamp(clock(0)) + "." + ExtName(Sniff(url, decode)),
                    basePath, Undefined)], false)
  {
    var media := MediaOf(raw);
    MenuShown(raw, clock, decode, basePath);
    var s := InstagramStage(raw, clock, decode, basePath);
    AnswerPrompt(s, i);
    var url := Get(media[i], "url");
    assert s.menu[i].value == MenuEntry(media[i], i, decode);
    EntryJob(url, Get(media[i], "thumbnail"), i, ExtName(Sniff(url, decode)), clock(0), decode, basePath);
  }

  /** The job made from a menu entry. */
  lemma EntryJob(url: Json, thumbnail: Json, i: nat, ext: string, ts: nat, decode: Decoder, basePath: string)
    requires ext != ""
    ensures SelectedJob(Obj(map["url" := url, "thumbnail" := thumbnail, "index" := Num(i), "ext" := Str(ext)]), ts, decode, basePath)
      == Ok(Job(url, "instagram_media_" + NatToString(i + 1) + "_" + Stamp(ts) + "." + ext, basePath, Undefined))
  {
    var d := Obj(map["index" := Num(i), "ext" := Str(ext)]);
    assert InstagramIndex(d) == Num(i + 1);
  }

  /** A selection's extension is its own `ext` when truthy and the sniffed
      one otherwise. */
  lemma SelectedExtension(sel: Json, ts: nat, decode: Decoder, basePath: string)
    requires !Nullish(sel)
    ensures SelectedJob(sel, ts, decode, basePath).Ok?
    ensures var name := SelectedJob(sel, ts, decode, basePath).value.filename;
      var ext := if Truthy(Get(sel, "ext")) then Show(Get(sel, "ext")) else ExtName(Sniff(Get(sel, "url"), decode));
      name == "instagram_media_" + Show(InstagramIndex(Obj(map["index" := Get(sel, "index")]))) + "_" + Stamp(ts) + "." + ext
  {
  }

  /** A download that throws in the `'all'` loop ends the handler: later
      items are not attempted. */
  lemma BatchErrorStops(raw: Json, clock: nat -> nat, decode: Decoder, basePath: string, st: FsState, net: Net, k: nat)
    requires Truthy(raw) && Truthy(Get(raw, "status"))
    requires |MediaOf(raw)| > 1 && forall i :: 0 <= i < |MediaOf(raw)| ==> !Nullish(MediaOf(raw)[i])
    requires k < |MediaOf(raw)|
    ensures CanAnswer(InstagramStage(raw, clock, decode, basePath), |MediaOf(raw)|)
    ensures var plan := InstagramPlan(raw, |MediaOf(raw)|, clock, decode, basePath);
      plan.Run? && k < |plan.jobs|
      && (RunAll(st, plan.jobs[..k], net).1.Ok? && Fetch(RunAll(st, plan.jobs[..k], net).0, plan.jobs[k], net).1.Throw? ==>
            Perform(st, plan, net) == (Fetch(RunAll(st, plan.jobs[..k], net).0, plan.jobs[k], net).0, Crashed))
  {
    AllDownloadsEveryItem(raw, clock, decode, basePath);
    var plan := InstagramPlan(raw, |MediaOf(raw)|, clock, decode, basePath);
    if RunAll(st, plan.jobs[..k], net).1.Ok? && Fetch(RunAll(st, plan.jobs[..k], net).0, plan.jobs[k], net).1.Throw? {
      DownloadThrowEndsRun(st, plan.jobs, plan.thenThrows, net, k);
    }
  }

  /** Cancel is always the last entry, and picking it downloads nothing. */
  lemma CancelLast(raw: Json, clock: nat -> nat, decode: Decoder, basePath: string, st: FsState, net: Net)
    requires InstagramStage(raw, clock, decode, basePath).Prompt?
    ensures var s := InstagramStage(raw, clock, decode, basePath);
      |s.menu| > 0 && s.menu[|s.menu| - 1] == CancelChoice
      && Perform(st, InstagramPlan(raw, |s.menu| - 1, clock, decode, basePath), net) == (st, Cancelled)
  {
    PickCancel(InstagramStage(raw, clock, decode, basePath), st, net);
  }
}
