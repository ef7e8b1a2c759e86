/** The `pinterest` handler (routes/pinterest.js): the `success` check, the
    single-download shortcut, the quality menu, the `'all'` batch and the
    single selection. The downloads list is whatever the API sent: only its
    `length` and its elements are read before the menu is built. */
module PinterestRoute {
  import opened Wrappers
  import opened Js
  import opened Functions
  import opened Choices
  import opened Download
  import opened Routes

  function Downloads(data: Json): Json {
    Get(Get(data, "data"), "downloads")
  }

  /** The download of one media entry: `getSelectedOption('pinterest', media)`
      and `generateFilename('pinterest', { quality, ext: format.toLowerCase() })`,
      here the `Pick` and `PinterestFilename` they reduce to
      (`Functions.ExtractorFields`, `Functions.PinterestNaming`). A null
      entry, a `format` that is not a string and a `quality` that is
      truthy but not a string all throw. */
  function PinterestJob(media: Json, ts: nat, basePath: string): Result<Job> {
    if Nullish(media) then Throw
    else
      var options := Obj(Pick(media, {"url", "quality", "format"}));
      var ext :- LowerOf(Get(media, "format"));
      var name :- PinterestFilename(Obj(map["quality" := Get(media, "quality"), "ext" := Str(ext)]), ts);
      Ok(Job(Get(options, "url"), name, basePath, Undefined))
  }

  /** The loop body of `'all'`; each name reads the clock anew. */
  function PinterestMaker(clock: nat -> nat, basePath: string): (Json, nat) -> Result<Job> {
    (media: Json, i: nat) => PinterestJob(media, clock(i), basePath)
  }

  function Select(sel: Json, downloads: seq<Json>, clock: nat -> nat, basePath: string): Plan {
    if sel == Str("all") then BatchPlan(downloads, PinterestMaker(clock, basePath))
    else match PinterestJob(sel, clock(0), basePath)
      case Throw => Crash
      case Ok(job) => Run([job], false)
  }

  function Next(downloads: seq<Json>, clock: nat -> nat, basePath: string): Json -> Plan {
    sel => Select(sel, downloads, clock, basePath)
  }

  /** `data.data.title && data.data.title.trim()`: only a string has `trim`. */
  predicate TitleThrows(data: Json) {
    var title := Get(Get(data, "data"), "title");
    Truthy(title) && !title.Str?
  }

  function PinterestStage(data: Json, clock: nat -> nat, basePath: string): Stage {
    if !Truthy(data) || !Truthy(Get(data, "success")) then Stop(Fail(" Failed to fetch Pinterest media data"))
    else
      var downloads := Downloads(data);
      if !Truthy(Get(data, "data")) || !Truthy(downloads) || LengthOf(downloads) == Some(0) then
        Stop(Fail(" Invalid media data received"))
      else if TitleThrows(data) then Stop(Crash)
      else if LengthOf(downloads) == Some(1) then
        Stop(match PinterestJob(At(downloads, 0), clock(0), basePath)
             case Throw => Crash
             case Ok(job) => Run([job], false))
      else MenuStage(downloads, clock, basePath)
  }

  /** Two or more entries: the menu and the prompt. */
  function MenuStage(downloads: Json, clock: nat -> nat, basePath: string): Stage {
    match PinterestChoices(Obj(map["downloads" := downloads]))
    case Throw => Stop(Crash)
    case Ok(cs) => Prompt(cs + [CancelChoice], Next(Elements(downloads), clock, basePath))
  }

  /** `downloadPinterest(url, basePath)` with the response and the pick. */
  function PinterestPlan(data: Json, pick: nat, clock: nat -> nat, basePath: string): Plan
    requires CanAnswer(PinterestStage(data, clock, basePath), pick)
  {
    Answer(PinterestStage(data, clock, basePath), pick)
  }

  /** `downloadPinterest` step by step. */
  method DownloadPinterest(disk: Disk, data: Json, pick: nat, clock: nat -> nat, net: Net, basePath: string)
    returns (o: Outcome)
    requires CanAnswer(PinterestStage(data, clock, basePath), pick)
    modifies disk
    ensures disk.State() == Perform(old(disk.State()), PinterestPlan(data, pick, clock, basePath), net).0
    ensures o == Perform(old(disk.State()), PinterestPlan(data, pick, clock, basePath), net).1
  {
    if !Truthy(data) || !Truthy(Get(data, "success")) {
      return Failed(" Failed to fetch Pinterest media data");
    }
    var downloads := Get(Get(data, "data"), "downloads");
    if !Truthy(Get(data, "data")) || !Truthy(downloads) || LengthOf(downloads) == Some(0) {
      return Failed(" Invalid media data received");
    }
    var title := Get(Get(data, "data"), "title");
    if Truthy(title) && !title.Str? {
      return Crashed;
    }
    if LengthOf(downloads) == Some(1) {
      var job := PinterestJob(At(downloads, 0), clock(0), basePath);
      if job.Throw? {
        return Crashed;
      }
      o := DownloadOne(disk, job.value, net);
      return;
    }
    assert PinterestStage(data, clock, basePath) == MenuStage(downloads, clock, basePath);
    o := DownloadMenu(disk, downloads, pick, clock, net, basePath);
  }

  /** The rest of `downloadPinterest` for two or more entries. */
  method DownloadMenu(disk: Disk, downloads: Json, pick: nat, clock: nat -> nat, net: Net, basePath: string)
    returns (o: Outcome)
    requires CanAnswer(MenuStage(downloads, clock, basePath), pick)
    modifies disk
    ensures disk.State() == Perform(old(disk.State()), Answer(MenuStage(downloads, clock, basePath), pick), net).0
    ensures o == Perform(old(disk.State()), Answer(MenuStage(downloads, clock, basePath), pick), net).1
  {
    PinterestDispatch(Obj(map["downloads" := downloads]));
    var built := BuildDownloadChoices("pinterest", Obj(map["downloads" := downloads]));
    if built.Throw? {
      return Crashed;
    }
    var downloadChoices := built.value + [CancelChoice];
    ghost var stage := MenuStage(downloads, clock, basePath);
    assert stage == Prompt(downloadChoices, Next(Elements(downloads), clock, basePath));
    var sel := downloadChoices[pick].value;
    if sel == Str("cancel") {
      return Cancelled;
    }
    AnswerPrompt(stage, pick);
    o := DownloadSelected(disk, sel, Elements(downloads), clock, net, basePath);
  }

  /** The `'all'` loop or the one picked download. */
  method DownloadSelected(disk: Disk, sel: Json, downloads: seq<Json>, clock: nat -> nat, net: Net, basePath: string)
    returns (o: Outcome)
    modifies disk
    ensures disk.State() == Perform(old(disk.State()), Select(sel, downloads, clock, basePath), net).0
    ensures o == Perform(old(disk.State()), Select(sel, downloads, clock, basePath), net).1
  {
    if sel == Str("all") {
      o := DownloadEach(disk, downloads, PinterestMaker(clock, basePath), net);
      return;
    }
    var job := PinterestJob(sel, clock(0), basePath);
    if job.Throw? {
      return Crashed;
    }
    o := DownloadOne(disk, job.value, net);
  }

  // ---------------------------------------------------------------------
  // Properties

  /** The handler tests `success`, not `status`: a falsy `success` fails
      whatever `status` says. */
  lemma SuccessNotStatus(data: Json, clock: nat -> nat, basePath: string)
    requires !Truthy(data) || !Truthy(Get(data, "success"))
    ensures PinterestStage(data, clock, basePath) == Stop(Fail(" Failed to fetch Pinterest media data"))
  {
  }

  /** ... and `status` plays no part at all. */
  lemma StatusIgnored(fields: map<string, Json>, v: Json, clock: nat -> nat, basePath: string)
    ensures PinterestStage(Obj(fields["status" := v]), clock, basePath)
         == PinterestStage(Obj(fields - {"status"}), clock, basePath)
  {
    var a := Obj(fields["status" := v]);
    var b := Obj(fields - {"status"});
    assert Get(a, "success") == Get(b, "success");
    assert Get(a, "data") == Get(b, "data");
    assert Downloads(a) == Downloads(b);
  }

  /** No data, no downloads or an empty downloads list fails before any
      prompt. */
  lemma NoDownloadsFail(data: Json, clock: nat -> nat, basePath: string)
    requires Truthy(data) && Truthy(Get(data, "success"))
    requires !Truthy(Get(data, "data")) || Downloads(data) == Arr([])
    ensures PinterestStage(data, clock, basePath) == Stop(Fail(" Invalid media data received"))
  {
  }

  /** A truthy title that is not a string ends in `handleError`. */
  lemma NonStringTitleCrashes(data: Json, clock: nat -> nat, basePath: string)
    requires Truthy(data) && Truthy(Get(data, "success")) && Truthy(Get(data, "data"))
    requires Downloads(data).Arr? && |Downloads(data).items| > 0 && TitleThrows(data)
    ensures PinterestStage(data, clock, basePath) == Stop(Crash)
  {
  }

  /** A media entry with a string format and a string quality downloads its
      url as `pinterest_<sanitized quality>_<ts>.<lower-cased format>`,
      with `jpg` for an empty format. */
  lemma JobValue(media: Json, ts: nat, basePath: string)
    requires media.Obj? && Get(media, "format").Str? && Get(media, "quality").Str?
    ensures var q := Get(media, "quality").s;
      PinterestJob(media, ts, basePath)
        == Ok(Job(Get(media, "url"),
                  "pinterest_" + SanitizeText(if q == "" then "default" else q) + "_" + Stamp(ts) + "."
                  + ExtName(Lower(Get(media, "format").s)), basePath, Undefined))
  {
    var ext := Lower(Get(media, "format").s);
    assert LowerOf(Get(media, "format")) == Ok(ext);
    var q := Get(media, "quality");
    assert map["quality" := Get(media, "quality"), "ext" := Str(ext)] == map["quality" := Str(q.s), "ext" := Str(ext)];
    NameValue(q.s, ext, ts);
    var options := Obj(Pick(media, {"url", "quality", "format"}));
    assert Get(options, "url") == Get(media, "url");
  }

  lemma NameValue(q: string, ext: string, ts: nat)
    ensures PinterestFilename(Obj(map["quality" := Str(q), "ext" := Str(ext)]), ts)
      == Ok("pinterest_" + SanitizeText(if q == "" then "default" else q) + "_" + Stamp(ts) + "." + ExtName(ext))
  {
    var d := Obj(map["quality" := Str(q), "ext" := Str(ext)]);
    assert Get(d, "quality") == Str(q) && Get(d, "ext") == Str(ext);
  }

  /** An entry whose format is not a string cannot be downloaded:
      `format.toLowerCase()` throws. */
  lemma FormatlessThrows(media: Json, ts: nat, basePath: string)
    requires !Get(media, "format").Str?
    ensures PinterestJob(media, ts, basePath).Throw?
  {
  }

  predicate WellFormed(items: seq<Json>) {
    forall i :: 0 <= i < |items| ==> items[i].Obj? && Get(items[i], "format").Str? && Get(items[i], "quality").Str?
  }

  /** One download entry is fetched at once, with no prompt. */
  lemma SingleShortcut(data: Json, clock: nat -> nat, basePath: string)
    requires Truthy(data) && Truthy(Get(data, "success")) && Truthy(Get(data, "data")) && !TitleThrows(data)
    requires Downloads(data).Arr? && |Downloads(data).items| == 1 && WellFormed(Downloads(data).items)
    ensures PinterestStage(data, clock, basePath)
         == Stop(Run([PinterestJob(Downloads(data).items[0], clock(0), basePath).value], false))
    ensures PinterestJob(Downloads(data).items[0], clock(0), basePath).value.url == Get(Downloads(data).items[0], "url")
  {
    JobValue(Downloads(data).items[0], clock(0), basePath);
    ShortcutStage(data, clock, basePath);
  }

  lemma ShortcutStage(data: Json, clock: nat -> nat, basePath: string)
    requires Truthy(data) && Truthy(Get(data, "success")) && Truthy(Get(data, "data")) && !TitleThrows(data)
    requires Downloads(data).Arr? && |Downloads(data).items| == 1
    requires PinterestJob(Downloads(data).items[0], clock(0), basePath).Ok?
    ensures PinterestStage(data, clock, basePath)
         == Stop(Run([PinterestJob(Downloads(data).items[0], clock(0), basePath).value], false))
  {
    assert At(Downloads(data), 0) == Downloads(data).items[0];
  }

  /** With several entries the menu lists each entry itself, in order, then
      `'all'`, then Cancel. */
  lemma MenuShown(data: Json, clock: nat -> nat, basePath: string)
    requires Truthy(data) && Truthy(Get(data, "success")) && Truthy(Get(data, "data")) && !TitleThrows(data)
    requires Downloads(data).Arr? && |Downloads(data).items| > 1
    requires forall i :: 0 <= i < |Downloads(data).items| ==> !Nullish(Downloads(data).items[i])
    ensures var items := Downloads(data).items;
      var s := PinterestStage(data, clock, basePath);
      s.Prompt? && s.next == Next(items, clock, basePath)
      && s.menu == seq(|items|, i requires 0 <= i < |items| => Entry(items[i])) + [All, CancelChoice]
  {
    var items := Downloads(data).items;
    var es := Entries(WholeItem, items);
    assert es.Ok?;
    assert es.value == seq(|items|, i requires 0 <= i < |items| => Entry(items[i]));
  }

  /** A menu whose entries are an `Arr` of entries: the lemmas below take
      the response in that shape. */
  predicate Listed(data: Json) {
    Truthy(data) && Truthy(Get(data, "success")) && Truthy(Get(data, "data")) && !TitleThrows(data)
    && Downloads(data).Arr? && |Downloads(data).items| > 1 && WellFormed(Downloads(data).items)
  }

  /** `'all'` downloads every entry in order, the i-th from its own url,
      named from its own quality and format with the i-th clock reading. */
  lemma AllDownloadsEveryQuality(data: Json, clock: nat -> nat, basePath: string)
    requires Listed(data)
    ensures var items := Downloads(data).items;
      CanAnswer(PinterestStage(data, clock, basePath), |items|)
      && var plan := PinterestPlan(data, |items|, clock, basePath);
      plan.Run? && !plan.thenThrows && |plan.jobs| == |items|
      && forall i :: 0 <= i < |items| ==>
           var q := Get(items[i], "quality").s;
           plan.jobs[i] == Job(Get(items[i], "url"),
                               "pinterest_" + SanitizeText(if q == "" then "default" else q) + "_" + Stamp(clock(i)) + "."
                               + ExtName(Lower(Get(items[i], "format").s)), basePath, Undefined)
  {
    var items := Downloads(data).items;
    MenuShown(data, clock, basePath);
    var s := PinterestStage(data, clock, basePath);
    assert s.menu[|items|] == All;
    AnswerPrompt(s, |items|);
    var make := PinterestMaker(clock, basePath);
    forall i | 0 <= i < |items|
      ensures make(items[i], i) == PinterestJob(items[i], clock(i), basePath)
      ensures make(items[i], i).Ok?
    {
      JobValue(items[i], clock(i), basePath);
    }
    BatchAllMade(items, make);
    forall i | 0 <= i < |items|
      ensures var q := Get(items[i], "quality").s;
        Batch(items, make).0[i] == Job(Get(items[i], "url"),
                                       "pinterest_" + SanitizeText(if q == "" then "default" else q) + "_" + Stamp(clock(i)) + "."
                                       + ExtName(Lower(Get(items[i], "format").s)), basePath, Undefined)
    {
      JobValue(items[i], clock(i), basePath);
    }
  }

  /** An entry whose job cannot be made ends the `'all'` loop there: the
      entries before it are downloaded, then the handler fails. */
  lemma AllStopsAtBadEntry(data: Json, clock: nat -> nat, basePath: string, k: nat)
    requires Truthy(data) && Truthy(Get(data, "success")) && Truthy(Get(data, "data")) && !TitleThrows(data)
    requires Downloads(data).Arr? && |Downloads(data).items| > 1
    requires forall i :: 0 <= i < |Downloads(data).items| ==> !Nullish(Downloads(data).items[i])
    requires k < |Downloads(data).items| && PinterestJob(Downloads(data).items[k], clock(k), basePath).Throw?
    requires forall i :: 0 <= i < k ==> PinterestJob(Downloads(data).items[i], clock(i), basePath).Ok?
    ensures var items := Downloads(data).items;
      CanAnswer(PinterestStage(data, clock, basePath), |items|)
      && var plan := PinterestPlan(data, |items|, clock, basePath);
      plan.Run? && plan.thenThrows && |plan.jobs| == k
      && forall i :: 0 <= i < k ==> plan.jobs[i] == PinterestJob(items[i], clock(i), basePath).value
  {
    var items := Downloads(data).items;
    MenuShown(data, clock, basePath);
    var s := PinterestStage(data, clock, basePath);
    assert s.menu[|items|] == All;
    AnswerPrompt(s, |items|);
    BatchFirstThrow(items, PinterestMaker(clock, basePath), k);
  }

  /** Picking entry `i` downloads that entry alone, named with the first
      clock reading. */
  lemma PickOne(data: Json, clock: nat -> nat, basePath: string, i: nat)
    requires Listed(data) && i < |Downloads(data).items|
    requires Downloads(data).items[i] != Str("cancel") && Downloads(data).items[i] != Str("all")
    ensures CanAnswer(PinterestStage(data, clock, basePath), i)
    ensures var m := Downloads(data).items[i];
      var q := Get(m, "quality").s;
      PinterestPlan(data, i, clock, basePath)
        == Run([Job(Get(m, "url"), "pinterest_" + SanitizeText(if q == "" then "default" else q) + "_" + Stamp(clock(0)) + "."
                    + ExtName(Lower(Get(m, "format").s)), basePath, Undefined)], false)
  {
    var items := Downloads(data).items;
    MenuShown(data, clock, basePath);
    var s := PinterestStage(data, clock, basePath);
    assert s.menu[i] == Entry(items[i]);
    AnswerPrompt(s, i);
    JobValue(items[i], clock(0), basePath);
  }

  /** Cancel is always the last entry, and picking it downloads nothing. */
  lemma CancelLast(data: Json, clock: nat -> nat, basePath: string, st: FsState, net: Net)
    requires PinterestStage(data, clock, basePath).Prompt?
    ensures var s := PinterestStage(data, clock, basePath);
      |s.menu| > 0 && s.menu[|s.menu| - 1] == CancelChoice
      && Perform(st, PinterestPlan(data, |s.menu| - 1, clock, basePath), net) == (st, Cancelled)
  {
    PickCancel(PinterestStage(data, clock, basePath), st, net);
  }
}
