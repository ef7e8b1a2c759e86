/** The menu builder of utils/functions.js (`buildDownloadChoices`): an
    ordered list of disabled section headers and selectable entries, each
    entry carrying the value the prompt hands back. Display labels are not
    modelled, but reading an item's property for a label still throws on a
    null or undefined item. */
module Choices {
  import opened Wrappers
  import opened Js
  import opened Functions

  /** A menu line: a disabled header (its title) or a selectable entry. */
  datatype Choice = Header(title: string) | Entry(value: Json)

  /** The `'all'` sentinel entry. */
  const All: Choice := Entry(Str("all"))

  /** How a builder turns one item of a list into a choice value. */
  datatype Kind =
    | WholeItem          // applemusic, pinterest, spotify: the item itself
    | CapCutMedia
    | DouyinItem
    | FacebookItem
    | InstagramItem
    | KuaishouVideo
    | KuaishouImage
    | RedNoteVideo
    | RedNoteImage
    | TikTokUrl(tag: string, caption: string)
    | TwitterItem
    | WeiboVideo
    | WeiboImage
    | YouTubeFormat(tag: string)

  /** Does building the choice read a property of the item itself? */
  predicate ReadsItem(kind: Kind) {
    !(kind.KuaishouImage? || kind.RedNoteImage? || kind.TikTokUrl? || kind.WeiboImage?)
  }

  /** The value of the choice built from `item`, found at position `index`. */
  function MakeEntry(kind: Kind, item: Json, index: nat): (r: Result<Json>)
    ensures r.Throw? <==> ReadsItem(kind) && Nullish(item)
  {
    if ReadsItem(kind) && Nullish(item) then Throw
    else
      var i := Num(index);
      Ok(match kind
        case WholeItem => item
        case CapCutMedia =>
          Obj(map["url" := Get(item, "url"), "quality" := Get(item, "quality"), "extension" := Get(item, "extension"), "index" := i])
        case DouyinItem => Obj(map["url" := Get(item, "url"), "label" := Get(item, "label"), "index" := i])
        case FacebookItem =>
          Obj(map["url" := Get(item, "url"), "resolution" := Get(item, "resolution"), "ext" := Get(item, "ext"), "index" := i])
        case InstagramItem =>
          Obj(map["url" := Get(item, "url"), "thumbnail" := Get(item, "thumbnail"), "index" := i,
                  "ext" := Or(Get(item, "ext"), Str("jpg"))])
        case KuaishouVideo =>
          Obj(map["url" := Get(item, "url"), "type" := Str("video"), "quality" := Get(item, "quality"), "index" := i])
        case KuaishouImage => Obj(map["url" := item, "type" := Str("image"), "index" := i])
        case RedNoteVideo => Obj(map["type" := Str("video"), "data" := item, "index" := i])
        case RedNoteImage => Obj(map["type" := Str("image"), "data" := item, "index" := i])
        case TikTokUrl(tag, caption) =>
          Obj(map["url" := item, "text" := Str(caption + " " + NatToString(index + 1)), "type" := Str(tag)])
        case TwitterItem => Obj(map["url" := Get(item, "url"), "quality" := Get(item, "quality"), "index" := i])
        case WeiboVideo => Obj(map["type" := Str("video"), "url" := Get(item, "url"), "index" := i])
        case WeiboImage => Obj(map["type" := Str("image"), "url" := item, "index" := i])
        case YouTubeFormat(tag) =>
          Obj(map["url" := Get(item, "url"), "type" := Str(tag), "format" := Get(item, "format"),
                  "quality" := Get(item, "quality"), "index" := i]))
  }

  /** `items.forEach((item, index) => choices.push(...))` as a value: one
      entry per item, in order, or a throw when any item's entry throws. */
  function Entries(kind: Kind, items: seq<Json>): (r: Result<seq<Choice>>)
    ensures r.Ok? <==> forall i :: 0 <= i < |items| ==> MakeEntry(kind, items[i], i).Ok?
    ensures r.Ok? ==> (|r.value| == |items|
      && forall i :: 0 <= i < |items| ==> r.value[i] == Entry(MakeEntry(kind, items[i], i).value))
    decreases |items|
  {
    if items == [] then Ok([])
    else
      var n := |items| - 1;
      var init := Entries(kind, items[..n]);
      var last := MakeEntry(kind, items[n], n);
      assert forall i :: 0 <= i < n ==> items[..n][i] == items[i];
      if init.Throw? || last.Throw? then Throw
      else Ok(init.value + [Entry(last.value)])
  }

  /** `const { k = [] } = data` followed by `k.forEach(...)`: an absent list
      is empty; anything without `forEach` throws. */
  function List(d: Json, k: string): (r: Result<seq<Json>>)
    ensures r.Ok? <==> Get(d, k).Undefined? || Get(d, k).Arr?
  {
    var v := Get(d, k);
    if v.Undefined? then Ok([])
    else if v.Arr? then Ok(v.items)
    else Throw
  }

  /** `const { k = [] } = data` followed by `if (k.length > 0) k.forEach(...)`:
      a value whose `length` is not a positive number is never iterated;
      `null.length` throws, and so does `forEach` on a non-empty string or
      on an object with a positive numeric `length`. */
  function GuardedList(d: Json, k: string): (r: Result<seq<Json>>)
    ensures Get(d, k).Arr? ==> r == Ok(Get(d, k).items)
    ensures Get(d, k).Undefined? ==> r == Ok([])
    ensures r.Ok? && !Get(d, k).Arr? ==> r.value == []
  {
    var v := Get(d, k);
    match v
    case Undefined => Ok([])
    case Null => Throw
    case Arr(items) => Ok(items)
    case Str(s) => if s == "" then Ok([]) else Throw
    case Obj(_) => var len := Get(v, "length"); if len.Num? && len.n > 0 then Throw else Ok([])
    case _ => Ok([])
  }

  /** A section that the builder shows only when its list is non-empty. */
  function Section(title: string, kind: Kind, items: seq<Json>): Result<seq<Choice>> {
    if |items| > 0 then
      var es :- Entries(kind, items);
      Ok([Header(title)] + es)
    else Ok([])
  }

  /** The whole-list builders without headers: applemusic, capcut, douyin,
      facebook, spotify and twitter. */
  function Flat(d: Json, k: string, kind: Kind): Result<seq<Choice>> {
    var xs :- List(d, k);
    Entries(kind, xs)
  }

  function TikTokChoices(d: Json): Result<seq<Choice>> {
    var videos :- List(d, "videos");
    var audios :- List(d, "audios");
    var images :- List(d, "images");
    var vs :- Entries(TikTokUrl("video", "Video"), videos);
    var auds :- Entries(TikTokUrl("audio", "Audio"), audios);
    var imgs :- Entries(TikTokUrl("image", "Image"), images);
    Ok(vs + auds + imgs + AllImagesTail(images))
  }

  /** The entry appended after the images when there is more than one. */
  function AllImagesTail(images: seq<Json>): seq<Choice> {
    if |images| > 1 then [Entry(AllImagesValue(images))]
    else []
  }

  /** `{ urls: images, text: 'All Images', type: 'all-images' }`. */
  function AllImagesValue(images: seq<Json>): Json {
    Obj(map["urls" := Arr(images), "text" := Str("All Images"), "type" := Str("all-images")])
  }

  /** instagram: one entry per media item, then the `'all'` sentinel. */
  function InstagramChoices(d: Json): Result<seq<Choice>> {
    var es :- Flat(d, "media", InstagramItem);
    Ok(es + [All])
  }

  /** pinterest: each download option itself, then the `'all'` sentinel. */
  function PinterestChoices(d: Json): Result<seq<Choice>> {
    var es :- Flat(d, "downloads", WholeItem);
    Ok(es + [All])
  }

  /** kuaishou and rednote: a Videos section and an Images section, each only
      when non-empty, then the `'all'` sentinel. */
  function MediaChoices(d: Json, video: Kind, image: Kind): Result<seq<Choice>> {
    var videos :- GuardedList(d, "videos");
    var images :- GuardedList(d, "images");
    var vs :- Section(" Videos", video, videos);
    var imgs :- Section(" Images", image, images);
    Ok(vs + imgs + [All])
  }

  /** `const { hasVideo = true } = data`. */
  predicate WeiboHasVideo(d: Json) {
    var h := Get(d, "hasVideo");
    h.Undefined? || Truthy(h)
  }

  function WeiboChoices(d: Json): Result<seq<Choice>> {
    var vs :- if WeiboHasVideo(d) then
                var videos :- List(d, "videos");
                var es :- Entries(WeiboVideo, videos);
                Ok([Header(" Video")] + es)
              else Ok([]);
    var images :- GuardedList(d, "images");
    var imgs :- Section(" Images", WeiboImage, images);
    Ok(vs + imgs + [All])
  }

  function YouTubeChoices(d: Json): Result<seq<Choice>> {
    var withAudio :- GuardedList(d, "videoWithAudio");
    var videoOnly :- GuardedList(d, "videoOnly");
    var audioOnly :- GuardedList(d, "audioOnly");
    var a :- Section(" Video with Audio", YouTubeFormat("video"), withAudio);
    var b :- Section(" Video Only (no audio)", YouTubeFormat("video"), videoOnly);
    var c :- Section(" Audio Only", YouTubeFormat("audio"), audioOnly);
    Ok(a + b + c)
  }

  /** The builder of a known platform, for data that is not null. */
  function PlatformChoices(p: string, d: Json): Result<seq<Choice>>
    requires KnownPlatform(p) && !d.Null?
  {
    if p == "applemusic" then Flat(d, "downloads", WholeItem)
    else if p == "bluesky" || p == "threads" then Ok([])
    else if p == "capcut" then Flat(d, "medias", CapCutMedia)
    else if p == "douyin" then Flat(d, "downloads", DouyinItem)
    else if p == "facebook" then Flat(d, "downloads", FacebookItem)
    else if p == "instagram" then InstagramChoices(d)
    else if p == "kuaishou" then MediaChoices(d, KuaishouVideo, KuaishouImage)
    else if p == "pinterest" then PinterestChoices(d)
    else if p == "rednote" then MediaChoices(d, RedNoteVideo, RedNoteImage)
    else if p == "spotify" then Flat(d, "downloads", WholeItem)
    else if p == "tiktok" then TikTokChoices(d)
    else if p == "twitter" then Flat(d, "media", TwitterItem)
    else if p == "weibo" then WeiboChoices(d)
    else YouTubeChoices(d)
  }

  /** `buildDownloadChoices(platform, data)` as a value. `data` defaults to
      `{}`; destructuring a null `data` throws (bluesky and threads do not
      destructure it). The inherited `__proto__` is found by the lookup and
      cannot be called; the inherited `constructor` yields `{}`, which is no
      menu and is a Throw here too. */
  function Choices(platform: string, data: Json): (r: Result<seq<Choice>>)
    ensures !KnownPlatform(Lower(platform)) && !InheritedKey(Lower(platform)) ==> r == Ok([])
    ensures Lower(platform) == "__proto__" ==> r.Throw?
  {
    var p := Lower(platform);
    if InheritedKey(p) then Throw
    else if !KnownPlatform(p) then Ok([])
    else if p == "bluesky" || p == "threads" then Ok([])
    else if data.Null? then Throw
    else PlatformChoices(p, if data.Undefined? then Obj(map[]) else data)
  }

  // =====================================================================
  // Properties of the menus

  /** The builders the handlers reach, by name. */
  lemma TikTokDispatch(d: Json)
    requires d.Obj?
    ensures Choices("tiktok", d) == TikTokChoices(d)
  {
    KnownLower("tiktok");
  }

  lemma InstagramDispatch(d: Json)
    requires d.Obj?
    ensures Choices("instagram", d) == InstagramChoices(d)
  {
    KnownLower("instagram");
  }

  lemma PinterestDispatch(d: Json)
    requires d.Obj?
    ensures Choices("pinterest", d) == PinterestChoices(d)
  {
    KnownLower("pinterest");
  }

  lemma KuaishouDispatch(d: Json)
    requires d.Obj?
    ensures Choices("kuaishou", d) == MediaChoices(d, KuaishouVideo, KuaishouImage)
  {
    KnownLower("kuaishou");
  }

  lemma YouTubeDispatch(d: Json)
    requires d.Obj?
    ensures Choices("youtube", d) == YouTubeChoices(d)
  {
    KnownLower("youtube");
  }

  lemma TikTokChoicesValue(d: Json)
    requires List(d, "videos").Ok? && List(d, "audios").Ok? && List(d, "images").Ok?
    ensures var v, a, im := List(d, "videos").value, List(d, "audios").value, List(d, "images").value;
      TikTokChoices(d) == Ok(Entries(TikTokUrl("video", "Video"), v).value + Entries(TikTokUrl("audio", "Audio"), a).value
                             + Entries(TikTokUrl("image", "Image"), im).value + AllImagesTail(im))
  {
  }

  /** The tiktok menu: every video, then every audio, then every image, each
      in source order and numbered from 1, and one `all-images` entry at the
      end exactly when there is more than one image. It never throws on the
      items themselves. */
  lemma TikTokMenuOrder(d: Json, v: seq<Json>, a: seq<Json>, im: seq<Json>)
    requires List(d, "videos") == Ok(v) && List(d, "audios") == Ok(a) && List(d, "images") == Ok(im)
    ensures TikTokChoices(d) == Ok(TikTokMenu(v, a, im))
    ensures var r := TikTokMenu(v, a, im);
      |r| == |v| + |a| + |im| + (if |im| > 1 then 1 else 0)
      && (forall i :: 0 <= i < |v| ==> r[i] == Entry(MakeEntry(TikTokUrl("video", "Video"), v[i], i).value))
      && (forall i :: 0 <= i < |a| ==> r[|v| + i] == Entry(MakeEntry(TikTokUrl("audio", "Audio"), a[i], i).value))
      && (forall i :: 0 <= i < |im| ==> r[|v| + |a| + i] == Entry(MakeEntry(TikTokUrl("image", "Image"), im[i], i).value))
      && (|im| > 1 ==> r[|r| - 1] == AllImagesTail(im)[0])
  {
    TikTokChoicesValue(d);
    TikTokMenuLayout(v, a, im);
  }

  /** The tiktok menu of three lists whose items all make entries. */
  function TikTokMenu(v: seq<Json>, a: seq<Json>, im: seq<Json>): seq<Choice> {
    Entries(TikTokUrl("video", "Video"), v).value + Entries(TikTokUrl("audio", "Audio"), a).value
    + Entries(TikTokUrl("image", "Image"), im).value + AllImagesTail(im)
  }

  lemma {:induction false} TikTokMenuLayout(v: seq<Json>, a: seq<Json>, im: seq<Json>)
    ensures var r := TikTokMenu(v, a, im);
      |r| == |v| + |a| + |im| + (if |im| > 1 then 1 else 0)
      && (forall i :: 0 <= i < |v| ==> r[i] == Entry(MakeEntry(TikTokUrl("video", "Video"), v[i], i).value))
      && (forall i :: 0 <= i < |a| ==> r[|v| + i] == Entry(MakeEntry(TikTokUrl("audio", "Audio"), a[i], i).value))
      && (forall i :: 0 <= i < |im| ==> r[|v| + |a| + i] == Entry(MakeEntry(TikTokUrl("image", "Image"), im[i], i).value))
      && (|im| > 1 ==> r[|r| - 1] == AllImagesTail(im)[0])
  {
    var ev := Entries(TikTokUrl("video", "Video"), v).value;
    var ea := Entries(TikTokUrl("audio", "Audio"), a).value;
    var ei := Entries(TikTokUrl("image", "Image"), im).value;
    ConcatIndex(ev, ea, ei, AllImagesTail(im));
  }

  lemma ConcatIndex(x: seq<Choice>, y: seq<Choice>, z: seq<Choice>, t: seq<Choice>)
    ensures var r := x + y + z + t;
      |r| == |x| + |y| + |z| + |t|
      && (forall i :: 0 <= i < |x| ==> r[i] == x[i])
      && (forall i :: 0 <= i < |y| ==> r[|x| + i] == y[i])
      && (forall i :: 0 <= i < |z| ==> r[|x| + |y| + i] == z[i])
      && (|t| > 0 ==> r[|r| - 1] == t[|t| - 1])
  {
  }

  /** A section holds its own header, first, exactly when its list is
      non-empty, and no other header. */
  lemma SectionHeaders(title: string, kind: Kind, items: seq<Json>)
    requires Section(title, kind, items).Ok?
    ensures var s := Section(title, kind, items).value;
      (Header(title) in s <==> |items| > 0)
      && (|items| > 0 ==> s[0] == Header(title))
      && (forall k :: 0 <= k < |s| && s[k].Header? ==> s[k] == Header(title))
  {
    if |items| > 0 {
      var s := Section(title, kind, items).value;
      var es := Entries(kind, items).value;
      assert s == [Header(title)] + es;
      forall k | 1 <= k < |s| ensures s[k].Entry? {
        assert s[k] == es[k - 1];
      }
    }
  }

  /** Every entry of a youtube section carries an object, so none is the
      `'all'` sentinel. */
  lemma YouTubeSectionHasNoAll(title: string, tag: string, items: seq<Json>)
    requires Section(title, YouTubeFormat(tag), items).Ok?
    ensures All !in Section(title, YouTubeFormat(tag), items).value
  {
    if |items| > 0 {
      var s := Section(title, YouTubeFormat(tag), items).value;
      var es := Entries(YouTubeFormat(tag), items).value;
      assert s == [Header(title)] + es;
      forall k | 0 <= k < |s| ensures s[k] != All {
        if k > 0 {
          assert s[k] == es[k - 1];
        }
      }
    }
  }

  lemma YouTubeChoicesValue(d: Json)
    requires YouTubeChoices(d).Ok?
    ensures var wa, vo, ao := GuardedList(d, "videoWithAudio").value, GuardedList(d, "videoOnly").value, GuardedList(d, "audioOnly").value;
      Section(" Video with Audio", YouTubeFormat("video"), wa).Ok?
      && Section(" Video Only (no audio)", YouTubeFormat("video"), vo).Ok?
      && Section(" Audio Only", YouTubeFormat("audio"), ao).Ok?
      && YouTubeChoices(d).value == Section(" Video with Audio", YouTubeFormat("video"), wa).value
         + Section(" Video Only (no audio)", YouTubeFormat("video"), vo).value
         + Section(" Audio Only", YouTubeFormat("audio"), ao).value
  {
  }

  /** The headers of three sections put together are those of each. */
  lemma HeadersOfThree(a: seq<Choice>, b: seq<Choice>, c: seq<Choice>, ta: string, tb: string, tc: string)
    requires forall k :: 0 <= k < |a| && a[k].Header? ==> a[k] == Header(ta)
    requires forall k :: 0 <= k < |b| && b[k].Header? ==> b[k] == Header(tb)
    requires forall k :: 0 <= k < |c| && c[k].Header? ==> c[k] == Header(tc)
    ensures forall k :: 0 <= k < |a + b + c| && (a + b + c)[k].Header? ==> (a + b + c)[k] in {Header(ta), Header(tb), Header(tc)}
  {
    var r := a + b + c;
    forall k | 0 <= k < |r| && r[k].Header? ensures r[k] in {Header(ta), Header(tb), Header(tc)} {
      if k < |a| {
        assert r[k] == a[k];
      } else if k < |a| + |b| {
        assert r[k] == b[k - |a|];
      } else {
        assert r[k] == c[k - |a| - |b|];
      }
    }
  }

  /** The youtube menu shows a header only for a non-empty bucket, in the
      order with-audio, video-only, audio-only, and has no `'all'` entry. */
  lemma {:induction false} YouTubeMenuHeaders(d: Json)
    requires YouTubeChoices(d).Ok?
    ensures var r := YouTubeChoices(d).value;
      var wa, vo, ao := GuardedList(d, "videoWithAudio").value, GuardedList(d, "videoOnly").value, GuardedList(d, "audioOnly").value;
      (Header(" Video with Audio") in r <==> |wa| > 0)
      && (Header(" Video Only (no audio)") in r <==> |vo| > 0)
      && (Header(" Audio Only") in r <==> |ao| > 0)
      && (|wa| > 0 ==> r[0] == Header(" Video with Audio"))
      && (|wa| == 0 && |vo| > 0 ==> r[0] == Header(" Video Only (no audio)"))
      && (|wa| > 0 && |vo| > 0 ==> r[1 + |wa|] == Header(" Video Only (no audio)"))
      && (|ao| > 0 ==> r[|r| - |ao| - 1] == Header(" Audio Only"))
      && (forall k :: 0 <= k < |r| && r[k].Header? ==>
            r[k] in {Header(" Video with Audio"), Header(" Video Only (no audio)"), Header(" Audio Only")})
      && All !in r
  {
    var wa, vo, ao := GuardedList(d, "videoWithAudio").value, GuardedList(d, "videoOnly").value, GuardedList(d, "audioOnly").value;
    YouTubeChoicesValue(d);
    YouTubeSectionShape(" Video with Audio", "video", wa);
    YouTubeSectionShape(" Video Only (no audio)", "video", vo);
    YouTubeSectionShape(" Audio Only", "audio", ao);
    ThreeSections(Section(" Video with Audio", YouTubeFormat("video"), wa).value,
                  Section(" Video Only (no audio)", YouTubeFormat("video"), vo).value,
                  Section(" Audio Only", YouTubeFormat("audio"), ao).value,
                  " Video with Audio", " Video Only (no audio)", " Audio Only", |wa|, |vo|, |ao|);
  }

  /** A section of `n` items titled `t`: empty when `n` is 0, otherwise its
      header and one entry per item, with no other header and no `'all'`. */
  predicate SectionShape(s: seq<Choice>, t: string, n: nat) {
    |s| == (if n == 0 then 0 else n + 1)
    && (n > 0 ==> s[0] == Header(t))
    && (forall k :: 0 <= k < |s| && s[k].Header? ==> s[k] == Header(t))
    && All !in s
  }

  lemma YouTubeSectionShape(title: string, tag: string, items: seq<Json>)
    requires Section(title, YouTubeFormat(tag), items).Ok?
    ensures SectionShape(Section(title, YouTubeFormat(tag), items).value, title, |items|)
  {
    SectionHeaders(title, YouTubeFormat(tag), items);
    YouTubeSectionHasNoAll(title, tag, items);
  }

  /** Three sections with distinct titles, put together. */
  lemma ThreeSections(a: seq<Choice>, b: seq<Choice>, c: seq<Choice>, ta: string, tb: string, tc: string, na: nat, nb: nat, nc: nat)
    requires ta != tb && ta != tc && tb != tc
    requires SectionShape(a, ta, na) && SectionShape(b, tb, nb) && SectionShape(c, tc, nc)
    ensures var r := a + b + c;
      (Header(ta) in r <==> na > 0)
      && (Header(tb) in r <==> nb > 0)
      && (Header(tc) in r <==> nc > 0)
      && (na > 0 ==> r[0] == Header(ta))
      && (na == 0 && nb > 0 ==> r[0] == Header(tb))
      && (na > 0 && nb > 0 ==> r[1 + na] == Header(tb))
      && (nc > 0 ==> r[|r| - nc - 1] == Header(tc))
      && (forall k :: 0 <= k < |r| && r[k].Header? ==> r[k] in {Header(ta), Header(tb), Header(tc)})
      && All !in r
  {
    var r := a + b + c;
    HeadersOfThree(a, b, c, ta, tb, tc);
    assert Header(ta) in r <==> na > 0 by {
      if na > 0 { assert r[0] == a[0]; }
      else { assert Header(ta) !in b && Header(ta) !in c; }
    }
    assert Header(tb) in r <==> nb > 0 by {
      if nb > 0 { assert r[|a|] == b[0]; }
      else { assert Header(tb) !in a && Header(tb) !in c; }
    }
    assert Header(tc) in r <==> nc > 0 by {
      if nc > 0 { assert r[|a| + |b|] == c[0]; }
      else { assert Header(tc) !in a && Header(tc) !in b; }
    }
    if na > 0 {
      assert r[0] == a[0];
      if nb > 0 {
        assert r[1 + na] == b[0];
      }
    } else if nb > 0 {
      assert r[0] == b[0];
    }
    if nc > 0 {
      assert r[|r| - nc - 1] == c[0];
    }
  }

  /** weibo shows its Video header first whenever `hasVideo` holds
      (by default it does), even with no videos, and ends with `'all'`. */
  lemma WeiboMenuShape(d: Json)
    requires WeiboChoices(d).Ok?
    ensures var r := WeiboChoices(d).value;
      |r| >= 1 && r[|r| - 1] == All
      && (WeiboHasVideo(d) ==> r[0] == Header(" Video"))
  {
  }

  /** The instagram, kuaishou, pinterest, rednote and weibo menus always
      end with the `'all'` sentinel. */
  lemma AllSentinelLast(platform: string, data: Json)
    requires Lower(platform) in {"instagram", "kuaishou", "pinterest", "rednote", "weibo"}
    requires Choices(platform, data).Ok?
    ensures var r := Choices(platform, data).value;
      |r| >= 1 && r[|r| - 1] == All
  {
  }

  // =====================================================================
  // The builder as the source writes it: pushes onto one shared array.

  /** `choices` followed by what a builder step pushes, or its throw. */
  function After(choices: seq<Choice>, pushed: Result<seq<Choice>>): Result<seq<Choice>> {
    if pushed.Throw? then Throw else Ok(choices + pushed.value)
  }

  lemma AfterNothing(pushed: Result<seq<Choice>>)
    ensures After([], pushed) == pushed
  {
    if pushed.Ok? {
      assert [] + pushed.value == pushed.value;
    }
  }

  /** One `forEach` pushing an entry per item onto `choices`. */
  method PushEntries(choices: seq<Choice>, kind: Kind, items: seq<Json>) returns (r: Result<seq<Choice>>)
    ensures r == After(choices, Entries(kind, items))
  {
    var acc := choices;
    var i := 0;
    while i < |items|
      invariant 0 <= i <= |items|
      invariant Entries(kind, items[..i]).Ok?
      invariant acc == choices + Entries(kind, items[..i]).value
    {
      var e := MakeEntry(kind, items[i], i);
      EntriesSnoc(kind, items, i);
      if e.Throw? {
        PrefixThrows(kind, items, i + 1);
        return Throw;
      }
      Assoc(choices, Entries(kind, items[..i]).value, [Entry(e.value)]);
      acc := acc + [Entry(e.value)];
      i := i + 1;
    }
    assert items[..i] == items;
    return Ok(acc);
  }

  /** One more item at the end of a prefix. */
  lemma EntriesSnoc(kind: Kind, items: seq<Json>, i: nat)
    requires i < |items|
    ensures Entries(kind, items[..i + 1])
      == if Entries(kind, items[..i]).Throw? || MakeEntry(kind, items[i], i).Throw? then Throw
         else Ok(Entries(kind, items[..i]).value + [Entry(MakeEntry(kind, items[i], i).value)])
  {
    assert items[..i + 1][..i] == items[..i];
  }

  /** Once a prefix of the list throws, the whole list does. */
  lemma PrefixThrows(kind: Kind, items: seq<Json>, n: nat)
    requires n <= |items| && Entries(kind, items[..n]).Throw?
    ensures Entries(kind, items).Throw?
  {
    var i :| 0 <= i < n && MakeEntry(kind, items[..n][i], i).Throw?;
    assert items[..n][i] == items[i];
  }

  /** A section pushed only when its list is non-empty. */
  method PushSection(choices: seq<Choice>, title: string, kind: Kind, items: seq<Json>) returns (r: Result<seq<Choice>>)
    ensures r == After(choices, Section(title, kind, items))
  {
    if |items| > 0 {
      r := PushEntries(choices + [Header(title)], kind, items);
      if r.Ok? {
        assert choices + [Header(title)] + Entries(kind, items).value == choices + ([Header(title)] + Entries(kind, items).value);
      }
    } else {
      r := Ok(choices);
      assert choices + [] == choices;
    }
  }

  method BuildTikTok(d: Json) returns (r: Result<seq<Choice>>)
    ensures r == TikTokChoices(d)
  {
    var videos := List(d, "videos");
    var audios := List(d, "audios");
    var images := List(d, "images");
    if videos.Throw? || audios.Throw? || images.Throw? {
      return Throw;
    }
    r := PushEntries([], TikTokUrl("video", "Video"), videos.value);
    AfterNothing(Entries(TikTokUrl("video", "Video"), videos.value));
    if r.Throw? { return; }
    r := PushEntries(r.value, TikTokUrl("audio", "Audio"), audios.value);
    if r.Throw? { return; }
    r := PushEntries(r.value, TikTokUrl("image", "Image"), images.value);
    if r.Throw? { return; }
    if |images.value| > 1 {
      r := Ok(r.value + [Entry(AllImagesValue(images.value))]);
    } else {
      assert r.value + [] == r.value;
    }
  }

  method BuildMedia(d: Json, video: Kind, image: Kind) returns (r: Result<seq<Choice>>)
    ensures r == MediaChoices(d, video, image)
  {
    var videos := GuardedList(d, "videos");
    var images := GuardedList(d, "images");
    if videos.Throw? || images.Throw? {
      return Throw;
    }
    ghost var first := Section(" Videos", video, videos.value);
    ghost var second := Section(" Images", image, images.value);
    assert MediaChoices(d, video, image) == if first.Throw? || second.Throw? then Throw else Ok(first.value + second.value + [All]);
    r := PushSection([], " Videos", video, videos.value);
    AfterNothing(first);
    if r.Throw? { return; }
    r := PushSection(r.value, " Images", image, images.value);
    if r.Throw? { return; }
    assert r.value == first.value + second.value;
    r := Ok(r.value + [All]);
  }

  method BuildWeibo(d: Json) returns (r: Result<seq<Choice>>)
    ensures r == WeiboChoices(d)
  {
    r := Ok([]);
    if WeiboHasVideo(d) {
      var videos := List(d, "videos");
      if videos.Throw? {
        return Throw;
      }
      r := PushEntries([Header(" Video")], WeiboVideo, videos.value);
      if r.Throw? { return; }
    }
    var images := GuardedList(d, "images");
    if images.Throw? {
      return Throw;
    }
    r := PushSection(r.value, " Images", WeiboImage, images.value);
    if r.Throw? { return; }
    r := Ok(r.value + [All]);
  }

  method BuildYouTube(d: Json) returns (r: Result<seq<Choice>>)
    ensures r == YouTubeChoices(d)
  {
    var withAudio := GuardedList(d, "videoWithAudio");
    var videoOnly := GuardedList(d, "videoOnly");
    var audioOnly := GuardedList(d, "audioOnly");
    if withAudio.Throw? || videoOnly.Throw? || audioOnly.Throw? {
      return Throw;
    }
    r := PushSection([], " Video with Audio", YouTubeFormat("video"), withAudio.value);
    AfterNothing(Section(" Video with Audio", YouTubeFormat("video"), withAudio.value));
    if r.Throw? { return; }
    r := PushSection(r.value, " Video Only (no audio)", YouTubeFormat("video"), videoOnly.value);
    if r.Throw? { return; }
    r := PushSection(r.value, " Audio Only", YouTubeFormat("audio"), audioOnly.value);
  }

  /** The builders that push one entry per item of a single list. */
  method BuildFlat(d: Json, k: string, kind: Kind) returns (r: Result<seq<Choice>>)
    ensures r == Flat(d, k, kind)
  {
    var xs := List(d, k);
    if xs.Throw? {
      return Throw;
    }
    r := PushEntries([], kind, xs.value);
    AfterNothing(Entries(kind, xs.value));
  }

  /** `buildDownloadChoices(platform, data)`, computed as the source does it. */
  method BuildDownloadChoices(platform: string, data: Json) returns (r: Result<seq<Choice>>)
    ensures r == Choices(platform, data)
  {
    var p := Lower(platform);
    if InheritedKey(p) {
      return Throw;
    }
    if !KnownPlatform(p) || p == "bluesky" || p == "threads" {
      return Ok([]);
    }
    if data.Null? {
      return Throw;
    }
    var d := if data.Undefined? then Obj(map[]) else data;
    if p == "tiktok" {
      r := BuildTikTok(d);
    } else if p == "kuaishou" {
      r := BuildMedia(d, KuaishouVideo, KuaishouImage);
    } else if p == "rednote" {
      r := BuildMedia(d, RedNoteVideo, RedNoteImage);
    } else if p == "weibo" {
      r := BuildWeibo(d);
    } else if p == "youtube" {
      r := BuildYouTube(d);
    } else if p == "instagram" || p == "pinterest" {
      r := BuildFlat(d, if p == "instagram" then "media" else "downloads", if p == "instagram" then InstagramItem else WholeItem);
      if r.Ok? {
        r := Ok(r.value + [All]);
      }
    } else if p == "applemusic" || p == "spotify" {
      r := BuildFlat(d, "downloads", WholeItem);
    } else if p == "capcut" {
      r := BuildFlat(d, "medias", CapCutMedia);
    } else if p == "douyin" {
      r := BuildFlat(d, "downloads", DouyinItem);
    } else if p == "facebook" {
      r := BuildFlat(d, "downloads", FacebookItem);
    } else {
      r := BuildFlat(d, "media", TwitterItem);
    }
  }
}
