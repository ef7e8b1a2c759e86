/** The normalizer: one mapping per platform from a provider's untyped
    response data to a canonical record, selected by an explicit source tag
    (utils/normalizer.js). Every bucket of a canonical record is a list,
    never absent, and every optional scalar is a value or `null`. */
module Normalizer {
  import opened Wrappers
  import opened Js

  /** Which provider shape the data has. Callers pass a tag string; only the
      exact tag "v1" selects the v1 mapping, anything else the primary one. */
  datatype Source = Primary | V1

  function SourceOf(tag: string): (s: Source)
    ensures s == V1 <==> tag == "v1"
  {
    if tag == "v1" then V1 else Primary
  }

  // =====================================================================
  // TikTok

  datatype TikTokData = TikTokData(
    title: Json, thumbnail: Json, author: Json,
    video: seq<Json>, audio: seq<Json>, image: seq<Json>,
    audioTitle: Json)

  /** The image-extension markers, looked for in the lower-cased url. */
  predicate IsImageUrl(url: string) {
    var l := Lower(url);
    Contains(l, ".jpeg") || Contains(l, ".jpg") || Contains(l, ".png") || Contains(l, ".webp")
  }

  /** An entry of `downloads.video` that belongs in the image bucket: only
      strings are inspected; every other value stays a video. */
  predicate IsImageEntry(v: Json) {
    v.Str? && IsImageUrl(v.s)
  }

  /** The entries that stay in the video bucket, in source order. */
  function VideoEntries(xs: seq<Json>): seq<Json>
    decreases |xs|
  {
    if xs == [] then []
    else
      var last := xs[|xs| - 1];
      VideoEntries(xs[..|xs| - 1]) + (if IsImageEntry(last) then [] else [last])
  }

  /** The entries moved to the image bucket, in source order. */
  function ImageEntries(xs: seq<Json>): seq<Json>
    decreases |xs|
  {
    if xs == [] then []
    else
      var last := xs[|xs| - 1];
      ImageEntries(xs[..|xs| - 1]) + (if IsImageEntry(last) then [last] else [])
  }

  /** The classification loop of the primary mapping: each entry of
      `downloads.video` is pushed onto the image or the video bucket. */
  method SplitVideoField(videos: seq<Json>) returns (video: seq<Json>, image: seq<Json>)
    ensures video == VideoEntries(videos)
    ensures image == ImageEntries(videos)
  {
    video, image := [], [];
    var i := 0;
    while i < |videos|
      invariant 0 <= i <= |videos|
      invariant video == VideoEntries(videos[..i])
      invariant image == ImageEntries(videos[..i])
    {
      var url := videos[i];
      assert videos[..i + 1][..i] == videos[..i];
      if url.Str? {
        var lowerUrl := Lower(url.s);
        if Contains(lowerUrl, ".jpeg") || Contains(lowerUrl, ".jpg") || Contains(lowerUrl, ".png") || Contains(lowerUrl, ".webp") {
          image := image + [url];
        } else {
          video := video + [url];
        }
      } else {
        video := video + [url];
      }
      i := i + 1;
    }
    assert videos[..i] == videos;
  }

  /** Every entry lands in exactly one bucket: the two buckets together are
      a rearrangement of the field, and each bucket holds only its kind. */
  lemma {:induction false} SplitIsPartition(xs: seq<Json>)
    ensures |VideoEntries(xs)| + |ImageEntries(xs)| == |xs|
    ensures multiset(VideoEntries(xs)) + multiset(ImageEntries(xs)) == multiset(xs)
    ensures forall v :: v in ImageEntries(xs) ==> IsImageEntry(v)
    ensures forall v :: v in VideoEntries(xs) ==> !IsImageEntry(v)
    decreases |xs|
  {
    if xs != [] {
      var init := xs[..|xs| - 1];
      SplitIsPartition(init);
      assert xs == init + [xs[|xs| - 1]];
    }
  }

  /** Classification preserves relative order: the buckets of a
      concatenation are the concatenations of the buckets. */
  lemma {:induction false} SplitPreservesOrder(a: seq<Json>, b: seq<Json>)
    ensures VideoEntries(a + b) == VideoEntries(a) + VideoEntries(b)
    ensures ImageEntries(a + b) == ImageEntries(a) + ImageEntries(b)
    decreases |b|
  {
    if b == [] {
      assert a + b == a;
    } else {
      var init, last := b[..|b| - 1], b[|b| - 1];
      assert (a + b)[..|a + b| - 1] == a + init;
      assert (a + b)[|a + b| - 1] == last;
      SplitPreservesOrder(a, init);
      Assoc(VideoEntries(a), VideoEntries(init), if IsImageEntry(last) then [] else [last]);
      Assoc(ImageEntries(a), ImageEntries(init), if IsImageEntry(last) then [last] else []);
    }
  }

  /** A one-entry field goes to exactly one bucket. */
  lemma SplitSingle(v: Json)
    ensures VideoEntries([v]) == (if IsImageEntry(v) then [] else [v])
    ensures ImageEntries([v]) == (if IsImageEntry(v) then [v] else [])
  {
    assert [v][..0] == [];
  }

  /** The three buckets of the primary shape, before the scalar fields. */
  function TikTokPrimaryBuckets(data: Json): (seq<Json>, seq<Json>, seq<Json>) {
    var d := Get(data, "downloads");
    if d.Arr? then (d.items, [], [])
    else if d.Obj? then
      var vs := if Truthy(Get(d, "video")) then Wrap(Get(d, "video")) else [];
      var image := if Truthy(Get(d, "image")) then Wrap(Get(d, "image")) else ImageEntries(vs);
      (VideoEntries(vs), ListOrEmpty(Get(d, "audio")), image)
    else if Truthy(Get(data, "video")) then (Wrap(Get(data, "video")), [], [])
    else ([], [], [])
  }

  /** `normalizeTikTok(data, source)`. Throws only when `data` itself is
      null or undefined (its `title` is read first). */
  function NormalizeTikTok(data: Json, source: Source): (r: Result<TikTokData>)
    ensures r.Ok? <==> !Nullish(data)
    ensures r.Ok? ==> !r.value.title.Undefined? && !r.value.thumbnail.Undefined?
                      && !r.value.author.Undefined? && !r.value.audioTitle.Undefined?
    ensures r.Ok? ==> (Truthy(Get(data, "title")) ==> r.value.title == Get(data, "title"))
                      && (!Truthy(Get(data, "title")) ==> r.value.title == Null)
  {
    if Nullish(data) then Throw
    else if source == V1 then
      Ok(TikTokData(
        OrNull(Get(data, "title")), OrNull(Get(data, "thumbnail")), OrNull(Get(data, "author")),
        ListOrEmpty(Get(data, "video")), ListOrEmpty(Get(data, "audio")), ListOrEmpty(Get(data, "image")),
        OrNull(Get(data, "title_audio"))))
    else
      var (video, audio, image) := TikTokPrimaryBuckets(data);
      Ok(TikTokData(
        OrNull(Get(data, "title")), OrNull(Get(data, "thumbnail")), OrNull(Get(data, "author")),
        video, audio, image,
        Or(Get(data, "title_audio"), OrNull(Get(Get(data, "metadata"), "audio_title")))))
  }

  /** v1 shape: each bucket is the raw field when that field is an array and
      empty otherwise; the audio title comes from `title_audio` alone. */
  lemma TikTokV1Buckets(data: Json)
    requires !Nullish(data)
    ensures var t := NormalizeTikTok(data, V1).value;
      (Get(data, "video").Arr? ==> t.video == Get(data, "video").items)
      && (!Get(data, "video").Arr? ==> t.video == [])
      && (Get(data, "audio").Arr? ==> t.audio == Get(data, "audio").items)
      && (!Get(data, "audio").Arr? ==> t.audio == [])
      && (Get(data, "image").Arr? ==> t.image == Get(data, "image").items)
      && (!Get(data, "image").Arr? ==> t.image == [])
      && (Truthy(t.audioTitle) <==> Truthy(Get(data, "title_audio")))
  {
  }

  /** Primary shape with a `downloads` object: the video field is classified
      into video and image entries, order kept; a present `downloads.image`
      REPLACES the image bucket (wrapped if it is a lone value), so entries
      reclassified from `video` are then dropped. */
  lemma TikTokPrimaryClassifies(data: Json)
    requires !Nullish(data) && Get(data, "downloads").Obj?
    ensures var d := Get(data, "downloads");
      var vs := if Truthy(Get(d, "video")) then Wrap(Get(d, "video")) else [];
      var t := NormalizeTikTok(data, Primary).value;
      t.video == VideoEntries(vs)
      && (forall v :: v in t.video ==> !IsImageEntry(v))
      && (Truthy(Get(d, "image")) ==> t.image == Wrap(Get(d, "image")))
      && (!Truthy(Get(d, "image")) ==> t.image == ImageEntries(vs))
      && (Get(d, "audio").Arr? ==> t.audio == Get(d, "audio").items)
      && (!Get(d, "audio").Arr? ==> t.audio == [])
  {
    var d := Get(data, "downloads");
    var vs := if Truthy(Get(d, "video")) then Wrap(Get(d, "video")) else [];
    SplitIsPartition(vs);
  }

  /** Primary shape without a `downloads` object: an array `downloads` is all
      video; otherwise a top-level `video` is wrapped into a list. Audio and
      image are empty in both cases. */
  lemma TikTokPrimaryWithoutObject(data: Json)
    requires !Nullish(data) && !Get(data, "downloads").Obj?
    ensures var d := Get(data, "downloads");
      var t := NormalizeTikTok(data, Primary).value;
      t.audio == [] && t.image == []
      && (d.Arr? ==> t.video == d.items)
      && (!d.Arr? && Truthy(Get(data, "video")) ==> t.video == Wrap(Get(data, "video")))
      && (!d.Arr? && !Truthy(Get(data, "video")) ==> t.video == [])
  {
  }

  /** Primary shape: the audio title falls back from `title_audio` to
      `metadata.audio_title` and then to null. */
  lemma TikTokAudioTitleFallback(data: Json)
    requires !Nullish(data)
    ensures var t := NormalizeTikTok(data, Primary).value;
      var m := Get(Get(data, "metadata"), "audio_title");
      (Truthy(Get(data, "title_audio")) ==> t.audioTitle == Get(data, "title_audio"))
      && (!Truthy(Get(data, "title_audio")) && Truthy(m) ==> t.audioTitle == m)
      && (!Truthy(Get(data, "title_audio")) && !Truthy(m) ==> t.audioTitle == Null)
  {
  }

  // =====================================================================
  // Facebook

  datatype FacebookData = FacebookData(quality: map<string, Json>, downloads: seq<Json>)

  /** `data.sd && { quality: 'SD', url: data.sd }` after `.filter(Boolean)`:
      one entry when the url is truthy, none otherwise. */
  function QualityEntry(url: Json, level: string, withResolution: bool): (r: seq<Json>)
    ensures |r| == (if Truthy(url) then 1 else 0)
  {
    if Truthy(url) then
      var fields := map["quality" := Str(level), "url" := url];
      [Obj(if withResolution then fields["resolution" := Str(level)] else fields)]
    else []
  }

  function FacebookPrimaryDownloads(data: Json): seq<Json> {
    if data.Arr? then data.items
    else if data.Obj? then
      var sd, hd := Get(data, "sd"), Get(data, "hd");
      if Truthy(Get(data, "downloads")) then Wrap(Get(data, "downloads"))
      else if Truthy(sd) || Truthy(hd) then QualityEntry(sd, "SD", true) + QualityEntry(hd, "HD", true)
      else [data]
    else []
  }

  /** `normalizeFacebook(data, source)`. The v1 mapping reads `data.sd` and
      throws on null or undefined data; the primary one never throws and
      always has an empty `quality` object. */
  function NormalizeFacebook(data: Json, source: Source): (r: Result<FacebookData>)
    ensures r.Throw? <==> source == V1 && Nullish(data)
    ensures r.Ok? && source == Primary ==> r.value.quality == map[]
    ensures r.Ok? && source == V1 ==>
      r.value.quality.Keys == {"sd", "hd"}
      && |r.value.downloads| == (if Truthy(Get(data, "sd")) then 1 else 0) + (if Truthy(Get(data, "hd")) then 1 else 0)
  {
    if source == V1 then
      if Nullish(data) then Throw
      else
        var sd, hd := Get(data, "sd"), Get(data, "hd");
        Ok(FacebookData(map["sd" := OrNull(sd), "hd" := OrNull(hd)],
                        QualityEntry(sd, "SD", false) + QualityEntry(hd, "HD", false)))
    else Ok(FacebookData(map[], FacebookPrimaryDownloads(data)))
  }

  /** v1: the SD entry, when present, comes before the HD entry. */
  lemma FacebookV1Order(data: Json)
    requires !Nullish(data) && Truthy(Get(data, "sd")) && Truthy(Get(data, "hd"))
    ensures var ds := NormalizeFacebook(data, V1).value.downloads;
      |ds| == 2 && Get(ds[0], "quality") == Str("SD") && Get(ds[1], "quality") == Str("HD")
      && Get(ds[0], "url") == Get(data, "sd") && Get(ds[1], "url") == Get(data, "hd")
  {
  }

  /** Primary: an array is taken as-is, then `downloads` (wrapped if
      singular), then an sd/hd pair (SD first, HD last, each with its own
      url and resolution), then the object itself; any other value gives no
      downloads. */
  lemma FacebookPrimaryPriority(data: Json)
    ensures var ds := NormalizeFacebook(data, Primary).value.downloads;
      var sd, hd := Get(data, "sd"), Get(data, "hd");
      (data.Arr? ==> ds == data.items)
      && (!data.Arr? && !data.Obj? ==> ds == [])
      && (data.Obj? && Truthy(Get(data, "downloads")) ==> ds == Wrap(Get(data, "downloads")))
      && (data.Obj? && !Truthy(Get(data, "downloads")) && (Truthy(sd) || Truthy(hd)) ==>
            |ds| == (if Truthy(sd) then 1 else 0) + (if Truthy(hd) then 1 else 0)
            && (Truthy(sd) ==> ds[0] == Obj(map["quality" := Str("SD"), "url" := sd, "resolution" := Str("SD")]))
            && (Truthy(hd) ==> ds[|ds| - 1] == Obj(map["quality" := Str("HD"), "url" := hd, "resolution" := Str("HD")])))
      && (data.Obj? && !Truthy(Get(data, "downloads")) && !Truthy(sd) && !Truthy(hd) ==> ds == [data])
  {
  }

  // =====================================================================
  // Instagram

  datatype InstagramData = InstagramData(media: seq<Json>)

  /** One v1 item: `{ thumbnail, url, type: 'unknown' }` with null defaults. */
  function InstagramV1Item(item: Json): Json {
    Obj(map["thumbnail" := OrNull(Get(item, "thumbnail")),
            "url" := OrNull(Get(item, "url")),
            "type" := Str("unknown")])
  }

  function InstagramPrimaryMedia(data: Json): seq<Json> {
    if data.Arr? then data.items
    else if data.Obj? then
      if Truthy(Get(data, "media")) then Wrap(Get(data, "media"))
      else if Truthy(Get(data, "url")) then [data]
      else []
    else []
  }

  /** `normalizeInstagram(data, source)`. The v1 mapping reads fields of
      every item and throws when one of them is null or undefined. */
  function NormalizeInstagram(data: Json, source: Source): (r: Result<InstagramData>)
    ensures r.Throw? <==> source == V1 && data.Arr? && exists x :: x in data.items && Nullish(x)
    ensures r.Ok? && source == V1 && data.Arr? ==> |r.value.media| == |data.items|
    ensures r.Ok? && source == V1 && !data.Arr? ==> r.value.media == []
  {
    if source == V1 then
      if data.Arr? then
        if exists x :: x in data.items && Nullish(x) then Throw
        else Ok(InstagramData(seq(|data.items|, i requires 0 <= i < |data.items| => InstagramV1Item(data.items[i]))))
      else Ok(InstagramData([]))
    else Ok(InstagramData(InstagramPrimaryMedia(data)))
  }

  /** v1: every item becomes type 'unknown' with null url and thumbnail
      defaults, one for one. */
  lemma InstagramV1Items(data: Json, i: int)
    requires data.Arr? && 0 <= i < |data.items|
    requires forall x :: x in data.items ==> !Nullish(x)
    ensures var m := NormalizeInstagram(data, V1).value.media[i];
      Get(m, "type") == Str("unknown")
      && Get(m, "url") == OrNull(Get(data.items[i], "url"))
      && Get(m, "thumbnail") == OrNull(Get(data.items[i], "thumbnail"))
  {
  }

  /** Primary: an array as-is; in an object a singular `media` is wrapped,
      and an object with a `url` is itself the only item. */
  lemma InstagramPrimaryShapes(data: Json)
    ensures var ms := NormalizeInstagram(data, Primary).value.media;
      (data.Arr? ==> ms == data.items)
      && (data.Obj? && Truthy(Get(data, "media")) && !Get(data, "media").Arr? ==> ms == [Get(data, "media")])
      && (data.Obj? && !Truthy(Get(data, "media")) && Truthy(Get(data, "url")) ==> ms == [data])
      && (data.Obj? && !Truthy(Get(data, "media")) && !Truthy(Get(data, "url")) ==> ms == [])
      && (!data.Arr? && !data.Obj? ==> ms == [])
  {
  }

  // =====================================================================
  // YouTube

  datatype YouTubeData = YouTubeData(
    title: Json, thumbnail: Json, author: Json, duration: Json,
    video: seq<Json>, audio: seq<Json>)

  /** The video filter of the primary shape:
      `f.type === 'video' || f.type === 'video_with_audio' || (!f.type && f.format && f.format.includes('mp4'))`.
      Reading `f.type` throws on a null entry, and `includes` throws on a
      format that is neither a string nor an array. */
  function IsVideoFormat(f: Json): (r: Result<bool>)
    ensures Nullish(f) ==> r.Throw?
    ensures Get(f, "type") == Str("video") && !Nullish(f) ==> r == Ok(true)
    ensures Truthy(Get(f, "type")) && Get(f, "type") != Str("video") && Get(f, "type") != Str("video_with_audio") && !Nullish(f) ==> r == Ok(false)
  {
    if Nullish(f) then Throw
    else
      var t := Get(f, "type");
      if t == Str("video") || t == Str("video_with_audio") then Ok(true)
      else if Truthy(t) then Ok(false)
      else
        var fmt := Get(f, "format");
        if !Truthy(fmt) then Ok(false) else Includes(fmt, "mp4")
  }

  /** The audio filter of the primary shape:
      `f.type === 'audio' || (!f.type && f.format && (f.format.includes('mp3') || f.format.includes('m4a')))`. */
  function IsAudioFormat(f: Json): (r: Result<bool>)
    ensures Nullish(f) ==> r.Throw?
    ensures Get(f, "type") == Str("audio") && !Nullish(f) ==> r == Ok(true)
    ensures Truthy(Get(f, "type")) && Get(f, "type") != Str("audio") && !Nullish(f) ==> r == Ok(false)
  {
    if Nullish(f) then Throw
    else
      var t := Get(f, "type");
      if t == Str("audio") then Ok(true)
      else if Truthy(t) then Ok(false)
      else
        var fmt := Get(f, "format");
        if !Truthy(fmt) then Ok(false)
        else
          var mp3 :- Includes(fmt, "mp3");
          if mp3 then Ok(true) else Includes(fmt, "m4a")
  }

  /** The filter test for one bucket. */
  function FormatTest(f: Json, audio: bool): Result<bool> {
    if audio then IsAudioFormat(f) else IsVideoFormat(f)
  }

  /** `formats.filter(test)`: the entries that pass, in order; throws when
      the test throws on any entry. */
  function FilterFormats(xs: seq<Json>, audio: bool): (r: Result<seq<Json>>)
    ensures r.Ok? ==> |r.value| <= |xs|
    decreases |xs|
  {
    if xs == [] then Ok([])
    else
      var keep, rest := FormatTest(xs[0], audio), FilterFormats(xs[1..], audio);
      if keep.Throw? || rest.Throw? then Throw
      else Ok((if keep.value then [xs[0]] else []) + rest.value)
  }

  /** The filter keeps only entries of its input that pass the test. */
  lemma {:induction false} FilterFormatsKept(xs: seq<Json>, audio: bool)
    requires FilterFormats(xs, audio).Ok?
    ensures forall f :: f in FilterFormats(xs, audio).value ==> f in xs && FormatTest(f, audio) == Ok(true)
    decreases |xs|
  {
    if xs != [] {
      FilterFormatsCons(xs[0], xs[1..], audio);
      assert xs == [xs[0]] + xs[1..];
      FilterFormatsKept(xs[1..], audio);
    }
  }

  /** The filter keeps relative order: filtering a concatenation gives the
      concatenation of the filtered parts. */
  lemma {:induction false} FilterFormatsAppend(a: seq<Json>, b: seq<Json>, audio: bool)
    requires FilterFormats(a, audio).Ok? && FilterFormats(b, audio).Ok?
    ensures FilterFormats(a + b, audio) == Ok(FilterFormats(a, audio).value + FilterFormats(b, audio).value)
    decreases |a|
  {
    if a == [] {
      assert a + b == b;
      assert FilterFormats(a, audio).value + FilterFormats(b, audio).value == FilterFormats(b, audio).value;
    } else {
      var x, rest := a[0], a[1..];
      assert a == [x] + rest;
      FilterFormatsCons(x, rest, audio);
      FilterFormatsAppend(rest, b, audio);
      FilterFormatsAppendCons(x, rest, b, audio);
    }
  }

  lemma FilterFormatsAppendCons(x: Json, rest: seq<Json>, b: seq<Json>, audio: bool)
    requires FilterFormats([x] + rest, audio).Ok? && FilterFormats(rest, audio).Ok? && FilterFormats(b, audio).Ok?
    requires FilterFormats(rest + b, audio) == Ok(FilterFormats(rest, audio).value + FilterFormats(b, audio).value)
    ensures FilterFormats([x] + rest + b, audio) == Ok(FilterFormats([x] + rest, audio).value + FilterFormats(b, audio).value)
  {
    var k := if FormatTest(x, audio).value then [x] else [];
    var fa, fb := FilterFormats(rest, audio).value, FilterFormats(b, audio).value;
    Assoc([x], rest, b);
    Assoc(k, fa, fb);
    FilterFormatsCons(x, rest, audio);
    FilterFormatsCons(x, rest + b, audio);
  }

  /** One format in front: its test, then the filter of the rest. */
  lemma FilterFormatsCons(x: Json, rest: seq<Json>, audio: bool)
    ensures FilterFormats([x] + rest, audio)
      == if FormatTest(x, audio).Throw? || FilterFormats(rest, audio).Throw? then Throw
         else Ok((if FormatTest(x, audio).value then [x] else []) + FilterFormats(rest, audio).value)
  {
    assert ([x] + rest)[0] == x;
    assert ([x] + rest)[1..] == rest;
  }

  /** `normalizeFormat(f)` on a copy of the entry's fields (`{ ...f }`):
      copies `extension` to `ext` when `ext` is missing, then fills a missing
      `format` from `ext`, or from `codec` or a default chosen by `type` and
      `quality`. Lower-casing a `quality` that is not a string throws. */
  function NormalizeFormat(f: map<string, Json>): Result<map<string, Json>> {
    var n := if Truthy(Get(Obj(f), "extension")) && !Truthy(Get(Obj(f), "ext"))
             then f["ext" := f["extension"]] else f;
    var format, ext := Get(Obj(n), "format"), Get(Obj(n), "ext");
    if !Truthy(format) && !Truthy(ext) then
      var t, codec, quality := Get(Obj(n), "type"), Get(Obj(n), "codec"), Get(Obj(n), "quality");
      if t == Str("audio") then Ok(n["format" := Or(codec, Str("mp3"))])
      else if t == Str("video") || t == Str("video_with_audio") then Ok(n["format" := Or(codec, Str("mp4"))])
      else if Truthy(quality) then
        var q :- LowerOf(quality);
        if Contains(q, "audio") || Contains(q, "kbps") || Contains(q, "k")
        then Ok(n["format" := Or(codec, Str("mp3"))])
        else Ok(n["format" := Str("mp4")])
      else Ok(n["format" := Str("mp4")])
    else if Truthy(ext) && !Truthy(format) then Ok(n["format" := ext])
    else Ok(n)
  }

  /** What normalizeFormat promises: afterwards `format` is set (truthy); a
      format that was set is kept; `ext` takes `extension` only when `ext`
      was missing; no other field changes. */
  lemma NormalizeFormatContract(f: map<string, Json>)
    requires NormalizeFormat(f).Ok?
    ensures var r := NormalizeFormat(f).value;
      Truthy(Get(Obj(r), "format"))
      && (Truthy(Get(Obj(f), "format")) ==> Get(Obj(r), "format") == Get(Obj(f), "format"))
      && (Truthy(Get(Obj(f), "extension")) && !Truthy(Get(Obj(f), "ext")) ==> Get(Obj(r), "ext") == f["extension"])
      && (!(Truthy(Get(Obj(f), "extension")) && !Truthy(Get(Obj(f), "ext"))) ==> Get(Obj(r), "ext") == Get(Obj(f), "ext"))
      && r.Keys == f.Keys + {"format"} + (if Truthy(Get(Obj(f), "extension")) && !Truthy(Get(Obj(f), "ext")) then {"ext"} else {})
      && forall k :: k in f && k != "format" && k != "ext" ==> r[k] == f[k]
  {
  }

  /** A field that is either missing (falsy) or a string. */
  predicate FalsyOrString(v: Json) {
    !Truthy(v) || v.Str?
  }

  /** When the entry's format-related fields are strings, the normalized
      `format` is a non-empty string. */
  lemma NormalizeFormatGivesString(f: map<string, Json>)
    requires NormalizeFormat(f).Ok?
    requires FalsyOrString(Get(Obj(f), "format")) && FalsyOrString(Get(Obj(f), "ext"))
    requires FalsyOrString(Get(Obj(f), "extension")) && FalsyOrString(Get(Obj(f), "codec"))
    ensures var fmt := Get(Obj(NormalizeFormat(f).value), "format");
      fmt.Str? && fmt.s != ""
  {
    NormalizeFormatContract(f);
  }

  /** normalizeFormat throws exactly when it has to lower-case a `quality`
      that is not a string. */
  lemma NormalizeFormatThrows(f: map<string, Json>)
    ensures var n := if Truthy(Get(Obj(f), "extension")) && !Truthy(Get(Obj(f), "ext")) then f["ext" := f["extension"]] else f;
      var t := Get(Obj(n), "type");
      NormalizeFormat(f).Throw? <==>
        !Truthy(Get(Obj(n), "format")) && !Truthy(Get(Obj(n), "ext"))
        && t != Str("audio") && t != Str("video") && t != Str("video_with_audio")
        && Truthy(Get(Obj(n), "quality")) && !Get(Obj(n), "quality").Str?
  {
  }

  /** `.map(normalizeFormat)` over entries that passed a filter (they are
      objects: a non-object entry never passes either filter). */
  function NormalizeFormats(xs: seq<Json>): (r: Result<seq<Json>>)
    ensures r.Ok? ==> |r.value| == |xs|
    decreases |xs|
  {
    if xs == [] then Ok([])
    else
      var first :- NormalizeFormat(Fields(xs[0]));
      var rest :- NormalizeFormats(xs[1..]);
      Ok([Obj(first)] + rest)
  }

  /** Only objects pass the bucket filters. */
  lemma FormatTestOnlyObjects(f: Json, audio: bool)
    requires FormatTest(f, audio) == Ok(true)
    ensures f.Obj?
  {
  }

  function YouTubeScalars(data: Json, video: seq<Json>, audio: seq<Json>): YouTubeData {
    YouTubeData(OrNull(Get(data, "title")), OrNull(Get(data, "thumbnail")), OrNull(Get(data, "author")),
                OrNull(Get(data, "duration")), video, audio)
  }

  /** `normalizeYouTube(data, source)`. */
  function NormalizeYouTube(data: Json, source: Source): (r: Result<YouTubeData>)
    ensures Nullish(data) ==> r.Throw?
    ensures r.Ok? && source == V1 ==> r.value.duration == Null && |r.value.video| <= 1 && |r.value.audio| <= 1
    ensures r.Ok? ==> !r.value.title.Undefined? && !r.value.duration.Undefined?
  {
    if Nullish(data) then Throw
    else if source == V1 then
      var mp4, mp3 := Get(data, "mp4"), Get(data, "mp3");
      Ok(YouTubeData(OrNull(Get(data, "title")), OrNull(Get(data, "thumbnail")), OrNull(Get(data, "author")), Null,
        if Truthy(mp4) then [Obj(map["quality" := Str("auto"), "url" := mp4, "format" := Str("mp4")])] else [],
        if Truthy(mp3) then [Obj(map["quality" := Str("128kbps"), "url" := mp3, "format" := Str("mp3")])] else []))
    else
      var formats := Or(Or(Get(data, "formats"), Get(data, "downloads")), Arr([]));
      if !formats.Arr? then
        if Truthy(Get(formats, "video")) || Truthy(Get(formats, "audio")) then
          Ok(YouTubeScalars(data, ListOrEmpty(Get(formats, "video")), ListOrEmpty(Get(formats, "audio"))))
        else Ok(YouTubeScalars(data, [], []))
      else
        var videoKept :- FilterFormats(formats.items, false);
        var video :- NormalizeFormats(videoKept);
        var audioKept :- FilterFormats(formats.items, true);
        var audio :- NormalizeFormats(audioKept);
        Ok(YouTubeScalars(data, video, audio))
  }

  /** Primary shape with a formats list: each bucket is the normalized
      filter of the list, so a bucket is never longer than the list and an
      entry typed 'video' (resp. 'audio') that normalizes lands in it. */
  lemma YouTubeBucketsAreFilters(data: Json)
    requires NormalizeYouTube(data, Primary).Ok?
    requires Or(Or(Get(data, "formats"), Get(data, "downloads")), Arr([])).Arr?
    ensures var formats := Or(Or(Get(data, "formats"), Get(data, "downloads")), Arr([])).items;
      var y := NormalizeYouTube(data, Primary).value;
      FilterFormats(formats, false).Ok? && FilterFormats(formats, true).Ok?
      && y.video == NormalizeFormats(FilterFormats(formats, false).value).value
      && y.audio == NormalizeFormats(FilterFormats(formats, true).value).value
      && |y.video| <= |formats| && |y.audio| <= |formats|
  {
  }

  // =====================================================================
  // Spotify

  /** One canonical track: `{ url, quality, format }`. */
  datatype Track = Track(url: Json, quality: Json, format: Json)

  datatype SpotifyData = SpotifyData(
    title: Json, thumbnail: Json, author: Json, duration: Json, album: Json,
    downloads: seq<Track>)

  /** The raw list a track list was read from; each sets its own format
      fallbacks. */
  datatype TrackSource = V1Formats | DownloadLinks | Downloads | Formats

  function ToTrack(item: Json, from: TrackSource): (t: Track)
    ensures Truthy(t.quality) && Truthy(t.format)
    ensures !Truthy(Get(item, "quality")) ==> t.quality == Str("unknown")
  {
    var format := match from
      case V1Formats => Or(Get(item, "ext"), Str("mp3"))
      case DownloadLinks => Or(Get(item, "extension"), Str("mp3"))
      case Downloads => Or(Get(item, "format"), Or(Get(item, "ext"), Str("mp3")))
      case Formats => Or(Get(item, "ext"), Or(Get(item, "format"), Str("mp3")));
    Track(Get(item, "url"), Or(Get(item, "quality"), Str("unknown")), format)
  }

  /** `items.map(...)`: throws when an item is null or undefined. */
  function ToTracks(items: seq<Json>, from: TrackSource): (r: Result<seq<Track>>)
    ensures r.Throw? <==> exists x :: x in items && Nullish(x)
    ensures r.Ok? ==> |r.value| == |items|
  {
    if exists x :: x in items && Nullish(x) then Throw
    else Ok(seq(|items|, i requires 0 <= i < |items| => ToTrack(items[i], from)))
  }

  /** The primary download list: the first of `downloadLinks`, `downloads`,
      `formats` that is an array, else a bare `url`, else nothing. */
  function SpotifyPrimaryDownloads(data: Json): Result<seq<Track>> {
    var links, downloads, formats := Get(data, "downloadLinks"), Get(data, "downloads"), Get(data, "formats");
    if links.Arr? then ToTracks(links.items, DownloadLinks)
    else if downloads.Arr? then ToTracks(downloads.items, Downloads)
    else if formats.Arr? then ToTracks(formats.items, Formats)
    else if Truthy(Get(data, "url")) then Ok([Track(Get(data, "url"), Str("default"), Str("mp3"))])
    else Ok([])
  }

  /** `normalizeSpotify(data, source)`. v1 calls `formats?.map`, which
      throws when `formats` is present but not an array. */
  function NormalizeSpotify(data: Json, source: Source): (r: Result<SpotifyData>)
    ensures Nullish(data) ==> r.Throw?
    ensures r.Ok? && source == V1 ==> r.value.author == Null && r.value.album == Null
    ensures r.Ok? ==> !r.value.title.Undefined? && !r.value.author.Undefined? && !r.value.album.Undefined?
  {
    if Nullish(data) then Throw
    else if source == V1 then
      var formats := Get(data, "formats");
      var downloads :- if Nullish(formats) then Ok([])
                       else if formats.Arr? then ToTracks(formats.items, V1Formats)
                       else Throw;
      Ok(SpotifyData(OrNull(Get(data, "title")), OrNull(Get(data, "thumbnail")), Null,
                     OrNull(Get(data, "duration")), Null, downloads))
    else
      var downloads :- SpotifyPrimaryDownloads(data);
      Ok(SpotifyData(OrNull(Get(data, "title")), OrNull(Get(data, "thumbnail")),
                     Or(Get(data, "author"), OrNull(Get(data, "artist"))),
                     OrNull(Get(data, "duration")), OrNull(Get(data, "album")), downloads))
  }

  /** Primary: the download list comes from the first present source in
      the order downloadLinks, downloads, formats, url, with quality
      'unknown' and format 'mp3' as defaults ('default' quality for the
      bare url); the author falls back from `author` to `artist` to null. */
  lemma SpotifyPrimaryPriority(data: Json)
    requires !Nullish(data)
    ensures var r := NormalizeSpotify(data, Primary);
      var links, downloads, formats := Get(data, "downloadLinks"), Get(data, "downloads"), Get(data, "formats");
      (links.Arr? ==> r == (if exists x :: x in links.items && Nullish(x) then Throw
                            else Ok(r.value)) && (r.Ok? ==> r.value.downloads == ToTracks(links.items, DownloadLinks).value))
      && (!links.Arr? && downloads.Arr? && r.Ok? ==> r.value.downloads == ToTracks(downloads.items, Downloads).value)
      && (!links.Arr? && !downloads.Arr? && formats.Arr? && r.Ok? ==> r.value.downloads == ToTracks(formats.items, Formats).value)
      && (!links.Arr? && !downloads.Arr? && !formats.Arr? ==>
            r.Ok? && r.value.downloads == (if Truthy(Get(data, "url")) then [Track(Get(data, "url"), Str("default"), Str("mp3"))] else []))
      && (r.Ok? && Truthy(Get(data, "author")) ==> r.value.author == Get(data, "author"))
      && (r.Ok? && !Truthy(Get(data, "author")) ==> r.value.author == OrNull(Get(data, "artist")))
  {
  }

  /** Every primary `downloads` track takes its format from `format`, then
      `ext`, then 'mp3'; every `formats` track from `ext`, then `format`. */
  lemma SpotifyFormatFallbacks(item: Json)
    ensures ToTrack(item, Downloads).format ==
      (if Truthy(Get(item, "format")) then Get(item, "format") else if Truthy(Get(item, "ext")) then Get(item, "ext") else Str("mp3"))
    ensures ToTrack(item, Formats).format ==
      (if Truthy(Get(item, "ext")) then Get(item, "ext") else if Truthy(Get(item, "format")) then Get(item, "format") else Str("mp3"))
    ensures ToTrack(item, DownloadLinks).format == Or(Get(item, "extension"), Str("mp3"))
  {
  }

  // =====================================================================
  // Dispatch

  /** One canonical record per supported platform. */
  datatype Canonical =
    | TikTokSet(tiktok: TikTokData)
    | FacebookSet(facebook: FacebookData)
    | InstagramSet(instagram: InstagramData)
    | YouTubeSet(youtube: YouTubeData)
    | SpotifySet(spotify: SpotifyData)

  /** The platform names `normalize` accepts, in lower case. */
  predicate IsNormalizedPlatform(name: string) {
    name in {"tiktok", "facebook", "instagram", "youtube", "spotify"}
  }

  /** `normalize(platform, data, source)`: dispatch on the lower-cased name;
      an unknown name throws "Unsupported platform", and the inherited
      `__proto__` has no `call` method and throws too. The inherited
      `constructor` gives `Object(data)`, which is no normalized record and
      is a Throw here as well. */
  function Normalize(platform: string, data: Json, source: Source): (r: Result<Canonical>)
    ensures !IsNormalizedPlatform(Lower(platform)) && Lower(platform) != "constructor" ==> r.Throw?
    ensures Lower(platform) == "tiktok" ==> r == (if NormalizeTikTok(data, source).Ok? then Ok(TikTokSet(NormalizeTikTok(data, source).value)) else Throw)
  {
    var p := Lower(platform);
    if p == "tiktok" then var t :- NormalizeTikTok(data, source); Ok(TikTokSet(t))
    else if p == "facebook" then var f :- NormalizeFacebook(data, source); Ok(FacebookSet(f))
    else if p == "instagram" then var i :- NormalizeInstagram(data, source); Ok(InstagramSet(i))
    else if p == "youtube" then var y :- NormalizeYouTube(data, source); Ok(YouTubeSet(y))
    else if p == "spotify" then var s :- NormalizeSpotify(data, source); Ok(SpotifySet(s))
    else Throw
  }

  /** The platform name is matched without regard to case. */
  lemma NormalizeIgnoresCase(platform: string, data: Json, source: Source)
    ensures Normalize(platform, data, source) == Normalize(Lower(platform), data, source)
  {
    LowerIdempotent(platform);
  }
}
