/** Size cap, naming policy and option extraction (utils/functions.js):
    `MAX_FILE_SIZE` and the `exceedsLimit` comparison of `checkFileSize`,
    `generateFilename` with its `sanitize` helper, and `getSelectedOption`. */
module Functions {
  import opened Wrappers
  import opened Js

  /** `MAX_FILE_SIZE`: 35 MiB. */
  const MaxFileSize: nat := 35 * 1024 * 1024

  /** The tighter cap some options carry: 10 MiB. */
  const SmallCap: nat := 10485760

  /** The platform names the string-keyed dispatch tables of this file know,
      in lower case. */
  predicate KnownPlatform(p: string) {
    p in {"applemusic", "bluesky", "capcut", "douyin", "facebook", "instagram", "kuaishou",
          "pinterest", "rednote", "spotify", "threads", "tiktok", "twitter", "weibo", "youtube"}
  }

  /** The platform names are already lower case. */
  lemma KnownLower(p: string)
    requires KnownPlatform(p)
    ensures Lower(p) == p
  {
    LowerNoOp(p);
  }

  // =====================================================================
  // checkFileSize

  /** What the HEAD probe gave: a failure (the request threw, so
      `checkFileSize` returns null) or the `content-length` header after
      `parseInt`, where None stands for NaN (a missing or non-numeric header). */
  datatype Probe = ProbeFailed | Probed(contentLength: Option<int>)

  datatype SizeInfo = SizeInfo(size: Option<int>, exceedsLimit: bool)

  /** `contentLength > MAX_FILE_SIZE`; a comparison with NaN is false. */
  function ExceedsLimit(contentLength: Option<int>): (r: bool)
    ensures r <==> contentLength.Some? && contentLength.value > 36700160
  {
    match contentLength
    case None => false
    case Some(n) => n > MaxFileSize
  }

  /** `checkFileSize(url)` once the probe has answered. */
  function CheckFileSize(p: Probe): (r: Option<SizeInfo>)
    ensures r.None? <==> p.ProbeFailed?
    ensures r.Some? ==> (r.value.exceedsLimit <==> ExceedsLimit(p.contentLength))
  {
    match p
    case ProbeFailed => None
    case Probed(n) => Some(SizeInfo(n, ExceedsLimit(n)))
  }

  // =====================================================================
  // sanitize

  predicate IsAlnum(c: char) {
    'a' <= c <= 'z' || 'A' <= c <= 'Z' || '0' <= c <= '9'
  }

  /** `str.replace(/[^a-z0-9]/gi, '_')`: every character outside
      [A-Za-z0-9] becomes an underscore. */
  function ReplaceNonAlnum(s: string): (r: string)
    ensures |r| == |s|
    ensures forall i :: 0 <= i < |s| ==> (IsAlnum(s[i]) ==> r[i] == s[i]) && (!IsAlnum(s[i]) ==> r[i] == '_')
    decreases |s|
  {
    if s == [] then []
    else [if IsAlnum(s[0]) then s[0] else '_'] + ReplaceNonAlnum(s[1..])
  }

  /** `sanitize(str)`: replace, then `substring(0, 50)`. */
  function SanitizeText(s: string): string {
    var r := ReplaceNonAlnum(s);
    if |r| <= 50 then r else r[..50]
  }

  /** The sanitized text is at most 50 characters of [A-Za-z0-9_]; each
      alphanumeric character of the input's first 50 keeps its position and
      every other one becomes '_'. */
  lemma SanitizeContract(s: string)
    ensures var r := SanitizeText(s);
      |r| == (if |s| <= 50 then |s| else 50)
      && (forall i :: 0 <= i < |r| ==> IsAlnum(r[i]) || r[i] == '_')
      && (forall i :: 0 <= i < |r| ==> (IsAlnum(s[i]) ==> r[i] == s[i]) && (!IsAlnum(s[i]) ==> r[i] == '_'))
  {
  }

  /** `sanitize(v)` on any value: only a string has `replace`. */
  function Sanitize(v: Json): (r: Result<string>)
    ensures r.Ok? <==> v.Str?
    ensures r.Ok? ==> r.value == SanitizeText(v.s)
  {
    if v.Str? then Ok(SanitizeText(v.s)) else Throw
  }

  // =====================================================================
  // generateFilename

  function Stamp(ts: nat): string {
    NatToString(ts)
  }

  /** `data.index !== undefined ? data.index + 1 : 1` (instagram). */
  function InstagramIndex(d: Json): Json {
    var index := Get(d, "index");
    if index.Undefined? then Num(1) else AddOne(index)
  }

  /** `${x ? '_' + x : ''}` for the index of kuaishou, rednote and weibo,
      where an absent index is ''. */
  function IndexSuffix(d: Json): string {
    var index := Get(d, "index");
    if Truthy(index) then "_" + Show(index) else ""
  }

  /** The tiktok type: `data.type || 'video'`. */
  function TikTokType(d: Json): Json {
    Or(Get(d, "type"), Str("video"))
  }

  /** `data.index !== undefined ? `_${data.index + 1}` : ''`. */
  function TikTokIndexSuffix(d: Json): string {
    var index := Get(d, "index");
    if index.Undefined? then "" else "_" + Show(AddOne(index))
  }

  /** `data.ext || (type === 'audio' ? 'mp3' : type === 'image' ? 'jpg' : 'mp4')`. */
  function TikTokExt(d: Json): Json {
    var t := TikTokType(d);
    Or(Get(d, "ext"), Str(if t == Str("audio") then "mp3" else if t == Str("image") then "jpg" else "mp4"))
  }

  function TikTokFilename(d: Json, ts: nat): string {
    "tiktok_" + Show(TikTokType(d)) + TikTokIndexSuffix(d) + "_" + Stamp(ts) + "." + Show(TikTokExt(d))
  }

  /** `kuaishou` and `weibo` share one shape under different prefixes. */
  function TypedFilename(prefix: string, d: Json, ts: nat): string {
    var t := Or(Get(d, "type"), Str("media"));
    var ext := if t == Str("video") then "mp4" else "jpg";
    prefix + "_" + Show(t) + IndexSuffix(d) + "_" + Stamp(ts) + "." + ext
  }

  function InstagramFilename(d: Json, ts: nat): string {
    "instagram_media_" + Show(InstagramIndex(d)) + "_" + Stamp(ts) + "." + Show(Or(Get(d, "ext"), Str("jpg")))
  }

  function PinterestFilename(d: Json, ts: nat): Result<string> {
    var quality :- Sanitize(Or(Get(d, "quality"), Str("default")));
    Ok("pinterest_" + quality + "_" + Stamp(ts) + "." + Show(Or(Get(d, "ext"), Str("jpg"))))
  }

  function SpotifyFilename(d: Json, ts: nat): Result<string> {
    var title :- Sanitize(Or(Get(d, "title"), Str("track")));
    Ok(title + "_" + Show(Or(Get(d, "type"), Str("audio"))) + "_" + Stamp(ts) + "." + Show(Or(Get(d, "ext"), Str("mp3"))))
  }

  /** The youtube name reads no clock. */
  function YouTubeFilename(d: Json): Result<string> {
    var title :- Sanitize(Or(Get(d, "title"), Str("video")));
    var quality :- Sanitize(Or(Get(d, "quality"), Str("default")));
    Ok(title + "_" + quality + "." + Show(Or(Get(d, "format"), Or(Get(d, "ext"), Str("mp4")))))
  }

  function AppleMusicFilename(d: Json, ts: nat): Result<string> {
    var artist :- Sanitize(Or(Get(d, "artist"), Str("AppleMusic")));
    var t := Or(Get(d, "type"), Str("audio"));
    Ok("applemusic_" + artist + "_" + Show(t) + "_" + Stamp(ts) + "." + (if t == Str("audio") then "mp3" else "jpg"))
  }

  function BlueskyFilename(d: Json, ts: nat): Result<string> {
    var handle :- Sanitize(Or(Get(d, "handle"), Str("bluesky")));
    var t := Or(Get(d, "type"), Str("video"));
    Ok("bluesky_" + handle + "_" + Stamp(ts) + "." + (if t == Str("video") then "mp4" else "jpg"))
  }

  function CapCutFilename(d: Json, ts: nat): Result<string> {
    var id :- Sanitize(Or(Get(d, "id"), Str("capcut")));
    var quality :- Sanitize(Or(Get(d, "quality"), Str("default")));
    Ok("capcut_" + id + "_" + quality + "_" + Stamp(ts) + "." + Show(Or(Get(d, "ext"), Str("mp4"))))
  }

  function DouyinFilename(d: Json, ts: nat): Result<string> {
    var quality :- Sanitize(Or(Get(d, "quality"), Str("default")));
    Ok("douyin_video_" + quality + "_" + Stamp(ts) + ".mp4")
  }

  function FacebookFilename(d: Json, ts: nat): Result<string> {
    var resolution :- Sanitize(Or(Get(d, "resolution"), Str("default")));
    Ok("facebook_" + resolution + "_" + Stamp(ts) + "." + Show(Or(Get(d, "ext"), Str("mp4"))))
  }

  function RednoteFilename(d: Json, ts: nat): Result<string> {
    var t := Or(Get(d, "type"), Str("media"));
    var quality :- Sanitize(Or(Get(d, "quality"), Str("")));
    Ok("rednote_" + Show(t) + (if quality != "" then "_" + quality else "") + IndexSuffix(d)
       + "_" + Stamp(ts) + "." + (if t == Str("video") then "mp4" else "jpg"))
  }

  function TwitterFilename(d: Json, ts: nat): string {
    "twitter_video_" + Show(Or(Get(d, "quality"), Str("default"))) + "p_" + Stamp(ts) + ".mp4"
  }

  /** The generator of a known platform other than threads, for data that
      is an object or another non-null value. Sanitizing a field that is not
      a string throws. */
  function PlatformFilename(p: string, d: Json, ts: nat): Result<string>
    requires KnownPlatform(p) && !Nullish(d)
  {
    // The handlers' own platforms come first; the order of the keys is
    // otherwise immaterial.
    if p == "youtube" then YouTubeFilename(d)
    else if p == "tiktok" then Ok(TikTokFilename(d, ts))
    else if p == "instagram" then Ok(InstagramFilename(d, ts))
    else if p == "pinterest" then PinterestFilename(d, ts)
    else if p == "spotify" then SpotifyFilename(d, ts)
    else if p == "kuaishou" then Ok(TypedFilename("kuaishou", d, ts))
    else if p == "applemusic" then AppleMusicFilename(d, ts)
    else if p == "bluesky" then BlueskyFilename(d, ts)
    else if p == "capcut" then CapCutFilename(d, ts)
    else if p == "douyin" then DouyinFilename(d, ts)
    else if p == "facebook" then FacebookFilename(d, ts)
    else if p == "rednote" then RednoteFilename(d, ts)
    else if p == "threads" then Ok("threads_video_" + Stamp(ts) + ".mp4")
    else if p == "twitter" then Ok(TwitterFilename(d, ts))
    else Ok(TypedFilename("weibo", d, ts))
  }

  /** `generateFilename(platform, data)` with `Date.now()` given as `ts`.
      `data` defaults to `{}` when undefined; a null `data` throws as soon
      as a generator reads a field of it (threads reads none). A name the
      table inherits is found by the lookup: `__proto__` is not callable
      and throws, and `constructor` yields `{}`, which is no file name and
      is a Throw here too. */
  function GenerateFilename(platform: string, data: Json, ts: nat): (r: Result<string>)
    ensures !KnownPlatform(Lower(platform)) && !InheritedKey(Lower(platform)) ==> r == Ok("download_" + Stamp(ts))
    ensures Lower(platform) == "__proto__" ==> r.Throw?
    ensures Lower(platform) == "tiktok" && !data.Null? ==> r.Ok?
  {
    var p := Lower(platform);
    if InheritedKey(p) then Throw
    else if !KnownPlatform(p) then Ok("download_" + Stamp(ts))
    else if p == "threads" then Ok("threads_video_" + Stamp(ts) + ".mp4")
    else if data.Null? then Throw
    else PlatformFilename(p, if data.Undefined? then Obj(map[]) else data, ts)
  }

  /** The names the handlers generate, one generator each. */
  lemma TikTokNaming(d: Json, ts: nat)
    requires !d.Null?
    ensures GenerateFilename("tiktok", d, ts) == Ok(TikTokFilename(if d.Undefined? then Obj(map[]) else d, ts))
  {
    KnownLower("tiktok");
  }

  /** The tiktok extension is `data.ext` when given, otherwise mp3 for
      audio, jpg for image and mp4 for anything else. */
  lemma TikTokExtRule(d: Json)
    ensures Show(TikTokExt(d)) ==
      if Truthy(Get(d, "ext")) then Show(Get(d, "ext"))
      else if TikTokType(d) == Str("audio") then "mp3"
      else if TikTokType(d) == Str("image") then "jpg"
      else "mp4"
  {
  }

  /** An index n becomes the one-based suffix `_(n+1)`; no index, no suffix. */
  lemma TikTokIndexRule(d: Json)
    ensures Get(d, "index").Undefined? ==> TikTokIndexSuffix(d) == ""
    ensures Get(d, "index").Num? && Get(d, "index").n >= 0 ==>
      TikTokIndexSuffix(d) == "_" + NatToString(Get(d, "index").n + 1)
  {
  }

  /** kuaishou, rednote and weibo test the index for truthiness, so an
      absent index and the index 0 both give no suffix. */
  lemma TypedFilenameIndexOmitted(prefix: string, d: Json, ts: nat)
    requires Get(d, "index").Undefined? || Get(d, "index") == Num(0)
    ensures var t := Or(Get(d, "type"), Str("media"));
      TypedFilename(prefix, d, ts) == prefix + "_" + Show(t) + "_" + Stamp(ts) + "." + (if t == Str("video") then "mp4" else "jpg")
  {
  }

  /** A positive index does give the suffix. */
  lemma TypedFilenameIndexKept(prefix: string, d: Json, ts: nat, n: nat)
    requires Get(d, "index") == Num(n) && n > 0
    ensures var t := Or(Get(d, "type"), Str("media"));
      TypedFilename(prefix, d, ts) == prefix + "_" + Show(t) + "_" + NatToString(n) + "_" + Stamp(ts) + "." + (if t == Str("video") then "mp4" else "jpg")
  {
  }

  /** rednote tests its index for truthiness too: an absent index and the
      index 0 both give no suffix, after the optional sanitized quality. */
  lemma RednoteIndexOmitted(d: Json, ts: nat)
    requires Get(d, "index").Undefined? || Get(d, "index") == Num(0)
    requires Get(d, "quality").Str? || !Truthy(Get(d, "quality"))
    ensures var t := Or(Get(d, "type"), Str("media"));
      var q := SanitizeText(Or(Get(d, "quality"), Str("")).s);
      RednoteFilename(d, ts) == Ok("rednote_" + Show(t) + (if q != "" then "_" + q else "")
                                   + "_" + Stamp(ts) + "." + (if t == Str("video") then "mp4" else "jpg"))
  {
    var t := Or(Get(d, "type"), Str("media"));
    var q := SanitizeText(Or(Get(d, "quality"), Str("")).s);
    var head := "rednote_" + Show(t) + (if q != "" then "_" + q else "");
    assert IndexSuffix(d) == "";
    assert head + IndexSuffix(d) == head;
  }

  /** A positive rednote index gives the suffix `_n`. */
  lemma RednoteIndexKept(d: Json, ts: nat, n: nat)
    requires Get(d, "index") == Num(n) && n > 0
    requires Get(d, "quality").Str? || !Truthy(Get(d, "quality"))
    ensures var t := Or(Get(d, "type"), Str("media"));
      var q := SanitizeText(Or(Get(d, "quality"), Str("")).s);
      RednoteFilename(d, ts) == Ok("rednote_" + Show(t) + (if q != "" then "_" + q else "") + "_" + NatToString(n)
                                   + "_" + Stamp(ts) + "." + (if t == Str("video") then "mp4" else "jpg"))
  {
    var t := Or(Get(d, "type"), Str("media"));
    var q := SanitizeText(Or(Get(d, "quality"), Str("")).s);
    var head := "rednote_" + Show(t) + (if q != "" then "_" + q else "");
    assert IndexSuffix(d) == "_" + NatToString(n);
    Assoc(head, "_", NatToString(n));
  }

  /** The instagram index defaults to 1 and is otherwise index + 1. */
  lemma InstagramIndexRule(d: Json)
    ensures Get(d, "index").Undefined? ==> InstagramIndex(d) == Num(1)
    ensures Get(d, "index").Num? ==> InstagramIndex(d) == Num(Get(d, "index").n + 1)
  {
  }

  /** The youtube filename does not depend on the clock at all; every other
      name carries the timestamp (`TimestampInName`). */
  lemma YouTubeFilenameTimeless(d: Json, t1: nat, t2: nat)
    requires d.Obj?
    ensures GenerateFilename("youtube", d, t1) == GenerateFilename("youtube", d, t2)
  {
    YouTubeNaming(d, t1);
    YouTubeNaming(d, t2);
  }

  /** Every name but youtube's carries the timestamp: the generators of the
      other platforms and the `download_` fallback all embed it. */
  lemma TimestampInName(platform: string, data: Json, ts: nat)
    requires Lower(platform) != "youtube" && GenerateFilename(platform, data, ts).Ok?
    ensures Contains(GenerateFilename(platform, data, ts).value, Stamp(ts))
  {
    var p := Lower(platform);
    if !KnownPlatform(p) {
      StampEnds("download_", Stamp(ts));
    } else if p == "threads" {
      StampThen("threads_video_", Stamp(ts), ".mp4");
    } else {
      PlatformStamp(p, if data.Undefined? then Obj(map[]) else data, ts);
    }
  }

  lemma PlatformStamp(p: string, d: Json, ts: nat)
    requires KnownPlatform(p) && !Nullish(d) && p != "youtube" && PlatformFilename(p, d, ts).Ok?
    ensures Contains(PlatformFilename(p, d, ts).value, Stamp(ts))
  {
    var st := Stamp(ts);
    if p == "tiktok" {
      StampThen2("tiktok_" + Show(TikTokType(d)) + TikTokIndexSuffix(d) + "_", st, ".", Show(TikTokExt(d)));
    } else if p == "instagram" {
      StampThen2("instagram_media_" + Show(InstagramIndex(d)) + "_", st, ".", Show(Or(Get(d, "ext"), Str("jpg"))));
    } else if p == "pinterest" {
      var q := Sanitize(Or(Get(d, "quality"), Str("default"))).value;
      StampThen2("pinterest_" + q + "_", st, ".", Show(Or(Get(d, "ext"), Str("jpg"))));
    } else if p == "spotify" {
      var title := Sanitize(Or(Get(d, "title"), Str("track"))).value;
      StampThen2(title + "_" + Show(Or(Get(d, "type"), Str("audio"))) + "_", st, ".", Show(Or(Get(d, "ext"), Str("mp3"))));
    } else if p == "kuaishou" || p == "weibo" {
      var t := Or(Get(d, "type"), Str("media"));
      StampThen2(p + "_" + Show(t) + IndexSuffix(d) + "_", st, ".", if t == Str("video") then "mp4" else "jpg");
    } else if p == "applemusic" {
      var artist := Sanitize(Or(Get(d, "artist"), Str("AppleMusic"))).value;
      var t := Or(Get(d, "type"), Str("audio"));
      StampThen2("applemusic_" + artist + "_" + Show(t) + "_", st, ".", if t == Str("audio") then "mp3" else "jpg");
    } else if p == "bluesky" {
      var handle := Sanitize(Or(Get(d, "handle"), Str("bluesky"))).value;
      var t := Or(Get(d, "type"), Str("video"));
      StampThen2("bluesky_" + handle + "_", st, ".", if t == Str("video") then "mp4" else "jpg");
    } else if p == "capcut" {
      var id := Sanitize(Or(Get(d, "id"), Str("capcut"))).value;
      var q := Sanitize(Or(Get(d, "quality"), Str("default"))).value;
      StampThen2("capcut_" + id + "_" + q + "_", st, ".", Show(Or(Get(d, "ext"), Str("mp4"))));
    } else if p == "douyin" {
      var q := Sanitize(Or(Get(d, "quality"), Str("default"))).value;
      StampThen("douyin_video_" + q + "_", st, ".mp4");
    } else if p == "facebook" {
      var r := Sanitize(Or(Get(d, "resolution"), Str("default"))).value;
      StampThen2("facebook_" + r + "_", st, ".", Show(Or(Get(d, "ext"), Str("mp4"))));
    } else if p == "rednote" {
      var t := Or(Get(d, "type"), Str("media"));
      var q := Sanitize(Or(Get(d, "quality"), Str(""))).value;
      StampThen2("rednote_" + Show(t) + (if q != "" then "_" + q else "") + IndexSuffix(d) + "_", st, ".",
                 if t == Str("video") then "mp4" else "jpg");
    } else if p == "threads" {
      StampThen("threads_video_", st, ".mp4");
    } else if p == "twitter" {
      StampThen("twitter_video_" + Show(Or(Get(d, "quality"), Str("default"))) + "p_", st, ".mp4");
    }
  }

  lemma StampEnds(a: string, m: string)
    ensures Contains(a + m, m)
  {
    assert OccursAt(a + m, m, |a|);
    ContainsIffOccurs(a + m, m);
  }

  lemma StampThen(a: string, m: string, b: string)
    ensures Contains(a + m + b, m)
  {
    assert (a + m + b)[|a|..|a| + |m|] == m;
    assert OccursAt(a + m + b, m, |a|);
    ContainsIffOccurs(a + m + b, m);
  }

  lemma StampThen2(a: string, m: string, b1: string, b2: string)
    ensures Contains(a + m + b1 + b2, m)
  {
    assert (a + m + b1 + b2)[|a|..|a| + |m|] == m;
    assert OccursAt(a + m + b1 + b2, m, |a|);
    ContainsIffOccurs(a + m + b1 + b2, m);
  }

  /** An unknown platform gets `download_<timestamp>`, with no extension. */
  lemma UnknownPlatformFilename(platform: string, data: Json, ts: nat)
    requires !KnownPlatform(Lower(platform)) && !InheritedKey(Lower(platform))
    ensures GenerateFilename(platform, data, ts).Ok?
    ensures '.' !in GenerateFilename(platform, data, ts).value
  {
    var r := "download_" + Stamp(ts);
    assert forall i :: 0 <= i < |r| ==> r[i] != '.' by {
      forall i | 0 <= i < |r| ensures r[i] != '.' {
        if i >= 9 {
          assert r[i] == Stamp(ts)[i - 9];
        }
      }
    }
  }

  // =====================================================================
  // getSelectedOption

  /** `{ k: sel.k, ... }` for the listed keys. */
  function Pick(sel: Json, keys: set<string>): map<string, Json> {
    map k | k in keys :: Get(sel, k)
  }

  /** Only applemusic and spotify audio and youtube video carry the 10 MiB
      cap; those three extractors give `maxSize: null` otherwise. */
  function MaxSizeOf(sel: Json, kind: string): Json {
    if Get(sel, "type") == Str(kind) then Num(SmallCap) else Null
  }

  /** The fields each platform's extractor keeps. */
  function OptionFields(p: string, sel: Json): map<string, Json>
    requires KnownPlatform(p)
  {
    if p == "applemusic" then Pick(sel, {"url", "type"})["maxSize" := MaxSizeOf(sel, "audio")]
    else if p == "bluesky" then
      map["url" := Or(Get(sel, "downloadLink"), Get(sel, "url")), "type" := Or(Get(sel, "type"), Str("video"))]
    else if p == "capcut" then Pick(sel, {"url", "quality"})["ext" := Get(sel, "extension")]
    else if p == "douyin" then Pick(sel, {"url", "label"})
    else if p == "facebook" then Pick(sel, {"url", "resolution", "ext"})
    else if p == "instagram" then Pick(sel, {"url", "index", "ext"})
    else if p == "kuaishou" then Pick(sel, {"url", "type"})
    else if p == "pinterest" then Pick(sel, {"url", "quality", "format"})
    else if p == "rednote" then
      map["url" := Or(Get(sel, "url"), Get(sel, "data")), "type" := Get(sel, "type"), "data" := Get(sel, "data")]
    else if p == "spotify" then Pick(sel, {"url", "type", "format"})["maxSize" := MaxSizeOf(sel, "audio")]
    else if p == "threads" then Pick(sel, {"url"})
    else if p == "tiktok" then Pick(sel, {"url", "type", "text"})
    else if p == "twitter" then Pick(sel, {"url", "quality"})
    else if p == "weibo" then Pick(sel, {"url", "type"})
    else Pick(sel, {"url", "type", "quality", "format"})["maxSize" := MaxSizeOf(sel, "video")]
  }

  /** `getSelectedOption(platform, selectedDownload)`: the payload handed to
      the downloader. An unknown platform gets the selection unchanged; a
      known one reads fields of it, which throws on null or undefined. The
      inherited `constructor` is `Object`, and `Object()` is `{}`; the
      inherited `__proto__` cannot be called. */
  function GetSelectedOption(platform: string, sel: Json): (r: Result<Json>)
    ensures !KnownPlatform(Lower(platform)) && !InheritedKey(Lower(platform)) ==> r == Ok(sel)
    ensures Lower(platform) == "constructor" ==> r == Ok(Obj(map[]))
    ensures Lower(platform) == "__proto__" ==> r.Throw?
    ensures KnownPlatform(Lower(platform)) ==> (r.Throw? <==> Nullish(sel))
    ensures KnownPlatform(Lower(platform)) && r.Ok? ==> r.value.Obj?
  {
    var p := Lower(platform);
    if p == "constructor" then Ok(Obj(map[]))
    else if p == "__proto__" then Throw
    else if !KnownPlatform(p) then Ok(sel)
    else if Nullish(sel) then Throw
    else Ok(Obj(OptionFields(p, sel)))
  }

  lemma InstagramNaming(d: Json, ts: nat)
    requires d.Obj?
    ensures GenerateFilename("instagram", d, ts) == Ok(InstagramFilename(d, ts))
  {
    KnownLower("instagram");
  }

  lemma KuaishouNaming(d: Json, ts: nat)
    requires d.Obj?
    ensures GenerateFilename("kuaishou", d, ts) == Ok(TypedFilename("kuaishou", d, ts))
  {
    KnownLower("kuaishou");
  }

  lemma PinterestNaming(d: Json, ts: nat)
    requires d.Obj?
    ensures GenerateFilename("pinterest", d, ts) == PinterestFilename(d, ts)
  {
    KnownLower("pinterest");
    PinterestBranch(d, ts);
  }

  lemma PinterestBranch(d: Json, ts: nat)
    requires d.Obj?
    ensures PlatformFilename("pinterest", d, ts) == PinterestFilename(d, ts)
  {
  }

  lemma SpotifyNaming(d: Json, ts: nat)
    requires d.Obj?
    ensures GenerateFilename("spotify", d, ts) == SpotifyFilename(d, ts)
  {
    KnownLower("spotify");
    SpotifyBranch(d, ts);
  }

  lemma SpotifyBranch(d: Json, ts: nat)
    requires d.Obj?
    ensures PlatformFilename("spotify", d, ts) == SpotifyFilename(d, ts)
  {
  }

  lemma YouTubeNaming(d: Json, ts: nat)
    requires d.Obj?
    ensures GenerateFilename("youtube", d, ts) == YouTubeFilename(d)
  {
    KnownLower("youtube");
    YouTubeBranch(d, ts);
  }

  lemma YouTubeBranch(d: Json, ts: nat)
    requires d.Obj?
    ensures PlatformFilename("youtube", d, ts) == YouTubeFilename(d)
  {
  }

  /** The fields each extractor keeps: the selection's own fields, picked
      by name, with the size cap added for spotify and youtube. */
  lemma ExtractorFields(sel: Json)
    requires !Nullish(sel)
    ensures GetSelectedOption("tiktok", sel) == Ok(Obj(Pick(sel, {"url", "type", "text"})))
    ensures GetSelectedOption("instagram", sel) == Ok(Obj(Pick(sel, {"url", "index", "ext"})))
    ensures GetSelectedOption("kuaishou", sel) == Ok(Obj(Pick(sel, {"url", "type"})))
    ensures GetSelectedOption("pinterest", sel) == Ok(Obj(Pick(sel, {"url", "quality", "format"})))
    ensures GetSelectedOption("spotify", sel) == Ok(Obj(Pick(sel, {"url", "type", "format"})["maxSize" := MaxSizeOf(sel, "audio")]))
    ensures GetSelectedOption("youtube", sel) == Ok(Obj(Pick(sel, {"url", "type", "quality", "format"})["maxSize" := MaxSizeOf(sel, "video")]))
  {
    KnownLower("tiktok");
    KnownLower("instagram");
    KnownLower("kuaishou");
    KnownLower("pinterest");
    KnownLower("spotify");
    KnownLower("youtube");
  }

  /** The size cap of an option: 10485760 exactly for applemusic or
      spotify audio and youtube video; null for their other kinds; absent
      (undefined) for every other platform. */
  lemma MaxSizeRule(platform: string, sel: Json)
    requires KnownPlatform(Lower(platform)) && !Nullish(sel)
    ensures var p := Lower(platform);
      var m := Get(GetSelectedOption(platform, sel).value, "maxSize");
      (m == Num(10485760) <==>
        (p in {"applemusic", "spotify"} && Get(sel, "type") == Str("audio"))
        || (p == "youtube" && Get(sel, "type") == Str("video")))
      && (p in {"applemusic", "spotify", "youtube"} ==> (m.Null? || m == Num(10485760)))
      && (p !in {"applemusic", "spotify", "youtube"} ==> m.Undefined?)
  {
    var p := Lower(platform);
    assert GetSelectedOption(platform, sel).value == Obj(OptionFields(p, sel));
    OptionCap(p, sel);
  }

  lemma OptionCap(p: string, sel: Json)
    requires KnownPlatform(p)
    ensures var o := OptionFields(p, sel);
      if p == "applemusic" || p == "spotify" then "maxSize" in o && o["maxSize"] == MaxSizeOf(sel, "audio")
      else if p == "youtube" then "maxSize" in o && o["maxSize"] == MaxSizeOf(sel, "video")
      else "maxSize" !in o
  {
  }

  /** Every extractor except bluesky's and rednote's passes the url
      through unchanged. */
  lemma SelectedOptionUrl(platform: string, sel: Json)
    requires KnownPlatform(Lower(platform)) && !Nullish(sel)
    requires Lower(platform) != "bluesky" && Lower(platform) != "rednote"
    ensures Get(GetSelectedOption(platform, sel).value, "url") == Get(sel, "url")
  {
    var p := Lower(platform);
    assert GetSelectedOption(platform, sel).value == Obj(OptionFields(p, sel));
    OptionUrl(p, sel);
  }

  lemma OptionUrl(p: string, sel: Json)
    requires KnownPlatform(p) && p != "bluesky" && p != "rednote"
    ensures var o := OptionFields(p, sel);
      "url" in o && o["url"] == Get(sel, "url")
  {
  }
}
