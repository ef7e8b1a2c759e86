# A verified model of a command-line media downloader

The downloader takes a link to a post on a social platform and works out which platform it belongs to. It asks a provider API for the post's media and normalizes the provider's untyped answer into a canonical record. It then builds a menu of download choices, lets the user pick one (or "all"), names the files and downloads them into a base directory. A size probe can abort a download that is too large.

This project models the deterministic pipeline between the network calls, in Dafny, and proves properties of it:

- **Values.** `Js` models JavaScript values as they reach the program: parsed JSON plus `undefined`. It gives their truthiness, `||`, property reads and the string built-ins the code uses. A JavaScript exception (reading a property of `null`, calling a string method on a number, `forEach` on a non-array) is the `Throw` case of `Wrappers.Result`.
- **`Config`.** The ordered platform table and `matchPlatform` (utils/config.js). The nested search loop is a method proved equal to a first-match function.
- **`Normalizer`.** The per-platform normalizers, selected by a source tag, and the `normalize` dispatch (utils/normalizer.js). The `forEach` that sorts image urls out of a video field is a method with a loop.
- **`Functions`.** The 35 MiB size cap and its `exceedsLimit` test, `sanitize`, `generateFilename` and `getSelectedOption` (utils/functions.js).
- **`Choices`.** `buildDownloadChoices` (utils/functions.js). Each builder is a method that pushes onto the choice list, proved equal to a function that states the menu's layout.
- **`Download`.** `getFileExtension` and `downloadFile` (utils/download.js).
  - The filesystem and the requests sent are the fields of a `Download.Disk` object, which `DownloadFile` updates in place.
  - The network is two functions of the url: the HEAD probe and the GET transfer.
  - `JSON.parse(Buffer.from(payload, 'base64'))` is an abstract partial `decode` parameter.
- **`Routes` and the `*Route` modules.** The handlers `downloadTikTok`, `downloadInstagram`, `downloadPinterest`, `downloadKuaishou`, `downloadYoutube` and `downloadSpotify` (routes/).
  - A handler is split at its one prompt. A `Stage` either stops with a `Plan` or shows a menu and continues with the value the user picks. The pick is the index of a menu entry.
  - A `Plan` is a failure message, a notice, Cancel, a crash into `handleError`, or a run of download jobs.
  - Each handler is also a method that carries out its steps against a `Disk`. Its contract says the resulting state and outcome are exactly those of running the handler's plan.
  - `Date.now()` is a `clock` parameter: the k-th `Date.now()` reading of a handler is `clock(k)`. The tiktok all-images batch reads the clock once, so all its names share `clock(0)`.

Some behaviour of the code as written, proved in the model:

- The size gate compares against `MAX_FILE_SIZE` (35 MiB) whatever `maxSize` the caller passes. The 10 MiB cap that `getSelectedOption` attaches only decides whether a probe is made (`Download.TooLargeAborts`). The comment beside `MAX_FILE_SIZE` says 50 MB; the value is 35 MiB, and the model follows the value.
- The domain test is a plain suffix test, so `notx.com` resolves to Twitter (`Config.NotXResolvesToTwitter`).
- The Kuaishou "all" batch downloads `original.videoUrl` and `original.atlas`, not the lists the menu was built from. Its first image has index 0, which is falsy, so that file name carries no index.
- The YouTube video sections keep only formats typed `video_with_audio` or `video`. An untyped mp4 format that the normalizer kept as a video is never offered.

## Model

| member | source | states |
|---|---|---|
| Functions.ExceedsLimit | utils/functions.js:22 | true exactly when a content length is known and exceeds 36700160 bytes (35 MiB); a NaN length never exceeds |
| Functions.CheckFileSize | utils/functions.js:15-27 | no size info exactly when the probe failed; otherwise `exceedsLimit` is the comparison above |
| Functions.ReplaceNonAlnum | utils/functions.js:47 | same length as the input; each ASCII letter or digit is kept, every other character becomes `_` |
| Functions.SanitizeContract | utils/functions.js:47 | the sanitized text has length min(n, 50) and holds only [A-Za-z0-9_], and each alphanumeric character of the input's first 50 keeps its position |
| Functions.Sanitize | utils/functions.js:47 | sanitizing succeeds exactly on strings (any other value has no `replace` and throws), giving the sanitized text |
| Functions.GenerateFilename | utils/functions.js:45-135 | an unknown platform gets `download_<ts>`; the inherited `__proto__` key is found by the lookup and throws; the tiktok generator never throws on non-null data |
| Functions.KnownLower | utils/functions.js:133 | the table's platform names are already lower case, so the lowered name selects them |
| Functions.TikTokNaming | utils/functions.js:109-114 | `generateFilename('tiktok', d)` is the tiktok name of `d`, with undefined data read as `{}` |
| Functions.TikTokExtRule | utils/functions.js:112 | a tiktok extension is `data.ext` when truthy, else mp3 for audio, jpg for image and mp4 for anything else |
| Functions.TikTokIndexRule | utils/functions.js:111 | no index gives no suffix; an index n gives the one-based suffix `_(n+1)` |
| Functions.TypedFilenameIndexOmitted | utils/functions.js:82-87 | the kuaishou/weibo name omits the index suffix when the index is absent or 0 (a truthiness test) |
| Functions.TypedFilenameIndexKept | utils/functions.js:82-87 | a positive index n does give the `_n` suffix |
| Functions.RednoteIndexOmitted | utils/functions.js:93-99 | the rednote name omits the index suffix when the index is absent or 0, after the sanitized quality that appears only when non-empty |
| Functions.RednoteIndexKept | utils/functions.js:93-99 | a positive rednote index n gives the `_n` suffix |
| Functions.InstagramIndexRule | utils/functions.js:78 | the instagram index defaults to 1 and is otherwise index + 1 |
| Functions.InstagramNaming | utils/functions.js:77-81 | `generateFilename('instagram', d)` for object data is `instagram_media_<index>_<ts>.<ext or jpg>` |
| Functions.KuaishouNaming | utils/functions.js:82-87 | `generateFilename('kuaishou', d)` is the typed name with prefix `kuaishou` |
| Functions.PinterestNaming | utils/functions.js:88-92 | `generateFilename('pinterest', d)` is the pinterest name: sanitized quality, timestamp, ext or jpg |
| Functions.SpotifyNaming | utils/functions.js:100-105 | `generateFilename('spotify', d)` is the spotify name: sanitized title, type, timestamp, ext or mp3 |
| Functions.YouTubeNaming | utils/functions.js:125-130 | `generateFilename('youtube', d)` is the youtube name: sanitized title and quality, then format, ext or mp4 |
| Functions.YouTubeFilenameTimeless | utils/functions.js:125-130 | the youtube name is the same at any two timestamps |
| Functions.TimestampInName | utils/functions.js:45-134 | every name other than youtube's, the `download_` fallback included, contains the printed timestamp |
| Functions.UnknownPlatformFilename | utils/functions.js:133-134 | a platform that is neither known nor an inherited key gets a name that succeeds and contains no `.`, so it has no extension |
| Functions.GetSelectedOption | utils/functions.js:137-214 | an unknown platform gets the selection unchanged; the inherited `constructor` gives `{}` and `__proto__` throws; a known one throws exactly on a null or undefined selection, else yields an object |
| Functions.ExtractorFields | utils/functions.js:162-209 | the tiktok option keeps exactly url, type and text; instagram url, index and ext; kuaishou url and type; pinterest url, quality and format; spotify url, type and format plus the audio-only cap; youtube url, type, quality and format plus the video-only cap |
| Functions.MaxSizeRule | utils/functions.js:137-214 | `maxSize` is 10485760 exactly for applemusic or spotify audio and youtube video; it is null for their other kinds and absent for every other platform |
| Functions.SelectedOptionUrl | utils/functions.js:137-214 | every extractor except bluesky's and rednote's passes the url through unchanged |
| Normalizer.SourceOf | utils/normalizer.js:8-9 | only the exact tag `v1` selects the v1 mapping |
| Normalizer.SplitVideoField | utils/normalizer.js:32-46 | the classification loop yields exactly the video entries and the image entries of the field |
| Normalizer.SplitIsPartition | utils/normalizer.js:34-45 | every entry lands in exactly one bucket: the buckets together are a permutation of the field, the image bucket holds only image urls and the video bucket none |
| Normalizer.SplitPreservesOrder | utils/normalizer.js:34-45 | classifying a concatenation concatenates the buckets, so relative order is kept |
| Normalizer.SplitSingle | utils/normalizer.js:35-44 | a one-entry field goes to the image bucket exactly when it is a string with an image marker |
| Normalizer.NormalizeTikTok | utils/normalizer.js:8-68 | throws only on null or undefined data; title, thumbnail, author and audio title are values or null, never undefined; a falsy title becomes null |
| Normalizer.TikTokV1Buckets | utils/normalizer.js:9-23 | v1: each bucket is the raw field when it is an array and empty otherwise; the audio title comes from `title_audio` alone |
| Normalizer.TikTokPrimaryClassifies | utils/normalizer.js:31-50 | primary with a `downloads` object: video is the non-image entries of the (wrapped) video field; a truthy `downloads.image` replaces the image bucket (wrapped), otherwise it is the reclassified entries; audio is the array or empty |
| Normalizer.TikTokPrimaryWithoutObject | utils/normalizer.js:25-53 | primary without a `downloads` object: an array `downloads` is all video; otherwise a top-level `video` is wrapped; audio and image are empty |
| Normalizer.TikTokAudioTitleFallback | utils/normalizer.js:65 | the audio title falls back from `title_audio` to `metadata.audio_title` to null |
| Normalizer.QualityEntry | utils/normalizer.js:84-86 | `x && {...}` then `filter(Boolean)` leaves one entry for a truthy url and none otherwise |
| Normalizer.NormalizeFacebook | utils/normalizer.js:76-110 | throws only for v1 on null data; primary `quality` is always `{}`; v1 has sd/hd keys and exactly one download per truthy sd/hd |
| Normalizer.FacebookV1Order | utils/normalizer.js:83-86 | v1: SD comes before HD, each with its own url |
| Normalizer.FacebookPrimaryPriority | utils/normalizer.js:90-104 | primary: an array as-is, else `downloads` (wrapped), else one entry per truthy sd/hd, SD first and HD last, each `{quality, url, resolution}` with its own url, else `[data]`; a non-object gives `[]` |
| Normalizer.NormalizeInstagram | utils/normalizer.js:118-143 | throws exactly for v1 on an array holding a null or undefined item; v1 maps items one for one, and a non-array gives `[]` |
| Normalizer.InstagramV1Items | utils/normalizer.js:119-126 | v1: every item becomes type `unknown` with url and thumbnail defaulting to null |
| Normalizer.InstagramPrimaryShapes | utils/normalizer.js:129-138 | primary: an array as-is; a singular `media` is wrapped; an object with a `url` is the only item; otherwise `[]` |
| Normalizer.IsVideoFormat | utils/normalizer.js:213 | the video filter throws on a null entry, accepts `type === 'video'` and rejects any other truthy type except `video_with_audio` |
| Normalizer.IsAudioFormat | utils/normalizer.js:216 | the audio filter throws on a null entry, accepts `type === 'audio'` and rejects any other truthy type |
| Normalizer.FilterFormats | utils/normalizer.js:212-216 | a filter result is never longer than its input |
| Normalizer.FilterFormatsKept | utils/normalizer.js:212-216 | the filter keeps only entries of its input that pass the bucket's test |
| Normalizer.FilterFormatsAppend | utils/normalizer.js:212-216 | filtering a concatenation concatenates the filtered parts, so the buckets are order-preserving filters |
| Normalizer.NormalizeFormatContract | utils/normalizer.js:182-204 | afterwards `format` is truthy; an existing `format` is unchanged; `extension` is copied to `ext` only when `ext` is missing; no other field changes |
| Normalizer.NormalizeFormatGivesString | utils/normalizer.js:188-202 | when the format-related fields are strings, the normalized `format` is a non-empty string |
| Normalizer.NormalizeFormatThrows | utils/normalizer.js:193-195 | `normalizeFormat` throws exactly when it must lower-case a `quality` that is not a string |
| Normalizer.NormalizeFormats | utils/normalizer.js:212-217 | the `map(normalizeFormat)` keeps the number of entries |
| Normalizer.FormatTestOnlyObjects | utils/normalizer.js:213-216 | only objects pass a bucket filter |
| Normalizer.NormalizeYouTube | utils/normalizer.js:151-220 | throws on null data; v1 has a null duration and at most one video and one audio; title and duration are never undefined |
| Normalizer.YouTubeBucketsAreFilters | utils/normalizer.js:165-219 | primary over an array of formats: each bucket is its filter followed by `normalizeFormat`, and is no longer than the formats |
| Normalizer.ToTrack | utils/normalizer.js:236-268 | a track's quality and format are always truthy; a missing quality becomes `unknown` |
| Normalizer.ToTracks | utils/normalizer.js:236-262 | the map throws exactly when an item is null or undefined; otherwise one track per item |
| Normalizer.NormalizeSpotify | utils/normalizer.js:228-279 | throws on null data; v1 author and album are null; title, author and album are never undefined |
| Normalizer.SpotifyPrimaryPriority | utils/normalizer.js:244-274 | primary takes the first array among `downloadLinks`, `downloads`, `formats`, else a bare `url` as one default/mp3 track, else nothing; the author falls back from `author` to `artist` to null |
| Normalizer.SpotifyFormatFallbacks | utils/normalizer.js:236-261 | `downloads` tracks take format, then ext, then mp3; `formats` tracks take ext, then format, then mp3; `downloadLinks` tracks take extension, then mp3 |
| Normalizer.Normalize | utils/normalizer.js:288-303 | an unknown platform name throws, and so does the inherited `__proto__`; `tiktok` dispatches to the tiktok normalizer |
| Normalizer.NormalizeIgnoresCase | utils/normalizer.js:297 | the platform name is looked up without regard to case |
| Choices.MakeEntry | utils/functions.js:219-483 | making a builder's entry throws exactly when the builder reads a property of a null or undefined item |
| Choices.Entries | utils/functions.js:222-227 | the `forEach` push gives one entry per item, in order, and throws exactly when some item's entry throws |
| Choices.List | utils/functions.js:221-222 | `const { k = [] } = data` then `forEach`: succeeds exactly on an absent list or an array |
| Choices.GuardedList | utils/functions.js:440-447 | an array is used as-is and an absent list is empty; any other value that passes the `length > 0` guard contributes nothing |
| Choices.Choices | utils/functions.js:485-486 | an unknown platform gets an empty menu; the inherited `__proto__` throws |
| Choices.TikTokMenuOrder | utils/functions.js:369-395 | all videos, then all audios, then all images, each in source order, and an all-images entry last exactly when there is more than one image |
| Choices.TikTokMenuLayout | utils/functions.js:369-395 | the tiktok menu's length and the position of every entry |
| Choices.SectionHeaders | utils/functions.js:442-453 | a section holds its header, first, exactly when its list is non-empty, and no other header |
| Choices.YouTubeSectionHasNoAll | utils/functions.js:447-452 | no youtube section contains the `'all'` sentinel |
| Choices.YouTubeMenuHeaders | utils/functions.js:439-481 | youtube headers appear exactly for non-empty buckets, in the order with-audio, video-only, audio-only, each at its position; no other header and no `'all'` |
| Choices.YouTubeSectionShape | utils/functions.js:442-453 | a youtube section is empty for an empty list, otherwise its header and one entry per item |
| Choices.ThreeSections | utils/functions.js:439-481 | three sections with distinct titles keep their headers' presence and order when put together |
| Choices.WeiboMenuShape | utils/functions.js:407-438 | weibo shows its Video header first whenever `hasVideo` holds (the default), even with no videos, and ends with `'all'` |
| Choices.AllSentinelLast | utils/functions.js:263-438 | the instagram, kuaishou, pinterest, rednote and weibo menus always end with the `'all'` sentinel |
| Choices.PushEntries | utils/functions.js:222-227 | the push loop appends exactly the entries of the list, or throws as they do |
| Choices.PrefixThrows | utils/functions.js:222-227 | once a prefix of the list throws, the whole `forEach` throws |
| Choices.PushSection | utils/functions.js:442-453 | a section is pushed (header, then entries) only when its list is non-empty |
| Choices.BuildTikTok | utils/functions.js:369-396 | the tiktok builder's pushes produce the tiktok menu |
| Choices.BuildMedia | utils/functions.js:278-355 | the kuaishou and rednote builders' pushes produce the two-section menu with `'all'` |
| Choices.BuildWeibo | utils/functions.js:407-438 | the weibo builder's pushes produce the weibo menu |
| Choices.BuildYouTube | utils/functions.js:439-482 | the youtube builder's pushes produce the three-section menu |
| Choices.BuildFlat | utils/functions.js:220-406 | the single-list builders push one entry per item, and pinterest and instagram add `'all'` |
| Choices.BuildDownloadChoices | utils/functions.js:216-487 | `buildDownloadChoices` computed step by step equals the menu function for every platform |
| Config.FirstMatchFrom | utils/config.js:155-167 | the row found is the first matching row at or after the start, and none means no row there matches |
| Config.Resolve | utils/config.js:154-169 | null exactly when no row matches; otherwise a matching row with no matching row before it |
| Config.ResolveIsFirst | utils/config.js:155-168 | a matching row after rows that do not match is the one returned |
| Config.MatchPlatform | utils/config.js:154-169 | the nested loops with early returns return the first matching platform, or null |
| Config.AnyDomainHit | utils/config.js:161-165 | the inner loop hits exactly when one of the row's domains passes the hostname test |
| Config.DomainHitIsSuffix | utils/config.js:162 | the domain test is exactly `endsWith`: the `=== domain` disjunct adds nothing |
| Config.AppleMusicCustomOnly | utils/config.js:87 | the Apple Music row matches exactly when the hostname contains `apple.com` and the url contains `music.apple.com`; its domain list plays no part |
| Config.DomainRowsIgnoreUrl | utils/config.js:160-165 | for a domain-matched row, the url plays no part |
| Config.ResolveIgnoresUrl | utils/config.js:154-169 | unless the hostname contains `apple.com`, the result depends on the hostname only |
| Config.ExactDomainResolves | utils/config.js:161-164 | a hostname equal to one of a row's domains resolves to that row whenever no earlier row matches |
| Config.NotXResolvesToTwitter | utils/config.js:162 | `notx.com` resolves to Twitter, since the suffix test has no label boundary |
| Download.RunToAmp | utils/download.js:9 | `[^&]+` taken greedily: the longest prefix without `&` |
| Download.TokenFrom | utils/download.js:9 | the leftmost match of `token=([^&]+)` at or after a position, or none when there is no match |
| Download.NoTokenGivesDefault | utils/download.js:9-24 | a url with no `token=` gets the default extension |
| Download.TokenRunsToAmp | utils/download.js:9 | the token is non-empty, comes from the first match and runs up to the next `&` or the end |
| Download.FirstTokenAt | utils/download.js:9 | the first position where the pattern matches is the one used |
| Download.OneSegmentGivesDefault | utils/download.js:12-13 | a token with fewer than two `.` segments gives the default |
| Download.OnlySecondSegmentDecoded | utils/download.js:13-15 | only segment 1 of the token is decoded: two decoders that agree on it give the same extension |
| Download.FilenameGivesLastSegment | utils/download.js:16-18 | a decoded string `filename` gives its last `.` segment in lower case, or the default when that is empty |
| Download.DecodeFailureGivesDefault | utils/download.js:15-24 | a failed decode or parse, a null payload, or a filename that is not a non-empty string gives the default, never a throw |
| Download.ClipWebpExample | utils/download.js:7-25 | a token `AAA.<payload>.BBB` whose payload decodes to `{"filename":"clip.webp"}` gives `webp` |
| Download.ProbeOnlyWithMaxSize | utils/download.js:29-30 | a HEAD request is sent exactly when `maxSize` is truthy, and earlier requests are kept |
| Download.TooLargeAborts | utils/download.js:29-35 | a probe over 35 MiB returns null without creating the directory, writing or sending the GET, whatever the `maxSize` argument says |
| Download.ProbeFailureDoesNotStop | utils/download.js:29-46 | a failed probe, an unknown length, a size at or under the cap, or a falsy `maxSize` goes on to create the directory and send the GET |
| Download.WriteTarget | utils/download.js:41-61 | the base directory is created only if absent; the file goes to `join(basePath, filename)` and its path is returned; a failed GET leaves the files unchanged; other paths keep their contents |
| Download.StopsAtFirstThrow | utils/download.js:62-65 | in a sequence of awaited downloads, a throw ends the run in the state that download left |
| Download.RunAllAppend | routes/instagram.js:72-82 | running `a + b` runs `a`, then `b` from where `a` left off unless `a` threw |
| Download.RunAllResults | routes/instagram.js:72-82 | a run that does not throw returns one result per job, in order |
| Download.Disk.DownloadFile | utils/download.js:27-66 | `downloadFile` updates the disk and the request log and returns the path, null or a throw, as the reference function says |
| Download.Disk.RunJobs | routes/pinterest.js:70-79 | awaiting `downloadFile` for each job in order reaches the state and results of the reference run |
| Download.Disk.Handle | routes/instagram.js:19-96 | carrying out a handler's plan reaches the state and outcome the plan defines |
| Routes.PickCancel | routes/tiktok.js:72-89 | Cancel, pushed last, is a valid pick, and picking it ends the handler with the filesystem unchanged |
| Routes.ExtName | utils/functions.js:79 | `ext or 'jpg'` on a string is never empty and is `ext` when `ext` is non-empty |
| Routes.Batch | routes/tiktok.js:95-110 | the jobs made before the first throw, in order, and whether one threw |
| Routes.BatchAllMade | routes/tiktok.js:95-110 | when every job can be made, the batch is one job per item, in order, with no throw |
| Routes.BatchFirstThrow | routes/tiktok.js:95-110 | the first item whose job cannot be made ends the batch: the earlier items are downloaded, then the handler throws |
| Routes.BatchPrefix | routes/tiktok.js:95-110 | a batch over a prefix that does not throw is a prefix of the batch |
| Routes.BatchStops | routes/tiktok.js:95-110 | a throw at item m leaves the jobs of the first m items |
| Routes.DownloadThrowEndsRun | routes/instagram.js:72-96 | a download that throws ends the handler in `handleError`: no later job is attempted |
| Routes.RunThenBatch | routes/kuaishou.js:75-92 | jobs already run, then a batch that makes every job: the outcome is the batch's, after the earlier results |
| Routes.DownloadOne | routes/pinterest.js:41-47 | a single `downloadFile` call ending the handler reaches the plan's state and outcome |
| Routes.DownloadEach | routes/pinterest.js:70-79 | the loop that makes and downloads the i-th job reaches the batch plan's state and outcome |
| TikTokRoute.Attempt | routes/tiktok.js:23-29 | an endpoint's attempt succeeds exactly on a response with truthy status and data |
| TikTokRoute.ImageExt | routes/tiktok.js:98-106 | the picker yields jpg, png or webp: jpg when `.jpeg`/`.jpg` occurs, png only with `.png`, webp only with `.webp` and no `.png` |
| TikTokRoute.ImageJob | routes/tiktok.js:95-109 | the all-images job can be made exactly for a string url (`toLowerCase` throws otherwise) |
| TikTokRoute.DownloadTikTok | routes/tiktok.js:8-139 | the handler step by step reaches the state and outcome of its plan |
| TikTokRoute.DownloadData | routes/tiktok.js:48-135 | the checks, the menu with Cancel and the pick after normalization reach the stage's answer |
| TikTokRoute.DownloadSelected | routes/tiktok.js:91-135 | the all-images loop or the single download reaches the selection's plan |
| TikTokRoute.PrimaryPreferred | routes/tiktok.js:14-29 | a usable primary response is normalized with the primary shape, and the v1 response is never read |
| TikTokRoute.FallbackToV1 | routes/tiktok.js:30-45 | otherwise the one v1 attempt decides, normalized with the v1 shape |
| TikTokRoute.BothFailCrash | routes/tiktok.js:39-45 | when neither response is usable the handler ends in `handleError`, with no prompt and no download |
| TikTokRoute.EmptyFails | routes/tiktok.js:48-52 | three empty buckets fail before any menu is built |
| TikTokRoute.MenuShown | routes/tiktok.js:66-84 | otherwise the menu is videos, audios, images, the all-images tail, then Cancel |
| TikTokRoute.DataMenuShown | routes/tiktok.js:66-84 | the same menu, stated on the normalized data |
| TikTokRoute.AllImagesBatch | routes/tiktok.js:91-110 | all-images downloads every url in order as `tiktok_<ts>_image_<i+1>.<ext>`, with one shared timestamp and no size cap |
| TikTokRoute.AllImagesStopsAtNonString | routes/tiktok.js:95-97 | a url that is not a string stops the batch there, after the earlier urls, and then throws |
| TikTokRoute.AllImagesEntryAt | utils/functions.js:389-394 | the all-images entry sits after every video, audio and image |
| TikTokRoute.AllImagesEntryDownloadsImages | routes/tiktok.js:91-110 | picking the all-images entry downloads exactly the images the menu was built from |
| TikTokRoute.SingleDownload | routes/tiktok.js:116-135 | a single pick downloads its url as `tiktok_<type>_<ts>.<ext>`: mp3 for audio, the picker's extension for image, mp4 otherwise; no size cap |
| TikTokRoute.SingleJobValue | routes/tiktok.js:117-135 | the single job is the entry's url with the tiktok name of its type and extension |
| TikTokRoute.CancelLast | routes/tiktok.js:72-89 | Cancel is always the last entry, and picking it downloads nothing |
| InstagramRoute.AddExtensions | routes/instagram.js:50-53 | the `map` throws exactly when an item is null or undefined; otherwise it is the items with their extensions |
| InstagramRoute.DownloadInstagram | routes/instagram.js:8-97 | the handler step by step reaches the state and outcome of its plan |
| InstagramRoute.DownloadMenu | routes/instagram.js:50-92 | with two or more items: the map, the menu with Cancel, the pick and the download reach the stage's answer |
| InstagramRoute.DownloadSelected | routes/instagram.js:71-92 | the `'all'` loop or the one picked download reaches the selection's plan |
| InstagramRoute.BadResponseFails | routes/instagram.js:19-23 | a falsy response or status fails with no prompt |
| InstagramRoute.EmptyMediaFails | routes/instagram.js:27-31 | an empty media list fails before any prompt |
| InstagramRoute.SingleItemShortcut | routes/instagram.js:39-48 | exactly one item is downloaded at once, with no prompt, as `instagram_media_1_<ts>.<sniffed ext>` |
| InstagramRoute.ItemJobValue | routes/instagram.js:73-81 | item i's job is its url named with position i+1 and its sniffed extension, with no size cap |
| InstagramRoute.MenuShown | routes/instagram.js:50-58 | with several items the menu is one entry per item carrying its sniffed extension, then `'all'`, then Cancel |
| InstagramRoute.MenuStageShown | routes/instagram.js:50-58 | the same menu, stated on the media list |
| InstagramRoute.MenuEntries | utils/functions.js:263-276 | the builder's entries, one per item with its index and extension |
| InstagramRoute.EntryOf | utils/functions.js:265-270 | the builder's entry for an item with its extension added |
| InstagramRoute.AllDownloadsEveryItem | routes/instagram.js:71-82 | `'all'` downloads every item in source order as `instagram_media_<i+1>_<ts>.<ext>` |
| InstagramRoute.PickOneItem | routes/instagram.js:83-92 | picking item i downloads it alone with its entry's extension and position i+1 |
| InstagramRoute.EntryJob | routes/instagram.js:84-91 | the job made from a menu entry uses the entry's url, index and extension |
| InstagramRoute.SelectedExtension | routes/instagram.js:85 | a selection's extension is its own `ext` when truthy and the sniffed one otherwise |
| InstagramRoute.BatchErrorStops | routes/instagram.js:72-96 | a download that throws in the `'all'` loop ends the handler, and later items are not attempted |
| InstagramRoute.CancelLast | routes/instagram.js:55-70 | Cancel is always the last entry, and picking it downloads nothing |
| PinterestRoute.DownloadPinterest | routes/pinterest.js:8-93 | the handler step by step reaches the state and outcome of its plan |
| PinterestRoute.DownloadMenu | routes/pinterest.js:49-89 | with two or more options: the menu with Cancel, the pick and the downloads reach the stage's answer |
| PinterestRoute.DownloadSelected | routes/pinterest.js:69-88 | the `'all'` loop or the one picked download reaches the selection's plan |
| PinterestRoute.SuccessNotStatus | routes/pinterest.js:19-23 | a falsy `success` fails whatever `status` says |
| PinterestRoute.StatusIgnored | routes/pinterest.js:19-23 | the `status` field plays no part at all |
| PinterestRoute.NoDownloadsFail | routes/pinterest.js:24-28 | missing data or an empty downloads list fails before any prompt |
| PinterestRoute.NonStringTitleCrashes | routes/pinterest.js:33 | a truthy title that is not a string ends in `handleError` (`trim` throws) |
| PinterestRoute.JobValue | routes/pinterest.js:73-78 | an option's job is its url, named from its sanitized quality and lower-cased format |
| PinterestRoute.NameValue | utils/functions.js:88-92 | the pinterest name of a quality and an extension, with their defaults |
| PinterestRoute.FormatlessThrows | routes/pinterest.js:76 | an option whose format is not a string cannot be downloaded (`toLowerCase` throws) |
| PinterestRoute.SingleShortcut | routes/pinterest.js:39-47 | exactly one option is downloaded at once, from its own url, with no prompt |
| PinterestRoute.MenuShown | routes/pinterest.js:49-53 | with several options the menu is each option itself, in order, then `'all'`, then Cancel |
| PinterestRoute.AllDownloadsEveryQuality | routes/pinterest.js:69-79 | `'all'` downloads every option in order, each with its own quality, format and clock reading |
| PinterestRoute.AllStopsAtBadEntry | routes/pinterest.js:70-79 | an option whose job cannot be made ends the `'all'` loop there, after the earlier options |
| PinterestRoute.PickOne | routes/pinterest.js:80-88 | picking option i downloads it alone |
| PinterestRoute.CancelLast | routes/pinterest.js:50-67 | Cancel is always the last entry, and picking it downloads nothing |
| KuaishouRoute.ImagesAllMade | routes/kuaishou.js:84-91 | the atlas loop never throws while making its jobs |
| KuaishouRoute.TypedName | utils/functions.js:82-87 | without an index the names are `kuaishou_video_<ts>.mp4` and `kuaishou_image_<ts>.jpg` |
| KuaishouRoute.FirstImageName | routes/kuaishou.js:89 | the first atlas image (index 0) gets no index suffix |
| KuaishouRoute.LaterImageName | routes/kuaishou.js:89 | every later atlas image carries its zero-based index |
| KuaishouRoute.DownloadAll | routes/kuaishou.js:71-92 | the `'all'` branch, the video and then the counting loop, reaches the state and outcome of its jobs |
| KuaishouRoute.DownloadVideo | routes/kuaishou.js:75-81 | the video step downloads the video when there is one |
| KuaishouRoute.DownloadKuaishou | routes/kuaishou.js:8-107 | the handler step by step reaches the state and outcome of its plan |
| KuaishouRoute.DownloadMedia | routes/kuaishou.js:40-103 | the availability tests, the menu with Cancel and the pick reach the stage's answer |
| KuaishouRoute.DownloadSelected | routes/kuaishou.js:71-103 | `'all'` or the typed single download reaches the selection's plan |
| KuaishouRoute.BadResponseFails | routes/kuaishou.js:19-28 | a falsy response or status fails, and so does a falsy `data` |
| KuaishouRoute.NothingToDownload | routes/kuaishou.js:43-46 | with neither a video nor images the handler only prints a notice, with no prompt and no download |
| KuaishouRoute.FlagsNeedOriginal | routes/kuaishou.js:40-41 | having a video needs `original.videoUrl` as well as the flag; having images needs a non-empty `original.atlas` |
| KuaishouRoute.ImagesNamed | routes/kuaishou.js:84-91 | every atlas image is downloaded, the first without an index and the others with theirs |
| KuaishouRoute.AllOrder | routes/kuaishou.js:71-92 | `'all'` downloads the video first, then each atlas image in order: 1 + atlas length jobs |
| KuaishouRoute.AllIgnoresMenuLists | routes/kuaishou.js:48-92 | `'all'` ignores the `downloads` and `images` lists the menu was built from |
| KuaishouRoute.PickByType | routes/kuaishou.js:93-103 | a video pick downloads as `kuaishou_video_<ts>.mp4`, an image pick as `kuaishou_image_<ts>.jpg`; any other type downloads nothing |
| KuaishouRoute.MenuShown | routes/kuaishou.js:48-64 | with a video and images the menu is the Videos section, the Images section, `'all'`, then Cancel |
| KuaishouRoute.Sections | utils/functions.js:278-309 | the two sections and `'all'`: each header at its position and one entry per video and per image |
| KuaishouRoute.VideoEntries | utils/functions.js:285-290 | the Videos section's entries, one per video |
| KuaishouRoute.ImageEntries | utils/functions.js:297-302 | the Images section's entries, one per image |
| KuaishouRoute.CancelLast | routes/kuaishou.js:52-69 | Cancel is always the last entry, and picking it downloads nothing |
| YouTubeRoute.TypeFilter | routes/youtube.js:42-43 | the filter succeeds exactly when no format is null; it keeps exactly the formats of the tag, all of them, and no more than the input has |
| YouTubeRoute.TypeFilterAppend | routes/youtube.js:42-43 | filtering a concatenation concatenates the filtered parts, so order is kept |
| YouTubeRoute.UntypedVideoDropped | routes/youtube.js:42-43 | a video format with neither type lands in neither section |
| YouTubeRoute.TypedVideoPlaced | routes/youtube.js:42-43 | each typed video format lands in exactly the section its type names |
| YouTubeRoute.DownloadYouTube | routes/youtube.js:8-80 | the handler step by step reaches the state and outcome of its plan |
| YouTubeRoute.DownloadFormats | routes/youtube.js:27-44 | the emptiness check and the two type filters reach the stage's answer |
| YouTubeRoute.DownloadMenu | routes/youtube.js:46-51 | building the menu through `buildDownloadChoices` and adding Cancel reach the menu stage's answer |
| YouTubeRoute.DownloadPicked | routes/youtube.js:53-75 | the pick from the shown menu and its one download reach the prompt's answer |
| YouTubeRoute.BadResponseFails | routes/youtube.js:19-31 | a falsy response or status fails, and so do normalized data with no formats |
| YouTubeRoute.MissingDataCrashes | routes/youtube.js:25 | a response whose `data` is null or absent ends in `handleError` |
| YouTubeRoute.NoDownloadAll | routes/youtube.js:46-51 | no menu offers `'all'`, and only the last entry is Cancel |
| YouTubeRoute.FormatsNoDownloadAll | routes/youtube.js:46-51 | the same, stated on the normalized buckets |
| YouTubeRoute.ChoicesObjects | utils/functions.js:439-482 | every choice the builder makes is a header or an entry carrying a format object |
| YouTubeRoute.SectionsObjects | utils/functions.js:447-452 | a section's entries are all format objects |
| YouTubeRoute.MenuShown | routes/youtube.js:42-51 | with all three lists non-empty the menu is the with-audio, video-only and whole-audio sections, then Cancel |
| YouTubeRoute.PickedFormat | routes/youtube.js:68-75 | a pick downloads its url as `<title>_<quality>.<format>`, each part sanitized and defaulted, with the 10 MiB cap for video and none for audio |
| YouTubeRoute.PickedName | routes/youtube.js:70-74 | the name a picked format gets from the title, its quality and its format |
| YouTubeRoute.NonStringTitleCrashes | routes/youtube.js:70-74 | a truthy title that is not a string makes every pick fail in `sanitize` |
| YouTubeRoute.CancelLast | routes/youtube.js:48-66 | Cancel is always the last entry, and picking it downloads nothing |
| SpotifyRoute.TrackEntries | routes/spotify.js:46-49 | one audio entry per track, in order, with its index; the map throws exactly when some format is not a string (`toUpperCase`) |
| SpotifyRoute.DownloadSpotify | routes/spotify.js:8-89 | the handler step by step reaches the state and outcome of its plan |
| SpotifyRoute.DownloadTracks | routes/spotify.js:46-84 | the map, the pushes, the pick and the download reach the stage's answer |
| SpotifyRoute.BadResponseFails | routes/spotify.js:19-31 | a falsy response or status fails, and so does an empty track list |
| SpotifyRoute.NonStringFormatCrashes | routes/spotify.js:47 | a track whose format is not a string makes the menu throw into `handleError` |
| SpotifyRoute.MenuShown | routes/spotify.js:46-61 | the menu is one entry per track, the cover entry exactly when the thumbnail is truthy, then Cancel, even for a single track |
| SpotifyRoute.PickedName | routes/spotify.js:79-83 | `<title>_<type>_<ts>.<format>` with the title sanitized and every part defaulted |
| SpotifyRoute.PickedSelection | routes/spotify.js:77-84 | a pick downloads its url under that name, with the 10 MiB cap for audio and none otherwise |
| SpotifyRoute.PickTrack | routes/spotify.js:77-84 | picking track i downloads its url as `<title>_audio_<ts>.<format>` with the 10 MiB cap |
| SpotifyRoute.TrackJob | routes/spotify.js:48-84 | the job made from a track entry |
| SpotifyRoute.PickCover | routes/spotify.js:51-84 | picking the cover downloads the thumbnail as `<title>_image_<ts>.jpg` with no size cap |
| SpotifyRoute.CoverJob | routes/spotify.js:54-84 | the job made from the cover entry |
| SpotifyRoute.NonStringTitleCrashes | routes/spotify.js:79-83 | a truthy title that is not a string makes every pick fail in `sanitize` |
| SpotifyRoute.CancelLast | routes/spotify.js:58-75 | Cancel is always the last entry, and picking it downloads nothing |
| Js.Or | utils/functions.js:51 | `a \|\| b` is `a` when truthy and `b` otherwise |
| Js.OrString | utils/functions.js:126 | on a string, the default replaces only the empty string |
| Js.OrNull | utils/normalizer.js:11 | `a \|\| null` is a truthy value or null, never undefined, and as truthy as `a` |
| Js.ListOrEmpty | utils/normalizer.js:15 | `Array.isArray(v) ? v : []` |
| Js.Wrap | utils/normalizer.js:33 | `Array.isArray(v) ? v : [v]`: a lone value becomes a one-element list |
| Js.Prop | routes/instagram.js:40-42 | reading a property throws exactly on null or undefined |
| Js.LengthOf | routes/pinterest.js:24 | `length` is the size of an array or a string; other values have a numeric length only as an object's own field |
| Js.Elements | routes/pinterest.js:70-71 | the counting loop reads `v[0] … v[length-1]`: an array's items, and nothing without a positive length |
| Js.Includes | utils/normalizer.js:213 | `includes` on a string is substring search, on an array membership, and throws on anything else |
| Js.ContainsIffOccurs | utils/normalizer.js:37 | substring search holds exactly when the text occurs at some position |
| Js.LowerOf | routes/pinterest.js:45 | `toLowerCase` succeeds exactly on strings |
| Js.LowerIdempotent | utils/normalizer.js:36 | lower-casing twice is lower-casing once |
| Js.Split | utils/download.js:12 | `split('.')` yields at least one piece and no piece holds the separator |
| Js.JoinSplit | utils/download.js:12 | joining the pieces of a split gives back the string |
| Js.SplitJoin | utils/download.js:12 | splitting a join of separator-free pieces gives back the pieces |
| Js.LastSegment | utils/download.js:17 | `split('.').pop()` holds no separator |
| Js.LastSegmentIsSuffix | utils/download.js:17 | the last segment is a suffix of the string |
| Js.NatToString | utils/functions.js:54 | a timestamp prints as a non-empty run of digits with no leading zero |
| Js.ParseNatToString | utils/functions.js:54 | reading the printed timestamp back gives the number |
| Js.NatToStringInjective | utils/functions.js:54 | two different timestamps never print the same |
| Js.AddOne | utils/functions.js:78 | `index + 1` adds on numbers and concatenates `1` on strings |

## Left out

- Network and streaming: `fetchJson`, the `axios.head` probe and the streamed GET are not modelled. Provider responses are inputs. The probe and the transfer are functions of the url (`Download.Net`).
- `checkFileSize`'s `sizeInMB` uses `toFixed`, a floating-point display value, and is left out. The content length is an integer or NaN (`None`).
- Numbers are integers: fractional JSON numbers and NaN values inside responses are not modelled.
- Functions.GenerateFilename, Choices.Choices, Normalizer.Normalize: the lower-cased platform name `constructor` is a key every object literal inherits, so the source's lookup finds `Object`. `generateFilename` and `buildDownloadChoices` then return `{}`, and `normalize` returns `Object(data)`. None of these is a string, a menu or a record, so the model gives a Throw and the contracts promise nothing for that name. `__proto__`, the other lower-case inherited key, throws in the source and in the model. `Functions.GetSelectedOption` models both names exactly. Every handler passes a literal platform name, so no handler reaches these cases.
- Js.LengthOf: a `length` field that is a string, a boolean, null or an array is read as no length. JavaScript's `>` and `<` would convert it to a number, so `{"length": "1"}` has length 1 there.
- Js.Elements: follows `Js.LengthOf`, so a counting loop over an object whose `length` converts to a positive number reads no elements here, where the source reads `v[0]` onwards.
- Choices.GuardedList: an object whose `length` converts to a positive number passes the source's `length > 0` guard and then throws at `forEach`. The model gives an empty section.
- KuaishouRoute.FlagsNeedOriginal: an `atlas` object whose `length` converts to a positive number sets `hasImages` in the source and drives the image loop. The model treats it as no images.
- Base64 decoding and `JSON.parse` are not modelled. They are the abstract partial `decode` parameter.
- Case mapping: `toLowerCase` is modelled on ASCII letters only. Other characters are kept as they are.
- Regular expressions are matched on Dafny characters: UTF-16 code-unit details are not modelled.
- `Date.now()` is the `clock` parameter. The model does not relate readings in time.
- `path.join` is `basePath + "/" + filename`, without path normalisation. `existsSync` is membership in the set of directories.
- Presentation is left out because it has no effect on what is downloaded: `handleError`'s messages, chalk colours, ora spinners, `console.log` lines, the prompt's page size and the text of menu labels. A handler that reaches `handleError` ends in `Crash`, which carries no message. Section header titles are kept so that headers can be told apart.
- Thrown error messages (`response?.message`, "Both default and v1 APIs failed") are not modelled. Only the fact that a throw reaches `handleError` is.
- The endpoint table in routes/api.js is not part of this model. Each endpoint's response is an input of its own.
- utils/input.js (the interactive shell), utils/helpers.js (banner, help and url check) and index.js (command-line wiring) are not part of this model.
- The handlers in routes/ other than tiktok, instagram, pinterest, kuaishou, youtube and spotify are not part of this model. Their naming and menus come from the shared builders and generators, which are modelled for every platform.
- Object key order is not observed. A JSON object is a map.
- Template-literal printing of objects is `[object Object]` and of arrays is the comma-joined items. Values other than strings, numbers, booleans, null and undefined do not otherwise appear in names.
- async/await is modelled as sequential calls, since the code awaits each step before the next.
- YouTubeRoute.MenuShown: states the menu only when all three sections are non-empty. Headers for empty sections are covered by `Choices.YouTubeMenuHeaders`.
- KuaishouRoute.MenuShown: states the menu only when there are both a video and images and both lists are non-empty arrays. The builder's behaviour in the other cases is covered by `Choices.BuildMedia` and `Choices.AllSentinelLast`.
- Normalizer.NormalizeYouTube, Normalizer.NormalizeSpotify and Normalizer.NormalizeTikTok: their own contracts state the error cases and that fields are never undefined. The contents of the buckets are stated by the lemmas listed beside them in the table.
