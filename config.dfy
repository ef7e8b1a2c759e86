/** The platform table and resolver of utils/config.js: `PLATFORM_CONFIG`
    as an ordered table and `matchPlatform` as a first-match search over it. */
module Config {
  import opened Wrappers
  import opened Js

  /** One row of `PLATFORM_CONFIG`. `custom` marks the row whose
      `customMatch` predicate replaces the domain test (Apple Music's). */
  datatype Platform = Platform(name: string, command: string, alias: Option<string>,
                               domains: seq<string>, mediaType: string, custom: bool)

  /** `PLATFORM_CONFIG`, in its order. */
  const Table: seq<Platform> := [
    Platform("TikTok", "tiktok", None, ["tiktok.com"], "video", false),
    Platform("Facebook", "facebook", Some("fb"), ["facebook.com", "fb.watch"], "video", false),
    Platform("Instagram", "instagram", Some("ig"), ["instagram.com"], "media", false),
    Platform("Twitter", "twitter", Some("tw"), ["twitter.com", "x.com"], "video", false),
    Platform("Douyin", "douyin", Some("dy"), ["douyin.com"], "video", false),
    Platform("Spotify", "spotify", Some("sp"), ["spotify.com"], "track", false),
    Platform("Pinterest", "pinterest", Some("pin"), ["pinterest.com", "pin.it"], "pin", false),
    Platform("Apple Music", "applemusic", Some("am"), ["music.apple.com"], "track", true),
    Platform("YouTube", "youtube", Some("yt"), ["youtube.com", "youtu.be"], "video", false),
    Platform("CapCut", "capcut", Some("cc"), ["capcut.com"], "video", false),
    Platform("Bluesky", "bluesky", Some("bsky"), ["bsky.app", "bsky.social"], "post", false),
    Platform("RedNote/Xiaohongshu", "rednote", Some("xhs"), ["xiaohongshu.com", "xhslink.com"], "post", false),
    Platform("Threads", "threads", None, ["threads.net"], "video", false),
    Platform("Kuaishou", "kuaishou", Some("ks"), ["kuaishou.com", "ksurl.cn"], "media", false),
    Platform("Weibo", "weibo", Some("wb"), ["weibo.com", "weibo.cn"], "media", false)
  ]

  /** Apple Music's `customMatch(hostname, url)`. */
  predicate AppleMusicRule(hostname: string, url: string) {
    Contains(hostname, "apple.com") && Contains(url, "music.apple.com")
  }

  /** `hostname.endsWith(domain) || hostname === domain`. */
  predicate DomainHit(hostname: string, domain: string) {
    EndsWith(hostname, domain) || hostname == domain
  }

  /** The test `matchPlatform` applies to one row. */
  predicate Matches(p: Platform, hostname: string, url: string) {
    if p.custom then AppleMusicRule(hostname, url)
    else exists d :: d in p.domains && DomainHit(hostname, d)
  }

  /** The first row at or after `i` whose test passes. */
  function FirstMatchFrom(hostname: string, url: string, i: nat): (r: Option<nat>)
    requires i <= |Table|
    ensures r.Some? ==> (i <= r.value < |Table| && Matches(Table[r.value], hostname, url)
      && forall j :: i <= j < r.value ==> !Matches(Table[j], hostname, url))
    ensures r.None? ==> forall j :: i <= j < |Table| ==> !Matches(Table[j], hostname, url)
    decreases |Table| - i
  {
    if i == |Table| then None
    else if Matches(Table[i], hostname, url) then Some(i)
    else FirstMatchFrom(hostname, url, i + 1)
  }

  /** `matchPlatform(hostname, url)` as a value: the first matching row, or
      null. */
  function Resolve(hostname: string, url: string): (r: Option<Platform>)
    ensures r.None? <==> forall j :: 0 <= j < |Table| ==> !Matches(Table[j], hostname, url)
    ensures r.Some? ==> exists i :: (0 <= i < |Table| && Table[i] == r.value && Matches(Table[i], hostname, url)
      && forall j :: 0 <= j < i ==> !Matches(Table[j], hostname, url))
  {
    match FirstMatchFrom(hostname, url, 0)
    case None => None
    case Some(i) => Some(Table[i])
  }

  /** A row that matches after rows that do not is the one resolved. */
  lemma ResolveIsFirst(hostname: string, url: string, i: nat)
    requires i < |Table| && Matches(Table[i], hostname, url)
    requires forall j :: 0 <= j < i ==> !Matches(Table[j], hostname, url)
    ensures Resolve(hostname, url) == Some(Table[i])
  {
    var k := FirstMatchFrom(hostname, url, 0);
    assert k.Some?;
    assert k.value == i;
  }

  /** `matchPlatform`: nested loops over the rows and their domains, with
      early returns. */
  method MatchPlatform(hostname: string, url: string) returns (r: Option<Platform>)
    ensures r == Resolve(hostname, url)
  {
    var i := 0;
    while i < |Table|
      invariant 0 <= i <= |Table|
      invariant forall j :: 0 <= j < i ==> !Matches(Table[j], hostname, url)
    {
      var p := Table[i];
      if p.custom {
        if AppleMusicRule(hostname, url) {
          ResolveIsFirst(hostname, url, i);
          return Some(p);
        }
      } else {
        var hit := AnyDomainHit(hostname, p.domains);
        if hit {
          ResolveIsFirst(hostname, url, i);
          return Some(p);
        }
      }
      i := i + 1;
    }
    return None;
  }

  /** The inner loop over one row's domains, which returns at the first
      hit. */
  method AnyDomainHit(hostname: string, domains: seq<string>) returns (hit: bool)
    ensures hit <==> exists d :: d in domains && DomainHit(hostname, d)
  {
    var k := 0;
    while k < |domains|
      invariant 0 <= k <= |domains|
      invariant forall m :: 0 <= m < k ==> !DomainHit(hostname, domains[m])
    {
      if EndsWith(hostname, domains[k]) || hostname == domains[k] {
        assert DomainHit(hostname, domains[k]);
        return true;
      }
      k := k + 1;
    }
    return false;
  }

  /** The `=== domain` disjunct adds nothing: the domain test is a plain
      suffix test with no label boundary. */
  lemma DomainHitIsSuffix(hostname: string, domain: string)
    ensures DomainHit(hostname, domain) <==> EndsWith(hostname, domain)
  {
    if hostname == domain {
      assert hostname[|hostname| - |domain|..] == hostname;
    }
  }

  /** Apple Music is matched only by its predicate: its own domain as the
      hostname does not match unless the url contains `music.apple.com`,
      and a hostname that merely contains `apple.com` does. */
  lemma AppleMusicCustomOnly(hostname: string, url: string)
    ensures Matches(Table[7], hostname, url) <==> Contains(hostname, "apple.com") && Contains(url, "music.apple.com")
  {
  }

  /** For the rows matched by domain, the url plays no part. */
  lemma DomainRowsIgnoreUrl(hostname: string, url1: string, url2: string, i: nat)
    requires i < |Table| && !Table[i].custom
    ensures Matches(Table[i], hostname, url1) <==> Matches(Table[i], hostname, url2)
  {
  }

  /** Unless the hostname contains `apple.com`, the resolved platform depends
      on the hostname only. */
  lemma {:induction false} ResolveIgnoresUrl(hostname: string, url1: string, url2: string)
    requires !Contains(hostname, "apple.com")
    ensures Resolve(hostname, url1) == Resolve(hostname, url2)
  {
    assert forall j :: 0 <= j < |Table| ==> (Matches(Table[j], hostname, url1) <==> Matches(Table[j], hostname, url2));
    var a := FirstMatchFrom(hostname, url1, 0);
    if a.Some? {
      ResolveIsFirst(hostname, url2, a.value);
    }
  }

  /** A hostname equal to one of a domain-matched row's domains resolves to
      that row whenever no earlier row matches. */
  lemma ExactDomainResolves(i: nat, k: nat, url: string)
    requires i < |Table| && !Table[i].custom && k < |Table[i].domains|
    requires forall j :: 0 <= j < i ==> !Matches(Table[j], Table[i].domains[k], url)
    ensures Resolve(Table[i].domains[k], url) == Some(Table[i])
  {
    var d := Table[i].domains[k];
    assert DomainHit(d, d);
    ResolveIsFirst(d, url, i);
  }

  lemma {:induction false} ShorterNeverContains(s: string, sub: string)
    requires |s| < |sub|
    ensures !Contains(s, sub)
    decreases |s|
  {
    if s != [] {
      ShorterNeverContains(s[1..], sub);
    }
  }

  /** `notx.com` ends with `x.com`, so it resolves to Twitter. */
  lemma NotXResolvesToTwitter(url: string)
    ensures Resolve("notx.com", url) == Some(Table[3])
  {
    NotXSkipsEarlierRows(url);
    NotXMatchesTwitter(url);
    ResolveIsFirst("notx.com", url, 3);
  }

  lemma NotXSkipsEarlierRows(url: string)
    ensures forall j :: 0 <= j < 3 ==> !Matches(Table[j], "notx.com", url)
  {
    forall j | 0 <= j < 3 ensures !Matches(Table[j], "notx.com", url) {
    }
  }

  lemma NotXMatchesTwitter(url: string)
    ensures Matches(Table[3], "notx.com", url)
  {
    ShorterNeverContains("notx.com", "apple.com");
    assert DomainHit("notx.com", "x.com");
  }
}
