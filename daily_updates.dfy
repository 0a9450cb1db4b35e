/**
 * The daily-updates section: the video URL prop with its default, the
 * thumbnail derived from a YouTube URL, the article link, and the
 * play-once state that swaps the thumbnail for the player.
 */
module DailyUpdates {
  import opened Common
  import opened JsText

  const DefaultVideoId: string := "dQw4w9WgXcQ"
  const DefaultCover: string := "/images/media bg-cover.png"
  const ArticleId: string := "gulf-markets-mixed-ukraine-ceasefire"
  /** The substrings `getThumbnailUrl` looks for. */
  const YouTubeHost: string := "youtube.com"
  const ShortHost: string := "youtu.be"
  const VParam: string := "v="
  /** `youtube.com/watch?v=` */
  const WatchPattern: string := YouTubeHost + "/watch?" + VParam
  /** `youtu.be/` */
  const ShortPattern: string := ShortHost + "/"
  const WatchHead: string := "https://www."
  const ShortHead: string := "https://"
  /** `https://www.youtube.com/watch?v=` */
  const WatchPrefix: string := WatchHead + WatchPattern
  /** `https://youtu.be/` */
  const ShortPrefix: string := ShortHead + ShortPattern
  /** `https://www.youtube.com/watch?v=dQw4w9WgXcQ`. */
  const DefaultVideoUrl: string := WatchPrefix + DefaultVideoId

  /** The destructuring default: an absent `videoUrl` prop becomes the default video; an empty one stays empty. */
  function EffectiveVideoUrl(prop: Option<string>): (r: string)
    ensures prop.None? ==> r == DefaultVideoUrl
    ensures prop.Some? ==> r == prop.value
  {
    if prop.None? then DefaultVideoUrl else prop.value
  }

  /** The `maxresdefault` image of a YouTube video. */
  function ThumbnailFor(id: string): string
  {
    "https://img.youtube.com/vi/" + id + "/maxresdefault.jpg"
  }

  /** The `videoId` computed inside `getThumbnailUrl`; `None` is JavaScript's `undefined` or `null`. */
  function VideoId(url: string): (r: Option<string>)
    ensures Includes(url, WatchPattern) && r.Some? ==> !Includes(r.value, "&") && !Includes(r.value, VParam)
    ensures !Includes(url, WatchPattern) && r.Some? ==> !Includes(r.value, "?") && !Includes(r.value, ShortPattern)
    ensures !Includes(url, WatchPattern) && !Includes(url, ShortPattern) ==> r.None?
    ensures Includes(url, WatchPattern) || Includes(url, ShortPattern) ==> r.Some?
  {
    RecognisedPatterns(url);
    if Includes(url, WatchPattern) then
      match SplitSecond(url, VParam)
      case None => None
      case Some(a) =>
        var id := SplitHead(a, "&");
        assert id <= a;
        PrefixExcludes(a, id, VParam);
        Some(id)
    else if Includes(url, ShortPattern) then
      match SplitSecond(url, ShortPattern)
      case None => None
      case Some(a) =>
        var id := SplitHead(a, "?");
        PrefixExcludes(a, id, ShortPattern);
        Some(id)
    else None
  }

  /** `getThumbnailUrl()`: the thumbnail of a recognised, non-empty video id, the default cover otherwise. */
  function GetThumbnailUrl(url: string): (r: string)
    ensures url == "" ==> r == DefaultCover
    ensures !Includes(url, YouTubeHost) && !Includes(url, ShortHost) ==> r == DefaultCover
    ensures r != DefaultCover ==> VideoId(url).Some? && VideoId(url).value != "" && r == ThumbnailFor(VideoId(url).value)
    ensures url != "" && (Includes(url, YouTubeHost) || Includes(url, ShortHost)) && VideoId(url).Some? && VideoId(url).value != ""
      ==> r == ThumbnailFor(VideoId(url).value)
  {
    if url == "" then DefaultCover
    else if Includes(url, YouTubeHost) || Includes(url, ShortHost) then
      match VideoId(url)
      case Some(id) => if id != "" then ThumbnailFor(id) else DefaultCover
      case None => DefaultCover
    else DefaultCover
  }

  /** The host and the `v=` inside the watch pattern, and the host inside the short-link pattern. */
  lemma PatternParts()
    ensures OccursAt(WatchPattern, YouTubeHost, 0) && OccursAt(WatchPattern, VParam, 18)
    ensures OccursAt(ShortPattern, ShortHost, 0)
  {
    var path := YouTubeHost + "/watch?";
    assert WatchPattern == path + VParam;
    OccursAtStart(YouTubeHost, "/watch?");
    OccursInExtension(path, VParam, YouTubeHost, 0);
    OccursAtStart(VParam, "");
    assert VParam + "" == VParam;
    OccursShift(path, VParam, VParam, 0);
    OccursAtStart(ShortHost, "/");
  }

  /** A URL holding the watch pattern holds its host and `v=`; one holding the short pattern holds its host. */
  lemma RecognisedPatterns(url: string)
    ensures Includes(url, WatchPattern) ==> Includes(url, YouTubeHost) && Includes(url, VParam)
    ensures Includes(url, ShortPattern) ==> Includes(url, ShortHost)
  {
    PatternParts();
    IncludesIff(url, WatchPattern);
    IncludesIff(url, YouTubeHost);
    IncludesIff(url, VParam);
    IncludesIff(url, ShortPattern);
    IncludesIff(url, ShortHost);
    if Includes(url, WatchPattern) {
      var i: nat :| OccursAt(url, WatchPattern, i);
      OccursWithin(url, WatchPattern, YouTubeHost, i, 0);
      OccursWithin(url, WatchPattern, VParam, i, 18);
    }
    if Includes(url, ShortPattern) {
      var i: nat :| OccursAt(url, ShortPattern, i);
      OccursWithin(url, ShortPattern, ShortHost, i, 0);
    }
  }

  /**
   * Any URL holding `youtube.com/watch?v=`, whatever else it holds (a
   * `youtu.be/` as well): the id runs from just after the first `v=` to the
   * next `v=`, the next `&`, or the end, and a non-empty id gives its thumbnail.
   */
  lemma WatchUrlId(url: string)
    requires Includes(url, WatchPattern)
    ensures IndexOf(url, VParam).Some?
    ensures var k := IndexOf(url, VParam).value + |VParam|;
      var id := url[k..CutEnd(url, VParam, '&', k)];
      VideoId(url) == Some(id) && GetThumbnailUrl(url) == (if id == "" then DefaultCover else ThumbnailFor(id))
  {
    RecognisedPatterns(url);
    var k := IndexOf(url, VParam).value + |VParam|;
    SuffixHeadThenHead(url, VParam, '&', k);
    assert "&" == ['&'];
  }

  /**
   * Any URL holding `youtu.be/` but not the watch pattern: the id runs from
   * just after the first `youtu.be/` to the next `youtu.be/`, the next `?`, or
   * the end, and a non-empty id gives its thumbnail.
   */
  lemma ShortUrlId(url: string)
    requires !Includes(url, WatchPattern) && Includes(url, ShortPattern)
    ensures IndexOf(url, ShortPattern).Some?
    ensures var k := IndexOf(url, ShortPattern).value + |ShortPattern|;
      var id := url[k..CutEnd(url, ShortPattern, '?', k)];
      VideoId(url) == Some(id) && GetThumbnailUrl(url) == (if id == "" then DefaultCover else ThumbnailFor(id))
  {
    RecognisedPatterns(url);
    var k := IndexOf(url, ShortPattern).value + |ShortPattern|;
    SuffixHeadThenHead(url, ShortPattern, '?', k);
    assert "?" == ['?'];
  }

  /** The characters of a YouTube video id: letters, digits, `-` and `_`. */
  predicate IdChar(c: char)
  {
    ('a' <= c <= 'z') || ('A' <= c <= 'Z') || ('0' <= c <= '9') || c == '-' || c == '_'
  }

  predicate ValidVideoId(id: string)
  {
    id != [] && forall i :: 0 <= i < |id| ==> IdChar(id[i])
  }

  lemma WatchPrefixFacts()
    ensures |WatchHead| == 12 && |WatchPrefix| == 32
    ensures OccursAt(WatchPrefix, YouTubeHost, 12)
    ensures OccursAt(WatchPrefix, WatchPattern, 12)
    ensures OccursAt(WatchPrefix, VParam, 30)
  {
    var path := YouTubeHost + "/watch?";
    assert WatchPattern == path + VParam;
    OccursAtStart(YouTubeHost, "/watch?");
    OccursInExtension(path, VParam, YouTubeHost, 0);
    OccursShift(WatchHead, WatchPattern, YouTubeHost, 0);
    OccursAtStart(WatchPattern, "");
    assert WatchPattern + "" == WatchPattern;
    OccursShift(WatchHead, WatchPattern, WatchPattern, 0);
    OccursAtStart(VParam, "");
    assert VParam + "" == VParam;
    OccursShift(path, VParam, VParam, 0);
    OccursShift(WatchHead, WatchPattern, VParam, 18);
  }

  /** The only `=` of the watch prefix is its last character. */
  lemma WatchPrefixEquals()
    ensures |WatchPrefix| == 32
    ensures forall k :: 0 <= k < 30 ==> WatchPrefix[k] != '='
  {
    var path := YouTubeHost + "/watch?";
    assert WatchPattern == path + VParam;
    assert '=' !in WatchHead && '=' !in path;
    forall k | 0 <= k < 30
      ensures WatchPrefix[k] != '='
    {
      if k < 12 {
        assert WatchPrefix[k] == WatchHead[k];
      } else {
        assert WatchPrefix[k] == WatchPattern[k - 12] == path[k - 12];
      }
    }
  }

  lemma ShortPrefixFacts()
    ensures |ShortHead| == 8 && |ShortPrefix| == 17
    ensures OccursAt(ShortPrefix, ShortHost, 8)
    ensures OccursAt(ShortPrefix, ShortPattern, 8)
    ensures 'y' !in ShortHead && '?' !in ShortPrefix
    ensures WatchPattern[17] == '?'
  {
    OccursAtStart(ShortHost, "/");
    OccursShift(ShortHead, ShortPattern, ShortHost, 0);
    OccursAtStart(ShortPattern, "");
    assert ShortPattern + "" == ShortPattern;
    OccursShift(ShortHead, ShortPattern, ShortPattern, 0);
    assert '?' !in ShortHead && '?' !in ShortHost && '?' !in "/";
    var path := YouTubeHost + "/watch?";
    assert WatchPattern[17] == path[17] == "/watch?"[6];
  }

  /** Any URL that starts with the watch prefix reaches the `v=` split, which reads what follows the prefix. */
  lemma WatchSplit(rest: string)
    ensures Includes(WatchPrefix + rest, YouTubeHost)
    ensures Includes(WatchPrefix + rest, WatchPattern)
    ensures SplitSecond(WatchPrefix + rest, VParam) == Some(SplitHead(rest, VParam))
  {
    var url := WatchPrefix + rest;
    WatchPrefixFacts();
    WatchPrefixEquals();
    OccursInExtension(WatchPrefix, rest, YouTubeHost, 12);
    OccursInExtension(WatchPrefix, rest, WatchPattern, 12);
    OccursInExtension(WatchPrefix, rest, VParam, 30);
    IncludesIff(url, YouTubeHost);
    IncludesIff(url, WatchPattern);
    forall j: nat | j < 30
      ensures !OccursAt(url, VParam, j)
    {
      OccursInExtension(WatchPrefix, rest, VParam, j);
      OccursAtChar(WatchPrefix, VParam, j, 1);
    }
    SplitSecondAt(url, VParam, 30);
    assert url[32..] == rest;
  }

  /** An id followed by nothing or by `&...`: the `v=` split and then the `&` split isolate the id. */
  lemma IdBeforeAmpersand(id: string, tail: string)
    requires forall i :: 0 <= i < |id| ==> IdChar(id[i])
    requires tail == "" || tail[0] == '&'
    ensures SplitHead(SplitHead(id + tail, VParam), "&") == id
  {
    var rest := id + tail;
    forall j: nat | j < |id|
      ensures !OccursAt(rest, VParam, j)
    {
      if j + 2 <= |rest| {
        OccursAtChar(rest, VParam, j, 1);
        if j + 1 < |id| {
          assert rest[j + 1] == id[j + 1];
          assert IdChar(id[j + 1]);
        } else {
          assert rest[j + 1] == tail[0];
        }
      }
    }
    SplitHeadKeeps(rest, VParam, |id|);
    var a := SplitHead(rest, VParam);
    forall j: nat | j < |id|
      ensures !OccursAt(a, "&", j)
    {
      assert a[j] == a[..|id|][j] == id[j];
      assert IdChar(id[j]);
    }
    if |id| < |a| {
      assert a <= rest;
      assert a[|id|] == rest[|id|] == tail[0];
      assert a[|id|..|id| + 1] == "&";
    }
    SplitHeadAt(a, "&", |id|);
  }

  /** A watch URL whose video id is non-empty (the `if (videoId)` test) yields that id's thumbnail. */
  lemma WatchThumbnailOf(rest: string, id: string)
    requires SplitHead(SplitHead(rest, VParam), "&") == id && id != ""
    ensures GetThumbnailUrl(WatchPrefix + rest) == ThumbnailFor(id)
  {
    WatchSplit(rest);
    assert VideoId(WatchPrefix + rest) == Some(id);
  }

  /**
   * A watch URL `https://www.youtube.com/watch?v=<id>`, optionally followed by
   * further `&`-separated parameters, yields the thumbnail of `<id>`.
   */
  lemma WatchUrlThumbnail(id: string, tail: string)
    requires ValidVideoId(id)
    requires tail == "" || tail[0] == '&'
    ensures GetThumbnailUrl(WatchPrefix + (id + tail)) == ThumbnailFor(id)
  {
    IdBeforeAmpersand(id, tail);
    WatchThumbnailOf(id + tail, id);
  }

  /** Any URL that starts with the short-link prefix and has no `?` reaches the `youtu.be/` split. */
  lemma ShortSplit(rest: string)
    requires forall i :: 0 <= i < |rest| ==> rest[i] != '?'
    ensures Includes(ShortPrefix + rest, ShortHost)
    ensures !Includes(ShortPrefix + rest, WatchPattern)
    ensures SplitSecond(ShortPrefix + rest, ShortPattern) == Some(SplitHead(rest, ShortPattern))
  {
    var url := ShortPrefix + rest;
    ShortPrefixFacts();
    forall i | 0 <= i < |url|
      ensures url[i] != '?'
    {
      if i < 17 {
        assert url[i] == ShortPrefix[i];
      } else {
        assert url[i] == rest[i - 17];
      }
    }
    MissingCharExcludes(url, WatchPattern, 17);
    OccursInExtension(ShortPrefix, rest, ShortHost, 8);
    OccursInExtension(ShortPrefix, rest, ShortPattern, 8);
    IncludesIff(url, ShortHost);
    forall j: nat | j < 8
      ensures !OccursAt(url, ShortPattern, j)
    {
      OccursInExtension(ShortPrefix, rest, ShortPattern, j);
      OccursAtChar(ShortPrefix, ShortPattern, j, 0);
      assert ShortPrefix[j] == ShortHead[j];
    }
    SplitSecondAt(url, ShortPattern, 8);
    assert url[17..] == rest;
  }

  /** A video id has no `?`, so `split('?')[0]` leaves it whole. */
  lemma IdBeforeQuery(id: string)
    requires forall i :: 0 <= i < |id| ==> IdChar(id[i])
    ensures forall i :: 0 <= i < |id| ==> id[i] != '?'
    ensures SplitHead(SplitHead(id, ShortPattern), "?") == id
  {
    forall j: nat | j < |id|
      ensures !OccursAt(id, "?", j) && !OccursAt(id, ShortPattern, j)
    {
      OccursAtChar(id, "?", j, 0);
      OccursAtChar(id, ShortPattern, j, 5);
      assert IdChar(id[j]);
      assert j + 5 < |id| ==> IdChar(id[j + 5]);
    }
    SplitHeadAt(id, ShortPattern, |id|);
    SplitHeadAt(id, "?", |id|);
  }

  /** A short link `https://youtu.be/<id>` yields the thumbnail of `<id>`. */
  lemma ShortUrlThumbnail(id: string)
    requires ValidVideoId(id)
    ensures GetThumbnailUrl(ShortPrefix + id) == ThumbnailFor(id)
  {
    IdBeforeQuery(id);
    ShortSplit(id);
    assert VideoId(ShortPrefix + id) == Some(id);
  }

  /** The default prop shows the thumbnail of video `dQw4w9WgXcQ`. */
  lemma DefaultVideoThumbnail()
    ensures GetThumbnailUrl(EffectiveVideoUrl(None)) == ThumbnailFor(DefaultVideoId)
  {
    assert ValidVideoId(DefaultVideoId);
    WatchUrlThumbnail(DefaultVideoId, "");
    assert DefaultVideoId + "" == DefaultVideoId;
  }

  /** A watch URL whose `v=` parameter is empty falls back to the default cover. */
  lemma EmptyWatchIdFallsBack(tail: string)
    requires tail == "" || tail[0] == '&'
    ensures GetThumbnailUrl(WatchPrefix + tail) == DefaultCover
  {
    WatchSplit(tail);
    SplitHeadKeeps(tail, VParam, 0);
    var a := SplitHead(tail, VParam);
    if a != [] {
      assert a <= tail;
      assert a[0..1] == [tail[0]] == "&";
    }
    SplitHeadAt(a, "&", 0);
  }

  /** Distinct video ids have distinct thumbnails, and the id can be read back from the thumbnail. */
  lemma ThumbnailDeterminesId(id: string)
    ensures var t := ThumbnailFor(id); t[27..|t| - 18] == id
  {
    var t := ThumbnailFor(id);
    assert |t| == 27 + |id| + 18;
    assert t[27..|t| - 18] == id;
  }

  /** `/articles/${articleId}`. */
  function ArticleUrl(id: string): (r: string)
    ensures |r| == 10 + |id| && r[..10] == "/articles/" && r[10..] == id
  {
    "/articles/" + id
  }

  /** What the media area shows. */
  datatype MediaView = Thumbnail(src: string) | Player(url: string) | BlankPlayer

  /** The media area: the clickable thumbnail until played, then the player when the URL is non-empty. */
  function View(isPlaying: bool, url: string): (r: MediaView)
    ensures !isPlaying <==> r.Thumbnail?
    ensures r.Thumbnail? ==> r.src == GetThumbnailUrl(url)
    ensures r.Player? ==> r.url == url && url != ""
    ensures isPlaying && url == "" ==> r == BlankPlayer
  {
    if !isPlaying then Thumbnail(GetThumbnailUrl(url))
    else if url != "" then Player(url) else BlankPlayer
  }

  /** The section instance: the resolved video URL and whether playback has started. */
  class VideoPanel {
    const videoUrl: string
    var isPlaying: bool

    constructor (prop: Option<string>)
      ensures videoUrl == EffectiveVideoUrl(prop) && !isPlaying
    {
      videoUrl := EffectiveVideoUrl(prop);
      isPlaying := false;
    }

    /** `handlePlay`: starts playback; there is no way back to the thumbnail. */
    method HandlePlay()
      modifies this
      ensures isPlaying
    {
      isPlaying := true;
    }

    /** What the media area shows now. */
    function CurrentView(): (r: MediaView)
      reads this
      ensures !isPlaying ==> r == Thumbnail(GetThumbnailUrl(videoUrl))
      ensures isPlaying ==> r == (if videoUrl != "" then Player(videoUrl) else BlankPlayer)
    {
      View(isPlaying, videoUrl)
    }
  }
}
