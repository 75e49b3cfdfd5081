/** The first view (src/components/sections/Hero.tsx): the video id taken from a YouTube
    link, the choice of background (video, YouTube embed or image), and the headline
    drawn in two parts around its first 、.

    `extractYouTubeId` matches
    `^.*(?:youtu.be\/|v\/|u\/\w\/|embed\/|watch\?v=|&v=)([^#&?]*).*` and keeps the
    group when it is eleven characters long. The model follows the way the regular
    expression engine finds the match: the greedy `.*` (which stops at the first line
    terminator) backs off one character at a time from the longest prefix, so the
    marker chosen is the last one that starts before the first line terminator; the six
    markers begin with six different characters, so at most one fits at a position; and
    the group then takes every character up to the first `#`, `&` or `?`. */
module Hero {
  import opened Js

  // ---------------------------------------------------------------------------------
  // extractYouTubeId

  /** What `.` does not match. */
  predicate IsLineTerminator(c: char)
  {
    c == '\n' || c == '\r' || c == '\U{2028}' || c == '\U{2029}'
  }

  /** `\w` */
  predicate IsWordChar(c: char)
  {
    ('a' <= c <= 'z') || ('A' <= c <= 'Z') || ('0' <= c <= '9') || c == '_'
  }

  /** What ends the captured group. */
  predicate IsStop(c: char)
  {
    c == '#' || c == '&' || c == '?'
  }

  /** `s[k..]` begins with `pat`. */
  predicate StartsAt(s: string, k: nat, pat: string)
  {
    k + |pat| <= |s| && s[k..k + |pat|] == pat
  }

  /** The length of the marker alternative that matches at `k`, if one does. */
  function MarkerAt(s: string, k: nat): (r: Option<nat>)
    ensures r.Some? ==> 2 <= r.value && k + r.value <= |s|
    ensures r.Some? ==> s[k + r.value - 1] == '/' || s[k + r.value - 1] == '='
  {
    if k + 9 <= |s| && s[k..k + 5] == "youtu" && !IsLineTerminator(s[k + 5]) && s[k + 6..k + 9] == "be/" then
      assert s[k + 8] == s[k + 6..k + 9][2];
      Some(9)
    else if StartsAt(s, k, "v/") then
      StartsAtLast(s, k, "v/");
      Some(2)
    else if k + 4 <= |s| && s[k] == 'u' && s[k + 1] == '/' && IsWordChar(s[k + 2]) && s[k + 3] == '/' then Some(4)
    else if StartsAt(s, k, "embed/") then
      StartsAtLast(s, k, "embed/");
      Some(6)
    else if StartsAt(s, k, "watch?v=") then
      StartsAtLast(s, k, "watch?v=");
      Some(8)
    else if StartsAt(s, k, "&v=") then
      StartsAtLast(s, k, "&v=");
      Some(3)
    else None
  }

  /** Where `pat` starts at `k`, its last character sits at `k + |pat| - 1`. */
  lemma StartsAtLast(s: string, k: nat, pat: string)
    requires pat != [] && StartsAt(s, k, pat)
    ensures s[k + |pat| - 1] == pat[|pat| - 1]
  {
    assert s[k + |pat| - 1] == s[k..k + |pat|][|pat| - 1];
  }

  /** The first line terminator's position, or `|s|`: how far `^.*` can reach. */
  function LineEnd(s: string): (k: nat)
    ensures k <= |s|
    ensures forall i :: 0 <= i < k ==> !IsLineTerminator(s[i])
    ensures k < |s| ==> IsLineTerminator(s[k])
    decreases |s|
  {
    if s == [] then 0
    else if IsLineTerminator(s[0]) then 0
    else
      var k := 1 + LineEnd(s[1..]);
      assert forall i :: 1 <= i < k ==> s[i] == s[1..][i - 1];
      k
  }

  /** The last position at or before `k` where a marker matches. */
  function LastMarkerFrom(s: string, k: nat): (r: Option<nat>)
    ensures r.Some? ==> r.value <= k && MarkerAt(s, r.value).Some?
    ensures r.Some? ==> forall j :: r.value < j <= k ==> MarkerAt(s, j).None?
    ensures r.None? ==> forall j :: 0 <= j <= k ==> MarkerAt(s, j).None?
  {
    if MarkerAt(s, k).Some? then Some(k)
    else if k == 0 then None
    else LastMarkerFrom(s, k - 1)
  }

  /** The end of the run of non-stop characters that starts at `j`. */
  function RunEnd(s: string, j: nat): (e: nat)
    requires j <= |s|
    ensures j <= e <= |s|
    ensures forall i :: j <= i < e ==> !IsStop(s[i])
    ensures e < |s| ==> IsStop(s[e])
    decreases |s| - j
  {
    if j == |s| || IsStop(s[j]) then j else RunEnd(s, j + 1)
  }

  /** The group of the match, if the regular expression matches at all. */
  function Captured(url: string): Option<string>
  {
    match LastMarkerFrom(url, LineEnd(url))
    case None => None
    case Some(k) =>
      var start := k + MarkerAt(url, k).value;
      Some(url[start..RunEnd(url, start)])
  }

  /** The video id: the group, when it has eleven characters. */
  function ExtractYouTubeId(url: string): (r: Option<string>)
    ensures r.Some? ==> |r.value| == 11
    ensures r.Some? ==> forall i :: 0 <= i < 11 ==> !IsStop(r.value[i])
    ensures r.Some? ==> exists k :: 0 <= k <= LineEnd(url) && MarkerAt(url, k).Some?
  {
    var g := Captured(url);
    if g.Some? && |g.value| == 11 then g else None
  }

  /** A link in which no marker occurs has no id, and neither has one whose markers all
      come after a line break. */
  lemma NoMarkerNoId(url: string)
    requires forall k :: 0 <= k <= LineEnd(url) ==> MarkerAt(url, k).None?
    ensures ExtractYouTubeId(url).None?
  {
  }

  /** The characters a YouTube video id is made of. */
  predicate IsIdChar(c: char)
  {
    IsWordChar(c) || c == '-'
  }

  const ShortLinkPrefix := "https://youtu.be/"

  /** A marker cannot start in the id part of a short link, or between the
      `youtu.be/` marker and the id: every marker ends in `/` or `=`, and those occur
      only in the fixed prefix. */
  lemma NoMarkerAfterShortMarker(id: string, j: nat)
    requires |id| == 11 && forall i :: 0 <= i < |id| ==> IsIdChar(id[i])
    requires 8 < j <= |ShortLinkPrefix + id|
    ensures MarkerAt(ShortLinkPrefix + id, j).None?
  {
    var s := ShortLinkPrefix + id;
    assert forall i :: 17 <= i < |s| ==> s[i] == id[i - 17];
    if j >= 16 {
      // a marker ends in `/` or `=`, and no id character is either
      assert forall i :: j < i < |s| ==> IsIdChar(s[i]);
      NoMarkerWithoutEnd(s, j);
    } else {
      assert s[9..17] == "outu.be/";
      assert s[j] == "outu.be/"[j - 9] && s[j + 1] == "outu.be/"[j - 8];
    }
  }

  /** No marker starts at `j` when no `/` and no `=` follows it. */
  lemma NoMarkerWithoutEnd(s: string, j: nat)
    requires forall i :: j < i < |s| ==> s[i] != '/' && s[i] != '='
    ensures MarkerAt(s, j).None?
  {
  }

  /** The short link of any id is read back as that id. */
  lemma ShortLinkRoundTrip(id: string)
    requires |id| == 11 && forall i :: 0 <= i < |id| ==> IsIdChar(id[i])
    ensures ExtractYouTubeId(ShortLinkPrefix + id) == Some(id)
  {
    var s := ShortLinkPrefix + id;
    ShortLinkMarker(id);
    ShortLinkGroup(id);
    assert Captured(s) == Some(s[17..RunEnd(s, 17)]);
    assert s[17..RunEnd(s, 17)] == id;
    assert Captured(s) == Some(id);
  }

  /** In a short link the match uses the `youtu.be/` marker at position 8. */
  lemma ShortLinkMarker(id: string)
    requires |id| == 11 && forall i :: 0 <= i < |id| ==> IsIdChar(id[i])
    ensures var s := ShortLinkPrefix + id;
      LastMarkerFrom(s, LineEnd(s)) == Some(8) && MarkerAt(s, 8) == Some(9)
  {
    var s := ShortLinkPrefix + id;
    assert forall i :: 17 <= i < |s| ==> s[i] == id[i - 17];
    LineEndNone(s);
    assert s[8..13] == "youtu" && s[14..17] == "be/";
    forall j | 8 < j <= |s|
      ensures MarkerAt(s, j).None?
    {
      NoMarkerAfterShortMarker(id, j);
    }
    LastMarkerAt(s, 8, |s|);
  }

  /** The group that follows the marker is the whole id. */
  lemma ShortLinkGroup(id: string)
    requires |id| == 11 && forall i :: 0 <= i < |id| ==> IsIdChar(id[i])
    ensures var s := ShortLinkPrefix + id;
      RunEnd(s, 17) == |s| && s[17..] == id
  {
    var s := ShortLinkPrefix + id;
    assert forall i :: 17 <= i < |s| ==> s[i] == id[i - 17];
    RunEndNone(s, 17);
  }

  lemma {:induction false} LineEndNone(s: string)
    requires forall i :: 0 <= i < |s| ==> !IsLineTerminator(s[i])
    ensures LineEnd(s) == |s|
    decreases |s|
  {
    if s != [] {
      LineEndNone(s[1..]);
    }
  }

  lemma {:induction false} RunEndNone(s: string, j: nat)
    requires j <= |s| && forall i :: j <= i < |s| ==> !IsStop(s[i])
    ensures RunEnd(s, j) == |s|
    decreases |s| - j
  {
    if j < |s| {
      RunEndNone(s, j + 1);
    }
  }

  /** The search from `k` down stops at `m` when a marker matches at `m` and none above. */
  lemma {:induction false} LastMarkerAt(s: string, m: nat, k: nat)
    requires m <= k && MarkerAt(s, m).Some?
    requires forall j :: m < j <= k ==> MarkerAt(s, j).None?
    ensures LastMarkerFrom(s, k) == Some(m)
    decreases k
  {
    if k > m {
      LastMarkerAt(s, m, k - 1);
    }
  }

  /** `youtubeUrl ? extractYouTubeId(youtubeUrl) : null` */
  function YoutubeId(youtubeUrl: Option<string>): (r: Option<string>)
    ensures !Truthy(youtubeUrl) ==> r.None?
    ensures Truthy(youtubeUrl) ==> r == ExtractYouTubeId(youtubeUrl.value)
  {
    if Truthy(youtubeUrl) then ExtractYouTubeId(youtubeUrl.value) else None
  }

  // ---------------------------------------------------------------------------------
  // The background

  const DefaultBackgroundType := "image"
  const DefaultPoster := "/images/hero-poster.jpg"
  const EmbedPrefix := "https://www.youtube.com/embed/"
  const EmbedQuery := "?autoplay=1&mute=1&loop=1&playlist="
  const EmbedTail := "&controls=0&showinfo=0&rel=0&modestbranding=1&playsinline=1&enablejsapi=1"

  /** The embedded player's address: the id in the path and again as the one-entry
      playlist that makes it loop. */
  function EmbedUrl(id: string): (r: string)
    ensures |r| == |EmbedPrefix| + 2 * |id| + |EmbedQuery| + |EmbedTail|
    ensures r[..|EmbedPrefix|] == EmbedPrefix
    ensures r[|EmbedPrefix|..|EmbedPrefix| + |id|] == id
    ensures r[|EmbedPrefix| + |id|..|EmbedPrefix| + |id| + |EmbedQuery|] == EmbedQuery
    ensures r[|EmbedPrefix| + |id| + |EmbedQuery|..|EmbedPrefix| + 2 * |id| + |EmbedQuery|] == id
    ensures r[|EmbedPrefix| + 2 * |id| + |EmbedQuery|..] == EmbedTail
  {
    EmbedPrefix + id + EmbedQuery + id + EmbedTail
  }

  datatype Background =
    | VideoBackground(src: string, poster: string)
    | YouTubeBackground(src: string)
    | ImageBackground(url: string)

  /** The props `renderBackground` reads; `backgroundType` and `posterUrl` have
      defaults for when they are not given. */
  datatype HeroProps = HeroProps(
    headline: Option<string>,
    backgroundType: Option<string>,
    backgroundImageUrl: Option<string>,
    backgroundVideoUrl: Option<string>,
    youtubeUrl: Option<string>,
    posterUrl: Option<string>)

  /** `backgroundImageUrl || posterUrl` */
  function StillImage(p: HeroProps): string
  {
    Or(p.backgroundImageUrl, OrDefault(p.posterUrl, DefaultPoster))
  }

  /** `renderBackground`: each of the video and YouTube cases falls through to the
      image when its source is missing. */
  function RenderBackground(p: HeroProps): Background
  {
    var kind := OrDefault(p.backgroundType, DefaultBackgroundType);
    var id := YoutubeId(p.youtubeUrl);
    if kind == "video" && Truthy(p.backgroundVideoUrl) then VideoBackground(p.backgroundVideoUrl.value, StillImage(p))
    else if kind == "youtube" && id.Some? then YouTubeBackground(EmbedUrl(id.value))
    else ImageBackground(StillImage(p))
  }

  /** A video is shown exactly for the video type with a video URL, with the still
      image as its poster; the embed exactly for the YouTube type with a recognised
      link, playing that link's id; anything else shows the still image. */
  lemma BackgroundChoice(p: HeroProps)
    ensures var kind := OrDefault(p.backgroundType, DefaultBackgroundType);
      var b := RenderBackground(p);
      && (b.VideoBackground? <==> kind == "video" && Truthy(p.backgroundVideoUrl))
      && (b.VideoBackground? ==> b.src == p.backgroundVideoUrl.value && b.poster == StillImage(p))
      && (b.YouTubeBackground? <==> kind == "youtube" && YoutubeId(p.youtubeUrl).Some?)
      && (b.YouTubeBackground? ==> b.src == EmbedUrl(YoutubeId(p.youtubeUrl).value))
      && (b.ImageBackground? ==> b.url == StillImage(p))
  {
  }
  /** The home page passes `backgroundType`, `backgroundVideoUrl` and `youtubeUrl` from
      the hero record, but the `hero` query selects none of them, and it passes no
      poster: so the page's hero always shows the still image, the CMS background image
      or the built-in poster. */
  lemma PageHero(p: HeroProps)
    requires p.backgroundType.None? && p.backgroundVideoUrl.None? && p.youtubeUrl.None? && p.posterUrl.None?
    ensures RenderBackground(p) == ImageBackground(Or(p.backgroundImageUrl, DefaultPoster))
  {
  }


  /** The still image is the background image when there is one, else the poster,
      which is the built-in picture unless a poster is given. */
  lemma StillImageFallback(p: HeroProps)
    ensures Truthy(p.backgroundImageUrl) ==> StillImage(p) == p.backgroundImageUrl.value
    ensures !Truthy(p.backgroundImageUrl) && p.posterUrl.None? ==> StillImage(p) == DefaultPoster
    ensures !Truthy(p.backgroundImageUrl) && p.posterUrl.Some? ==> StillImage(p) == p.posterUrl.value
  {
  }

  /** Without a type the background is the still image, whatever the other sources. */
  lemma DefaultIsImage(p: HeroProps)
    requires p.backgroundType.None?
    ensures RenderBackground(p) == ImageBackground(StillImage(p))
  {
  }

  // ---------------------------------------------------------------------------------
  // The headline

  const DefaultHeadline := "イベントの成功は映像演出で決まる。、映像演出で確実なものに。"
  const SecondLineFallback := "映像演出で確実なものに。"

  /** The two lines of the headline. */
  datatype Headline = Headline(first: string, second: string)

  /** `headlineParts[0] + "、"` and `headlineParts[1] || "映像演出で確実なものに。"`. */
  function SplitHeadline(headline: Option<string>): Headline
  {
    var parts := Split(OrDefault(headline, DefaultHeadline), '、');
    Headline(parts[0] + "、", if |parts| > 1 then OrStr(parts[1], SecondLineFallback) else SecondLineFallback)
  }

  /** A headline of two pieces around a 、 is drawn as those pieces, the 、 kept at the
      end of the first line; an empty second piece is replaced by the built-in one. */
  lemma TwoPieceHeadline(a: string, b: string)
    requires '、' !in a && '、' !in b
    ensures SplitHeadline(Some(a + "、" + b)) == Headline(a + "、", if b == "" then SecondLineFallback else b)
  {
    var t := a + "、" + b;
    assert t == a + ['、'] + b;
    FirstSeparator(a, b, '、');
    SplitFirst(t, '、');
    assert t[..|a|] == a;
    SplitSecond(t, '、');
    assert t[|a| + 1..] == b;
    FirstSeparatorAbsent(b, '、');
    SplitFirst(b, '、');
  }

  /** A headline without 、 is drawn whole with a 、 added, over the built-in second
      line. */
  lemma OnePieceHeadline(h: string)
    requires '、' !in h
    ensures SplitHeadline(Some(h)) == Headline(h + "、", SecondLineFallback)
  {
    FirstSeparatorAbsent(h, '、');
    SplitFirst(h, '、');
  }

  const FirstSentence := "イベントの成功は映像演出で決まる。"

  /** The built-in headline is drawn as its two sentences. */
  lemma DefaultHeadlineLines()
    ensures SplitHeadline(None) == Headline(FirstSentence + "、", SecondLineFallback)
  {
    DefaultHeadlineShape();
    TwoPieceHeadline(FirstSentence, SecondLineFallback);
  }

  lemma DefaultHeadlineShape()
    ensures DefaultHeadline == FirstSentence + "、" + SecondLineFallback
    ensures '、' !in FirstSentence && '、' !in SecondLineFallback
  {
  }
}
