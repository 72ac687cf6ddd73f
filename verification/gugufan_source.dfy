/** The Gugufan site adapter's two string helpers: pulling the video URL out
    of the last script of the player page, and choosing the request headers
    that go with it. */
module GugufanSource {
  import opened Wrappers
  import opened Strings
  import VideoPlayerUtils

  const FailedToExtractUrl := "Failed to extract Url"
  const RefererHeader := "Referer"
  const UserAgentHeader := "User-Agent"

  // ---------------------------------------------------------------------
  // The pattern  ，*"url"\s*:\s*"(https?://[^"]+)",.*
  // ---------------------------------------------------------------------

  /** The full-width comma U+FF0C that the pattern lets repeat before the key. */
  predicate IsFullwidthComma(c: char) {
    c == '\U{FF0C}'
  }

  /** `\s` of Android's ICU-based java.util.regex: the Unicode White_Space
      characters, that is the ASCII controls tab to carriage return, space,
      next line, no-break space, Ogham space mark, the spaces from en quad to
      hair space, the line and paragraph separators, narrow no-break space,
      medium mathematical space and ideographic space. */
  predicate IsRegexSpace(c: char) {
    ('\t' <= c <= '\r') || c == ' ' || c == '\U{85}' || c == '\U{A0}' || c == '\U{1680}' ||
    ('\U{2000}' <= c <= '\U{200A}') || c == '\U{2028}' || c == '\U{2029}' ||
    c == '\U{202F}' || c == '\U{205F}' || c == '\U{3000}'
  }

  predicate IsNotQuote(c: char) {
    c != '"'
  }

  predicate AllSpace(w: string) {
    forall i :: 0 <= i < |w| ==> IsRegexSpace(w[i])
  }

  predicate QuoteFree(u: string) {
    forall i :: 0 <= i < |u| ==> u[i] != '"'
  }

  /** `https?://[^"]+`: the scheme, then at least one more character, and no
      double quote anywhere. */
  predicate IsHttpUrl(u: string) {
    QuoteFree(u) &&
    ((StartsWith(u, "http://") && |u| > 7) || (StartsWith(u, "https://") && |u| > 8))
  }

  /** The text a `"url"` entry occupies: the key, optional spaces, a colon,
      optional spaces, then the quoted URL and a comma. */
  function EntryText(w1: string, w2: string, url: string): string {
    "\"url\"" + w1 + ":" + w2 + "\"" + url + "\","
  }

  /** Declarative reading of the pattern: a `"url"` entry whose value is `url`
      begins at index `q` of `s`. */
  ghost predicate UrlEntryAt(s: string, q: int, url: string) {
    0 <= q <= |s| && IsHttpUrl(url) &&
    exists w1: string, w2: string ::
      AllSpace(w1) && AllSpace(w2) && StartsWith(s[q..], EntryText(w1, w2, url))
  }

  ghost predicate NoUrlEntryAt(s: string, q: int) {
    forall url :: !UrlEntryAt(s, q, url)
  }

  // ---------------------------------------------------------------------
  // The scanner: the regex engine's search, one start position at a time
  // ---------------------------------------------------------------------

  /** The end of the longest run of characters satisfying `p` from index `i`
      (the greedy `p*`). */
  function RunEnd(s: string, i: nat, p: char -> bool): (j: nat)
    requires i <= |s|
    ensures i <= j <= |s|
    ensures forall k :: i <= k < j ==> p(s[k])
    ensures j < |s| ==> !p(s[j])
    decreases |s| - i
  {
    if i < |s| && p(s[i]) then RunEnd(s, i + 1, p) else i
  }

  /** Any run of `p` characters from `i` ended by a non-`p` character (or the
      end of the input) is the greedy run. */
  lemma {:induction false} RunEndUnique(s: string, i: nat, j: nat, p: char -> bool)
    requires i <= j <= |s|
    requires forall k :: i <= k < j ==> p(s[k])
    requires j < |s| ==> !p(s[j])
    ensures RunEnd(s, i, p) == j
    decreases j - i
  {
    if i < j {
      RunEndUnique(s, i + 1, j, p);
    }
  }

  /** The match of `"url"\s*:\s*"(https?://[^"]+)",` at index `q`, if any:
      the captured URL. Every step is forced, so there is at most one. */
  function EntryAt(s: string, q: nat): Option<string>
    requires q <= |s|
  {
    if !OccursAt(s, "\"url\"", q) then None
    else
      var i := RunEnd(s, q + 5, IsRegexSpace);
      if i == |s| || s[i] != ':' then None
      else
        var j := RunEnd(s, i + 1, IsRegexSpace);
        if j == |s| || s[j] != '"' then None
        else
          var k := RunEnd(s, j + 1, IsNotQuote);
          var url := s[j + 1..k];
          if IsHttpUrl(url) && OccursAt(s, "\",", k) then Some(url) else None
  }

  /** Where each part of an entry's text lies. */
  lemma {:induction false} EntryTextLayout(w1: string, w2: string, url: string)
    ensures var t := EntryText(w1, w2, url);
            var i := 5 + |w1|;
            var j := i + 1 + |w2|;
            var k := j + 1 + |url|;
            |t| == k + 2 && t[..5] == "\"url\"" && t[5..i] == w1 && t[i] == ':' &&
            t[i + 1..j] == w2 && t[j] == '"' && t[j + 1..k] == url && t[k..] == "\","
  {
    var t := EntryText(w1, w2, url);
    var a := "\"url\"" + w1;
    var b := a + ":" + w2;
    var c := b + "\"" + url;
    assert t == c + "\",";
    assert c[..|b| + 1] == b + "\"";
    assert b[..|a| + 1] == a + ":";
  }

  /** A piece of an entry's text is the same piece of the input it starts. */
  lemma {:induction false} PieceOfPrefix(s: string, q: nat, t: string, a: nat, b: nat)
    requires q <= |s| && StartsWith(s[q..], t) && a <= b <= |t|
    ensures q + b <= |s| && s[q + a..q + b] == t[a..b]
  {
    forall x | a <= x < b
      ensures s[q + x] == t[x]
    {
      assert s[q..][..|t|][x] == s[q + x];
    }
    assert s[q + a..q + b] == t[a..b];
  }

  lemma {:induction false} SliceSplit(s: string, a: nat, b: nat, c: nat)
    requires a <= b <= c <= |s|
    ensures s[a..c] == s[a..b] + s[b..c]
  {
  }

  /** The input from `q` to just past the closing `",` is an entry's text,
      given where the colon, the opening quote and the closing quote are. */
  lemma {:induction false} EntryTextFromParts(s: string, q: nat, i: nat, j: nat, k: nat)
    requires q + 5 <= i < j < k && k + 2 <= |s|
    requires OccursAt(s, "\"url\"", q) && s[i] == ':' && s[j] == '"' && OccursAt(s, "\",", k)
    ensures StartsWith(s[q..], EntryText(s[q + 5..i], s[i + 1..j], s[j + 1..k]))
  {
    var t := EntryText(s[q + 5..i], s[i + 1..j], s[j + 1..k]);
    SliceSplit(s, q, q + 5, i);
    SliceSplit(s, q, i, i + 1);
    SliceSplit(s, q, i + 1, j);
    SliceSplit(s, q, j, j + 1);
    SliceSplit(s, q, j + 1, k);
    SliceSplit(s, q, k, k + 2);
    assert s[i..i + 1] == ":";
    assert s[j..j + 1] == "\"";
    assert s[q..k + 2] == t;
    assert s[q..][..|t|] == s[q..k + 2];
  }

  /** What the scanner finds is an entry of the declarative reading. */
  lemma {:induction false} EntryAtSound(s: string, q: nat)
    requires q <= |s| && EntryAt(s, q).Some?
    ensures UrlEntryAt(s, q, EntryAt(s, q).value)
  {
    var i := RunEnd(s, q + 5, IsRegexSpace);
    var j := RunEnd(s, i + 1, IsRegexSpace);
    var k := RunEnd(s, j + 1, IsNotQuote);
    var url := s[j + 1..k];
    assert EntryAt(s, q) == Some(url);
    var w1, w2 := s[q + 5..i], s[i + 1..j];
    assert AllSpace(w1);
    assert AllSpace(w2);
    EntryTextFromParts(s, q, i, j, k);
  }

  /** Where the parts of an entry lie in the input. */
  lemma {:induction false} EntryParts(s: string, q: nat, w1: string, w2: string, url: string)
    requires q <= |s| && StartsWith(s[q..], EntryText(w1, w2, url))
    ensures var i := q + 5 + |w1|;
            var j := i + 1 + |w2|;
            var k := j + 1 + |url|;
            k + 2 <= |s| && OccursAt(s, "\"url\"", q) && s[q + 5..i] == w1 && s[i] == ':' &&
            s[i + 1..j] == w2 && s[j] == '"' && s[j + 1..k] == url && OccursAt(s, "\",", k)
  {
    var t := EntryText(w1, w2, url);
    EntryTextLayout(w1, w2, url);
    var i := q + 5 + |w1|;
    var j := i + 1 + |w2|;
    var k := j + 1 + |url|;
    PieceOfPrefix(s, q, t, 0, 5);
    PieceOfPrefix(s, q, t, 5, 5 + |w1|);
    PieceOfPrefix(s, q, t, 5 + |w1|, 6 + |w1|);
    PieceOfPrefix(s, q, t, 6 + |w1|, 6 + |w1| + |w2|);
    PieceOfPrefix(s, q, t, j - q, j - q + 1);
    PieceOfPrefix(s, q, t, j - q + 1, k - q);
    PieceOfPrefix(s, q, t, k - q, k - q + 2);
    assert s[i] == s[i..i + 1][0];
    assert s[j] == s[j..j + 1][0];
  }

  /** A slice made of `p` characters is a run of `p` characters. */
  lemma {:induction false} RunOfSlice(s: string, a: nat, b: nat, w: string, p: char -> bool)
    requires a <= b <= |s| && s[a..b] == w
    requires forall x :: 0 <= x < |w| ==> p(w[x])
    ensures forall x :: a <= x < b ==> p(s[x])
  {
    forall x | a <= x < b
      ensures p(s[x])
    {
      assert s[x] == w[x - a];
    }
  }

  /** The scanner's steps, given where the run ends fall. */
  lemma {:induction false} EntryAtFromParts(s: string, q: nat, i: nat, j: nat, k: nat)
    requires q <= |s| && OccursAt(s, "\"url\"", q)
    requires RunEnd(s, q + 5, IsRegexSpace) == i && i < |s| && s[i] == ':'
    requires RunEnd(s, i + 1, IsRegexSpace) == j && j < |s| && s[j] == '"'
    requires RunEnd(s, j + 1, IsNotQuote) == k && IsHttpUrl(s[j + 1..k]) && OccursAt(s, "\",", k)
    ensures EntryAt(s, q) == Some(s[j + 1..k])
  {
  }

  /** Every entry of the declarative reading is what the scanner finds there. */
  lemma {:induction false} EntryAtComplete(s: string, q: nat, url: string)
    requires UrlEntryAt(s, q, url)
    ensures EntryAt(s, q) == Some(url)
  {
    var w1, w2 :| AllSpace(w1) && AllSpace(w2) && StartsWith(s[q..], EntryText(w1, w2, url));
    EntryAtOfText(s, q, w1, w2, url);
  }

  lemma {:induction false} EntryAtOfText(s: string, q: nat, w1: string, w2: string, url: string)
    requires q <= |s| && IsHttpUrl(url) && AllSpace(w1) && AllSpace(w2)
    requires StartsWith(s[q..], EntryText(w1, w2, url))
    ensures EntryAt(s, q) == Some(url)
  {
    EntryParts(s, q, w1, w2, url);
    var i := q + 5 + |w1|;
    var j := i + 1 + |w2|;
    var k := j + 1 + |url|;
    RunEndOfSlice(s, q + 5, i, w1, IsRegexSpace);
    RunEndOfSlice(s, i + 1, j, w2, IsRegexSpace);
    UrlRunEnd(s, j, k, url);
    EntryAtFromParts(s, q, i, j, k);
  }

  /** The URL's run of non-quote characters stops at the `",` after it. */
  lemma {:induction false} UrlRunEnd(s: string, j: nat, k: nat, url: string)
    requires j + 1 <= k <= |s| && s[j + 1..k] == url && QuoteFree(url) && OccursAt(s, "\",", k)
    ensures RunEnd(s, j + 1, IsNotQuote) == k
  {
    assert s[k] == s[k..k + 2][0];
    RunEndOfSlice(s, j + 1, k, url, IsNotQuote);
  }

  /** A slice made of `p` characters and ended by a non-`p` one is the
      greedy run. */
  lemma {:induction false} RunEndOfSlice(s: string, a: nat, b: nat, w: string, p: char -> bool)
    requires a <= b <= |s| && s[a..b] == w
    requires forall x :: 0 <= x < |w| ==> p(w[x])
    requires b < |s| ==> !p(s[b])
    ensures RunEnd(s, a, p) == b
  {
    RunOfSlice(s, a, b, w, p);
    RunEndUnique(s, a, b, p);
  }

  /** An entry begins with the double quote of `"url"`. */
  lemma {:induction false} EntryStartsWithQuote(s: string, q: int, url: string)
    requires UrlEntryAt(s, q, url)
    ensures q < |s| && s[q] == '"'
  {
    var w1, w2 :| AllSpace(w1) && AllSpace(w2) && StartsWith(s[q..], EntryText(w1, w2, url));
    var t := EntryText(w1, w2, url);
    EntryTextLayout(w1, w2, url);
    PieceOfPrefix(s, q, t, 0, 5);
    assert s[q] == s[q..q + 5][0];
  }

  lemma {:induction false} NoEntryWithoutQuote(s: string, q: int)
    requires 0 <= q <= |s| && (q == |s| || s[q] != '"')
    ensures NoUrlEntryAt(s, q)
  {
    forall url | UrlEntryAt(s, q, url)
      ensures q < |s| && s[q] == '"'
    {
      EntryStartsWithQuote(s, q, url);
    }
  }

  /** Searching from start position `p` on, as Regex.find does: at each start
      the leading full-width commas are taken greedily, then the entry must
      follow. The result is the URL of the earliest entry at or after `p`. */
  function FindFrom(s: string, p: nat): (r: Option<string>)
    requires p <= |s|
    ensures r.Some? ==> exists q :: p <= q <= |s| && UrlEntryAt(s, q, r.value) &&
                                    forall q' :: p <= q' < q ==> NoUrlEntryAt(s, q')
    ensures r.None? ==> forall q :: p <= q <= |s| ==> NoUrlEntryAt(s, q)
    decreases |s| - p
  {
    var q := RunEnd(s, p, IsFullwidthComma);
    match EntryAt(s, q)
    case Some(url) =>
      EntryAtSound(s, q);
      CommasHoldNoEntry(s, p, q);
      Some(url)
    case None =>
      NoEntryWhereScanFails(s, p, q);
      if p == |s| then None else FindFrom(s, p + 1)
  }

  lemma {:induction false} CommasHoldNoEntry(s: string, p: nat, q: nat)
    requires p <= q <= |s|
    requires forall k :: p <= k < q ==> IsFullwidthComma(s[k])
    ensures forall q' :: p <= q' < q ==> NoUrlEntryAt(s, q')
  {
    forall q' | p <= q' < q
      ensures NoUrlEntryAt(s, q')
    {
      NoEntryWithoutQuote(s, q');
    }
  }

  lemma {:induction false} NoEntryWhereScanFails(s: string, p: nat, q: nat)
    requires p <= |s| && q == RunEnd(s, p, IsFullwidthComma) && EntryAt(s, q).None?
    ensures NoUrlEntryAt(s, p)
  {
    if q == p {
      forall url | UrlEntryAt(s, p, url)
        ensures EntryAt(s, p) == Some(url)
      {
        EntryAtComplete(s, p, url);
      }
    } else {
      NoEntryWithoutQuote(s, p);
    }
  }

  /** GugufanSource.extractUrlWithRegex: the URL of the first `"url"` entry of
      the script, or the error "Failed to extract Url" when there is none. */
  function ExtractUrlWithRegex(input: string): (r: Result<string, string>)
    ensures r.Success? ==> IsHttpUrl(r.value)
    ensures r.Success? ==> exists q :: UrlEntryAt(input, q, r.value) &&
                                       forall q' :: 0 <= q' < q ==> NoUrlEntryAt(input, q')
    ensures r.Failure? <==> forall q :: 0 <= q <= |input| ==> NoUrlEntryAt(input, q)
    ensures r.Failure? ==> r.error == FailedToExtractUrl
  {
    match FindFrom(input, 0)
    case Some(url) =>
      FoundRefutesAbsence(input, url);
      Success(url)
    case None => Failure(FailedToExtractUrl)
  }

  lemma {:induction false} FoundRefutesAbsence(s: string, url: string)
    requires exists q :: UrlEntryAt(s, q, url)
    ensures !forall q :: 0 <= q <= |s| ==> NoUrlEntryAt(s, q)
  {
    var q :| UrlEntryAt(s, q, url);
    assert !NoUrlEntryAt(s, q);
  }

  /** The extracted URL is a contiguous piece of the script, right after the
      opening quote of the value and right before the closing `",`. */
  lemma {:induction false} ExtractedUrlInPlace(input: string)
    requires ExtractUrlWithRegex(input).Success?
    ensures var url := ExtractUrlWithRegex(input).value;
            exists k :: OccursAt(input, "\"" + url + "\",", k)
  {
    var url := ExtractUrlWithRegex(input).value;
    var q :| UrlEntryAt(input, q, url);
    EntryValueInPlace(input, q, url);
  }

  /** An entry's URL sits between the quote that opens the value and `",`. */
  lemma {:induction false} EntryValueInPlace(s: string, q: int, url: string)
    requires UrlEntryAt(s, q, url)
    ensures exists k :: OccursAt(s, "\"" + url + "\",", k)
  {
    var w1, w2 :| AllSpace(w1) && AllSpace(w2) && StartsWith(s[q..], EntryText(w1, w2, url));
    var t := EntryText(w1, w2, url);
    EntryTextLayout(w1, w2, url);
    var j := 5 + |w1| + 1 + |w2|;
    var tail := "\"" + url + "\",";
    assert t[j..] == tail;
    PieceOfPrefix(s, q, t, j, |t|);
    assert OccursAt(s, tail, q + j);
  }

  /** Conversely, the first entry of the script determines the result: its
      URL is what is extracted, whatever entries follow it. */
  lemma {:induction false} FirstEntryIsExtracted(input: string, q1: nat, u1: string)
    requires UrlEntryAt(input, q1, u1)
    requires forall q :: 0 <= q < q1 ==> NoUrlEntryAt(input, q)
    ensures ExtractUrlWithRegex(input) == Success(u1)
  {
    var r := ExtractUrlWithRegex(input);
    assert !NoUrlEntryAt(input, q1);
    var q :| UrlEntryAt(input, q, r.value) && forall q' :: 0 <= q' < q ==> NoUrlEntryAt(input, q');
    assert !NoUrlEntryAt(input, q);
    assert q == q1;
    EntryAtComplete(input, q, r.value);
    EntryAtComplete(input, q1, u1);
  }

  /** Whitespace beyond ASCII around the colon, here ideographic spaces,
      still yields the entry's URL. */
  lemma IdeographicSpacesAroundColon()
    ensures ExtractUrlWithRegex("\"url\"\U{3000}:\U{3000}\"https://a/b\",") == Success("https://a/b")
  {
    var input := "\"url\"\U{3000}:\U{3000}\"https://a/b\",";
    var w := "\U{3000}";
    assert AllSpace(w);
    assert EntryText(w, w, "https://a/b") == input;
    assert StartsWith(input[0..], EntryText(w, w, "https://a/b"));
    assert UrlEntryAt(input, 0, "https://a/b");
    FirstEntryIsExtracted(input, 0, "https://a/b");
  }

  // ---------------------------------------------------------------------
  // Request headers
  // ---------------------------------------------------------------------

  /** GugufanSource.createHeaders: no headers for an HLS playlist, otherwise
      the site as Referer and the app's default User-Agent. `baseUrl` is the
      adapter's current domain and `userAgent` the DefaultUserAgent constant. */
  function CreateHeaders(baseUrl: string, userAgent: string, videoUrl: string): (h: map<string, string>)
    ensures |h| == 0 <==> Occurs(videoUrl, "m3u8")
    ensures !Occurs(videoUrl, "m3u8") ==>
              h.Keys == {RefererHeader, UserAgentHeader} &&
              h[RefererHeader] == baseUrl && h[UserAgentHeader] == userAgent
  {
    if Contains(videoUrl, "m3u8") then map[]
    else
      var h := map[RefererHeader := baseUrl, UserAgentHeader := userAgent];
      assert RefererHeader in h;
      h
  }

  /** How the player receives the video built from the adapter's answer
      together with the headers of that same answer, as the view model's
      init block builds it: a URL naming an ".m3u8" playlist carries no
      headers, so it is set as a plain media item with the HLS MIME type; any
      URL without "m3u8" goes through the header-carrying media source. A
      later switch of episode keeps the headers of the video already on
      screen (PlayerViewModel.SwitchedEpisodeKeepsPlayerPath), so this does
      not describe the episodes played after the first. */
  lemma {:induction false} ExtractedUrlReachesPlayer(baseUrl: string, userAgent: string, url: string)
    requires !Occurs(url, VideoPlayerUtils.LocalStoragePath)
    ensures var src := VideoPlayerUtils.SetVideoUrl(url, CreateHeaders(baseUrl, userAgent, url));
            (src.PlainMediaItem? <==> Occurs(url, "m3u8")) &&
            (Occurs(url, ".m3u8") ==> src.PlainMediaItem? && src.kind == VideoPlayerUtils.HlsStream) &&
            (src.HeaderMediaSource? ==> src.kind == VideoPlayerUtils.RemoteFile)
  {
    if Occurs(url, ".m3u8") {
      var i :| OccursAt(url, ".m3u8", i);
      assert url[i + 1..i + 5] == url[i..i + 5][1..];
      assert OccursAt(url, "m3u8", i + 1);
    }
  }
}
