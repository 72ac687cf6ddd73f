/** The playback helpers of the video-player module: the "mm:ss/mm:ss"
    timeline text shown while seeking, and the choice of media source the
    player is given for a URL and its request headers. */
module VideoPlayerUtils {
  import opened Wrappers
  import opened Strings

  // ---------------------------------------------------------------------
  // Decimal rendering, as StringBuilder.append(Long) writes a number
  // ---------------------------------------------------------------------

  predicate IsDigit(c: char) {
    '0' <= c <= '9'
  }

  predicate AllDigits(s: string) {
    forall i :: 0 <= i < |s| ==> IsDigit(s[i])
  }

  function DigitChar(d: nat): (c: char)
    requires d < 10
    ensures IsDigit(c)
  {
    ('0' as int + d) as char
  }

  function DigitValue(c: char): (d: nat)
    requires IsDigit(c)
    ensures d < 10
  {
    c as int - '0' as int
  }

  /** The decimal digits of `n`, most significant first, no leading zero. */
  function DecimalDigits(n: nat): (r: string)
    ensures |r| >= 1 && AllDigits(r)
    ensures (r[0] == '0') == (n == 0)
  {
    (if n < 10 then "" else DecimalDigits(n / 10)) + [DigitChar(n % 10)]
  }

  /** Long.toString: a minus sign before the digits of a negative value. */
  function LongToString(v: int): string {
    if v < 0 then "-" + DecimalDigits(-v) else DecimalDigits(v)
  }

  lemma ZeroText()
    ensures LongToString(0) == "0"
  {
    assert DecimalDigits(0) == [DigitChar(0)];
  }

  /** Reads a string of decimal digits back as a number (leading zeros allowed). */
  function ParseDecimal(s: string): nat
    requires AllDigits(s)
  {
    if s == [] then 0 else 10 * ParseDecimal(s[..|s| - 1]) + DigitValue(s[|s| - 1])
  }

  /** Appending a digit shifts the value one decimal place. */
  lemma {:induction false} ParseDecimalSnoc(high: string, c: char)
    requires AllDigits(high) && IsDigit(c)
    ensures AllDigits(high + [c])
    ensures ParseDecimal(high + [c]) == 10 * ParseDecimal(high) + DigitValue(c)
  {
    var d := high + [c];
    assert d[..|d| - 1] == high;
  }

  lemma DigitValueOfChar(d: nat)
    requires d < 10
    ensures DigitValue(DigitChar(d)) == d
  {
  }

  /** Round trip: the digits of `n` read back as `n`. */
  lemma {:induction false} ParseDecimalDigits(n: nat)
    ensures ParseDecimal(DecimalDigits(n)) == n
  {
    var high := if n < 10 then "" else DecimalDigits(n / 10);
    ParseDecimalSnoc(high, DigitChar(n % 10));
    DigitValueOfChar(n % 10);
    if n >= 10 {
      ParseDecimalDigits(n / 10);
    }
  }

  lemma {:induction false} ParseDecimalLeadingZero(s: string)
    requires AllDigits(s)
    ensures AllDigits("0" + s) && ParseDecimal("0" + s) == ParseDecimal(s)
    decreases |s|
  {
    var z := "0" + s;
    if s != [] {
      assert z[..|z| - 1] == "0" + s[..|s| - 1];
      assert z[|z| - 1] == s[|s| - 1];
      ParseDecimalLeadingZero(s[..|s| - 1]);
    }
  }

  lemma {:induction false} DecimalDigitsLength(n: nat)
    ensures |DecimalDigits(n)| == 1 <==> n < 10
    ensures |DecimalDigits(n)| == 2 <==> 10 <= n < 100
    ensures |DecimalDigits(n)| >= 3 <==> n >= 100
  {
    if n >= 10 {
      DecimalDigitsLength(n / 10);
    }
  }

  // ---------------------------------------------------------------------
  // The timeline text (Utils.kt prettyVideoTimestamp and its helpers)
  // ---------------------------------------------------------------------

  const MillisPerSecond := 1000
  const MillisPerMinute := 60000

  /** Kotlin's Long division, which truncates toward zero. */
  function TruncDiv(a: int, b: int): (q: int)
    requires b > 0
    ensures a >= 0 ==> q == a / b
    ensures a < 0 ==> q <= 0 && a <= q * b < a + b
  {
    if a >= 0 then a / b else -((-a) / b)
  }

  /** Duration.inWholeMinutes of a position given in milliseconds. */
  function WholeMinutes(ms: int): int {
    TruncDiv(ms, MillisPerMinute)
  }

  /** `(duration - minutes.minutes).inWholeSeconds`. */
  function WholeSecondsOfMinute(ms: int): int {
    TruncDiv(ms - WholeMinutes(ms) * MillisPerMinute, MillisPerSecond)
  }

  /** appendDoubleDigit: a '0' is written first for every value below ten
      (negative values included), then the value itself. */
  function DoubleDigit(v: int): string {
    if v < 10 then "0" + LongToString(v) else LongToString(v)
  }

  /** appendMinutesAndSeconds: "mm:ss". */
  function MinutesAndSeconds(ms: int): string {
    DoubleDigit(WholeMinutes(ms)) + ":" + DoubleDigit(WholeSecondsOfMinute(ms))
  }

  /** A value below ten is written as exactly two characters, '0' and its digit. */
  lemma DoubleDigitBelowTen(v: int)
    requires 0 <= v < 10
    ensures DoubleDigit(v) == ['0', DigitChar(v)]
  {
  }

  /** A value of ten or more is written as its plain digits, without padding. */
  lemma DoubleDigitAtLeastTen(v: int)
    requires v >= 10
    ensures DoubleDigit(v) == DecimalDigits(v) && DoubleDigit(v)[0] != '0'
  {
  }

  /** For a non-negative value the padded text is digits only and reads back
      as the value. */
  lemma DoubleDigitReadsBack(v: int)
    requires v >= 0
    ensures AllDigits(DoubleDigit(v)) && ParseDecimal(DoubleDigit(v)) == v
  {
    ParseDecimalDigits(v);
    if v < 10 {
      ParseDecimalLeadingZero(DecimalDigits(v));
    }
  }

  /** The seconds field is the seconds within the current minute: 0..59,
      always two characters. */
  lemma SecondsField(ms: int)
    requires ms >= 0
    ensures WholeSecondsOfMinute(ms) == (ms % MillisPerMinute) / MillisPerSecond
    ensures 0 <= WholeSecondsOfMinute(ms) < 60
    ensures |DoubleDigit(WholeSecondsOfMinute(ms))| == 2
  {
    var s := WholeSecondsOfMinute(ms);
    assert ms - WholeMinutes(ms) * MillisPerMinute == ms % MillisPerMinute;
    DecimalDigitsLength(s);
  }

  /** The minutes field has no hour rollover: it is the whole minutes, at
      least two characters, and longer than two exactly from 100 minutes on. */
  lemma MinutesField(ms: int)
    requires ms >= 0
    ensures WholeMinutes(ms) == ms / MillisPerMinute
    ensures |DoubleDigit(WholeMinutes(ms))| >= 2
    ensures |DoubleDigit(WholeMinutes(ms))| > 2 <==> ms / MillisPerMinute >= 100
  {
    DecimalDigitsLength(ms / MillisPerMinute);
  }

  /** The first index of `c` in `s`, or |s| when `c` does not occur. */
  function IndexOf(s: string, c: char): (k: nat)
    ensures k <= |s|
    ensures k < |s| ==> s[k] == c
    ensures forall i :: 0 <= i < k ==> s[i] != c
  {
    if s == [] then 0 else if s[0] == c then 0 else 1 + IndexOf(s[1..], c)
  }

  /** Reads "mm:ss" back as a number of whole seconds. */
  function ParseMinutesAndSeconds(t: string): Option<int> {
    var k := IndexOf(t, ':');
    if k == |t| || !AllDigits(t[..k]) || !AllDigits(t[k + 1..]) then None
    else Some(60 * ParseDecimal(t[..k]) + ParseDecimal(t[k + 1..]))
  }

  /** Reads "mm:ss/mm:ss" back as a pair of whole-second counts. */
  function ParseTimestamp(t: string): Option<(int, int)> {
    var k := IndexOf(t, '/');
    if k == |t| then None
    else match (ParseMinutesAndSeconds(t[..k]), ParseMinutesAndSeconds(t[k + 1..]))
      case (Some(p), Some(d)) => Some((p, d))
      case _ => None
  }

  lemma WholeSecondsSplit(ms: int)
    requires ms >= 0
    ensures 60 * (ms / MillisPerMinute) + (ms % MillisPerMinute) / MillisPerSecond == ms / MillisPerSecond
  {
    var m, r := ms / 60000, ms % 60000;
    var s, t := r / 1000, r % 1000;
    assert ms == 1000 * (60 * m + s) + t;
  }

  /** In `a`, then `c`, then `b`, where `a` holds no `c`, the first `c` is
      the one between them. */
  lemma {:induction false} IndexOfSeparator(a: string, c: char, b: string)
    requires forall i :: 0 <= i < |a| ==> a[i] != c
    ensures var t := a + [c] + b;
            IndexOf(t, c) == |a| && t[..|a|] == a && t[|a| + 1..] == b
  {
    var t := a + [c] + b;
    assert t[|a|] == c;
    assert forall i :: 0 <= i < |a| ==> t[i] == a[i];
  }

  /** Two digit strings joined by ':' read back field by field. */
  lemma {:induction false} ParseMinutesAndSecondsOfFields(a: string, b: string)
    requires AllDigits(a) && AllDigits(b)
    ensures ParseMinutesAndSeconds(a + ":" + b) == Some(60 * ParseDecimal(a) + ParseDecimal(b))
  {
    var t := a + ":" + b;
    assert forall i :: 0 <= i < |a| ==> a[i] != ':' by {
      forall i | 0 <= i < |a| ensures a[i] != ':' { assert IsDigit(a[i]); }
    }
    IndexOfSeparator(a, ':', b);
    ParseMinutesAndSecondsAt(t, |a|);
  }

  lemma ParseMinutesAndSecondsAt(t: string, k: nat)
    requires k == IndexOf(t, ':') && k < |t| && AllDigits(t[..k]) && AllDigits(t[k + 1..])
    ensures ParseMinutesAndSeconds(t) == Some(60 * ParseDecimal(t[..k]) + ParseDecimal(t[k + 1..]))
  {
  }

  /** Two readable "mm:ss" texts joined by '/' read back as the pair. */
  lemma {:induction false} ParseTimestampOfFields(a: string, b: string, p: int, d: int)
    requires forall i :: 0 <= i < |a| ==> a[i] != '/'
    requires ParseMinutesAndSeconds(a) == Some(p) && ParseMinutesAndSeconds(b) == Some(d)
    ensures ParseTimestamp(a + "/" + b) == Some((p, d))
  {
    IndexOfSeparator(a, '/', b);
  }

  /** Round trip: the "mm:ss" text of a non-negative position reads back as
      its whole seconds, `mm * 60 + ss == ms div 1000`. */
  lemma {:induction false} MinutesAndSecondsRoundTrip(ms: int)
    requires ms >= 0
    ensures ParseMinutesAndSeconds(MinutesAndSeconds(ms)) == Some(ms / MillisPerSecond)
  {
    var m, s := WholeMinutes(ms), WholeSecondsOfMinute(ms);
    MinutesField(ms);
    SecondsField(ms);
    DoubleDigitReadsBack(m);
    DoubleDigitReadsBack(s);
    ParseMinutesAndSecondsOfFields(DoubleDigit(m), DoubleDigit(s));
    WholeSecondsSplit(ms);
  }

  /** Round trip of the whole timeline text: position and duration read back
      as their whole seconds, so the single '/' separates them. */
  lemma {:induction false} TimestampRoundTrip(position: int, duration: int)
    requires position >= 0 && duration >= 0
    ensures ParseTimestamp(MinutesAndSeconds(position) + "/" + MinutesAndSeconds(duration))
         == Some((position / MillisPerSecond, duration / MillisPerSecond))
  {
    MinutesAndSecondsRoundTrip(position);
    MinutesAndSecondsRoundTrip(duration);
    NoSlashInMinutesAndSeconds(position);
    ParseTimestampOfFields(MinutesAndSeconds(position), MinutesAndSeconds(duration),
                           position / MillisPerSecond, duration / MillisPerSecond);
  }

  lemma {:induction false} NoSlashInMinutesAndSeconds(ms: int)
    requires ms >= 0
    ensures forall i :: 0 <= i < |MinutesAndSeconds(ms)| ==> MinutesAndSeconds(ms)[i] != '/'
  {
    DoubleDigitReadsBack(WholeMinutes(ms));
    DoubleDigitReadsBack(WholeSecondsOfMinute(ms));
  }

  lemma ConcatAssoc(a: string, b: string, c: string)
    ensures a + b + c == a + (b + c)
  {
  }

  /** The StringBuilder that `buildString` hands to the appending helpers. */
  class StringBuilder {
    var text: string

    constructor ()
      ensures text == ""
    {
      text := "";
    }

    method Append(s: string)
      modifies this
      ensures text == old(text) + s
    {
      text := text + s;
    }

    /** StringBuilder.append(Long). */
    method AppendLong(v: int)
      modifies this
      ensures text == old(text) + LongToString(v)
    {
      text := text + LongToString(v);
    }

    /** Utils.kt appendDoubleDigit. */
    method AppendDoubleDigit(value: int)
      modifies this
      ensures text == old(text) + DoubleDigit(value)
    {
      if value < 10 {
        ghost var before := text;
        AppendLong(0);
        ZeroText();
        AppendLong(value);
        ConcatAssoc(before, "0", LongToString(value));
      } else {
        AppendLong(value);
      }
    }

    /** Utils.kt appendMinutesAndSeconds, for a duration of `ms` milliseconds. */
    method AppendMinutesAndSeconds(ms: int)
      modifies this
      ensures text == old(text) + MinutesAndSeconds(ms)
    {
      var minutes := WholeMinutes(ms);
      var seconds := TruncDiv(ms - minutes * MillisPerMinute, MillisPerSecond);
      ghost var before := text;
      AppendDoubleDigit(minutes);
      ghost var mid := text;
      Append(":");
      ConcatAssoc(before, DoubleDigit(minutes), ":");
      AppendDoubleDigit(seconds);
      ConcatAssoc(before, DoubleDigit(minutes) + ":", DoubleDigit(seconds));
    }
  }

  /** Utils.kt prettyVideoTimestamp: "mm:ss/mm:ss" with no spaces around the
      slash (the doc comment shows "mm:ss / mm:ss"; the code writes none). */
  method PrettyVideoTimestamp(position: int, duration: int) returns (r: string)
    ensures r == MinutesAndSeconds(position) + "/" + MinutesAndSeconds(duration)
    ensures position >= 0 && duration >= 0 ==>
              ParseTimestamp(r) == Some((position / MillisPerSecond, duration / MillisPerSecond))
  {
    var sb := new StringBuilder();
    sb.AppendMinutesAndSeconds(position);
    sb.Append("/");
    sb.AppendMinutesAndSeconds(duration);
    r := sb.text;
    assert "" + MinutesAndSeconds(position) == MinutesAndSeconds(position);
    if position >= 0 && duration >= 0 {
      TimestampRoundTrip(position, duration);
    }
  }

  // ---------------------------------------------------------------------
  // Choice of media source (mediaItemCreator, setVideoUrl)
  // ---------------------------------------------------------------------

  const LocalStoragePath := "/storage/emulated"
  const HlsExtension := ".m3u8"
  /** Media3's MimeTypes.APPLICATION_M3U8. */
  const ApplicationM3u8 := "application/x-mpegURL"

  /** What mediaItemCreator builds: a file URI for a file on the device, or a
      remote URI that carries the HLS MIME type or none. */
  datatype MediaKind = LocalFile | HlsStream | RemoteFile

  function MimeType(kind: MediaKind): Option<string> {
    if kind == HlsStream then Some(ApplicationM3u8) else None
  }

  function MediaItemCreator(url: string): (kind: MediaKind)
    ensures kind == LocalFile <==> Occurs(url, LocalStoragePath)
    ensures kind == HlsStream <==> !Occurs(url, LocalStoragePath) && Occurs(url, HlsExtension)
  {
    if Contains(url, LocalStoragePath) then LocalFile
    else if Contains(url, HlsExtension) then HlsStream
    else RemoteFile
  }

  /** A device path wins over the HLS extension: such a URL is played as a
      local file with no MIME type. */
  lemma LocalPathWinsOverHls(url: string)
    requires Occurs(url, LocalStoragePath)
    ensures MediaItemCreator(url) == LocalFile && MimeType(MediaItemCreator(url)) == None
  {
  }

  /** Among remote URLs, the HLS MIME type is set exactly for ".m3u8" ones. */
  lemma RemoteMimeType(url: string)
    requires !Occurs(url, LocalStoragePath)
    ensures MimeType(MediaItemCreator(url)) ==
              (if Occurs(url, HlsExtension) then Some(ApplicationM3u8) else None)
  {
  }

  /** What ExoPlayer.setVideoUrl hands the player: the plain media item, or a
      progressive media source whose HTTP data source sends `headers`. */
  datatype PlayerSource =
    | PlainMediaItem(url: string, kind: MediaKind)
    | HeaderMediaSource(url: string, kind: MediaKind, headers: map<string, string>)

  function SetVideoUrl(url: string, headers: map<string, string>): (src: PlayerSource)
    ensures src.PlainMediaItem? <==> |headers| == 0
    ensures src.url == url && src.kind == MediaItemCreator(url)
    ensures src.HeaderMediaSource? ==> src.headers == headers
  {
    if |headers| == 0 then PlainMediaItem(url, MediaItemCreator(url))
    else HeaderMediaSource(url, MediaItemCreator(url), headers)
  }
}
