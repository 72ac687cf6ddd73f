# Animius video playback core, in Dafny

A verified model of three self-contained pieces of the Animius Android app.

- **Timeline text and media-source choice** (`video-player` module, `Utils.kt`):
  - `prettyVideoTimestamp` builds the `mm:ss/mm:ss` text with a
    `StringBuilder`, through `appendMinutesAndSeconds` and `appendDoubleDigit`.
  - `mediaItemCreator` decides how a URL is played: a local file, an HLS
    stream, or a plain remote file.
  - `setVideoUrl` picks a plain media item or a header-carrying media source.
- **The player screen's view model** (`VideoPlayerViewModel.kt`): episode
  switching, next episode, retry, saving watch progress to the history
  database, and the danmaku (scrolling comment) session.
- **The Gugufan site adapter's helpers** (`GugufanSource.kt`):
  - `extractUrlWithRegex` pulls the first `"url": "http(s)://…",` value out of
    the player page's script;
  - `createHeaders` chooses the request headers for that URL.

Files:

- `wrappers.dfy`: `Option` and `Result`.
- `strings.dfy`: substring search as Kotlin's `String.contains` does it, with a
  declarative `Occurs` it is proved equal to.
- `video_player_utils.dfy`, module `VideoPlayerUtils`.
  - Positions are milliseconds (`int`).
  - `Duration.inWholeMinutes` / `inWholeSeconds` truncate toward zero (`TruncDiv`).
  - `StringBuilder.append(Long)` writes `Long.toString` (`LongToString`).
  - `StringBuilder` is a class whose `text` each `Append…` method extends.
  - `PrettyVideoTimestamp` is proved to equal `MinutesAndSeconds(p) + "/" +
    MinutesAndSeconds(d)`, and to read back as the whole seconds of both values.
  - A negative value below ten is written the way the code writes it: `"0"`
    and then `"-5"`.
- `gugufan_source.dfy`, module `GugufanSource`.
  - The pattern `，*"url"\s*:\s*"(https?://[^"]+)",.*` is modelled twice:
    - declaratively, as `UrlEntryAt` (an entry with some whitespace runs begins
      at index `q`);
    - as a scanner that does what `Regex.find` does: for each start position,
      a greedy run of full-width commas, then the entry, with greedy `\s*` and
      `[^"]+`.
  - The scanner at one position is proved to accept exactly the declarative
    entries (`EntryAtSound`, `EntryAtComplete`).
  - The search is proved to return the earliest entry, or to fail exactly when
    there is none.
  - `\s` is the set Android's ICU-based `java.util.regex` matches: the Unicode
    White_Space characters (tab to carriage return, space, U+0085, U+00A0,
    U+1680, U+2000 to U+200A, U+2028, U+2029, U+202F, U+205F and U+3000).
  - `baseUrl` and `DefaultUserAgent` are parameters of `CreateHeaders`.
- `video_player_view_model.dfy`, module `PlayerViewModel`.
  - `PlayerState` holds the view model's fields. Each operation is a function
    on it.
  - The class `VideoPlayerViewModel` keeps the same fields as `var`s. Its
    methods update them step by step, as the Kotlin does, and are proved to
    produce exactly the state the corresponding function describes.
  - The repository answers are parameters:
    - the remote lookup of an episode's address (`FetchResult`);
    - the Room row stored for an episode (`stored`);
    - the danmaku repository, a function fixed when the object is made.
  - Every Room insert is appended to `saved`.
  - Every remote fetch is appended to `requests`, as the episode address it
    asks for and the index it is meant to show.
  - Each launched coroutine is taken to run to completion, in launch order,
    before the next operation.
  - Where a coroutine of the source throws, `crashed` is set and nothing else
    changes. This happens on `data!!` on a state without a video, or an
    episode index out of range; the app's uncaught-exception handler then
    shows its crash screen.
  - One consequence is proved in `RetryOutcome`. `retry` sets the screen to
    `Resource.Loading` before fetching. The source uses `Resource.Loading` as
    a plain value with nothing attached (VideoPlayerViewModel.kt lines 52
    and 305), so it holds no video. A successful retry therefore reaches
    that `data!!` with no video and crashes.
  - Likewise, a successful fetch keeps the request headers of the video on
    screen rather than the freshly fetched ones (`GetVideoFromRemoteSuccess`).
    The player then chooses its path from those old headers
    (`SwitchedEpisodeKeepsPlayerPath`).
  - The invariant `Valid` has three parts:
    - the remote video on screen is the episode `retry` would fetch;
    - the latest fetch asked for the remembered episode, and a remote view
      model has fetched at least once;
    - every saved position is at least five seconds, and a local video saves
      nothing.
  - `Valid` is proved to hold after any sequence of operations (`RunValid`).
    Inside `getVideo` it is broken for a moment: the new episode address is
    remembered before the fetch.

## Model

| member | source | states |
|---|---|---|
| VideoPlayerUtils.TruncDiv | video-player/src/main/java/com/lanlinju/videoplayer/Utils.kt:132-133 | whole minutes and whole seconds of a duration truncate toward zero: the plain quotient for non-negative values; for a negative value `a` the quotient `q` is the one with `a <= q * b < a + b`, which is `a / b` rounded up, and at most 0 |
| VideoPlayerUtils.ZeroText | video-player/src/main/java/com/lanlinju/videoplayer/Utils.kt:145 | `append(0)` writes the single character "0" |
| VideoPlayerUtils.DoubleDigitBelowTen | video-player/src/main/java/com/lanlinju/videoplayer/Utils.kt:143-146 | a value from 0 to 9 is written as exactly two characters, '0' and its digit |
| VideoPlayerUtils.DoubleDigitAtLeastTen | video-player/src/main/java/com/lanlinju/videoplayer/Utils.kt:147-149 | a value of ten or more is written as its plain decimal digits, with no leading zero |
| VideoPlayerUtils.DoubleDigitReadsBack | video-player/src/main/java/com/lanlinju/videoplayer/Utils.kt:143-150 | for a non-negative value the padded field is all digits and reads back as the value |
| VideoPlayerUtils.SecondsField | video-player/src/main/java/com/lanlinju/videoplayer/Utils.kt:131-137 | the seconds field is `(ms mod 60000) div 1000`: from 0 to 59, always two characters |
| VideoPlayerUtils.MinutesField | video-player/src/main/java/com/lanlinju/videoplayer/Utils.kt:132-134 | the minutes field is `ms div 60000` with no hour rollover; it has at least two characters, and more than two exactly from 100 minutes on |
| VideoPlayerUtils.MinutesAndSecondsRoundTrip | video-player/src/main/java/com/lanlinju/videoplayer/Utils.kt:131-137 | reading back the "mm:ss" of a non-negative position gives `mm * 60 + ss == ms div 1000` |
| VideoPlayerUtils.TimestampRoundTrip | video-player/src/main/java/com/lanlinju/videoplayer/Utils.kt:116-126 | the whole "mm:ss/mm:ss" text splits at its only '/' and reads back as the whole seconds of position and duration |
| VideoPlayerUtils.StringBuilder.AppendDoubleDigit | video-player/src/main/java/com/lanlinju/videoplayer/Utils.kt:143-150 | the builder's text grows by exactly the padded field of the value |
| VideoPlayerUtils.StringBuilder.AppendMinutesAndSeconds | video-player/src/main/java/com/lanlinju/videoplayer/Utils.kt:131-137 | the builder's text grows by exactly minutes field, ':', seconds field |
| VideoPlayerUtils.PrettyVideoTimestamp | video-player/src/main/java/com/lanlinju/videoplayer/Utils.kt:119-126 | the result is position text, '/', duration text, with no spaces; for non-negative inputs it reads back as both values in whole seconds |
| VideoPlayerUtils.MediaItemCreator | video-player/src/main/java/com/lanlinju/videoplayer/Utils.kt:152-161 | a URL is a local file exactly when it contains "/storage/emulated"; it is an HLS stream exactly when it does not but contains ".m3u8" |
| VideoPlayerUtils.LocalPathWinsOverHls | video-player/src/main/java/com/lanlinju/videoplayer/Utils.kt:152-155 | a device path is played as a local file with no MIME type, even when it also names ".m3u8" |
| VideoPlayerUtils.RemoteMimeType | video-player/src/main/java/com/lanlinju/videoplayer/Utils.kt:156-160 | a remote URL gets the HLS MIME type exactly when it contains ".m3u8", otherwise none |
| VideoPlayerUtils.SetVideoUrl | video-player/src/main/java/com/lanlinju/videoplayer/Utils.kt:172-178 | the plain media item is used exactly when the headers are empty; otherwise the media source carries the headers; both classify the URL as mediaItemCreator does |
| GugufanSource.FindFrom | app/src/main/java/com/lanlinju/animius/data/remote/parse/GugufanSource.kt:111-112 | the search from a start position returns the URL of the earliest entry at or after it, or none exactly when no later position holds an entry |
| GugufanSource.EntryAtSound | app/src/main/java/com/lanlinju/animius/data/remote/parse/GugufanSource.kt:111 | what the scanner accepts at a position is an entry `"url"`, whitespace, ':', whitespace, '"', an http(s) URL, `",` |
| GugufanSource.EntryAtComplete | app/src/main/java/com/lanlinju/animius/data/remote/parse/GugufanSource.kt:111 | every such entry is accepted by the scanner at its position, with its own URL |
| GugufanSource.ExtractUrlWithRegex | app/src/main/java/com/lanlinju/animius/data/remote/parse/GugufanSource.kt:110-113 | on success the URL starts with "http://" or "https://" followed by at least one character, has no '"', and is that of the earliest entry; it fails with "Failed to extract Url" exactly when no position holds an entry |
| GugufanSource.IdeographicSpacesAroundColon | app/src/main/java/com/lanlinju/animius/data/remote/parse/GugufanSource.kt:111 | `\s` is Unicode whitespace: an entry with ideographic spaces around the colon still yields its URL |
| GugufanSource.ExtractedUrlInPlace | app/src/main/java/com/lanlinju/animius/data/remote/parse/GugufanSource.kt:111 | the extracted URL occurs in the input between a '"' and a following `",` |
| GugufanSource.FirstEntryIsExtracted | app/src/main/java/com/lanlinju/animius/data/remote/parse/GugufanSource.kt:112 | the URL of the first entry of the input is extracted, whatever entries follow it |
| GugufanSource.CreateHeaders | app/src/main/java/com/lanlinju/animius/data/remote/parse/GugufanSource.kt:103-108 | no headers exactly when the URL contains "m3u8"; otherwise exactly Referer = base URL and User-Agent = the default user agent |
| GugufanSource.ExtractedUrlReachesPlayer | app/src/main/java/com/lanlinju/animius/data/remote/parse/GugufanSource.kt:98-100 | when a remote URL is played with the headers createHeaders built for that same URL, as for the video the init block builds, it goes down the plain media-item path exactly when it contains "m3u8"; an ".m3u8" URL is then an HLS stream, and a URL with headers a plain remote file (later episodes keep the first video's headers, see `SwitchedEpisodeKeepsPlayerPath`) |
| PlayerViewModel.FetchDanmakuSessionResult | app/src/main/java/com/lanlinju/animius/presentation/screen/videoplayer/VideoPlayerViewModel.kt:205-218 | the session is cleared first and stays cleared while danmaku is disabled or no video is shown; otherwise it is the repository's session for the shown title and episode name; nothing else changes |
| PlayerViewModel.SetEnabledDanmakuResult | app/src/main/java/com/lanlinju/animius/presentation/screen/videoplayer/VideoPlayerViewModel.kt:224-233 | the switch is recorded; a session is loaded only when turning danmaku on with none loaded; turning it off keeps a loaded session |
| PlayerViewModel.SaveVideoPositionSkipped | app/src/main/java/com/lanlinju/animius/presentation/screen/videoplayer/VideoPlayerViewModel.kt:283-299 | below 5000 ms, for a local video, or with no video on screen (an error or Loading), nothing is recorded and nothing changes |
| PlayerViewModel.SaveVideoPositionRecorded | app/src/main/java/com/lanlinju/animius/presentation/screen/videoplayer/VideoPlayerViewModel.kt:283-299 | for a remote video on screen and 5000 ms or more, exactly one entry is recorded: the shown episode's name and address, the position and the history id; nothing else changes |
| PlayerViewModel.SaveVideoPositionValid | app/src/main/java/com/lanlinju/animius/presentation/screen/videoplayer/VideoPlayerViewModel.kt:283-299 | saving keeps every recorded position at five seconds or more and a local video's history empty, and changes nothing but the history |
| PlayerViewModel.GetVideoFromRemoteSuccess | app/src/main/java/com/lanlinju/animius/presentation/screen/videoplayer/VideoPlayerViewModel.kt:172-191 | a successful fetch shows the fetched address as episode `index` with that episode's name, the requested episode address and the stored position (0 if none), and keeps the title, the episode list and the old headers; the danmaku session is reloaded for the new episode's name when danmaku is on and cleared otherwise; the request for `(episodeUrl, index)` is logged; nothing else changes (history, history id, remembered episode, local/remote split, danmaku switch) |
| PlayerViewModel.SwitchedEpisodeKeepsPlayerPath | app/src/main/java/com/lanlinju/animius/presentation/screen/videoplayer/VideoPlayerViewModel.kt:180-187 | after a successful fetch the player is handed the new address, but takes the plain media-item path exactly when the video shown before had no headers, and otherwise gets that video's headers, whatever the fetch returned |
| PlayerViewModel.GetVideoFromRemoteFailure | app/src/main/java/com/lanlinju/animius/presentation/screen/videoplayer/VideoPlayerViewModel.kt:193-195 | a failed fetch shows the error and logs the request for `(episodeUrl, index)`; nothing else changes |
| PlayerViewModel.LocalGetVideo | app/src/main/java/com/lanlinju/animius/presentation/screen/videoplayer/VideoPlayerViewModel.kt:242-250 | a local switch replaces only the shown address, episode name and index; the session is reloaded for the new episode name when enabled, otherwise cleared; nothing else changes |
| PlayerViewModel.RemoteGetVideoSavesOutgoingEpisode | app/src/main/java/com/lanlinju/animius/presentation/screen/videoplayer/VideoPlayerViewModel.kt:251-257 | a remote switch remembers the new episode's address and index, records the progress against the episode being left, and fetches the new episode |
| PlayerViewModel.RemoteGetVideoRequestsEpisode | app/src/main/java/com/lanlinju/animius/presentation/screen/videoplayer/VideoPlayerViewModel.kt:251-257 | a remote switch to `(url, index)` logs exactly one fetch, for `(url, index)`, which is then the remembered episode |
| PlayerViewModel.NextEpisodeAtEnd | app/src/main/java/com/lanlinju/animius/presentation/screen/videoplayer/VideoPlayerViewModel.kt:264-277 | at the last episode, or with no video on screen, nextEpisode changes nothing |
| PlayerViewModel.NextEpisodeIsGetVideo | app/src/main/java/com/lanlinju/animius/presentation/screen/videoplayer/VideoPlayerViewModel.kt:264-277 | otherwise it is getVideo on the next episode's address, name and index with the same position |
| PlayerViewModel.RetryOutcome | app/src/main/java/com/lanlinju/animius/presentation/screen/videoplayer/VideoPlayerViewModel.kt:304-307 | retry logs exactly one fetch, for the remembered episode address and index; a failed retry shows the error; a successful one leaves the screen at Loading and crashes, since Loading holds no video; nothing else changes |
| PlayerViewModel.RetryRequestsShownEpisode | app/src/main/java/com/lanlinju/animius/presentation/screen/videoplayer/VideoPlayerViewModel.kt:304-307 | while the invariant holds and a remote video is on screen, retry fetches that video's episode address and index |
| PlayerViewModel.InitialValid | app/src/main/java/com/lanlinju/animius/presentation/screen/videoplayer/VideoPlayerViewModel.kt:80-126 | the initial state satisfies the invariant, is local or remote as the parameters say, and has saved nothing; a local one has fetched nothing, a remote one exactly the starting episode |
| PlayerViewModel.InitialShows | app/src/main/java/com/lanlinju/animius/presentation/screen/videoplayer/VideoPlayerViewModel.kt:80-162 | a local start shows the starting episode from position 0 with no headers; a remote start remembers the episode and the stored row's history id, and shows the fetch error or the fetched address and headers under the episode's name and address from the stored position (0 if none); a shown video's danmaku session is loaded when enabled |
| PlayerViewModel.GetVideoValid | app/src/main/java/com/lanlinju/animius/presentation/screen/videoplayer/VideoPlayerViewModel.kt:242-258 | getVideo keeps the invariant and the local/remote split, although it breaks the invariant half-way |
| PlayerViewModel.OperationValid | app/src/main/java/com/lanlinju/animius/presentation/screen/videoplayer/VideoPlayerViewModel.kt:224-307 | each public operation keeps the invariant and the local/remote split |
| PlayerViewModel.RunValid | app/src/main/java/com/lanlinju/animius/presentation/screen/videoplayer/VideoPlayerViewModel.kt:224-307 | after any sequence of operations the invariant holds, the split is unchanged, and a local video has saved nothing |
| PlayerViewModel.VideoPlayerViewModel.constructor | app/src/main/java/com/lanlinju/animius/presentation/screen/videoplayer/VideoPlayerViewModel.kt:80-162 | the init block leaves the state `Initial` describes: a local video shown at once; a remote one remembered, its history id looked up, and fetched; the invariant holds |
| PlayerViewModel.VideoPlayerViewModel.FetchDanmakuSession | app/src/main/java/com/lanlinju/animius/presentation/screen/videoplayer/VideoPlayerViewModel.kt:205-218 | the new state is exactly the one described by `PlayerState.FetchDanmakuSession` |
| PlayerViewModel.VideoPlayerViewModel.SetEnabledDanmaku | app/src/main/java/com/lanlinju/animius/presentation/screen/videoplayer/VideoPlayerViewModel.kt:224-233 | the new state is the one `PlayerState.SetEnabledDanmaku` describes, and the invariant is kept |
| PlayerViewModel.VideoPlayerViewModel.SaveVideoPosition | app/src/main/java/com/lanlinju/animius/presentation/screen/videoplayer/VideoPlayerViewModel.kt:283-299 | the new state is the one `PlayerState.SaveVideoPosition` describes; whatever part of the invariant held still holds |
| PlayerViewModel.VideoPlayerViewModel.GetVideoFromRemote | app/src/main/java/com/lanlinju/animius/presentation/screen/videoplayer/VideoPlayerViewModel.kt:172-197 | the new state is the one `PlayerState.GetVideoFromRemote` describes for the fetch result and stored row |
| PlayerViewModel.VideoPlayerViewModel.GetVideo | app/src/main/java/com/lanlinju/animius/presentation/screen/videoplayer/VideoPlayerViewModel.kt:242-258 | the new state is the one `PlayerState.GetVideo` describes, and the invariant is kept |
| PlayerViewModel.VideoPlayerViewModel.NextEpisode | app/src/main/java/com/lanlinju/animius/presentation/screen/videoplayer/VideoPlayerViewModel.kt:264-277 | the new state is the one `PlayerState.NextEpisode` describes, and the invariant is kept |
| PlayerViewModel.VideoPlayerViewModel.Retry | app/src/main/java/com/lanlinju/animius/presentation/screen/videoplayer/VideoPlayerViewModel.kt:304-307 | the new state is the one `PlayerState.Retry` describes (Loading, then a fetch of the remembered episode), and the invariant is kept |

## Left out

- `resizeForVideo`, `VideoSize.aspectRatio` and `loadControlCreator` (Utils.kt): floating-point layout arithmetic and Media3 builder calls.
- The Media3 objects: `MediaItem`, `ProgressiveMediaSource` and `DefaultHttpDataSource` are reduced to the classification `MediaKind` and the choice `PlayerSource`.
- `mediaSourceCreator` is covered only through `SetVideoUrl`'s header-carrying branch. The HTTP data source that sends the headers is a library object.
- VideoPlayerUtils.TruncDiv: Kotlin `Long` overflow and the infinite `Duration` are not modelled. Positions are unbounded integers, and the arithmetic is exact.
- The rest of `GugufanSource.kt`: page fetches, Jsoup selectors and WebView interception. The model starts from the script text.
- GugufanSource.CreateHeaders: the `DefaultUserAgent` value and the adapter's current `baseUrl` are parameters, because their definitions are not part of this model.
- GugufanSource.ExtractUrlWithRegex: the thrown `IllegalStateException` is the `Failure` value carrying its message.
- The `Resource` and `Video` classes are not part of this model. `Loading` is taken to carry no video, because the source uses `Resource.Loading` as a value with no arguments (VideoPlayerViewModel.kt lines 52 and 305). A local `Video` is taken to start with position 0 and no headers, the defaults the init block relies on.
- `mode` (the source mode passed to `getVideoData`) and the `params.mode!!` check: the fetch result is a parameter, so the mode that selects the site adapter is not modelled.
- PlayerViewModel.VideoPlayerViewModel.constructor: requires the starting episode index to be within the episode list. Navigation always passes one; with any other index the source's init block throws before doing anything else.
- `getHistoryId` keeps collecting the Room flow, so later database changes would update `historyId` again. The model takes the stored row once, when the view model starts.
- The Room DAO's semantics are not part of this model: whether an insert replaces a row, and what later lookups return. Inserts are recorded in order in `saved`. The row read by a fetch is a parameter.
- Persisting the danmaku switch to SharedPreferences in `setEnabledDanmaku`: a platform key-value store.
- Concurrency: coroutines interleaving, or a fetch finishing after a later operation. Each launched coroutine runs to completion in launch order.
- The DLNA/UPnP methods (`pushVideoUrl`, `searchDeviceList`, `initService`, `destroyDLNA`) and the device list: network discovery through the Cling library.
