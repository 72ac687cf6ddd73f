/** The video player screen's view model: which episode is shown, what the
    screen displays (loading, the video, or an error), the danmaku (scrolling
    comment) session, and the watch progress it writes to the history
    database.

    The repositories are outside the model. A remote lookup of an episode's
    playable URL and a Room lookup of a stored episode are parameters of the
    operations that make them; each Room insert is recorded in `saved` and
    each remote fetch, with the episode address it asks for and the index
    it is meant to show, in `requests`; the danmaku repository is a
    function fixed when the view model is made. Every coroutine the source
    launches is taken to run to completion, in launch order, before the
    next operation starts. */
module PlayerViewModel {
  import opened Wrappers
  import VideoPlayerUtils

  /** An episode as the navigation parameters and the history database know
      it. */
  datatype Episode = Episode(name: string, url: string, lastPlayPosition: int, historyId: int)

  /** What the player screen shows. */
  datatype Video = Video(
    title: string,
    url: string,
    episodeName: string,
    episodeUrl: string,
    lastPlayPosition: int,
    currentEpisodeIndex: nat,
    episodes: seq<Episode>,
    headers: map<string, string>)

  /** The playable address a site adapter extracted for an episode page. */
  datatype WebVideo = WebVideo(url: string, headers: map<string, string>)

  /** The outcome of AnimeRepository.getVideoData. */
  datatype FetchResult = Fetched(video: WebVideo) | FetchFailed(error: string)

  /** The screen state: only Success carries a video. */
  datatype Resource = Loading | Success(data: Video) | Error(error: string)

  /** A handle on a loaded comment stream. */
  datatype DanmakuSession = DanmakuSession(id: nat)

  /** DanmakuRepository.fetchDanmakuSession, from a title and an episode name. */
  type DanmakuRepository = (string, string) -> Option<DanmakuSession>

  /** The decoded navigation arguments of the player route. */
  datatype PlayerParameters = PlayerParameters(
    title: string,
    episodeIndex: nat,
    episodes: seq<Episode>,
    isLocalVideo: bool)

  /** Progress below five seconds is not worth remembering. */
  const SavePositionThreshold := 5000

  /** historyId before the history database has answered. */
  const NoHistoryId := -1

  /** The view model's fields, together with the log of Room inserts, the
      log of remote fetches, and whether a launched coroutine died with an
      exception (`data!!` on a state without a video, or an episode index
      out of range), which the app's uncaught-exception handler turns into
      its crash screen. */
  datatype PlayerState = PlayerState(
    isLocalVideo: bool,
    currentEpisodeUrl: string,
    currentEpisodeIndex: nat,
    historyId: int,
    videoState: Resource,
    enabledDanmaku: bool,
    danmakuSession: Option<DanmakuSession>,
    saved: seq<Episode>,
    requests: seq<(string, nat)>,
    crashed: bool)
  {
    /** fetchDanmakuSession: clear the session, then, when danmaku is enabled
        and a video is shown, load the one for its title and episode name. */
    function FetchDanmakuSession(repo: DanmakuRepository): PlayerState {
      var cleared := this.(danmakuSession := None);
      if !enabledDanmaku then cleared
      else match videoState
        case Success(v) => cleared.(danmakuSession := repo(v.title, v.episodeName))
        case _ => cleared
    }

    /** setEnabledDanmaku: record the switch; load a session only when
        turning danmaku on while none is loaded. */
    function SetEnabledDanmaku(repo: DanmakuRepository, enabled: bool): PlayerState {
      var switched := this.(enabledDanmaku := enabled);
      if enabled && switched.danmakuSession.None? then switched.FetchDanmakuSession(repo)
      else switched
    }

    /** saveVideoPosition: insert the shown episode with the position into
        the history database, unless the position is under five seconds or
        the video is a local file. */
    function SaveVideoPosition(position: int): PlayerState {
      if position < SavePositionThreshold || isLocalVideo then this
      else match videoState
        case Success(v) =>
          this.(saved := saved + [Episode(v.episodeName, v.episodeUrl, position, historyId)])
        case _ => this
    }

    /** getVideoFromRemote, with the repository's answer `fetched` and the
        history row `stored` for `episodeUrl`. */
    function GetVideoFromRemote(
      repo: DanmakuRepository, episodeUrl: string, index: nat,
      fetched: FetchResult, stored: Option<Episode>): PlayerState
    {
      var asked := this.(requests := requests + [(episodeUrl, index)]);
      match fetched
      case FetchFailed(e) => asked.(videoState := Error(e))
      case Fetched(web) =>
        if videoState.Success? && index < |videoState.data.episodes| then
          var v := videoState.data;
          var position := if stored.Some? then stored.value.lastPlayPosition else 0;
          var shown := v.(url := web.url, currentEpisodeIndex := index,
                          episodeName := v.episodes[index].name, episodeUrl := episodeUrl,
                          lastPlayPosition := position);
          asked.(videoState := Resource.Success(shown)).FetchDanmakuSession(repo)
        else
          asked.(crashed := true)
    }

    /** getVideo: switch to episode `index`. A local video only changes what
        is shown; a remote one remembers the episode, saves the progress of
        the one being left, and fetches the new one. */
    function GetVideo(
      repo: DanmakuRepository, url: string, episodeName: string, index: nat,
      videoPosition: int, fetched: FetchResult, stored: Option<Episode>): PlayerState
    {
      if isLocalVideo then
        var shown := match videoState
          case Success(v) =>
            var moved := v.(url := url, episodeName := episodeName, currentEpisodeIndex := index);
            this.(videoState := Resource.Success(moved))
          case _ => this;
        shown.FetchDanmakuSession(repo)
      else
        this.(currentEpisodeUrl := url, currentEpisodeIndex := index)
            .SaveVideoPosition(videoPosition)
            .GetVideoFromRemote(repo, url, index, fetched, stored)
    }

    /** nextEpisode: getVideo on the following episode, if there is one. */
    function NextEpisode(
      repo: DanmakuRepository, position: int, fetched: FetchResult, stored: Option<Episode>): PlayerState
    {
      match videoState
      case Success(v) =>
        var next := v.currentEpisodeIndex + 1;
        if next < |v.episodes| then
          GetVideo(repo, v.episodes[next].url, v.episodes[next].name, next, position, fetched, stored)
        else this
      case _ => this
    }

    /** retry: show Loading and fetch the remembered episode again. */
    function Retry(repo: DanmakuRepository, fetched: FetchResult, stored: Option<Episode>): PlayerState {
      this.(videoState := Loading)
          .GetVideoFromRemote(repo, currentEpisodeUrl, currentEpisodeIndex, fetched, stored)
    }

    /** What holds between operations: as long as the app has not crashed,
        a remote video on screen is the episode that retry would fetch; the
        last fetch asked for the remembered episode; every saved position
        is at least five seconds, and a local video never writes history. */
    predicate Valid() {
      TracksShownEpisode() && RequestsRemembered() && HistoryValid()
    }

    /** A remote view model has fetched, and its latest fetch was for the
        remembered episode. */
    predicate RequestsRemembered() {
      (!isLocalVideo ==> requests != []) &&
      (requests != [] ==> requests[|requests| - 1] == (currentEpisodeUrl, currentEpisodeIndex))
    }

    /** A remote video on screen is the remembered episode. */
    predicate TracksShownEpisode() {
      !isLocalVideo && !crashed && videoState.Success? ==>
        videoState.data.episodeUrl == currentEpisodeUrl &&
        videoState.data.currentEpisodeIndex == currentEpisodeIndex
    }

    /** The history writes so far: none under five seconds, none for a
        local video. */
    predicate HistoryValid() {
      (forall i :: 0 <= i < |saved| ==> saved[i].lastPlayPosition >= SavePositionThreshold) &&
      (isLocalVideo ==> saved == [])
    }
  }

  /** The view model's init block: a local video is shown at once; a remote
      one is remembered, its history id looked up and its address fetched. */
  function Initial(
    params: PlayerParameters, enabledDanmaku: bool, repo: DanmakuRepository,
    stored: Option<Episode>, fetched: FetchResult): PlayerState
    requires params.episodeIndex < |params.episodes|
  {
    var index := params.episodeIndex;
    var episode := params.episodes[index];
    var start := PlayerState(false, "", 0, NoHistoryId, Loading, enabledDanmaku, None, [], [], false);
    if params.isLocalVideo then
      start.(isLocalVideo := true,
             videoState := Resource.Success(Video(params.title, episode.url, episode.name, episode.url,
                                         0, index, params.episodes, map[])))
           .FetchDanmakuSession(repo)
    else
      var remembered := start.(currentEpisodeUrl := episode.url, currentEpisodeIndex := index,
                               historyId := if stored.Some? then stored.value.historyId else NoHistoryId,
                               requests := [(episode.url, index)]);
      match fetched
      case FetchFailed(e) => remembered.(videoState := Error(e))
      case Fetched(web) =>
        var position := if stored.Some? then stored.value.lastPlayPosition else 0;
        remembered.(videoState := Resource.Success(Video(params.title, web.url, episode.name, episode.url,
                                                position, index, params.episodes, web.headers)))
                  .FetchDanmakuSession(repo)
  }

  // ---------------------------------------------------------------------
  // Properties of the operations
  // ---------------------------------------------------------------------

  /** The session is always cleared first; while danmaku is disabled it
      stays cleared, and otherwise it is the shown video's. Nothing else
      changes. */
  lemma FetchDanmakuSessionResult(s: PlayerState, repo: DanmakuRepository)
    ensures var r := s.FetchDanmakuSession(repo);
            r.(danmakuSession := None) == s.(danmakuSession := None) &&
            (!s.enabledDanmaku ==> r.danmakuSession == None) &&
            (s.enabledDanmaku && s.videoState.Success? ==>
               r.danmakuSession == repo(s.videoState.data.title, s.videoState.data.episodeName)) &&
            (!s.videoState.Success? ==> r.danmakuSession == None)
  {
  }

  /** Turning danmaku on loads a session only when none is loaded; turning
      it off keeps whatever session is loaded. */
  lemma SetEnabledDanmakuResult(s: PlayerState, repo: DanmakuRepository, enabled: bool)
    ensures var r := s.SetEnabledDanmaku(repo, enabled);
            r.enabledDanmaku == enabled &&
            (!enabled || s.danmakuSession.Some? ==> r == s.(enabledDanmaku := enabled)) &&
            (enabled && s.danmakuSession.None? ==>
               r == s.(enabledDanmaku := true).FetchDanmakuSession(repo))
  {
  }

  /** Under five seconds, for a local video, or with no video on screen,
      nothing is recorded. */
  lemma SaveVideoPositionSkipped(s: PlayerState, position: int)
    requires position < SavePositionThreshold || s.isLocalVideo || !s.videoState.Success?
    ensures s.SaveVideoPosition(position) == s
  {
  }

  /** Otherwise the shown episode's name and address are recorded with the
      position and the history id, and nothing else changes. */
  lemma SaveVideoPositionRecorded(s: PlayerState, position: int)
    requires position >= SavePositionThreshold && !s.isLocalVideo && s.videoState.Success?
    ensures var v := s.videoState.data;
            s.SaveVideoPosition(position) ==
              s.(saved := s.saved + [Episode(v.episodeName, v.episodeUrl, position, s.historyId)])
  {
  }

  /** A successful remote fetch shows the fetched address under episode
      `index`, with the stored position (0 when none) and the episode's own
      name; the title, the episode list and the request headers of the video
      on screen are kept, even when the fetched headers differ. The danmaku
      session is reloaded for the new episode, or cleared while danmaku is
      off; apart from the logged request, nothing else changes. */
  lemma GetVideoFromRemoteSuccess(
    s: PlayerState, repo: DanmakuRepository, episodeUrl: string, index: nat,
    web: WebVideo, stored: Option<Episode>)
    requires s.videoState.Success? && index < |s.videoState.data.episodes|
    ensures var v := s.videoState.data;
            var r := s.GetVideoFromRemote(repo, episodeUrl, index, Fetched(web), stored);
            r.videoState.Success? && r.crashed == s.crashed &&
            r.videoState.data.url == web.url &&
            r.videoState.data.currentEpisodeIndex == index &&
            r.videoState.data.episodeName == v.episodes[index].name &&
            r.videoState.data.episodeUrl == episodeUrl &&
            r.videoState.data.lastPlayPosition == (if stored.Some? then stored.value.lastPlayPosition else 0) &&
            r.videoState.data.title == v.title &&
            r.videoState.data.episodes == v.episodes &&
            r.videoState.data.headers == v.headers &&
            r.currentEpisodeUrl == s.currentEpisodeUrl && r.saved == s.saved &&
            r.requests == s.requests + [(episodeUrl, index)] &&
            r.danmakuSession == (if s.enabledDanmaku then repo(v.title, v.episodes[index].name) else None) &&
            r.(videoState := s.videoState, requests := s.requests, danmakuSession := s.danmakuSession) == s
  {
  }

  /** What the player is handed after a successful switch: the new address,
      but the way it is set (plain media item or header-carrying media
      source) and the headers are those of the video shown before, whatever
      headers the fetch returned. */
  lemma SwitchedEpisodeKeepsPlayerPath(
    s: PlayerState, repo: DanmakuRepository, episodeUrl: string, index: nat,
    web: WebVideo, stored: Option<Episode>)
    requires s.videoState.Success? && index < |s.videoState.data.episodes|
    ensures var before := s.videoState.data;
            var r := s.GetVideoFromRemote(repo, episodeUrl, index, Fetched(web), stored);
            r.videoState.Success? &&
            var src := VideoPlayerUtils.SetVideoUrl(r.videoState.data.url, r.videoState.data.headers);
            src.url == web.url &&
            (src.PlainMediaItem? <==> |before.headers| == 0) &&
            (src.HeaderMediaSource? ==> src.headers == before.headers)
  {
  }

  /** A failed fetch shows the error; apart from the request, nothing else
      changes. */
  lemma GetVideoFromRemoteFailure(
    s: PlayerState, repo: DanmakuRepository, episodeUrl: string, index: nat,
    e: string, stored: Option<Episode>)
    ensures s.GetVideoFromRemote(repo, episodeUrl, index, FetchFailed(e), stored) ==
              s.(videoState := Error(e), requests := s.requests + [(episodeUrl, index)])
  {
  }

  /** A local video changes only the shown address, episode name and index:
      title, episode list, episode address, position and headers stay, and
      the session is reloaded for the new episode name (or cleared). */
  lemma LocalGetVideo(
    s: PlayerState, repo: DanmakuRepository, url: string, episodeName: string, index: nat,
    videoPosition: int, fetched: FetchResult, stored: Option<Episode>)
    requires s.isLocalVideo && s.videoState.Success?
    ensures var v := s.videoState.data;
            var r := s.GetVideo(repo, url, episodeName, index, videoPosition, fetched, stored);
            r.videoState ==
              Resource.Success(v.(url := url, episodeName := episodeName, currentEpisodeIndex := index)) &&
            r.danmakuSession == (if s.enabledDanmaku then repo(v.title, episodeName) else None) &&
            r.(danmakuSession := s.danmakuSession, videoState := s.videoState) == s
  {
  }

  /** A remote switch remembers the new episode first and then saves the
      progress of the episode still on screen, the one being left, before
      the fetch of the new one. */
  lemma RemoteGetVideoSavesOutgoingEpisode(
    s: PlayerState, repo: DanmakuRepository, url: string, episodeName: string, index: nat,
    videoPosition: int, fetched: FetchResult, stored: Option<Episode>)
    requires !s.isLocalVideo && s.videoState.Success? && videoPosition >= SavePositionThreshold
    ensures var v := s.videoState.data;
            var r := s.GetVideo(repo, url, episodeName, index, videoPosition, fetched, stored);
            r.currentEpisodeUrl == url && r.currentEpisodeIndex == index &&
            r.saved == s.saved + [Episode(v.episodeName, v.episodeUrl, videoPosition, s.historyId)] &&
            r.requests == s.requests + [(url, index)]
  {
  }

  /** At the last episode, or with no video on screen, nextEpisode does
      nothing. */
  lemma NextEpisodeAtEnd(
    s: PlayerState, repo: DanmakuRepository, position: int, fetched: FetchResult, stored: Option<Episode>)
    requires !s.videoState.Success? ||
             s.videoState.data.currentEpisodeIndex + 1 >= |s.videoState.data.episodes|
    ensures s.NextEpisode(repo, position, fetched, stored) == s
  {
  }

  /** Otherwise it is getVideo on the following episode's address and name. */
  lemma NextEpisodeIsGetVideo(
    s: PlayerState, repo: DanmakuRepository, position: int, fetched: FetchResult, stored: Option<Episode>)
    requires s.videoState.Success?
    requires s.videoState.data.currentEpisodeIndex + 1 < |s.videoState.data.episodes|
    ensures var v := s.videoState.data;
            var i := v.currentEpisodeIndex + 1;
            s.NextEpisode(repo, position, fetched, stored) ==
              s.GetVideo(repo, v.episodes[i].url, v.episodes[i].name, i, position, fetched, stored)
  {
  }

  /** Retry fetches the remembered episode once more. A failed retry shows
      the error again. A successful one cannot show the video: retry has
      just replaced the screen state by Loading, which carries no video, so
      the `data!!` of the success path throws. */
  lemma RetryOutcome(s: PlayerState, repo: DanmakuRepository, fetched: FetchResult, stored: Option<Episode>)
    ensures var r := s.Retry(repo, fetched, stored);
            var asked := s.requests + [(s.currentEpisodeUrl, s.currentEpisodeIndex)];
            r.requests == asked &&
            (fetched.FetchFailed? ==> r == s.(videoState := Error(fetched.error), requests := asked)) &&
            (fetched.Fetched? ==> r == s.(videoState := Loading, requests := asked, crashed := true))
  {
  }

  /** With a remote video on screen and the invariant holding, the episode
      retry asks for is the one on screen. */
  lemma RetryRequestsShownEpisode(
    s: PlayerState, repo: DanmakuRepository, fetched: FetchResult, stored: Option<Episode>)
    requires s.Valid() && !s.isLocalVideo && !s.crashed && s.videoState.Success?
    ensures var v := s.videoState.data;
            s.Retry(repo, fetched, stored).requests == s.requests + [(v.episodeUrl, v.currentEpisodeIndex)]
  {
  }

  /** A remote switch fetches the episode it switches to, which is the one
      remembered afterwards. */
  lemma RemoteGetVideoRequestsEpisode(
    s: PlayerState, repo: DanmakuRepository, url: string, episodeName: string, index: nat,
    videoPosition: int, fetched: FetchResult, stored: Option<Episode>)
    requires !s.isLocalVideo
    ensures var r := s.GetVideo(repo, url, episodeName, index, videoPosition, fetched, stored);
            r.requests == s.requests + [(url, index)] &&
            r.requests[|r.requests| - 1] == (r.currentEpisodeUrl, r.currentEpisodeIndex)
  {
  }

  // ---------------------------------------------------------------------
  // The invariant, over single operations and over any sequence of them
  // ---------------------------------------------------------------------

  /** A public operation of the view model, with the answers of the
      repositories it consults. */
  datatype Operation =
    | GetVideoOp(url: string, episodeName: string, index: nat, videoPosition: int,
                 fetched: FetchResult, stored: Option<Episode>)
    | NextEpisodeOp(position: int, fetched: FetchResult, stored: Option<Episode>)
    | SaveVideoPositionOp(position: int)
    | RetryOp(fetched: FetchResult, stored: Option<Episode>)
    | SetEnabledDanmakuOp(enabled: bool)

  function Apply(s: PlayerState, repo: DanmakuRepository, op: Operation): PlayerState {
    match op
    case GetVideoOp(url, name, index, pos, fetched, stored) =>
      s.GetVideo(repo, url, name, index, pos, fetched, stored)
    case NextEpisodeOp(pos, fetched, stored) => s.NextEpisode(repo, pos, fetched, stored)
    case SaveVideoPositionOp(pos) => s.SaveVideoPosition(pos)
    case RetryOp(fetched, stored) => s.Retry(repo, fetched, stored)
    case SetEnabledDanmakuOp(enabled) => s.SetEnabledDanmaku(repo, enabled)
  }

  /** The operations applied one after another. */
  function Run(s: PlayerState, repo: DanmakuRepository, ops: seq<Operation>): PlayerState
    decreases |ops|
  {
    if ops == [] then s else Run(Apply(s, repo, ops[0]), repo, ops[1..])
  }

  lemma InitialValid(
    params: PlayerParameters, enabledDanmaku: bool, repo: DanmakuRepository,
    stored: Option<Episode>, fetched: FetchResult)
    requires params.episodeIndex < |params.episodes|
    ensures var s := Initial(params, enabledDanmaku, repo, stored, fetched);
            s.Valid() && s.isLocalVideo == params.isLocalVideo && s.saved == [] && !s.crashed &&
            s.requests == (if params.isLocalVideo then []
                           else [(params.episodes[params.episodeIndex].url, params.episodeIndex)])
  {
  }

  /** What the init block shows and remembers. A local video is shown at
      once from the navigation arguments, from position 0 and with no
      headers. A remote one remembers the starting episode and the stored
      row's history id, and shows either the fetch error or the fetched
      address and headers under the episode's own name and address, from the
      stored position (0 when none). */
  lemma InitialShows(
    params: PlayerParameters, enabledDanmaku: bool, repo: DanmakuRepository,
    stored: Option<Episode>, fetched: FetchResult)
    requires params.episodeIndex < |params.episodes|
    ensures var s := Initial(params, enabledDanmaku, repo, stored, fetched);
            var index := params.episodeIndex;
            var episode := params.episodes[index];
            s.enabledDanmaku == enabledDanmaku &&
            (params.isLocalVideo ==>
               s.historyId == NoHistoryId &&
               s.videoState == Resource.Success(Video(params.title, episode.url, episode.name, episode.url,
                                                      0, index, params.episodes, map[]))) &&
            (!params.isLocalVideo ==>
               s.currentEpisodeUrl == episode.url && s.currentEpisodeIndex == index &&
               s.historyId == (if stored.Some? then stored.value.historyId else NoHistoryId) &&
               (fetched.FetchFailed? ==> s.videoState == Error(fetched.error) && s.danmakuSession == None) &&
               (fetched.Fetched? ==>
                  s.videoState.Success? &&
                  s.videoState.data.url == fetched.video.url &&
                  s.videoState.data.headers == fetched.video.headers &&
                  s.videoState.data.episodeName == episode.name &&
                  s.videoState.data.episodeUrl == episode.url &&
                  s.videoState.data.lastPlayPosition ==
                    (if stored.Some? then stored.value.lastPlayPosition else 0) &&
                  s.videoState.data.currentEpisodeIndex == index &&
                  s.videoState.data.title == params.title &&
                  s.videoState.data.episodes == params.episodes)) &&
            (s.videoState.Success? ==>
               s.danmakuSession == (if enabledDanmaku then repo(params.title, episode.name) else None))
  {
  }

  lemma FetchDanmakuSessionValid(s: PlayerState, repo: DanmakuRepository)
    requires s.Valid()
    ensures s.FetchDanmakuSession(repo).Valid()
  {
    FetchDanmakuSessionResult(s, repo);
  }

  /** Saving progress keeps the history valid and changes nothing else. */
  lemma SaveVideoPositionValid(s: PlayerState, position: int)
    requires s.HistoryValid()
    ensures s.SaveVideoPosition(position).HistoryValid()
    ensures s.SaveVideoPosition(position).(saved := s.saved) == s
  {
    var r := s.SaveVideoPosition(position);
    forall i | 0 <= i < |r.saved|
      ensures r.saved[i].lastPlayPosition >= SavePositionThreshold
    {
      if i < |s.saved| {
        assert r.saved[i] == s.saved[i];
      }
    }
  }

  /** A remote fetch of the remembered episode restores the whole
      invariant, whatever the outcome. */
  lemma GetVideoFromRemoteValid(
    s: PlayerState, repo: DanmakuRepository, episodeUrl: string, index: nat,
    fetched: FetchResult, stored: Option<Episode>)
    requires s.HistoryValid() && !s.isLocalVideo
    requires episodeUrl == s.currentEpisodeUrl && index == s.currentEpisodeIndex
    ensures s.GetVideoFromRemote(repo, episodeUrl, index, fetched, stored).Valid()
  {
    if fetched.Fetched? && s.videoState.Success? && index < |s.videoState.data.episodes| {
      var v := s.videoState.data;
      var position := if stored.Some? then stored.value.lastPlayPosition else 0;
      var shown := v.(url := fetched.video.url, currentEpisodeIndex := index,
                      episodeName := v.episodes[index].name, episodeUrl := episodeUrl,
                      lastPlayPosition := position);
      FetchDanmakuSessionValid(s.(requests := s.requests + [(episodeUrl, index)],
                                  videoState := Resource.Success(shown)), repo);
    }
  }

  /** Every operation keeps the invariant and the local/remote split. */
  lemma {:induction false} OperationValid(s: PlayerState, repo: DanmakuRepository, op: Operation)
    requires s.Valid()
    ensures Apply(s, repo, op).Valid()
    ensures Apply(s, repo, op).isLocalVideo == s.isLocalVideo
  {
    match op
    case GetVideoOp(url, name, index, pos, fetched, stored) =>
      GetVideoValid(s, repo, url, name, index, pos, fetched, stored);
    case NextEpisodeOp(pos, fetched, stored) =>
      if s.videoState.Success? {
        var v := s.videoState.data;
        var i := v.currentEpisodeIndex + 1;
        if i < |v.episodes| {
          GetVideoValid(s, repo, v.episodes[i].url, v.episodes[i].name, i, pos, fetched, stored);
        }
      }
    case SaveVideoPositionOp(pos) =>
      SaveVideoPositionValid(s, pos);
    case RetryOp(fetched, stored) =>
      if !s.isLocalVideo {
        GetVideoFromRemoteValid(s.(videoState := Loading), repo, s.currentEpisodeUrl, s.currentEpisodeIndex,
                                fetched, stored);
      } else {
        assert s.(videoState := Loading)
                .GetVideoFromRemote(repo, s.currentEpisodeUrl, s.currentEpisodeIndex, fetched, stored).saved == [];
      }
    case SetEnabledDanmakuOp(enabled) =>
      if enabled && s.danmakuSession.None? {
        FetchDanmakuSessionValid(s.(enabledDanmaku := enabled), repo);
      }
  }

  lemma GetVideoValid(
    s: PlayerState, repo: DanmakuRepository, url: string, name: string, index: nat,
    pos: int, fetched: FetchResult, stored: Option<Episode>)
    requires s.Valid()
    ensures s.GetVideo(repo, url, name, index, pos, fetched, stored).Valid()
    ensures s.GetVideo(repo, url, name, index, pos, fetched, stored).isLocalVideo == s.isLocalVideo
  {
    if s.isLocalVideo {
      var shown := match s.videoState
        case Success(v) =>
          s.(videoState := Resource.Success(v.(url := url, episodeName := name, currentEpisodeIndex := index)))
        case _ => s;
      FetchDanmakuSessionValid(shown, repo);
    } else {
      var t := s.(currentEpisodeUrl := url, currentEpisodeIndex := index);
      SaveVideoPositionValid(t, pos);
      GetVideoFromRemoteValid(t.SaveVideoPosition(pos), repo, url, index, fetched, stored);
    }
  }

  /** Whatever the user does, the invariant holds after every step, the
      view model stays local or remote as it started, and a local video
      never writes history. */
  lemma {:induction false} RunValid(s: PlayerState, repo: DanmakuRepository, ops: seq<Operation>)
    requires s.Valid()
    ensures Run(s, repo, ops).Valid()
    ensures Run(s, repo, ops).isLocalVideo == s.isLocalVideo
    ensures s.isLocalVideo ==> Run(s, repo, ops).saved == []
    decreases |ops|
  {
    if ops != [] {
      OperationValid(s, repo, ops[0]);
      RunValid(Apply(s, repo, ops[0]), repo, ops[1..]);
    }
  }

  // ---------------------------------------------------------------------
  // The view model object
  // ---------------------------------------------------------------------

  class VideoPlayerViewModel {
    var isLocalVideo: bool
    var currentEpisodeUrl: string
    var currentEpisodeIndex: nat
    var historyId: int
    var videoState: Resource
    var enabledDanmaku: bool
    var danmakuSession: Option<DanmakuSession>
    var saved: seq<Episode>
    var requests: seq<(string, nat)>
    var crashed: bool
    const danmakuRepository: DanmakuRepository

    function State(): PlayerState
      reads this
    {
      PlayerState(isLocalVideo, currentEpisodeUrl, currentEpisodeIndex, historyId,
                  videoState, enabledDanmaku, danmakuSession, saved, requests, crashed)
    }

    ghost predicate Valid()
      reads this
    {
      State().Valid()
    }

    /** The init block, with the danmaku preference read at start, the
        history row of the starting episode and the repository's answer. */
    constructor (
      params: PlayerParameters, enabledDanmaku: bool, danmakuRepository: DanmakuRepository,
      stored: Option<Episode>, fetched: FetchResult)
      requires params.episodeIndex < |params.episodes|
      ensures this.danmakuRepository == danmakuRepository
      ensures State() == Initial(params, enabledDanmaku, danmakuRepository, stored, fetched)
      ensures Valid()
    {
      this.danmakuRepository := danmakuRepository;
      this.enabledDanmaku := enabledDanmaku;
      isLocalVideo := false;
      currentEpisodeUrl := "";
      currentEpisodeIndex := 0;
      historyId := NoHistoryId;
      videoState := Loading;
      danmakuSession := None;
      saved := [];
      requests := [];
      crashed := false;
      new;
      var index := params.episodeIndex;
      var episode := params.episodes[index];
      if params.isLocalVideo {
        isLocalVideo := true;
        videoState := Resource.Success(Video(params.title, episode.url, episode.name, episode.url,
                                    0, index, params.episodes, map[]));
        FetchDanmakuSession();
      } else {
        currentEpisodeUrl := episode.url;
        currentEpisodeIndex := index;
        if stored.Some? {
          historyId := stored.value.historyId;
        }
        requests := [(episode.url, index)];
        match fetched {
          case FetchFailed(e) =>
            videoState := Error(e);
          case Fetched(web) =>
            var position := if stored.Some? then stored.value.lastPlayPosition else 0;
            videoState := Resource.Success(Video(params.title, web.url, episode.name, episode.url,
                                        position, index, params.episodes, web.headers));
            FetchDanmakuSession();
        }
      }
      InitialValid(params, enabledDanmaku, danmakuRepository, stored, fetched);
    }

    method FetchDanmakuSession()
      modifies this
      ensures State() == old(State()).FetchDanmakuSession(danmakuRepository)
    {
      danmakuSession := None;
      if !enabledDanmaku {
        return;
      }
      if videoState.Success? {
        danmakuSession := danmakuRepository(videoState.data.title, videoState.data.episodeName);
      }
    }

    method SetEnabledDanmaku(enabled: bool)
      requires Valid()
      modifies this
      ensures State() == old(State()).SetEnabledDanmaku(danmakuRepository, enabled)
      ensures Valid()
    {
      OperationValid(State(), danmakuRepository, SetEnabledDanmakuOp(enabled));
      enabledDanmaku := enabled;
      if enabled && danmakuSession.None? {
        FetchDanmakuSession();
      }
    }

    /** Also called half-way through getVideo, where the invariant is
        broken for a moment; it keeps whatever part of it holds. */
    method SaveVideoPosition(currPlayPosition: int)
      modifies this
      ensures State() == old(State()).SaveVideoPosition(currPlayPosition)
      ensures old(State().HistoryValid()) ==> State().HistoryValid()
      ensures old(Valid()) ==> Valid()
    {
      if State().HistoryValid() {
        SaveVideoPositionValid(State(), currPlayPosition);
      }
      if currPlayPosition < SavePositionThreshold || isLocalVideo {
        return;
      }
      if videoState.Success? {
        var video := videoState.data;
        saved := saved + [Episode(video.episodeName, video.episodeUrl, currPlayPosition, historyId)];
      }
    }

    method GetVideoFromRemote(episodeUrl: string, index: nat, fetched: FetchResult, stored: Option<Episode>)
      modifies this
      ensures State() == old(State()).GetVideoFromRemote(danmakuRepository, episodeUrl, index, fetched, stored)
    {
      requests := requests + [(episodeUrl, index)];
      match fetched {
        case FetchFailed(e) =>
          videoState := Error(e);
        case Fetched(web) =>
          if videoState.Success? && index < |videoState.data.episodes| {
            var v := videoState.data;
            var position := if stored.Some? then stored.value.lastPlayPosition else 0;
            videoState := Resource.Success(v.(url := web.url, currentEpisodeIndex := index,
                                     episodeName := v.episodes[index].name, episodeUrl := episodeUrl,
                                     lastPlayPosition := position));
            FetchDanmakuSession();
          } else {
            crashed := true;
          }
      }
    }

    method GetVideo(
      url: string, episodeName: string, index: nat, videoPosition: int,
      fetched: FetchResult, stored: Option<Episode>)
      requires Valid()
      modifies this
      ensures State() ==
                old(State()).GetVideo(danmakuRepository, url, episodeName, index, videoPosition, fetched, stored)
      ensures Valid()
    {
      OperationValid(State(), danmakuRepository,
                     GetVideoOp(url, episodeName, index, videoPosition, fetched, stored));
      if isLocalVideo {
        if videoState.Success? {
          var video := videoState.data;
          videoState :=
            Resource.Success(video.(url := url, episodeName := episodeName, currentEpisodeIndex := index));
        }
        FetchDanmakuSession();
      } else {
        currentEpisodeUrl := url;
        currentEpisodeIndex := index;
        SaveVideoPosition(videoPosition);
        GetVideoFromRemote(url, index, fetched, stored);
      }
    }

    method NextEpisode(currPlayPosition: int, fetched: FetchResult, stored: Option<Episode>)
      requires Valid()
      modifies this
      ensures State() == old(State()).NextEpisode(danmakuRepository, currPlayPosition, fetched, stored)
      ensures Valid()
    {
      if videoState.Success? {
        var video := videoState.data;
        var nextEpisodeIndex := video.currentEpisodeIndex + 1;
        if nextEpisodeIndex < |video.episodes| {
          GetVideo(video.episodes[nextEpisodeIndex].url, video.episodes[nextEpisodeIndex].name,
                   nextEpisodeIndex, currPlayPosition, fetched, stored);
        }
      }
    }

    method Retry(fetched: FetchResult, stored: Option<Episode>)
      requires Valid()
      modifies this
      ensures State() == old(State()).Retry(danmakuRepository, fetched, stored)
      ensures Valid()
    {
      OperationValid(State(), danmakuRepository, RetryOp(fetched, stored));
      videoState := Loading;
      GetVideoFromRemote(currentEpisodeUrl, currentEpisodeIndex, fetched, stored);
    }
  }
}
