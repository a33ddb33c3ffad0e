/**
 * The player screen (src/components/PlayerView.tsx): episode and channel
 * navigation, the choice of player URL, and the watch-history row saved when a
 * movie or episode is opened. Navigation handlers ask the shell to play
 * something else (an `onPlay` request); the shell's `Show` carries it out.
 */
module PlayerView {
  import opened Types
  import opened Collections
  import opened Tmdb
  import StorageState
  import Storage

  /** The arguments of an `onPlay` call. */
  datatype PlayRequest = PlayRequest(tmdbId: int, mediaType: MediaType, season: Option<int>, episode: Option<int>,
                                     embedUrl: Option<string>, channelName: Option<string>)

  /** The episode count assumed for the season before, when stepping back over a season start. */
  const AssumedSeasonLength := 20

  function EpisodeRequest(tmdbId: int, season: int, episode: int): PlayRequest
  {
    PlayRequest(tmdbId, Tv, Some(season), Some(episode), None, None)
  }

  /** handlePreviousEpisode: the episode before, or the assumed last episode of the season before. */
  function PreviousEpisode(mediaType: MediaType, tmdbId: int, season: int, episode: int): (r: Option<PlayRequest>)
    ensures r.None? <==> mediaType != Tv || (episode <= 1 && season <= 1)
    ensures r.Some? ==> r.value.tmdbId == tmdbId && r.value.mediaType == Tv
                        && r.value.season.Some? && r.value.episode.Some? && r.value.episode.value >= 1
                        && (r.value.season.value < season
                            || (r.value.season.value == season && r.value.episode.value == episode - 1))
  {
    if mediaType != Tv then None
    else if episode - 1 >= 1 then Some(EpisodeRequest(tmdbId, season, episode - 1))
    else if season > 1 then Some(EpisodeRequest(tmdbId, season - 1, AssumedSeasonLength))
    else None
  }

  /** handleNextEpisode: the next episode number, with no upper bound. */
  function NextEpisode(mediaType: MediaType, tmdbId: int, season: int, episode: int): (r: Option<PlayRequest>)
    ensures r.Some? <==> mediaType == Tv
    ensures r.Some? ==> r.value.season == Some(season) && r.value.episode == Some(episode + 1)
    ensures r.Some? && episode >= 1 ==>
              PreviousEpisode(Tv, tmdbId, r.value.season.value, r.value.episode.value) == Some(EpisodeRequest(tmdbId, season, episode))
  {
    if mediaType != Tv then None else Some(EpisodeRequest(tmdbId, season, episode + 1))
  }

  /** The "previous" button is disabled on the first episode of the first season. */
  predicate PreviousDisabled(season: int, episode: int)
  {
    episode == 1 && season == 1
  }

  /**
   * Episode buttons act only on tv. Previous moves one episode back within a
   * season, or from an episode-1 to episode 20 of the season before; it does
   * nothing exactly when there is neither, which includes the disabled S1E1.
   * Every step back lands on an earlier (season, episode) of the same title.
   */
  lemma EpisodeNavigationLaws(mediaType: MediaType, tmdbId: int, season: int, episode: int)
    ensures mediaType != Tv ==> PreviousEpisode(mediaType, tmdbId, season, episode).None?
                                && NextEpisode(mediaType, tmdbId, season, episode).None?
    ensures var r := PreviousEpisode(Tv, tmdbId, season, episode);
      && (r.None? <==> episode <= 1 && season <= 1)
      && (PreviousDisabled(season, episode) ==> r.None?)
      && (episode >= 2 ==> r == Some(EpisodeRequest(tmdbId, season, episode - 1)))
      && (episode <= 1 && season >= 2 ==> r == Some(EpisodeRequest(tmdbId, season - 1, 20)))
      && (r.Some? ==> r.value.tmdbId == tmdbId && r.value.episode.value >= 1
                      && (r.value.season.value < season
                          || (r.value.season.value == season && r.value.episode.value < episode)))
    ensures NextEpisode(Tv, tmdbId, season, episode) == Some(EpisodeRequest(tmdbId, season, episode + 1))
  {
  }

  /** Previous after next returns to the episode one started from. */
  lemma PreviousUndoesNext(tmdbId: int, season: int, episode: int)
    requires episode >= 1
    ensures var n := NextEpisode(Tv, tmdbId, season, episode).value;
      PreviousEpisode(Tv, n.tmdbId, n.season.value, n.episode.value) == Some(EpisodeRequest(tmdbId, season, episode))
  {
  }

  /** The request that plays a live channel. */
  function ChannelRequest(ch: LiveChannel): PlayRequest
  {
    PlayRequest(0, Live, None, None, Some(ch.embed), Some(ch.name))
  }

  /** `LIVE_CHANNELS.findIndex(ch => ch.embed === embedUrl)`: -1 when nothing matches. */
  function ChannelIndex(channels: seq<LiveChannel>, embedUrl: Option<string>): int
  {
    if embedUrl.None? then -1
    else
      var url := embedUrl.value;
      IndexWhere(channels, (ch: LiveChannel) => ch.embed == url)
  }

  /** handlePreviousChannel: the channel before in the catalogue, with no wrap. */
  function PreviousChannel(channels: seq<LiveChannel>, mediaType: MediaType, embedUrl: Option<string>): (r: Option<PlayRequest>)
    ensures r.Some? ==> mediaType == Live && exists ch :: ch in channels && r.value == ChannelRequest(ch)
    ensures ChannelIndex(channels, embedUrl) <= 0 ==> r.None?
  {
    var i := ChannelIndex(channels, embedUrl);
    if mediaType != Live then None
    else if i > 0 then Some(ChannelRequest(channels[i - 1]))
    else None
  }

  /** handleNextChannel: the channel after in the catalogue, with no wrap. */
  function NextChannel(channels: seq<LiveChannel>, mediaType: MediaType, embedUrl: Option<string>): (r: Option<PlayRequest>)
    ensures r.Some? ==> mediaType == Live && exists ch :: ch in channels && r.value == ChannelRequest(ch)
    ensures ChannelIndex(channels, embedUrl) == |channels| - 1 ==> r.None?
    ensures mediaType == Live && ChannelIndex(channels, embedUrl) < 0 && |channels| > 0 ==> r == Some(ChannelRequest(channels[0]))
  {
    var i := ChannelIndex(channels, embedUrl);
    if mediaType != Live then None
    else if i < |channels| - 1 then Some(ChannelRequest(channels[i + 1]))
    else None
  }

  /**
   * Channel buttons act only on live playback and move one place in the
   * catalogue without wrapping: nothing before the first channel or after the
   * last. A stream that is not in the catalogue has no previous channel, and its
   * next channel is the first one.
   */
  lemma ChannelNavigationLaws(channels: seq<LiveChannel>, mediaType: MediaType, embedUrl: Option<string>)
    ensures mediaType != Live ==> PreviousChannel(channels, mediaType, embedUrl).None?
                                  && NextChannel(channels, mediaType, embedUrl).None?
    ensures var i := ChannelIndex(channels, embedUrl);
      && (PreviousChannel(channels, Live, embedUrl).Some? <==> i >= 1)
      && (i >= 1 ==> PreviousChannel(channels, Live, embedUrl) == Some(ChannelRequest(channels[i - 1])))
      && (NextChannel(channels, Live, embedUrl).Some? <==> i + 1 < |channels|)
      && (i + 1 < |channels| ==> NextChannel(channels, Live, embedUrl) == Some(ChannelRequest(channels[i + 1])))
    ensures (forall j :: 0 <= j < |channels| ==> Some(channels[j].embed) != embedUrl) ==>
              PreviousChannel(channels, Live, embedUrl).None?
              && (|channels| > 0 ==> NextChannel(channels, Live, embedUrl) == Some(ChannelRequest(channels[0])))
  {
  }

  /** With distinct stream URLs, the index of a catalogue channel's stream is its place. */
  lemma ChannelIndexOf(channels: seq<LiveChannel>, j: nat)
    requires UniqueBy(channels, (ch: LiveChannel) => ch.embed) && j < |channels|
    ensures ChannelIndex(channels, Some(channels[j].embed)) == j
  {
    var url := channels[j].embed;
    IndexWhereFirst(channels, (ch: LiveChannel) => ch.embed == url, j);
  }

  /** In a catalogue with distinct stream URLs, previous after next returns to the channel one started from. */
  lemma PreviousUndoesNextChannel(channels: seq<LiveChannel>, j: nat)
    requires UniqueBy(channels, (ch: LiveChannel) => ch.embed) && j + 1 < |channels|
    ensures var n := NextChannel(channels, Live, Some(channels[j].embed)).value;
      PreviousChannel(channels, Live, n.embedUrl) == Some(ChannelRequest(channels[j]))
  {
    ChannelIndexOf(channels, j);
    ChannelIndexOf(channels, j + 1);
  }

  // ---------------------------------------------------------------------------
  // Player URL
  // ---------------------------------------------------------------------------

  const DefaultServer := "vidfast"
  const LoadFailed := "Failed to load player. Try another server."

  /** The server at start: the stored preference, or vidfast when there is none. */
  function InitialServer(s: StorageState.StoreState): string
  {
    var stored := StorageState.GetPreferredServer(s);
    if Truthy(stored) then stored.value else DefaultServer
  }

  /**
   * updatePlayerUrl: a live stream plays its own URL (or nothing); otherwise the
   * server's provider builds it, and a key that names no provider fails.
   */
  function PlayerUrl(serverKey: string, mediaType: MediaType, tmdbId: int, season: int, episode: int,
                     embedUrl: Option<string>): (r: Result<string>)
    ensures mediaType == Live ==> r.Success?
    ensures mediaType != Live ==> (r.Failure? <==> ProviderNamed(serverKey).None?)
  {
    if mediaType == Live then Success(if Truthy(embedUrl) then embedUrl.value else "")
    else match ProviderNamed(serverKey)
      case None => Failure(LoadFailed)
      case Some(p) => Success(EmbedUrl(p, mediaType, tmdbId, season, episode))
  }

  /**
   * Live playback never fails and shows the stream URL as given; a movie or
   * episode fails exactly for an unknown server key, and otherwise gets a
   * non-empty provider URL. With nothing stored, the server is vidfast.
   */
  lemma PlayerUrlLaws(s: StorageState.StoreState, serverKey: string, mediaType: MediaType, tmdbId: int,
                      season: int, episode: int, embedUrl: Option<string>)
    ensures var r := PlayerUrl(serverKey, mediaType, tmdbId, season, episode, embedUrl);
      && (mediaType == Live ==> r.Success? && (Truthy(embedUrl) ==> r.value == embedUrl.value))
      && (mediaType != Live ==> (r.Failure? <==> ProviderNamed(serverKey).None?))
      && (mediaType != Live && r.Success? ==>
            r.value != "" && r.value == EmbedUrl(ProviderNamed(serverKey).value, mediaType, tmdbId, season, episode))
    ensures StorageState.GetPreferredServer(s).None? ==>
              InitialServer(s) == DefaultServer && ProviderNamed(InitialServer(s)) == Some(VidFast)
  {
    if mediaType != Live && ProviderNamed(serverKey).Some? {
      EmbedUrlEmpty(ProviderNamed(serverKey).value, mediaType, tmdbId, season, episode);
    }
  }

  // ---------------------------------------------------------------------------
  // Watch history
  // ---------------------------------------------------------------------------

  /** What the title-details request returns that the history row uses. */
  datatype Detail = Detail(title: Option<string>, name: string, posterPath: Option<string>)

  /**
   * The row saved when the player opens: only for movie and tv, at position 0
   * with duration 0; season and episode are kept for tv only.
   */
  function HistoryRow(profileId: string, mediaType: MediaType, tmdbId: int, season: int, episode: int,
                      detail: Detail, newId: string, now: string): (r: Option<WatchHistory>)
    ensures r.None? <==> mediaType == Live
    ensures r.Some? ==> r.value.id == newId && r.value.profileId == profileId && r.value.tmdbId == Some(tmdbId)
                        && r.value.position == 0 && (r.value.season.Some? <==> mediaType == Tv)
  {
    if mediaType == Live then None
    else
      Some(WatchHistory(
        newId, profileId, Some(tmdbId), mediaType,
        if Truthy(detail.title) then detail.title.value else detail.name,
        if Truthy(detail.posterPath) then detail.posterPath else None,
        if mediaType == Tv then Some(season) else None,
        if mediaType == Tv then Some(episode) else None,
        0, 0, now, now))
  }

  lemma HistoryRowLaws(profileId: string, mediaType: MediaType, tmdbId: int, season: int, episode: int,
                       detail: Detail, newId: string, now: string)
    ensures var r := HistoryRow(profileId, mediaType, tmdbId, season, episode, detail, newId, now);
      && (r.None? <==> mediaType == Live)
      && (r.Some? ==>
            && r.value.id == newId && r.value.profileId == profileId && r.value.tmdbId == Some(tmdbId)
            && r.value.mediaType == mediaType && r.value.position == 0 && r.value.duration == 0
            && (r.value.season.Some? <==> mediaType == Tv) && (r.value.episode.Some? <==> mediaType == Tv)
            && (mediaType == Tv ==> r.value.season == Some(season) && r.value.episode == Some(episode))
            && (Truthy(r.value.posterPath) <==> Truthy(detail.posterPath))
            && r.value.lastWatched == now && r.value.createdAt == now)
  {
  }

  /** The player screen: its props, and the server choice and URL it keeps. */
  class Player {
    const profileId: string
    const tmdbId: int
    const mediaType: MediaType
    const season: int
    const episode: int
    const embedUrl: Option<string>
    var serverKey: string
    var playerUrl: string
    var playerError: string

    /** The screen as opened: the server from the store, then the URL effect. */
    constructor (store: Storage.Store, profileId: string, tmdbId: int, mediaType: MediaType, season: int, episode: int,
                 embedUrl: Option<string>)
      ensures this.profileId == profileId && this.tmdbId == tmdbId && this.mediaType == mediaType
      ensures this.season == season && this.episode == episode && this.embedUrl == embedUrl
      ensures serverKey == InitialServer(store.State())
      ensures ShowsUrl()
    {
      this.profileId := profileId;
      this.tmdbId := tmdbId;
      this.mediaType := mediaType;
      this.season := season;
      this.episode := episode;
      this.embedUrl := embedUrl;
      serverKey := InitialServer(store.State());
      new;
      UpdatePlayerUrl();
    }

    /** The URL or error shown is the one for the current server and props. */
    predicate ShowsUrl()
      reads this
    {
      match PlayerUrl(serverKey, mediaType, tmdbId, season, episode, embedUrl)
      case Success(url) => playerUrl == url && playerError == ""
      case Failure(message) => playerUrl == "" && playerError == message
    }

    /** updatePlayerUrl, run whenever the server or the props change. */
    method UpdatePlayerUrl()
      modifies this
      ensures ShowsUrl() && serverKey == old(serverKey)
    {
      playerError := "";
      var r := PlayerUrl(serverKey, mediaType, tmdbId, season, episode, embedUrl);
      if r.Success? {
        playerUrl := r.value;
      } else {
        playerError := r.message;
        playerUrl := "";
      }
    }

    /** The server drop-down: remember the choice, store it as the preference, rebuild the URL. */
    method SelectServer(store: Storage.Store, key: string)
      modifies this, store
      ensures serverKey == key && ShowsUrl()
      ensures store.State() == StorageState.SetPreferredServer(old(store.State()), key)
      ensures InitialServer(store.State()) == (if key == "" then DefaultServer else key)
    {
      serverKey := key;
      store.SetPreferredServer(key);
      UpdatePlayerUrl();
    }

    /**
     * The history effect, given the outcome of the details request: a failed
     * request saves nothing; otherwise the row for a movie or episode is saved.
     */
    method SaveHistory(store: Storage.Store, detail: Option<Detail>, newId: string, now: string)
      modifies store
      ensures var row := if detail.Some? then HistoryRow(profileId, mediaType, tmdbId, season, episode, detail.value, newId, now)
                         else None;
        store.State() == if row.Some? then StorageState.SaveWatchHistory(old(store.State()), row.value) else old(store.State())
    {
      if mediaType != Live && detail.Some? {
        var row := HistoryRow(profileId, mediaType, tmdbId, season, episode, detail.value, newId, now);
        store.SaveWatchHistory(row.value);
      }
    }
  }
}
