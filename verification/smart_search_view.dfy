/**
 * The smart-search screen (src/components/SmartSearchView.tsx): the viewer types
 * a TMDB id or an IMDb id ("tt…"), optionally followed by "-season-episode",
 * picks a server, and gets a player URL; the watchlist button toggles the
 * title found. The two requests (the IMDb lookup and the details) are
 * parameters holding their outcomes.
 */
module SmartSearchView {
  import opened Types
  import opened Text
  import opened Tmdb
  import opened StorageState
  import WatchlistToggle
  import Storage

  const EnterId := "Please enter an ID"
  const NotFound := "Could not find content"
  const SearchFailed := "Search failed"

  /** The server selected when the screen opens. */
  const InitialServer := "vidsrc"

  /** The part of a /find response the screen reads: the ids of the movie matches and of the TV matches. */
  datatype FindResult = FindResult(movieResults: seq<int>, tvResults: seq<int>)

  /** The part of a details response the screen keeps. */
  datatype Details = Details(id: int, title: Option<string>, name: Option<string>, posterPath: Option<string>)

  /** What a search settles on before the details are requested. */
  datatype Target = Target(tmdbId: int, mediaType: MediaType, season: int, episode: int, imdbId: Option<string>)

  /** `mediaInfo`: the details with the search's media type, episode and IMDb id added. */
  datatype MediaInfo = MediaInfo(details: Details, target: Target)

  /** The first /find match: a movie before a TV show. */
  function FirstMatch(f: FindResult): Option<(int, MediaType)>
  {
    if |f.movieResults| > 0 then Some((f.movieResults[0], Movie))
    else if |f.tvResults| > 0 then Some((f.tvResults[0], Tv))
    else None
  }

  /** The season and episode typed after the id: read only from exactly three dash-separated pieces, 1 when missing or falsy. */
  function TypedEpisode(parts: seq<string>): (int, int)
  {
    if |parts| == 3 then (ParseIntOr(parts[1], 1), ParseIntOr(parts[2], 1)) else (1, 1)
  }

  /** A TMDB id: the number the first piece starts with; NaN and 0 are not found. */
  function TmdbTarget(parts: seq<string>): Result<Target>
    requires |parts| >= 1
  {
    match ParseInt(parts[0])
    case NaN => Failure(NotFound)
    case Num(id) =>
      if id == 0 then Failure(NotFound)
      else Success(Target(id, if |parts| == 3 then Tv else Movie, TypedEpisode(parts).0, TypedEpisode(parts).1, None))
  }

  /** An IMDb id (the first piece), resolved by the lookup's first match. */
  function ImdbTarget(parts: seq<string>, find: Result<FindResult>): Result<Target>
    requires |parts| >= 1
  {
    if find.Failure? then Failure(SearchFailed)
    else
      match FirstMatch(find.value)
      case None => Failure(NotFound)
      case Some((id, kind)) =>
        if id == 0 then Failure(NotFound)
        else Success(Target(id, kind, TypedEpisode(parts).0, TypedEpisode(parts).1, Some(parts[0])))
  }

  /**
   * handleSearch up to the details request: the typed id, episode and media
   * type, or the toast that ends the search. `find` is the outcome of the IMDb
   * lookup, consulted only for an input starting with "tt".
   */
  function Locate(idInput: string, find: Result<FindResult>): (r: Result<Target>)
    ensures r == Failure(EnterId) <==> Trim(idInput) == ""
    ensures r.Success? ==> r.value.tmdbId != 0 && r.value.mediaType != Live
    ensures !StartsWith(Trim(idInput), "tt") ==> r.Success? ==> r.value.imdbId.None?
  {
    var input := Trim(idInput);
    if input == "" then Failure(EnterId)
    else if StartsWith(input, "tt") then ImdbTarget(Split(input, '-'), find)
    else TmdbTarget(Split(input, '-'))
  }

  /** The player URL for a target on a server: GoDrivePlayer's own forms, else the embed provider's, else nothing. */
  function PlayerLink(server: string, t: Target): (r: string)
    ensures ProviderNamed(server).None? && server != "godriveplayer" ==> r == ""
    ensures t.mediaType == Live ==> r == ""
  {
    if server == "godriveplayer" && Truthy(t.imdbId) && t.mediaType == Movie then GoDriveMovieUrl(t.imdbId.value)
    else if server == "godriveplayer" && t.mediaType == Tv then GoDriveSeriesUrl(t.tmdbId, t.season, t.episode)
    else
      match ProviderNamed(server)
      case Some(p) => EmbedUrl(p, t.mediaType, t.tmdbId, t.season, t.episode)
      case None => ""
  }

  /**
   * A blank box is the only way to get 'Please enter an ID', and the lookup is
   * consulted only for IMDb ids.
   */
  lemma LocateLaws(idInput: string, find: Result<FindResult>, other: Result<FindResult>)
    ensures var r := Locate(idInput, find);
      && (r == Failure(EnterId) <==> Trim(idInput) == "")
      && (!StartsWith(Trim(idInput), "tt") ==> r == Locate(idInput, other))
  {
  }

  /**
   * A search that succeeds has a non-zero id, a season and an episode of at
   * least 1 and a movie or TV type; a typed TMDB id is positive; an IMDb id is
   * kept exactly when the input starts with "tt", and it is the input's first
   * dash-separated piece, so it starts with "tt" too and has no dash.
   */
  lemma LocateFound(idInput: string, find: Result<FindResult>)
    requires Locate(idInput, find).Success?
    ensures var t := Locate(idInput, find).value;
      && t.tmdbId != 0 && t.season >= 1 && t.episode >= 1 && t.mediaType != Live
      && (t.imdbId.Some? <==> StartsWith(Trim(idInput), "tt"))
      && (t.imdbId.None? ==> t.tmdbId >= 1)
      && (t.imdbId.Some? ==> StartsWith(t.imdbId.value, "tt") && '-' !in t.imdbId.value)
  {
    var input := Trim(idInput);
    var parts := Split(input, '-');
    if |parts| == 3 {
      ParseIntUnsigned(parts[1]);
      ParseIntUnsigned(parts[2]);
    }
    if StartsWith(input, "tt") {
      SplitHeadPrefix(input, '-', "tt");
    } else {
      ParseIntUnsigned(parts[0]);
    }
  }

  /**
   * An IMDb id resolves through the lookup: a movie match wins even when an
   * episode was typed; a TV match keeps the typed episode; no match, or a
   * match with id 0, is 'Could not find content'; a failed lookup is 'Search
   * failed'.
   */
  lemma ImdbLookupLaws(idInput: string, find: Result<FindResult>)
    requires StartsWith(Trim(idInput), "tt")
    ensures var r := Locate(idInput, find);
      && (find.Failure? ==> r == Failure(SearchFailed))
      && (find.Success? && |find.value.movieResults| > 0 && find.value.movieResults[0] != 0 ==>
            r.Success? && r.value.tmdbId == find.value.movieResults[0] && r.value.mediaType == Movie)
      && (find.Success? && |find.value.movieResults| == 0 && |find.value.tvResults| > 0 && find.value.tvResults[0] != 0 ==>
            r.Success? && r.value.tmdbId == find.value.tvResults[0] && r.value.mediaType == Tv)
      && (find.Success? && FirstMatch(find.value).None? ==> r == Failure(NotFound))
  {
    assert Trim(idInput) != "";
  }

  /** Input with no whitespace at either end and no "tt" prefix is read as a TMDB id. */
  lemma LocatePlainText(s: string, find: Result<FindResult>)
    requires |s| > 0 && !IsSpace(s[0]) && !IsSpace(s[|s| - 1]) && !StartsWith(s, "tt")
    ensures Locate(s, find) == TmdbTarget(Split(s, '-'))
  {
    TrimNoOuterSpace(s);
  }

  /** Three dash-free pieces joined by dashes split back into those pieces. */
  lemma SplitThree(a: string, b: string, c: string)
    requires '-' !in a && '-' !in b && '-' !in c
    ensures Split(a + "-" + b + "-" + c, '-') == [a, b, c]
  {
    assert Join([a, b, c], '-') == a + "-" + b + "-" + c by {
      assert Join([b, c], '-') == b + ['-'] + c by {
        assert [b, c][1..] == [c];
      }
      assert [a, b, c][1..] == [b, c];
    }
    SplitJoin([a, b, c], '-');
  }

  /** Three pieces whose numbers are non-zero name that episode of that show. */
  lemma TmdbTargetThree(a: string, b: string, c: string, id: int, season: int, episode: int)
    requires ParseInt(a) == Num(id) && ParseInt(b) == Num(season) && ParseInt(c) == Num(episode)
    requires id != 0 && season != 0 && episode != 0
    ensures TmdbTarget([a, b, c]) == Success(Target(id, Tv, season, episode, None))
  {
    assert TypedEpisode([a, b, c]) == (season, episode);
  }

  /** A TMDB id typed as digits is found as that movie, with the first episode fields. */
  lemma TypedMovieId(id: nat, find: Result<FindResult>)
    requires id >= 1
    ensures Locate(NatToString(id), find) == Success(Target(id, Movie, 1, 1, None))
  {
    var s := NatToString(id);
    assert IsDigit(s[0]) && IsDigit(s[|s| - 1]);
    LocatePlainText(s, find);
    assert '-' !in s by {
      assert forall i :: 0 <= i < |s| ==> IsDigit(s[i]);
    }
    ParseIntOfNatToString(id);
  }

  /** "id-season-episode" typed as digits is found as that episode of that show. */
  lemma TypedEpisodeId(id: nat, season: nat, episode: nat, find: Result<FindResult>)
    requires id >= 1 && season >= 1 && episode >= 1
    ensures Locate(NatToString(id) + "-" + NatToString(season) + "-" + NatToString(episode), find)
            == Success(Target(id, Tv, season, episode, None))
  {
    var a, b, c := NatToString(id), NatToString(season), NatToString(episode);
    var s := a + "-" + b + "-" + c;
    assert s[0] == a[0] && s[|s| - 1] == c[|c| - 1];
    assert IsDigit(s[0]) && IsDigit(s[|s| - 1]);
    LocatePlainText(s, find);
    assert '-' !in a && '-' !in b && '-' !in c by {
      assert forall i :: 0 <= i < |a| ==> IsDigit(a[i]);
      assert forall i :: 0 <= i < |b| ==> IsDigit(b[i]);
      assert forall i :: 0 <= i < |c| ==> IsDigit(c[i]);
    }
    SplitThree(a, b, c);
    ParseIntOfNatToString(id);
    ParseIntOfNatToString(season);
    ParseIntOfNatToString(episode);
    TmdbTargetThree(a, b, c, id, season, episode);
  }

  /**
   * The URL is empty exactly when the server is neither an embed provider nor
   * GoDrivePlayer with something it can play (a TV episode, or a movie with an
   * IMDb id); a provider's URL is its template's, and GoDrivePlayer ignores
   * the providers.
   */
  lemma PlayerLinkLaws(server: string, t: Target)
    requires t.mediaType != Live
    ensures var url := PlayerLink(server, t);
      && (url == "" <==> ProviderNamed(server).None?
                         && !(server == "godriveplayer" && (t.mediaType == Tv || Truthy(t.imdbId))))
      && (ProviderNamed(server).Some? ==>
            url == EmbedUrl(ProviderNamed(server).value, t.mediaType, t.tmdbId, t.season, t.episode))
      && (server == "godriveplayer" && t.mediaType == Tv ==> url == GoDriveSeriesUrl(t.tmdbId, t.season, t.episode))
  {
    ProviderNamedLaws(VidSrc, server);
    if ProviderNamed(server).Some? {
      EmbedUrlEmpty(ProviderNamed(server).value, t.mediaType, t.tmdbId, t.season, t.episode);
    }
  }

  /** The row the watchlist button adds for the title found. */
  function WatchItem(profileId: string, info: MediaInfo, id: string, createdAt: string): WatchlistItem
  {
    var d := info.details;
    WatchlistItem(id, profileId, Some(d.id), info.target.mediaType,
                  if Truthy(d.title) then d.title.value else if d.name.Some? then d.name.value else "",
                  d.posterPath, None, createdAt)
  }

  /**
   * The first half of handleSearch, step by step as the handler does it: the
   * typed id, episode and media type, or the toast that ends the search.
   */
  method ReadId(idInput: string, find: Result<FindResult>) returns (r: Result<Target>)
    ensures r == Locate(idInput, find)
  {
    var input := Trim(idInput);
    if input == "" {
      return Failure(EnterId);
    }
    var tmdbId: Parsed := NaN;
    var imdbId: Option<string> := None;
    var mediaType := Movie;
    var season, episode := 1, 1;
    var parts := Split(input, '-');
    if StartsWith(input, "tt") {
      imdbId := Some(parts[0]);
      if |parts| == 3 {
        mediaType := Tv;
        season := ParseIntOr(parts[1], 1);
        episode := ParseIntOr(parts[2], 1);
      }
      if find.Failure? {
        return Failure(SearchFailed);
      }
      if |find.value.movieResults| > 0 {
        tmdbId := Num(find.value.movieResults[0]);
        mediaType := Movie;
      } else if |find.value.tvResults| > 0 {
        tmdbId := Num(find.value.tvResults[0]);
        mediaType := Tv;
      }
      assert (season, episode) == TypedEpisode(parts);
    } else {
      tmdbId := ParseInt(parts[0]);
      if |parts| == 3 {
        mediaType := Tv;
        season := ParseIntOr(parts[1], 1);
        episode := ParseIntOr(parts[2], 1);
      }
      assert (season, episode) == TypedEpisode(parts);
    }
    if tmdbId.NaN? || tmdbId.value == 0 {
      return Failure(NotFound);
    }
    r := Success(Target(tmdbId.value, mediaType, season, episode, imdbId));
  }

  /** The second half of handleSearch: the player URL, built as the handler builds it. */
  method PlayerUrlFor(server: string, t: Target) returns (url: string)
    ensures url == PlayerLink(server, t)
  {
    url := "";
    if server == "godriveplayer" && Truthy(t.imdbId) && t.mediaType == Movie {
      url := GoDriveMovieUrl(t.imdbId.value);
    } else if server == "godriveplayer" && t.mediaType == Tv {
      url := GoDriveSeriesUrl(t.tmdbId, t.season, t.episode);
    } else {
      var provider := ProviderNamed(server);
      if provider.Some? {
        url := EmbedUrl(provider.value, t.mediaType, t.tmdbId, t.season, t.episode);
      }
    }
  }

  class SmartSearch {
    const profileId: string
    var idInput: string
    var selectedServer: string
    var mediaInfo: Option<MediaInfo>
    var playerUrl: string
    var showTutorial: bool

    /** The screen as it opens: an empty box, the default server, the tutorial shown. */
    constructor (profileId: string)
      ensures this.profileId == profileId && idInput == "" && selectedServer == InitialServer
      ensures mediaInfo.None? && playerUrl == "" && showTutorial
    {
      this.profileId := profileId;
      idInput := "";
      selectedServer := InitialServer;
      mediaInfo := None;
      playerUrl := "";
      showTutorial := true;
    }

    /**
     * handleSearch, given the outcomes of the IMDb lookup and of the details
     * request: either a toast and no change, or the title found, its player
     * URL on the selected server and the tutorial hidden.
     */
    method Search(find: Result<FindResult>, details: Result<Details>) returns (toast: Option<string>)
      modifies this
      ensures var t := Locate(old(idInput), find);
        && (t.Failure? ==> toast == Some(t.message) && unchanged(this))
        && (t.Success? && details.Failure? ==> toast == Some(SearchFailed) && unchanged(this))
        && (t.Success? && details.Success? ==>
              && toast.None? && mediaInfo == Some(MediaInfo(details.value, t.value))
              && playerUrl == PlayerLink(selectedServer, t.value) && !showTutorial
              && idInput == old(idInput) && selectedServer == old(selectedServer))
    {
      var target := ReadId(idInput, find);
      if target.Failure? {
        return Some(target.message);
      }
      if details.Failure? {
        return Some(SearchFailed);
      }
      var url := PlayerUrlFor(selectedServer, target.value);
      mediaInfo := Some(MediaInfo(details.value, target.value));
      playerUrl := url;
      showTutorial := false;
      toast := None;
    }

    /**
     * handleAddToWatchlist: nothing before a title is found; otherwise one
     * press of the shared watchlist toggle for it. `id` and `createdAt` stand
     * for the clock readings the row is stamped with.
     */
    method AddToWatchlist(store: Storage.Store, id: string, createdAt: string) returns (added: Option<bool>)
      modifies store
      ensures mediaInfo.None? ==> added.None? && unchanged(store)
      ensures mediaInfo.Some? ==>
        var item := WatchItem(profileId, mediaInfo.value, id, createdAt);
        && store.State() == WatchlistToggle.Toggle(old(store.State()), item)
        && (added == Some(!IsInWatchlist(old(store.State()), profileId, mediaInfo.value.details.id)))
    {
      if mediaInfo.None? {
        return None;
      }
      var item := WatchItem(profileId, mediaInfo.value, id, createdAt);
      var a := WatchlistToggle.ApplyToggle(store, item);
      added := Some(a);
    }
  }
}
