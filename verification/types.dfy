/**
 * The records the application keeps in browser storage (src/types.ts), and the
 * optional-value type used for JavaScript's `undefined`/`null`.
 */
module Types {

  /** `undefined` / `null` versus a present value. */
  datatype Option<T> = None | Some(value: T)

  /** A computation that either produces a value or throws. */
  datatype Result<T> = Failure(message: string) | Success(value: T)

  datatype MediaType = Movie | Tv | Live

  function MediaTypeName(m: MediaType): string
  {
    match m
    case Movie => "movie"
    case Tv => "tv"
    case Live => "live"
  }

  datatype Genre = Genre(id: int, name: string)

  /**
   * A viewer profile. `searchHistoryEnabled` is the extra field the search-history
   * switch writes onto the stored profile; None means it was never set.
   */
  datatype Profile = Profile(
    id: string,
    name: string,
    avatarColor: string,
    pin: Option<string>,
    securityWord: Option<string>,
    adsRemoved: bool,
    createdAt: string,
    firstLogin: Option<bool>,
    seasonalShown: Option<string>,
    searchHistoryEnabled: Option<bool>)

  datatype WatchHistory = WatchHistory(
    id: string,
    profileId: string,
    tmdbId: Option<int>,
    mediaType: MediaType,
    title: string,
    posterPath: Option<string>,
    season: Option<int>,
    episode: Option<int>,
    position: int,
    duration: int,
    lastWatched: string,
    createdAt: string)

  datatype WatchlistItem = WatchlistItem(
    id: string,
    profileId: string,
    tmdbId: Option<int>,
    mediaType: MediaType,
    title: string,
    posterPath: Option<string>,
    embedUrl: Option<string>,
    createdAt: string)

  datatype Rating = Rating(
    id: string,
    profileId: string,
    tmdbId: int,
    mediaType: MediaType,
    rating: int,
    genres: seq<Genre>,
    createdAt: string,
    updatedAt: string)

  datatype LiveChannel = LiveChannel(name: string, embed: string, category: string, channelNumber: nat)

  /** JavaScript truthiness of an optional string: present and non-empty. */
  predicate Truthy(s: Option<string>)
  {
    s.Some? && s.value != ""
  }

  /** JavaScript truthiness of an optional number: present and non-zero. */
  predicate TruthyId(n: Option<int>)
  {
    n.Some? && n.value != 0
  }
}
