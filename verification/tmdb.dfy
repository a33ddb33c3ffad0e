/**
 * The TMDB helpers (src/lib/tmdb.ts): the request URL of `tmdbFetch`, poster
 * URLs, the embed-provider URL templates and the GoDrivePlayer URLs. The
 * requests themselves are not modelled; a lookup's outcome is a parameter.
 */
module Tmdb {
  import opened Types
  import opened Text

  const ApiBase := "https://api.themoviedb.org/3"
  const ApiKey := "335a2d8a6455213ca6201aba18056860"

  // ---------------------------------------------------------------------------
  // Image URLs
  // ---------------------------------------------------------------------------

  const ImageBase := "https://image.tmdb.org/t/p/"
  const DefaultImageSize := "w780"
  const Placeholder := "/placeholder.svg"

  /** getTMDBImageUrl: the placeholder for a missing or empty path. */
  function ImageUrl(path: Option<string>, size: string): (r: string)
    ensures !Truthy(path) ==> r == Placeholder
    ensures Truthy(path) ==> StartsWith(r, ImageBase + size) && r[|ImageBase + size|..] == path.value
  {
    if !Truthy(path) then Placeholder else ImageBase + size + path.value
  }

  /**
   * The placeholder is returned exactly for a missing or empty path, and an
   * image URL of a given size gives back the path it was built from.
   */
  lemma ImageUrlLaws(path: Option<string>, other: Option<string>, size: string)
    ensures ImageUrl(path, size) == Placeholder <==> !Truthy(path)
    ensures Truthy(path) ==> StartsWith(ImageUrl(path, size), ImageBase + size)
    ensures Truthy(path) && Truthy(other) && ImageUrl(path, size) == ImageUrl(other, size) ==> path == other
  {
    if Truthy(path) {
      assert ImageUrl(path, size)[0] == 'h';
      assert ImageUrl(path, size)[..|ImageBase + size|] == ImageBase + size;
      if Truthy(other) && ImageUrl(path, size) == ImageUrl(other, size) {
        assert path.value == ImageUrl(path, size)[|ImageBase + size|..];
      }
    }
  }

  // ---------------------------------------------------------------------------
  // encodeURIComponent
  // ---------------------------------------------------------------------------

  /** The characters encodeURIComponent leaves as they are. */
  predicate Unreserved(c: char)
  {
    ('A' <= c <= 'Z') || ('a' <= c <= 'z') || ('0' <= c <= '9')
    || c == '-' || c == '_' || c == '.' || c == '!' || c == '~' || c == '*' || c == '\'' || c == '(' || c == ')'
  }

  function HexDigit(d: nat): (c: char)
    requires d < 16
    ensures Unreserved(c)
  {
    if d < 10 then ('0' as int + d) as char else ('A' as int + d - 10) as char
  }

  /** The UTF-8 encoding of one code point. */
  function Utf8(c: char): (bytes: seq<nat>)
    ensures 1 <= |bytes| <= 4
    ensures forall k :: 0 <= k < |bytes| ==> bytes[k] < 256
  {
    var n := c as int;
    if n < 0x80 then [n]
    else if n < 0x800 then [0xC0 + n / 64, 0x80 + n % 64]
    else if n < 0x10000 then [0xE0 + n / 4096, 0x80 + (n / 64) % 64, 0x80 + n % 64]
    else [0xF0 + n / 262144, 0x80 + (n / 4096) % 64, 0x80 + (n / 64) % 64, 0x80 + n % 64]
  }

  /** Each byte as `%` and two upper-case hex digits. */
  function PercentBytes(bytes: seq<nat>): (r: string)
    requires forall k :: 0 <= k < |bytes| ==> bytes[k] < 256
    ensures |r| == 3 * |bytes|
    ensures forall i :: 0 <= i < |r| ==> Unreserved(r[i]) || r[i] == '%'
  {
    if |bytes| == 0 then ""
    else ['%', HexDigit(bytes[0] / 16), HexDigit(bytes[0] % 16)] + PercentBytes(bytes[1..])
  }

  /** encodeURIComponent of a string of code points. */
  function Encode(s: string): (r: string)
    ensures forall i :: 0 <= i < |r| ==> Unreserved(r[i]) || r[i] == '%'
    ensures (forall i :: 0 <= i < |s| ==> Unreserved(s[i])) ==> r == s
  {
    if |s| == 0 then ""
    else (if Unreserved(s[0]) then [s[0]] else PercentBytes(Utf8(s[0]))) + Encode(s[1..])
  }

  // ---------------------------------------------------------------------------
  // The tmdbFetch request URL
  // ---------------------------------------------------------------------------

  /** The URL before the extra parameters: '&' joins when the path already has a query. */
  function UrlStem(path: string): string
  {
    ApiBase + path + (if '?' in path then "&" else "?") + "api_key=" + ApiKey + "&language=en-US"
  }

  /** One extra parameter as `key=value`, the value percent-encoded. */
  function Pair(param: (string, string)): string
  {
    param.0 + "=" + Encode(param.1)
  }

  /** The parameters' pairs, in entry order. */
  function Pairs(params: seq<(string, string)>): (r: seq<string>)
    ensures |r| == |params|
    ensures forall k :: 0 <= k < |params| ==> r[k] == Pair(params[k])
  {
    if |params| == 0 then [] else Pairs(params[..|params| - 1]) + [Pair(params[|params| - 1])]
  }

  /** The extra parameters as appended to the stem: `&key=value` each. */
  function Query(params: seq<(string, string)>): string
  {
    Join([""] + Pairs(params), '&')
  }

  /**
   * tmdbFetch's URL: the stem, then `&key=encodeURIComponent(value)` for each
   * parameter in entry order. Numeric values are passed as their decimal text.
   */
  method FetchUrl(path: string, params: seq<(string, string)>) returns (url: string)
    ensures url == UrlStem(path) + Query(params)
  {
    url := UrlStem(path);
    ghost var stem := url;
    var i := 0;
    while i < |params|
      invariant 0 <= i <= |params|
      invariant url == stem + Query(params[..i])
    {
      var pair := params[i].0 + "=" + Encode(params[i].1);
      ghost var before := [""] + Pairs(params[..i]);
      assert params[..i + 1][..i] == params[..i];
      assert [""] + Pairs(params[..i + 1]) == before + [pair];
      JoinSnoc(before, pair, '&');
      url := url + "&" + pair;
      assert url == stem + (Join(before, '&') + "&" + pair);
      i := i + 1;
    }
    assert params[..i] == params;
  }

  /** The URL starts with the API base and the path, followed by '&' exactly when the path already holds a '?'. */
  lemma FetchUrlStart(path: string, params: seq<(string, string)>)
    ensures var url := UrlStem(path) + Query(params);
      && StartsWith(url, ApiBase + path)
      && url[|ApiBase + path|] == (if '?' in path then '&' else '?')
  {
    var sep := if '?' in path then "&" else "?";
    var tail := sep + "api_key=" + ApiKey + "&language=en-US" + Query(params);
    assert UrlStem(path) + Query(params) == (ApiBase + path) + tail;
    TemplateStart(ApiBase + path, tail);
  }

  lemma TemplateStart(prefix: string, tail: string)
    requires |tail| > 0
    ensures StartsWith(prefix + tail, prefix) && (prefix + tail)[|prefix|] == tail[0]
  {
    assert (prefix + tail)[..|prefix|] == prefix;
  }

  /** An encoded value never holds '&'. */
  lemma NoAmpersand(v: string)
    ensures '&' !in Encode(v)
  {
    var e := Encode(v);
    forall j | 0 <= j < |e|
      ensures e[j] != '&'
    {
      assert Unreserved(e[j]) || e[j] == '%';
    }
  }

  lemma PairFree(param: (string, string))
    requires '&' !in param.0
    ensures '&' !in Pair(param)
  {
    NoAmpersand(param.1);
    assert '&' !in "=";
  }

  /**
   * When no key holds a '&', splitting the appended parameters at '&' gives back
   * one `key=value` pair per parameter, in order: encoded values never hold '&'.
   */
  lemma QuerySplits(params: seq<(string, string)>)
    requires forall k :: 0 <= k < |params| ==> '&' !in params[k].0
    ensures Split(Query(params), '&') == [""] + Pairs(params)
  {
    var parts := [""] + Pairs(params);
    forall k | 0 <= k < |parts|
      ensures '&' !in parts[k]
    {
      if k > 0 {
        PairFree(params[k - 1]);
      }
    }
    SplitJoin(parts, '&');
  }

  // ---------------------------------------------------------------------------
  // EMBED_PROVIDERS
  // ---------------------------------------------------------------------------

  datatype Provider = VidSrc | VidLink | Movies111 | Videasy | VidFast

  /** The key of each provider in EMBED_PROVIDERS. */
  function ProviderKey(p: Provider): string
  {
    match p
    case VidSrc => "vidsrc"
    case VidLink => "vidlink"
    case Movies111 => "111movies"
    case Videasy => "videasy"
    case VidFast => "vidfast"
  }

  /** `EMBED_PROVIDERS[key]`: undefined for any other key. */
  function ProviderNamed(key: string): Option<Provider>
  {
    if key == "vidsrc" then Some(VidSrc)
    else if key == "vidlink" then Some(VidLink)
    else if key == "111movies" then Some(Movies111)
    else if key == "videasy" then Some(Videasy)
    else if key == "vidfast" then Some(VidFast)
    else None
  }

  /** Looking a provider up by its key finds it, and only its key finds it. */
  lemma ProviderNamedLaws(p: Provider, key: string)
    ensures ProviderNamed(ProviderKey(p)) == Some(p)
    ensures ProviderNamed(key) == Some(p) ==> key == ProviderKey(p)
    ensures ProviderNamed("godriveplayer").None?
  {
  }

  /** The fixed text before and after the id in a provider's movie URL. */
  function MovieTemplate(p: Provider): (string, string)
  {
    match p
    case VidSrc => ("https://vidsrc.xyz/embed/movie?tmdb=", "")
    case VidLink => ("https://vidlink.pro/movie/", "")
    case Movies111 => ("https://111movies.com/movie/", "")
    case Videasy => ("https://player.videasy.net/movie/", "?color=3B82F6")
    case VidFast => ("https://vidfast.pro/movie/", "?theme=2980B9&autoPlay=true")
  }

  /** The fixed text before the id, between id and season, between season and episode, and after, in a tv URL. */
  function TvTemplate(p: Provider): (string, string, string, string)
  {
    match p
    case VidSrc => ("https://vidsrc.xyz/embed/tv?tmdb=", "&season=", "&episode=", "")
    case VidLink => ("https://vidlink.pro/tv/", "/", "/", "")
    case Movies111 => ("https://111movies.com/tv/", "/", "/", "")
    case Videasy => ("https://player.videasy.net/tv/", "/", "/", "?color=3B82F6")
    case VidFast => ("https://vidfast.pro/tv/", "/", "/", "?theme=2980B9&autoPlay=true&nextButton=true")
  }

  /** `EMBED_PROVIDERS[p](type, tmdbId, season, episode)`: '' for a type other than movie and tv. */
  function EmbedUrl(p: Provider, mediaType: MediaType, tmdbId: int, season: int, episode: int): (r: string)
    ensures mediaType == Live ==> r == ""
    ensures mediaType == Movie ==> StartsWith(r, MovieTemplate(p).0)
    ensures mediaType == Tv ==> StartsWith(r, TvTemplate(p).0)
  {
    match mediaType
    case Movie =>
      var t := MovieTemplate(p);
      t.0 + (IntToString(tmdbId) + t.1)
    case Tv =>
      var t := TvTemplate(p);
      t.0 + (IntToString(tmdbId) + (t.1 + (IntToString(season) + (t.2 + (IntToString(episode) + t.3)))))
    case Live => ""
  }

  /** The number of leading characters of s that can belong to a printed integer. */
  function NumberRun(s: string): (k: nat)
    ensures k <= |s|
  {
    if |s| == 0 || !IsNumberChar(s[0]) then 0 else 1 + NumberRun(s[1..])
  }

  lemma {:induction false} NumberRunPrefix(a: string, rest: string)
    requires forall i :: 0 <= i < |a| ==> IsNumberChar(a[i])
    requires |rest| > 0 && !IsNumberChar(rest[0])
    ensures NumberRun(a + rest) == |a|
  {
    if |a| == 0 {
      assert a + rest == rest;
    } else {
      assert (a + rest)[1..] == a[1..] + rest;
      NumberRunPrefix(a[1..], rest);
    }
  }

  /** Two printed integers followed by texts that start with the same non-number text are equal. */
  lemma CancelNumber(m: int, n: int, sep: string, x: string, y: string)
    requires |sep| > 0 && !IsNumberChar(sep[0])
    requires IntToString(m) + (sep + x) == IntToString(n) + (sep + y)
    ensures m == n && x == y
  {
    var a, b := IntToString(m), IntToString(n);
    IntToStringLaws(m, n);
    IntToStringLaws(n, m);
    NumberRunPrefix(a, sep + x);
    NumberRunPrefix(b, sep + y);
    assert a == (a + (sep + x))[..|a|];
    assert b == (b + (sep + y))[..|b|];
    assert x == (a + (sep + x))[|a| + |sep|..];
    assert y == (b + (sep + y))[|b| + |sep|..];
  }

  /** A printed integer followed by the same text is equal. */
  lemma CancelLastNumber(m: int, n: int, suffix: string)
    requires IntToString(m) + suffix == IntToString(n) + suffix
    ensures m == n
  {
    assert IntToString(m) == (IntToString(m) + suffix)[..|IntToString(m) + suffix| - |suffix|];
    assert IntToString(n) == (IntToString(n) + suffix)[..|IntToString(n) + suffix| - |suffix|];
    IntToStringLaws(m, n);
  }

  /** Only movie and tv have URLs. */
  lemma EmbedUrlEmpty(p: Provider, mediaType: MediaType, id: int, season: int, episode: int)
    ensures EmbedUrl(p, mediaType, id, season, episode) == "" <==> mediaType == Live
  {
    if mediaType != Live {
      assert |EmbedUrl(p, mediaType, id, season, episode)| >= |MovieTemplate(p).0|;
    }
  }

  /**
   * A movie URL embeds only the id: it does not depend on season or episode,
   * and different ids give different URLs.
   */
  lemma MovieUrlLaws(p: Provider, id: int, season: int, episode: int, id': int, season': int, episode': int)
    ensures EmbedUrl(p, Movie, id, season, episode) == EmbedUrl(p, Movie, id, season', episode')
    ensures EmbedUrl(p, Movie, id, season, episode) == EmbedUrl(p, Movie, id', season', episode') ==> id == id'
  {
    var m := MovieTemplate(p);
    if EmbedUrl(p, Movie, id, season, episode) == EmbedUrl(p, Movie, id', season', episode') {
      TemplateCancel(m.0, IntToString(id) + m.1, IntToString(id') + m.1);
      CancelLastNumber(id, id', m.1);
    }
  }

  /** Texts behind the same prefix are equal when the whole texts are. */
  lemma TemplateCancel(prefix: string, x: string, y: string)
    requires prefix + x == prefix + y
    ensures x == y
  {
    assert x == (prefix + x)[|prefix|..];
    assert y == (prefix + y)[|prefix|..];
  }

  /** A tv URL template whose separators start with a non-number character gives back its three numbers. */
  lemma TvTemplateCancel(t: (string, string, string, string), id: int, season: int, episode: int,
                         id': int, season': int, episode': int)
    requires |t.1| > 0 && !IsNumberChar(t.1[0]) && |t.2| > 0 && !IsNumberChar(t.2[0])
    requires t.0 + (IntToString(id) + (t.1 + (IntToString(season) + (t.2 + (IntToString(episode) + t.3)))))
          == t.0 + (IntToString(id') + (t.1 + (IntToString(season') + (t.2 + (IntToString(episode') + t.3)))))
    ensures id == id' && season == season' && episode == episode'
  {
    var last := IntToString(episode) + t.3;
    var last' := IntToString(episode') + t.3;
    var rest := IntToString(season) + (t.2 + last);
    var rest' := IntToString(season') + (t.2 + last');
    TemplateCancel(t.0, IntToString(id) + (t.1 + rest), IntToString(id') + (t.1 + rest'));
    CancelNumber(id, id', t.1, rest, rest');
    CancelNumber(season, season', t.2, last, last');
    CancelLastNumber(episode, episode', t.3);
  }

  /** A tv URL determines its id, season and episode. */
  lemma TvUrlLaws(p: Provider, id: int, season: int, episode: int, id': int, season': int, episode': int)
    ensures EmbedUrl(p, Tv, id, season, episode) == EmbedUrl(p, Tv, id', season', episode') ==>
              id == id' && season == season' && episode == episode'
  {
    var t := TvTemplate(p);
    assert |t.1| > 0 && !IsNumberChar(t.1[0]) && |t.2| > 0 && !IsNumberChar(t.2[0]);
    if EmbedUrl(p, Tv, id, season, episode) == EmbedUrl(p, Tv, id', season', episode') {
      TvTemplateCancel(t, id, season, episode, id', season', episode');
    }
  }

  // ---------------------------------------------------------------------------
  // GoDrivePlayer
  // ---------------------------------------------------------------------------

  const GoDriveUnavailable := "GoDrivePlayer unavailable for this content"

  function GoDriveSeriesUrl(tmdbId: int, season: int, episode: int): string
  {
    "https://godriveplayer.com/player.php?type=series&tmdb=" + IntToString(tmdbId)
      + "&season=" + IntToString(season) + "&episode=" + IntToString(episode)
  }

  function GoDriveMovieUrl(imdbId: string): string
  {
    "https://godriveplayer.com/player.php?imdb=" + imdbId
  }

  /**
   * getGoDrivePlayerUrl. `imdbLookup` is the outcome of the movie-details request
   * (a failed request, or the details' `imdb_id`); it is consulted only for a
   * movie.
   */
  function GoDrivePlayerUrl(mediaType: MediaType, tmdbId: int, season: int, episode: int,
                            imdbLookup: Result<Option<string>>): (r: Result<string>)
    ensures mediaType == Tv ==> r.Success?
    ensures mediaType != Tv ==> (r.Failure? <==> imdbLookup.Failure? || !Truthy(imdbLookup.value))
    ensures r.Success? ==> r.value != ""
  {
    if mediaType == Tv then Success(GoDriveSeriesUrl(tmdbId, season, episode))
    else if imdbLookup.Failure? || !Truthy(imdbLookup.value) then Failure(GoDriveUnavailable)
    else Success(GoDriveMovieUrl(imdbLookup.value.value))
  }

  /**
   * A series URL is built without the lookup and never fails; a movie fails
   * exactly when the lookup fails or gives no IMDb id, and otherwise its URL
   * carries that id.
   */
  lemma GoDrivePlayerUrlLaws(mediaType: MediaType, tmdbId: int, season: int, episode: int,
                             imdbLookup: Result<Option<string>>, otherLookup: Result<Option<string>>)
    requires mediaType != Live
    ensures var r := GoDrivePlayerUrl(mediaType, tmdbId, season, episode, imdbLookup);
      && (mediaType == Tv ==> r.Success? && r == GoDrivePlayerUrl(Tv, tmdbId, season, episode, otherLookup))
      && (mediaType == Movie ==>
            (r.Failure? <==> imdbLookup.Failure? || imdbLookup.value.None? || imdbLookup.value.value == "")
            && (r.Success? ==> StartsWith(r.value, "https://godriveplayer.com/player.php?imdb=")
                               && r.value[|"https://godriveplayer.com/player.php?imdb="|..] == imdbLookup.value.value))
  {
  }
}
