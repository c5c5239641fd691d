/**
 * The string-building half of the movie catalog service: the endpoint paths
 * handed to the fetch wrapper, and the image URLs built from the paths the
 * catalog returns. The fetch itself (network, headers, status check, JSON)
 * is not modelled.
 */
module MovieApi {

  import opened Optional
  import opened NumberFormat

  const ImageBaseUrl: string := "https://image.tmdb.org/t/p"

  const DefaultImageSize: string := "w500"
  const PosterSize: string := "w500"
  const BackdropSize: string := "w1280"

  /** The three curated lists of the catalog. */
  datatype MovieCategory = Popular | NowPlaying | TopRated

  /**
   * The category as it appears in the catalog's path: a non-empty word of
   * lower-case letters and underscores, so it never holds a '/' or a '?'.
   */
  function CategoryName(c: MovieCategory): (r: string)
    ensures |r| > 0 && 'a' <= r[0] <= 'z'
    ensures forall i :: 0 <= i < |r| ==> 'a' <= r[i] <= 'z' || r[i] == '_'
  {
    match c
    case Popular => "popular"
    case NowPlaying => "now_playing"
    case TopRated => "top_rated"
  }

  /** `s` with `prefix` taken off its front, when `s` starts with it. */
  function StripPrefix(prefix: string, s: string): (r: Option<string>)
    ensures r.Some? <==> prefix <= s
    ensures r.Some? ==> s == prefix + r.value
  {
    if prefix <= s then Some(s[|prefix|..]) else None
  }

  // ---------------------------------------------------------------------
  // Endpoint paths

  function CategoryPrefix(c: MovieCategory): string {
    "/movie/" + CategoryName(c) + "?page="
  }

  /**
   * The path requested for one page of a category; the page defaults to 1.
   * The category and the page can be read back from it.
   */
  function MoviesByCategoryEndpoint(category: MovieCategory, page: int := 1): (r: string)
    ensures CategoryPrefix(category) <= r
    ensures ParseMoviesByCategoryEndpoint(r) == Some((category, page))
  {
    var digits := IntToString(page);
    var r := "/movie/" + CategoryName(category) + "?page=" + digits;
    assert r == CategoryPrefix(category) + digits;
    assert StripPrefix(CategoryPrefix(category), r) == Some(digits);
    IntToStringRoundTrip(page);
    assert forall d :: d != category ==> PageOf(d, r) == None by {
      forall d | d != category
        ensures PageOf(d, r) == None
      {
        CategoryPrefixesDiffer(d, category, digits);
      }
    }
    r
  }

  /** The path requested for one movie's details; the id can be read back from it. */
  function MovieDetailsEndpoint(movieId: int): (r: string)
    ensures "/movie/" <= r
    ensures ParseMovieDetailsEndpoint(r) == Some(movieId)
  {
    var r := "/movie/" + IntToString(movieId);
    assert StripPrefix("/movie/", r) == Some(IntToString(movieId));
    IntToStringRoundTrip(movieId);
    r
  }

  /** The page number of `s` when `s` is the category endpoint of `c`. */
  function PageOf(c: MovieCategory, s: string): Option<int> {
    match StripPrefix(CategoryPrefix(c), s)
    case None => None
    case Some(rest) => ParseInt(rest)
  }

  /** Recovers the category and page from a category endpoint path. */
  function ParseMoviesByCategoryEndpoint(s: string): Option<(MovieCategory, int)> {
    match PageOf(Popular, s)
    case Some(page) => Some((Popular, page))
    case None =>
      match PageOf(NowPlaying, s)
      case Some(page) => Some((NowPlaying, page))
      case None =>
        match PageOf(TopRated, s)
        case Some(page) => Some((TopRated, page))
        case None => None
  }

  /** Recovers the movie id from a details endpoint path. */
  function ParseMovieDetailsEndpoint(s: string): Option<int> {
    match StripPrefix("/movie/", s)
    case None => None
    case Some(rest) => ParseInt(rest)
  }

  /** No category's path is a prefix of another category's endpoint. */
  lemma CategoryPrefixesDiffer(c: MovieCategory, d: MovieCategory, tail: string)
    requires c != d
    ensures !(CategoryPrefix(c) <= CategoryPrefix(d) + tail)
  {
    var s := CategoryPrefix(d) + tail;
    assert s[7] == CategoryPrefix(d)[7];
  }

  /** Different (category, page) requests go to different paths. */
  lemma CategoryEndpointInjective(c1: MovieCategory, p1: int, c2: MovieCategory, p2: int)
    requires MoviesByCategoryEndpoint(c1, p1) == MoviesByCategoryEndpoint(c2, p2)
    ensures c1 == c2 && p1 == p2
  {
  }

  /** Different movie ids go to different paths. */
  lemma DetailsEndpointInjective(id1: int, id2: int)
    requires MovieDetailsEndpoint(id1) == MovieDetailsEndpoint(id2)
    ensures id1 == id2
  {
  }

  /** A details path never coincides with a category path. */
  lemma EndpointsDisjoint(category: MovieCategory, page: int, movieId: int)
    ensures MoviesByCategoryEndpoint(category, page) != MovieDetailsEndpoint(movieId)
  {
    var s := MoviesByCategoryEndpoint(category, page);
    var t := MovieDetailsEndpoint(movieId);
    assert s[7] == CategoryName(category)[0];
    assert t[7] == IntToString(movieId)[0];
    IntToStringFirstChar(movieId);
  }

  // ---------------------------------------------------------------------
  // Image URLs

  /**
   * The URL of an image at `size`, or None when the catalog gave no path
   * (null) or an empty one. The path is appended as given: no slash is
   * added or removed.
   */
  function ImageUrl(path: Option<string>, size: string := DefaultImageSize): (r: Option<string>)
    ensures r.None? <==> path == None || path == Some("")
    ensures r.Some? ==> ImageBaseUrl + "/" + size <= r.value
    ensures r.Some? ==> |r.value| == |ImageBaseUrl| + 1 + |size| + |path.value|
    ensures r.Some? ==> ImagePathOf(r.value, size) == path
  {
    if path.None? || path.value == "" then None
    else
      var prefix := ImageBaseUrl + "/" + size;
      assert StripPrefix(prefix, prefix + path.value) == Some(path.value);
      Some(prefix + path.value)
  }

  /** Recovers the image path from an image URL at `size`. */
  function ImagePathOf(url: string, size: string): Option<string> {
    match StripPrefix(ImageBaseUrl + "/" + size, url)
    case None => None
    case Some(p) => if p == "" then None else Some(p)
  }

  /** At one size, distinct non-empty paths give distinct URLs. */
  lemma ImageUrlInjective(p1: Option<string>, p2: Option<string>, size: string)
    requires ImageUrl(p1, size).Some? && ImageUrl(p1, size) == ImageUrl(p2, size)
    ensures p1 == p2
  {
  }

  /** Across sizes the URL is ambiguous: the size is not delimited from the path. */
  lemma ImageUrlSizeAmbiguous()
    ensures ImageUrl(Some("00/x"), "w5") == ImageUrl(Some("/x"), "w500")
  {
    assert ImageUrl(Some("00/x"), "w5").value == ImageBaseUrl + "/" + "w5" + "00/x";
    assert ImageUrl(Some("/x"), "w500").value == ImageBaseUrl + "/" + "w500" + "/x";
    assert ImageBaseUrl + "/" + "w5" + "00/x" == ImageBaseUrl + "/" + "w500" + "/x";
  }

  /** Poster images are requested at 500 pixels wide. */
  function PosterUrl(posterPath: Option<string>): (r: Option<string>)
    ensures r.None? <==> posterPath == None || posterPath == Some("")
    ensures r.Some? ==> ImagePathOf(r.value, "w500") == posterPath
  {
    ImageUrl(posterPath, PosterSize)
  }

  /** Backdrop images are requested at 1280 pixels wide. */
  function BackdropUrl(backdropPath: Option<string>): (r: Option<string>)
    ensures r.None? <==> backdropPath == None || backdropPath == Some("")
    ensures r.Some? ==> ImagePathOf(r.value, "w1280") == backdropPath
  {
    ImageUrl(backdropPath, BackdropSize)
  }

  /** The default size is the poster size; the backdrop size is w1280. */
  lemma ImageSizes(path: Option<string>)
    ensures ImageUrl(path) == ImageUrl(path, "w500") == PosterUrl(path)
    ensures BackdropUrl(path) == ImageUrl(path, "w1280")
  {
  }

  /** The exact URL of a path with a leading slash, at the default size. */
  lemma ImageUrlWithSlashExample()
    ensures ImageUrl(Some("/example.jpg")) == Some("https://image.tmdb.org/t/p/w500/example.jpg")
  {
    assert ImageUrl(Some("/example.jpg")).Some?;
    assert ImageUrl(Some("/example.jpg")).value == ImageBaseUrl + "/" + "w500" + "/example.jpg";
    assert ImageBaseUrl + "/" + "w500" + "/example.jpg" == "https://image.tmdb.org/t/p/w500/example.jpg";
  }

  /** A path without a leading slash is appended as it is: no slash is inserted. */
  lemma ImageUrlWithoutSlashExample()
    ensures ImageUrl(Some("poster.jpg")) == Some("https://image.tmdb.org/t/p/w500poster.jpg")
  {
    assert ImageUrl(Some("poster.jpg")).Some?;
    assert ImageUrl(Some("poster.jpg")).value == ImageBaseUrl + "/" + "w500" + "poster.jpg";
    assert ImageBaseUrl + "/" + "w500" + "poster.jpg" == "https://image.tmdb.org/t/p/w500poster.jpg";
  }

  lemma BackdropUrlExample()
    ensures BackdropUrl(Some("/backdrop.jpg")) == Some("https://image.tmdb.org/t/p/w1280/backdrop.jpg")
  {
    assert BackdropUrl(Some("/backdrop.jpg")).Some?;
    assert BackdropUrl(Some("/backdrop.jpg")).value == ImageBaseUrl + "/" + "w1280" + "/backdrop.jpg";
    assert ImageBaseUrl + "/" + "w1280" + "/backdrop.jpg" == "https://image.tmdb.org/t/p/w1280/backdrop.jpg";
  }

  /** The paths the home page requests: the page defaults to 1. */
  lemma CategoryEndpointExamples()
    ensures MoviesByCategoryEndpoint(Popular) == "/movie/popular?page=1"
    ensures MoviesByCategoryEndpoint(TopRated, 2) == "/movie/top_rated?page=2"
  {
    assert IntToString(1) == "1" && IntToString(2) == "2";
  }

  /** The paths a details page requests, for a positive and a negative id. */
  lemma DetailsEndpointExamples()
    ensures MovieDetailsEndpoint(42) == "/movie/42"
    ensures MovieDetailsEndpoint(-1) == "/movie/-1"
  {
    assert NatToDecimal(4) == "4";
    assert IntToString(42) == "42";
    assert IntToString(-1) == "-1";
  }
}
