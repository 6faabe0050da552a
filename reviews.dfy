/**
 The shapes the Steam review-listing endpoint returns, as the fetcher reads
 them, and the foreign helpers (slug, URL escape, path join, sentence
 splitting) the fetcher calls but that are not part of this model.
 */
module Reviews {

  type Path = string

  /** The `author` object of one review. */
  datatype Author = Author(
    steamId: string,
    numGamesOwned: int,
    numReviews: int,
    playtimeForever: int,
    playtimeLastTwoWeeks: int)

  /** One element of a page's `reviews` list (only the keys the fetcher reads). */
  datatype Review = Review(
    recommendationId: string,
    author: Author,
    review: string,
    votedUp: bool,
    timestampUpdated: int,
    receivedForFree: bool)

  datatype QuerySummary = QuerySummary(totalReviews: int)

  /** The decoded JSON body of one response; this value is also what a cache file holds. */
  datatype Page = Page(
    success: int,
    cursor: string,
    querySummary: QuerySummary,
    reviews: seq<Review>)

  /** An HTTP response: `ok` is the transport status, `json` what `response.json()` would decode. */
  datatype Response = Response(ok: bool, json: Page)

  /** The k-th request the process issues receives `network(k)`: a scripted server. */
  type Network = nat -> Response

  /** Library functions the fetcher calls, left uninterpreted. */
  datatype Libs = Libs(
    slugify: string -> string,
    quote: string -> string,
    join: (Path, string) -> Path)

  /** The constructor arguments of the fetcher, with the helpers it relies on. */
  datatype Settings = Settings(
    gameId: int,
    outputDir: Path,
    language: string,
    delayS: real,
    libs: Libs)

  /** `nltk.sent_tokenize`, left uninterpreted. */
  type Tokenizer = string -> seq<string>

  const CachePrefix: string := "cursor_"
  const CacheSuffix: string := ".json"

  /** The name of the cache file of a cursor whose slug is `slug`: `cursor_<slug>.json`. */
  function CacheFileName(slug: string): string
  {
    CachePrefix + slug + CacheSuffix
  }

  /** Distinct slugs name distinct files. */
  lemma CacheFileNameInjective(a: string, b: string)
    ensures CacheFileName(a) == CacheFileName(b) <==> a == b
  {
    if CacheFileName(a) == CacheFileName(b) {
      var na, nb := CacheFileName(a), CacheFileName(b);
      assert |a| == |b|;
      forall k | 0 <= k < |a| ensures a[k] == b[k] {
        assert na[|CachePrefix| + k] == a[k] && nb[|CachePrefix| + k] == b[k];
      }
    }
  }

  /** The cache file that belongs to a cursor: `<outputDir>/cursor_<slug>.json`. */
  function GetFilepath(settings: Settings, cursor: string): Path
  {
    settings.libs.join(settings.outputDir, CacheFileName(settings.libs.slugify(cursor)))
  }

  /** The path is a function of the directory and the cursor's slug alone. */
  lemma SameSlugSamePath(settings: Settings, c1: string, c2: string)
    requires settings.libs.slugify(c1) == settings.libs.slugify(c2)
    ensures GetFilepath(settings, c1) == GetFilepath(settings, c2)
  {
  }

  /**
   Equal slugs give equal paths; distinct slugs give distinct paths when `join`
   keeps relative names under the output directory apart (as `posixpath.join`
   does; an absolute name would replace the directory).
   */
  lemma FilepathDeterminedByCursor(settings: Settings, c1: string, c2: string)
    requires forall a, b ::
      (|a| > 0 && a[0] != '/' && |b| > 0 && b[0] != '/' &&
       settings.libs.join(settings.outputDir, a) == settings.libs.join(settings.outputDir, b)) ==> a == b
    ensures GetFilepath(settings, c1) == GetFilepath(settings, c2)
            <==> settings.libs.slugify(c1) == settings.libs.slugify(c2)
  {
    assert CacheFileName(settings.libs.slugify(c1))[0] == 'c' && CacheFileName(settings.libs.slugify(c2))[0] == 'c';
    CacheFileNameInjective(settings.libs.slugify(c1), settings.libs.slugify(c2));
  }
}
