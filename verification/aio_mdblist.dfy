/** widgets/aio_mdblist.js: the same catalog table as the dynamic catalog widget, but backed by
    TMDB list endpoints and by MDBList's JSON API directly; MDBList entries are resolved by
    their TMDB id and merged with TMDB's detail. */
module AioMdbList {
  import opened Wrappers
  import opened JsString
  import opened Js
  import opened Seqs
  import opened Media

  const Catalogs: seq<Catalog> := [
    Catalog("tmdb.trending.movie", "TMDB Trending Movies", "movie", "tmdb", "trending/movie/day"),
    Catalog("tmdb.trending.tv", "TMDB Trending Shows", "series", "tmdb", "trending/tv/day"),
    Catalog("86626", "Top Movies - Apple TV+", "movie", "mdblist", ""),
    Catalog("86625", "Top TV Shows - Apple TV+", "series", "mdblist", ""),
    Catalog("4799", "Discovery+", "series", "mdblist", ""),
    Catalog("86945", "Top Movies - Disney+", "movie", "mdblist", ""),
    Catalog("86946", "Top TV Shows - Disney+", "series", "mdblist", ""),
    Catalog("89392", "Top Movies - HBO Max", "movie", "mdblist", ""),
    Catalog("89310", "Top TV Shows - HBO Max", "series", "mdblist", ""),
    Catalog("88326", "Hulu Movies", "movie", "mdblist", ""),
    Catalog("88327", "Hulu Shows", "series", "mdblist", ""),
    Catalog("86628", "Top Movies - Netflix", "movie", "mdblist", ""),
    Catalog("86620", "Top TV Shows - Netflix", "series", "mdblist", ""),
    Catalog("89366", "Top Movies - Paramount+", "movie", "mdblist", ""),
    Catalog("89374", "Top TV Shows - Paramount+", "series", "mdblist", ""),
    Catalog("83487", "Peacock Movies", "movie", "mdblist", ""),
    Catalog("83484", "Peacock Shows", "series", "mdblist", ""),
    Catalog("86755", "Amazon Prime Movies", "movie", "mdblist", ""),
    Catalog("86753", "Amazon Prime Shows", "series", "mdblist", ""),
    Catalog("87667", "Trakt Trending Movies", "movie", "mdblist", ""),
    Catalog("88434", "Trakt Trending Shows", "series", "mdblist", ""),
    Catalog("91211", "Action Movies", "movie", "mdblist", ""),
    Catalog("91213", "Action Shows", "series", "mdblist", ""),
    Catalog("116037", "Animated Movies", "movie", "mdblist", ""),
    Catalog("91223", "Comedy Movies", "movie", "mdblist", ""),
    Catalog("91215", "Horror Movies", "movie", "mdblist", ""),
    Catalog("91221", "Sci-Fi Shows", "series", "mdblist", ""),
    Catalog("3022", "Marvel Universe", "movie", "mdblist", ""),
    Catalog("3021", "DC Universe", "movie", "mdblist", ""),
    Catalog("125115", "Star Wars Universe", "series", "mdblist", ""),
    Catalog("105063", "Harry Potter", "series", "mdblist", ""),
    Catalog("91304", "Popular 2020s Movies", "movie", "mdblist", "")
  ]

  /** The upstream services: TMDB list endpoints by path (`Missing` when the reply or its
      `results` is falsy, `NotArray` when `results` is truthy but not an array), MDBList list URLs (`None` when the body, after a JSON parse of a
      string body, is not an array), the TMDB lookup client and the numeric conversions. */
  datatype Upstream = Upstream(
    tmdbList: string -> Result<Body<TmdbRecord>, Error>,
    mdbList: string -> Result<Option<seq<MdbItem>>, Error>,
    tmdb: TmdbClient,
    co: Coercions)

  /** `fetchTmdbDetail(tmdbId, type)`: nothing for a falsy id, otherwise the detail of
      `type/id`, with a thrown lookup read as nothing. */
  function FetchTmdbDetail(tmdbId: Val, kind: string, tmdb: TmdbClient): (r: Option<TmdbRecord>)
    ensures !Truthy(tmdbId) ==> r.None?
    ensures Truthy(tmdbId) && tmdb.detail(kind + "/" + ToStr(tmdbId)).Failure? ==> r.None?
    ensures Truthy(tmdbId) && tmdb.detail(kind + "/" + ToStr(tmdbId)).Success? ==>
      r == tmdb.detail(kind + "/" + ToStr(tmdbId)).value
  {
    if !Truthy(tmdbId) then None
    else tmdb.detail(kind + "/" + ToStr(tmdbId)).GetOr(None)
  }

  /** One MDBList entry. The id is always the entry's TMDB id under type "tmdb", the media type
      is "movie" exactly when the entry's `mediatype` is "movie" and "tv" otherwise. With a TMDB
      detail the content is TMDB's; without one the title is the entry's, the overview and
      artwork are "", and the rating is a tenth of the entry's average score, or 0. */
  function FormatMdbItem(item: MdbItem, tmdb: TmdbClient, co: Coercions): (r: Item)
    ensures r.id == item.tmdbId && r.idType == Str("tmdb") && r.genreTitle == Str("")
    ensures r.mediaType == Str("movie") <==> item.mediatype == Str("movie")
    ensures r.mediaType == Str("movie") || r.mediaType == Str("tv")
    ensures var data := FetchTmdbDetail(item.tmdbId, if item.mediatype == Str("movie") then "movie" else "tv", tmdb);
      && (data.Some? ==>
            && r.title == Or(data.value.title, data.value.name)
            && r.description == data.value.overview
            && r.posterPath == Or(data.value.posterPath, Str(""))
            && r.backdropPath == Or(data.value.backdropPath, Str(""))
            && r.rating == data.value.voteAverage
            && r.releaseDate == Str(ToISODate(Or(data.value.releaseDate, data.value.firstAirDate))))
      && (data.None? ==>
            && r.title == Str(SafeStr(item.title))
            && r.description == Str("") && r.posterPath == Str("") && r.backdropPath == Str("")
            && (Truthy(item.scoreAverage) ==> r.rating == co.tenth(item.scoreAverage))
            && (!Truthy(item.scoreAverage) ==> r.rating == Num(0))
            && r.releaseDate == Str(ToISODate(item.releaseDate)))
  {
    var kind := if item.mediatype == Str("movie") then "movie" else "tv";
    var data := FetchTmdbDetail(item.tmdbId, kind, tmdb);
    var fields :=
      match data
      case Some(t) =>
        Blank.(
          title := Or(t.title, t.name),
          description := t.overview,
          posterPath := Or(t.posterPath, Str("")),
          backdropPath := Or(t.backdropPath, Str("")),
          rating := t.voteAverage,
          releaseDate := Str(ToISODate(Or(t.releaseDate, t.firstAirDate))))
      case None =>
        Blank.(
          title := Str(SafeStr(item.title)),
          description := Str(""),
          posterPath := Str(""),
          backdropPath := Str(""),
          rating := if Truthy(item.scoreAverage) then co.tenth(item.scoreAverage) else Num(0),
          releaseDate := Str(ToISODate(item.releaseDate)));
    fields.(id := item.tmdbId, idType := Str("tmdb"), mediaType := Str(kind), genreTitle := Str(""))
  }

  function HasTmdbId(item: MdbItem): bool { Truthy(item.tmdbId) }

  /** The MDBList branch of `formatItems`: entries without a TMDB id are dropped, the others
      formatted in order. */
  function FormatMdbItems(list: seq<MdbItem>, tmdb: TmdbClient, co: Coercions): (r: seq<Item>)
    ensures |r| == |Filter(list, HasTmdbId)| <= |list|
    ensures forall i :: 0 <= i < |r| ==> r[i] == FormatMdbItem(Filter(list, HasTmdbId)[i], tmdb, co)
  {
    Map(Filter(list, HasTmdbId), (item: MdbItem) => FormatMdbItem(item, tmdb, co))
  }

  /** Every formatted item carries a truthy TMDB id taken from some entry. */
  lemma FormatMdbItemsSound(list: seq<MdbItem>, tmdb: TmdbClient, co: Coercions)
    ensures var r := FormatMdbItems(list, tmdb, co);
      forall i :: 0 <= i < |r| ==>
        && Truthy(r[i].id) && r[i].idType == Str("tmdb")
        && exists j :: 0 <= j < |list| && list[j].tmdbId == r[i].id
  {
    var valid := Filter(list, HasTmdbId);
    var r := FormatMdbItems(list, tmdb, co);
    forall i | 0 <= i < |r|
      ensures Truthy(r[i].id) && r[i].idType == Str("tmdb") && exists j :: 0 <= j < |list| && list[j].tmdbId == r[i].id
    {
      assert valid[i] in valid;
      var j :| 0 <= j < |list| && list[j] == valid[i];
    }
  }

  /** Every entry with a truthy TMDB id is represented by an item with that id. */
  lemma FormatMdbItemsComplete(list: seq<MdbItem>, tmdb: TmdbClient, co: Coercions)
    ensures var r := FormatMdbItems(list, tmdb, co);
      forall j :: 0 <= j < |list| && Truthy(list[j].tmdbId) ==> exists i :: 0 <= i < |r| && r[i].id == list[j].tmdbId
  {
    var valid := Filter(list, HasTmdbId);
    var r := FormatMdbItems(list, tmdb, co);
    forall j | 0 <= j < |list| && Truthy(list[j].tmdbId) ensures exists i :: 0 <= i < |r| && r[i].id == list[j].tmdbId {
      assert list[j] in valid;
      var i :| 0 <= i < |valid| && valid[i] == list[j];
      assert r[i].id == list[j].tmdbId;
    }
  }

  function MdbListUrl(listId: string, apiKey: string): string
  {
    "https://api.mdblist.com/lists/" + listId + "/items?apikey=" + apiKey + "&limit=20"
  }

  /** `fetchList`. The key is the trimmed `apiKey`. An unknown id throws "Catalog not found.";
      an MDBList-backed catalog with a blank key throws "MDBList API Key required."; a thrown
      upstream request is rethrown; a reply without a list gives the empty list; TMDB `results`
      that are not an array make `map` throw, and the catch block rethrows that TypeError;
      otherwise the TMDB list is formatted directly and the MDBList list through its TMDB ids. */
  function FetchList(catalogs: seq<Catalog>, apiKey: Val, catalogId: Val, up: Upstream): (r: Result<seq<Item>, Error>)
    ensures (forall i :: 0 <= i < |catalogs| ==> catalogs[i].id != SafeStr(catalogId)) ==>
      r == Failure(Error("Catalog not found."))
    ensures FindCatalog(catalogs, SafeStr(catalogId)).Some? ==>
      var cat := FindCatalog(catalogs, SafeStr(catalogId)).value;
      var key := Trim(SafeStr(apiKey));
      && (cat.source == "mdblist" && key == "" ==> r == Failure(Error("MDBList API Key required.")))
      && (cat.source == "tmdb" ==>
            match up.tmdbList(cat.path)
            case Failure(e) => r == Failure(e)
            case Success(Missing) => r == Success([])
            case Success(NotArray) => r == Failure(TypeError)
            case Success(Array(results)) =>
              r == Success(FormatTmdbItems(results, Str(if cat.kind == "movie" then "movie" else "tv"), NoGenre)))
      && (cat.source == "mdblist" && key != "" ==>
            match up.mdbList(MdbListUrl(cat.id, key))
            case Failure(e) => r == Failure(e)
            case Success(None) => r == Success([])
            case Success(Some(list)) => r == Success(FormatMdbItems(list, up.tmdb, up.co)))
      && (cat.source != "mdblist" && cat.source != "tmdb" ==> r == Success([]))
  {
    match FindCatalog(catalogs, SafeStr(catalogId))
    case None => Failure(Error("Catalog not found."))
    case Some(cat) => FetchFromCatalog(cat, Trim(SafeStr(apiKey)), up)
  }

  /** The branch of `fetchList` after the catalog is found, given the trimmed key. */
  function FetchFromCatalog(cat: Catalog, key: string, up: Upstream): Result<seq<Item>, Error>
  {
    if cat.source == "mdblist" && key == "" then Failure(Error("MDBList API Key required."))
    else if cat.source == "tmdb" then
      match up.tmdbList(cat.path)
      case Failure(e) => Failure(e)
      case Success(Missing) => Success([])
      case Success(NotArray) => Failure(TypeError)
      case Success(Array(results)) =>
        Success(FormatTmdbItems(results, Str(if cat.kind == "movie" then "movie" else "tv"), NoGenre))
    else if cat.source == "mdblist" then
      match up.mdbList(MdbListUrl(cat.id, key))
      case Failure(e) => Failure(e)
      case Success(None) => Success([])
      case Success(Some(list)) => Success(FormatMdbItems(list, up.tmdb, up.co))
    else Success([])
  }

  /** Surrounding whitespace in the key makes no difference: the key is trimmed once, and
      trimming the trimmed key changes nothing. */
  lemma FetchListTrimsKey(catalogs: seq<Catalog>, apiKey: Val, catalogId: Val, up: Upstream)
    ensures FetchList(catalogs, apiKey, catalogId, up) == FetchList(catalogs, Str(Trim(SafeStr(apiKey))), catalogId, up)
  {
    var key := Trim(SafeStr(apiKey));
    TrimIdempotent(SafeStr(apiKey));
    assert SafeStr(Str(key)) == key;
    assert Trim(SafeStr(Str(key))) == key;
  }

  /** A TMDB-backed catalog does not depend on the key: with any key, or none, the result is
      the same. */
  lemma TmdbCatalogsIgnoreKey(catalogs: seq<Catalog>, catalogId: Val, up: Upstream, apiKey: Val)
    requires FindCatalog(catalogs, SafeStr(catalogId)).Some?
    requires FindCatalog(catalogs, SafeStr(catalogId)).value.source == "tmdb"
    ensures FetchList(catalogs, apiKey, catalogId, up) == FetchList(catalogs, Undefined, catalogId, up)
  {
  }
}
