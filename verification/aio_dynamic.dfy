/** widgets/aio_dynamic.js: curated Stremio/TMDB catalogs, each Stremio meta resolved
    against TMDB (IMDb ids through a find lookup with a cross-kind fallback, numeric ids
    through a detail lookup) and merged field by field with the raw meta; plus the custom
    merge that filters catalogs by keyword and type and de-duplicates the combined list. */
module AioDynamic {
  import opened Wrappers
  import opened JsString
  import opened Js
  import opened Seqs
  import opened Media

  const StremioBaseUrl: string := "https://aiometadatafortheweak.nhyira.dev/stremio/7e79368f-22da-4379-8291-45702e84bec7"

  /** The widget's static catalog table. */
  const Catalogs: seq<Catalog> := [
    Catalog("tmdb.trending.movie", "TMDB Trending Movies", "movie", "tmdb", "trending/movie/day"),
    Catalog("tmdb.trending.tv", "TMDB Trending Shows", "series", "tmdb", "trending/tv/day"),
    Catalog("mdblist.86626", "Top Movies - Apple TV+", "movie", "stremio", ""),
    Catalog("mdblist.86625", "Top TV Shows - Apple TV+", "series", "stremio", ""),
    Catalog("mdblist.4799", "Discovery+", "series", "stremio", ""),
    Catalog("mdblist.86945", "Top Movies - Disney+", "movie", "stremio", ""),
    Catalog("mdblist.86946", "Top TV Shows - Disney+", "series", "stremio", ""),
    Catalog("mdblist.89392", "Top Movies - HBO Max", "movie", "stremio", ""),
    Catalog("mdblist.89310", "Top TV Shows - HBO Max", "series", "stremio", ""),
    Catalog("mdblist.88326", "Hulu Movies", "movie", "stremio", ""),
    Catalog("mdblist.88327", "Hulu Shows", "series", "stremio", ""),
    Catalog("mdblist.86628", "Top Movies - Netflix", "movie", "stremio", ""),
    Catalog("mdblist.86620", "Top TV Shows - Netflix", "series", "stremio", ""),
    Catalog("mdblist.89366", "Top Movies - Paramount+", "movie", "stremio", ""),
    Catalog("mdblist.89374", "Top TV Shows - Paramount+", "series", "stremio", ""),
    Catalog("mdblist.83487", "Peacock Movies", "movie", "stremio", ""),
    Catalog("mdblist.83484", "Peacock Shows", "series", "stremio", ""),
    Catalog("mdblist.86755", "Amazon Prime Movies", "movie", "stremio", ""),
    Catalog("mdblist.86753", "Amazon Prime Shows", "series", "stremio", ""),
    Catalog("mdblist.87667", "Trakt Trending Movies", "movie", "stremio", ""),
    Catalog("mdblist.88434", "Trakt Trending Shows", "series", "stremio", ""),
    Catalog("mdblist.91211", "Action Movies", "movie", "stremio", ""),
    Catalog("mdblist.91213", "Action Shows", "series", "stremio", ""),
    Catalog("mdblist.116037", "Animated Movies", "movie", "stremio", ""),
    Catalog("mdblist.91223", "Comedy Movies", "movie", "stremio", ""),
    Catalog("mdblist.91215", "Horror Movies", "movie", "stremio", ""),
    Catalog("mdblist.91221", "Sci-Fi Shows", "series", "stremio", ""),
    Catalog("mdblist.3022", "Marvel Universe", "movie", "stremio", ""),
    Catalog("mdblist.3021", "DC Universe", "movie", "stremio", ""),
    Catalog("mdblist.125115", "Star Wars Universe", "series", "stremio", ""),
    Catalog("mdblist.105063", "Harry Potter", "series", "stremio", ""),
    Catalog("mdblist.91304", "Popular 2020s Movies", "movie", "stremio", "")
  ]

  /** The upstream services as seen from this widget: TMDB list endpoints by path (`None` when
      the reply or its `results` is missing), Stremio catalog URLs (`None` when `metas` is not
      an array), the TMDB lookup client, and the numeric conversions. */
  datatype Upstream = Upstream(
    tmdbList: string -> Result<Option<seq<TmdbRecord>>, Error>,
    catalog: string -> Result<Option<seq<StremioMeta>>, Error>,
    tmdb: TmdbClient,
    co: Coercions)

  // ---------------------------------------------------------------------------
  // fetchTmdbDetail: identifier classification and resolution
  // ---------------------------------------------------------------------------

  /** The one TMDB request `fetchTmdbDetail` issues for an external id, if any. */
  datatype Lookup = NoLookup | FindLookup(path: string) | DetailLookup(path: string)

  /** A `tt` prefix asks TMDB's find endpoint, an all-digits id asks the detail endpoint of the
      declared kind, anything else (and a falsy or non-string id) asks nothing. */
  function LookupFor(externalId: Val, kind: string): (l: Lookup)
    ensures l.FindLookup? <==> externalId.Str? && StartsWith(externalId.s, "tt")
    ensures l.DetailLookup? <==> externalId.Str? && !StartsWith(externalId.s, "tt") && AllDigits(externalId.s)
    ensures l.FindLookup? ==> l.path == "find/" + externalId.s
    ensures l.DetailLookup? ==> l.path == kind + "/" + externalId.s
  {
    if !Truthy(externalId) || !externalId.Str? then NoLookup
    else if StartsWith(externalId.s, "tt") then FindLookup("find/" + externalId.s)
    else if AllDigits(externalId.s) then DetailLookup(kind + "/" + externalId.s)
    else NoLookup
  }

  predicate NonEmpty(bucket: Option<seq<TmdbRecord>>) {
    bucket.Some? && |bucket.value| > 0
  }

  /** The find bucket of the declared kind, and the other one. */
  function DeclaredBucket(reply: FindReply, kind: string): Option<seq<TmdbRecord>>
  {
    if kind == "movie" then reply.movieResults else reply.tvResults
  }

  function OtherBucket(reply: FindReply, kind: string): Option<seq<TmdbRecord>>
  {
    if kind == "movie" then reply.tvResults else reply.movieResults
  }

  function PickFindResult(reply: FindReply, kind: string): Option<TmdbRecord>
  {
    if NonEmpty(DeclaredBucket(reply, kind)) then Some(DeclaredBucket(reply, kind).value[0])
    else if NonEmpty(OtherBucket(reply, kind)) then Some(OtherBucket(reply, kind).value[0])
    else None
  }

  /** `fetchTmdbDetail(externalId, type)`. A falsy id resolves to nothing. For an IMDb id the
      first result of the declared kind wins, then the first of the other kind, else nothing.
      An all-digits id resolves to the detail object. A thrown lookup resolves to nothing. */
  function FetchTmdbDetail(externalId: Val, kind: string, tmdb: TmdbClient): (r: Option<TmdbRecord>)
    ensures !Truthy(externalId) ==> r.None?
    ensures LookupFor(externalId, kind).NoLookup? ==> r.None?
    ensures r.Some? ==> externalId.Str?
    ensures LookupFor(externalId, kind).FindLookup? ==>
      var reply := tmdb.find(LookupFor(externalId, kind).path);
      && (reply.Failure? || reply.value.None? ==> r.None?)
      && (reply.Success? && reply.value.Some? ==>
            var f := reply.value.value;
            && (NonEmpty(DeclaredBucket(f, kind)) ==> r == Some(DeclaredBucket(f, kind).value[0]))
            && (!NonEmpty(DeclaredBucket(f, kind)) && NonEmpty(OtherBucket(f, kind)) ==> r == Some(OtherBucket(f, kind).value[0]))
            && (!NonEmpty(DeclaredBucket(f, kind)) && !NonEmpty(OtherBucket(f, kind)) ==> r.None?))
    ensures LookupFor(externalId, kind).DetailLookup? ==>
      var reply := tmdb.detail(LookupFor(externalId, kind).path);
      && (reply.Failure? ==> r.None?)
      && (reply.Success? ==> r == reply.value)
  {
    match LookupFor(externalId, kind)
    case NoLookup => None
    case FindLookup(path) =>
      (match tmdb.find(path)
       case Success(Some(reply)) => PickFindResult(reply, kind)
       case _ => None)
    case DetailLookup(path) => tmdb.detail(path).GetOr(None)
  }

  /** Two clients that answer the one planned request alike give the same resolution, and when
      nothing is planned every client gives the same (empty) one: at most one lookup is made,
      and exactly the planned one. */
  lemma FetchTmdbDetailUsesOneLookup(externalId: Val, kind: string, c1: TmdbClient, c2: TmdbClient)
    requires LookupFor(externalId, kind).FindLookup? ==>
      c1.find(LookupFor(externalId, kind).path) == c2.find(LookupFor(externalId, kind).path)
    requires LookupFor(externalId, kind).DetailLookup? ==>
      c1.detail(LookupFor(externalId, kind).path) == c2.detail(LookupFor(externalId, kind).path)
    ensures FetchTmdbDetail(externalId, kind, c1) == FetchTmdbDetail(externalId, kind, c2)
  {
  }

  // ---------------------------------------------------------------------------
  // formatStremioItems: the merge/fallback formatter
  // ---------------------------------------------------------------------------

  /** The TMDB kind an item is resolved under: "movie" exactly when `item.type || reqType` is
      "movie", otherwise "tv". */
  function TmdbKind(meta: StremioMeta, reqType: Val): (k: string)
    ensures k == "movie" <==> Or(meta.metaType, reqType) == Str("movie")
    ensures k == "movie" || k == "tv"
  {
    if Or(meta.metaType, reqType) == Str("movie") then "movie" else "tv"
  }

  /** The content fields of an item, from the TMDB record when one resolved, else from the meta. */
  function MergeFields(meta: StremioMeta, data: Option<TmdbRecord>, kind: string, co: Coercions): Item
  {
    match data
    case Some(t) =>
      Blank.(
        title := Or(t.title, t.name),
        description := t.overview,
        posterPath := Or(t.posterPath, Str("")),
        backdropPath := Or(t.backdropPath, Str("")),
        rating := t.voteAverage,
        releaseDate := Str(ToISODate(Or(t.releaseDate, t.firstAirDate))),
        mediaType := Str(kind),
        genreTitle := Str(""))
    case None =>
      Blank.(
        title := Str(SafeStr(meta.name)),
        description := Str(SafeStr(meta.description)),
        posterPath := Or(meta.poster, Str("")),
        backdropPath := Or(meta.background, Str("")),
        rating := if Truthy(meta.imdbRating) then co.number(meta.imdbRating) else Num(0),
        releaseDate := Str(ToISODate(meta.releaseInfo)),
        mediaType := Str(kind),
        genreTitle := Str(""))
  }

  /** One meta of `formatStremioItems`. It throws exactly when the meta's id is not a string
      (the `stremioId.startsWith` of the id/type rule is then reached and fails). Otherwise the
      media type is "movie" or "tv" by `item.type || reqType`; with a resolved TMDB record the
      title, overview, poster, backdrop, rating and date are TMDB's, without one they are the
      meta's with "" / 0 defaults; and the id/type is the TMDB id under "tmdb" when the record
      carries one, else the meta id under "imdb" for a `tt` id and "url" otherwise. */
  function FormatStremioItem(meta: StremioMeta, reqType: Val, tmdb: TmdbClient, co: Coercions): (r: Result<Item, Error>)
    ensures r.Failure? <==> !meta.id.Str?
    ensures r.Success? ==>
      var it := r.value;
      var kind := TmdbKind(meta, reqType);
      var data := FetchTmdbDetail(meta.id, kind, tmdb);
      && it.mediaType == Str(kind)
      && it.genreTitle == Str("")
      && (data.Some? ==>
            && it.title == Or(data.value.title, data.value.name)
            && it.description == data.value.overview
            && it.posterPath == Or(data.value.posterPath, Str(""))
            && it.backdropPath == Or(data.value.backdropPath, Str(""))
            && it.rating == data.value.voteAverage
            && it.releaseDate == Str(ToISODate(Or(data.value.releaseDate, data.value.firstAirDate))))
      && (data.None? ==>
            && it.title == Str(SafeStr(meta.name))
            && it.description == Str(SafeStr(meta.description))
            && (Truthy(meta.poster) ==> it.posterPath == meta.poster)
            && (!Truthy(meta.poster) ==> it.posterPath == Str(""))
            && (Truthy(meta.background) ==> it.backdropPath == meta.background)
            && (!Truthy(meta.background) ==> it.backdropPath == Str(""))
            && (Truthy(meta.imdbRating) ==> it.rating == co.number(meta.imdbRating))
            && (!Truthy(meta.imdbRating) ==> it.rating == Num(0))
            && it.releaseDate == Str(ToISODate(meta.releaseInfo)))
      && (data.Some? && Truthy(data.value.id) ==> it.id == data.value.id && it.idType == Str("tmdb"))
      && (!(data.Some? && Truthy(data.value.id)) ==>
            && it.id == meta.id
            && (StartsWith(meta.id.s, "tt") ==> it.idType == Str("imdb"))
            && (!StartsWith(meta.id.s, "tt") ==> it.idType == Str("url")))
  {
    var kind := TmdbKind(meta, reqType);
    var data := FetchTmdbDetail(meta.id, kind, tmdb);
    var fields := MergeFields(meta, data, kind, co);
    if data.Some? && Truthy(data.value.id) then
      Success(fields.(id := data.value.id, idType := Str("tmdb")))
    else
      match ValStartsWith(meta.id, "tt")
      case Failure(e) => Failure(e)
      case Success(isImdb) => Success(fields.(id := meta.id, idType := Str(if isImdb then "imdb" else "url")))
  }

  /** Without a TMDB record every field of the ten-field contract is present: the strings are
      strings (possibly ""), the id keeps the meta's id, the rating is a number or `Number(...)`. */
  lemma UnresolvedItemIsComplete(meta: StremioMeta, reqType: Val, tmdb: TmdbClient, co: Coercions)
    requires meta.id.Str?
    requires FetchTmdbDetail(meta.id, TmdbKind(meta, reqType), tmdb).None?
    ensures var it := FormatStremioItem(meta, reqType, tmdb, co).value;
      && it.title.Str? && it.description.Str? && it.releaseDate.Str? && it.genreTitle.Str?
      && it.mediaType.Str? && it.idType.Str? && it.id == meta.id
      && it.posterPath != Undefined && it.backdropPath != Undefined
      && (it.rating == Num(0) || it.rating == co.number(meta.imdbRating))
  {
  }

  /** `formatStremioItems`: `Promise.all` over the metas. It rejects exactly when some meta's id
      is not a string; otherwise item `i` is the formatted meta `i`. */
  function FormatStremioItems(metas: seq<StremioMeta>, reqType: Val, tmdb: TmdbClient, co: Coercions): (r: Result<seq<Item>, Error>)
    ensures r.Success? <==> forall i :: 0 <= i < |metas| ==> metas[i].id.Str?
    ensures r.Success? ==> |r.value| == |metas|
    ensures r.Success? ==> forall i :: 0 <= i < |metas| ==> r.value[i] == FormatStremioItem(metas[i], reqType, tmdb, co).value
  {
    MapAll(metas, m => FormatStremioItem(m, reqType, tmdb, co))
  }

  // ---------------------------------------------------------------------------
  // fetchIndividualCatalog / fetchList
  // ---------------------------------------------------------------------------

  function CatalogUrl(cat: Catalog): string
  {
    StremioBaseUrl + "/catalog/" + cat.kind + "/" + cat.id + ".json"
  }

  /** `fetchIndividualCatalog`: every failure (a thrown fetch, a missing `results` or `metas`,
      a meta that makes the formatter throw, an unknown source) yields the empty list. */
  function FetchIndividualCatalog(cat: Catalog, up: Upstream): (r: seq<Item>)
    ensures cat.source != "tmdb" && cat.source != "stremio" ==> r == []
    ensures cat.source == "tmdb" ==>
      match up.tmdbList(cat.path)
      case Success(Some(results)) =>
        r == FormatTmdbItems(results, Str(if cat.kind == "movie" then "movie" else "tv"), NoGenre)
      case _ => r == []
    ensures cat.source == "stremio" ==>
      match up.catalog(CatalogUrl(cat))
      case Success(Some(metas)) =>
        && ((exists i :: 0 <= i < |metas| && !metas[i].id.Str?) ==> r == [])
        && ((forall i :: 0 <= i < |metas| ==> metas[i].id.Str?) ==>
              |r| == |metas| && forall i :: 0 <= i < |metas| ==> r[i] == FormatStremioItem(metas[i], Str(cat.kind), up.tmdb, up.co).value)
      case _ => r == []
  {
    if cat.source == "tmdb" then
      match up.tmdbList(cat.path)
      case Success(Some(results)) => FormatTmdbItems(results, Str(if cat.kind == "movie" then "movie" else "tv"), NoGenre)
      case _ => []
    else if cat.source == "stremio" then
      match up.catalog(CatalogUrl(cat))
      case Success(Some(metas)) => FormatStremioItems(metas, Str(cat.kind), up.tmdb, up.co).GetOr([])
      case _ => []
    else []
  }

  /** `fetchList`: throws "Catalog not found." exactly when no descriptor has the requested id,
      and otherwise fetches the first descriptor with that id. */
  function FetchList(catalogs: seq<Catalog>, catalogId: Val, up: Upstream): (r: Result<seq<Item>, Error>)
    ensures r.Failure? <==> forall i :: 0 <= i < |catalogs| ==> catalogs[i].id != SafeStr(catalogId)
    ensures r.Failure? ==> r.error == Error("Catalog not found.")
    ensures r.Success? ==> exists i :: 0 <= i < |catalogs| && catalogs[i].id == SafeStr(catalogId)
                                      && r.value == FetchIndividualCatalog(catalogs[i], up)
  {
    match FindCatalog(catalogs, SafeStr(catalogId))
    case None => Failure(Error("Catalog not found."))
    case Some(cat) => Success(FetchIndividualCatalog(cat, up))
  }

  // ---------------------------------------------------------------------------
  // fetchMergedList: keyword filter and de-duplication
  // ---------------------------------------------------------------------------

  function NonBlank(s: string): bool { s != "" }

  /** The comma-separated pieces of the lower-cased keyword parameter. */
  function KeywordPieces(keywords: Val): seq<string>
  {
    SplitOn(Lower(SafeStr(keywords)), ',')
  }

  /** `safeStr(keywords).toLowerCase().split(",").map(s => s.trim()).filter(s => s)`. */
  function ParseKeywords(keywords: Val): seq<string>
  {
    Filter(Map(KeywordPieces(keywords), Trim), NonBlank)
  }

  /** Every parsed keyword is the trimmed form of some piece between commas. */
  lemma KeywordFromPiece(keywords: Val, k: string)
    requires k in ParseKeywords(keywords)
    ensures k != "" && exists p :: p in KeywordPieces(keywords) && Trim(p) == k
  {
    var pieces := KeywordPieces(keywords);
    var m := Map(pieces, Trim);
    var i :| 0 <= i < |m| && m[i] == k;
    assert pieces[i] in pieces;
  }

  /** Every parsed keyword is non-empty, lower case, holds no comma and has no surrounding
      whitespace. */
  lemma ParseKeywordsWellFormed(keywords: Val)
    ensures forall k :: k in ParseKeywords(keywords) ==>
      && k != ""
      && ',' !in k
      && IsLowerCase(k)
      && !IsSpace(k[0]) && !IsSpace(k[|k| - 1])
  {
    var lowered := Lower(SafeStr(keywords));
    LowerIsLowerCase(SafeStr(keywords));
    forall k | k in ParseKeywords(keywords)
      ensures k != "" && ',' !in k && IsLowerCase(k) && !IsSpace(k[0]) && !IsSpace(k[|k| - 1])
    {
      KeywordFromPiece(keywords, k);
      var p :| p in KeywordPieces(keywords) && Trim(p) == k;
      TrimSpec(p);
      TrimChars(p);
      SplitPieceChars(lowered, ',', p);
    }
  }

  /** Every piece between commas that is not blank contributes its trimmed self. */
  lemma ParseKeywordsComplete(keywords: Val)
    ensures forall p :: p in KeywordPieces(keywords) && !AllSpace(p) ==> Trim(p) in ParseKeywords(keywords)
  {
    var pieces := KeywordPieces(keywords);
    var m := Map(pieces, Trim);
    forall p | p in pieces && !AllSpace(p) ensures Trim(p) in Filter(m, NonBlank) {
      TrimSpec(p);
      var i :| 0 <= i < |pieces| && pieces[i] == p;
      assert m[i] == Trim(p);
      assert NonBlank(Trim(p));
    }
  }

  /** No keyword survives exactly when every piece between commas is blank. */
  lemma ParseKeywordsEmpty(keywords: Val)
    ensures ParseKeywords(keywords) == [] <==> forall p :: p in KeywordPieces(keywords) ==> AllSpace(p)
  {
    if ParseKeywords(keywords) != [] {
      var k := ParseKeywords(keywords)[0];
      KeywordFromPiece(keywords, k);
      var p :| p in KeywordPieces(keywords) && Trim(p) == k;
      TrimSpec(p);
    } else {
      ParseKeywordsComplete(keywords);
    }
  }

  /** The catalog filter: the type matches when `mergeType` is empty or equal to the
      descriptor's type, and the lower-cased name contains at least one keyword. */
  predicate CatalogMatches(cat: Catalog, keywords: seq<string>, mergeType: string) {
    && (mergeType == "" || cat.kind == mergeType)
    && exists k :: k in keywords && Contains(Lower(cat.name), k)
  }

  function MatchingCatalogs(catalogs: seq<Catalog>, keywords: seq<string>, mergeType: string): seq<Catalog>
  {
    Filter(catalogs, c => CatalogMatches(c, keywords, mergeType))
  }

  /** All items of the matching catalogs, flattened in declaration order. */
  function MergedInput(catalogs: seq<Catalog>, keywords: seq<string>, mergeType: string, up: Upstream): seq<Item>
  {
    Flatten(Map(MatchingCatalogs(catalogs, keywords, mergeType), c => FetchIndividualCatalog(c, up)))
  }

  function ItemId(it: Item): Val { it.id }

  /** `fetchMergedList`: throws when no keyword survives parsing, throws when no catalog
      matches, and otherwise returns the flattened items of the matching catalogs with only
      the first item of each id kept, in order, and every id of the input still present: exactly
      the first-of-id items of the flattened input, in input order. */
  function FetchMergedList(catalogs: seq<Catalog>, keywords: Val, mergeType: Val, up: Upstream): (r: Result<seq<Item>, Error>)
    ensures ParseKeywords(keywords) == [] ==> r == Failure(Error("Please enter keywords (e.g. Apple)."))
    ensures ParseKeywords(keywords) != [] && MatchingCatalogs(catalogs, ParseKeywords(keywords), SafeStr(mergeType)) == [] ==>
      r == Failure(Error("No " + SafeStr(mergeType) + " catalogs matched."))
    ensures r.Success? <==>
      ParseKeywords(keywords) != [] && MatchingCatalogs(catalogs, ParseKeywords(keywords), SafeStr(mergeType)) != []
    ensures r.Success? ==>
      var all := MergedInput(catalogs, ParseKeywords(keywords), SafeStr(mergeType), up);
      && IsSubsequence(r.value, all)
      && Keys(r.value, ItemId) == Keys(all, ItemId)
      && (forall i, j :: 0 <= i < j < |r.value| ==> r.value[i].id != r.value[j].id)
      && (forall i :: 0 <= i < |r.value| ==> exists k :: FirstOfKey(all, ItemId, k) && all[k] == r.value[i])
      && r.value == DedupBy(all, ItemId)
      && r.value == FirstsUpTo(all, ItemId, |all|)
  {
    var ks := ParseKeywords(keywords);
    var mt := SafeStr(mergeType);
    if ks == [] then Failure(Error("Please enter keywords (e.g. Apple)."))
    else if MatchingCatalogs(catalogs, ks, mt) == [] then Failure(Error("No " + mt + " catalogs matched."))
    else
      var all := MergedInput(catalogs, ks, mt, up);
      DedupBySpec(all, ItemId);
      Success(DedupBy(all, ItemId))
  }
}
