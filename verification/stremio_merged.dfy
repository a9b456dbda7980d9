/** widgets/stremio_merged.js: one movie catalog and one series catalog of a Stremio addon,
    each meta classified by its id, the two lists interleaved, and every item enriched from
    TMDB in batches of five. */
module StremioMerged {
  import opened Wrappers
  import opened JsString
  import opened Js
  import opened Seqs
  import opened Media

  const BatchSize: nat := 5

  /** The namespace a Stremio id is put in: `None` drops the meta (a falsy id). A string form
      starting with `tt` is IMDb; otherwise a numeric id is TMDB; anything else is also taken
      as IMDb. */
  function ClassifyId(id: Val): (r: Option<string>)
    ensures r.None? <==> !Truthy(id)
    ensures r == Some("tmdb") <==> Truthy(id) && !StartsWith(ToStr(id), "tt") && LooksNumeric(id)
    ensures r.Some? ==> r.value == "imdb" || r.value == "tmdb"
  {
    if !Truthy(id) then None
    else if StartsWith(ToStr(id), "tt") then Some("imdb")
    else if LooksNumeric(id) then Some("tmdb")
    else Some("imdb")
  }

  /** One meta of `fetchCatalog` for a catalog of the given `type`. */
  function MetaToItem(meta: StremioMeta, kind: string, co: Coercions): (r: Option<Item>)
    ensures r.None? <==> !Truthy(meta.id)
    ensures r.Some? ==>
      && r.value.id == meta.id
      && r.value.idType == r.value.sourceType
      && r.value.sourceType == Str(ClassifyId(meta.id).value)
      && (r.value.mediaType == Str("tv") <==> kind == "series" || meta.metaType == Str("series"))
      && (r.value.mediaType == Str("movie") <==> !(kind == "series" || meta.metaType == Str("series")))
      && r.value.title == meta.name
      && r.value.posterPath == meta.poster
      && r.value.backdropPath == meta.background
      && r.value.description == meta.description
      && r.value.rating == meta.imdbRating
      && r.value.year == Or(co.parseInt(meta.releaseInfo), co.parseInt(meta.year))
  {
    match ClassifyId(meta.id)
    case None => None
    case Some(ns) =>
      Some(Blank.(
        id := meta.id,
        idType := Str(ns),
        title := meta.name,
        year := Or(co.parseInt(meta.releaseInfo), co.parseInt(meta.year)),
        mediaType := Str(if kind == "series" || meta.metaType == Str("series") then "tv" else "movie"),
        posterPath := meta.poster,
        backdropPath := meta.background,
        description := meta.description,
        rating := meta.imdbRating,
        sourceType := Str(ns)))
  }

  function CatalogUrl(baseUrl: string, kind: string, id: string): string
  {
    baseUrl + "/catalog/" + kind + "/" + id + ".json"
  }

  /** `fetchCatalog(baseUrl, type, id)`. `fetch` answers a catalog URL with the metas the
      widget picks (`response.data.metas`, else `response.metas`), `None` when they are not an
      array. A failure of any kind gives the empty list; otherwise the metas with a truthy id
      become items, in order, and the others are dropped. */
  function FetchCatalog(baseUrl: string, kind: string, id: string,
                        fetch: string -> Result<Option<seq<StremioMeta>>, Error>, co: Coercions): (r: seq<Item>)
    ensures !(fetch(CatalogUrl(baseUrl, kind, id)).Success? && fetch(CatalogUrl(baseUrl, kind, id)).value.Some?) ==> r == []
    ensures fetch(CatalogUrl(baseUrl, kind, id)).Success? && fetch(CatalogUrl(baseUrl, kind, id)).value.Some? ==>
      var metas := fetch(CatalogUrl(baseUrl, kind, id)).value.value;
      && r == FilterMap(metas, m => MetaToItem(m, kind, co))
      && |r| <= |metas|
      && (forall it :: it in r ==> exists m :: m in metas && Truthy(m.id) && MetaToItem(m, kind, co) == Some(it))
      && (forall m :: m in metas && Truthy(m.id) ==> MetaToItem(m, kind, co).value in r)
    ensures forall it :: it in r ==> Truthy(it.id) && (it.sourceType == Str("imdb") || it.sourceType == Str("tmdb"))
  {
    match fetch(CatalogUrl(baseUrl, kind, id))
    case Success(Some(metas)) => FilterMap(metas, m => MetaToItem(m, kind, co))
    case _ => []
  }

  // ---------------------------------------------------------------------------
  // enrichWithTmdb
  // ---------------------------------------------------------------------------

  /** The TMDB record an item is enriched from. An IMDb item asks the find endpoint and takes
      the first result of its own media type only; a TMDB item asks the detail endpoint under
      its media type; a thrown or null lookup, or any other source type, gives nothing. */
  function EnrichSource(item: Item, tmdb: TmdbClient): Option<TmdbRecord>
  {
    if item.sourceType == Str("imdb") then
      match tmdb.find("find/" + ToStr(item.id))
      case Success(Some(reply)) =>
        var bucket := if item.mediaType == Str("movie") then reply.movieResults else reply.tvResults;
        if bucket.Some? && |bucket.value| > 0 then Some(bucket.value[0]) else None
      case _ => None
    else if item.sourceType == Str("tmdb") then
      tmdb.detail(ToStr(item.mediaType) + "/" + ToStr(item.id)).GetOr(None)
    else None
  }

  /** `value` when it is truthy, else what was there. */
  function Keep(value: Val, current: Val): Val
  {
    if Truthy(value) then value else current
  }

  /** One item of `enrichWithTmdb`. An item with a falsy id, or with no TMDB record, comes back
      unchanged. With a record the item takes TMDB's id under type "tmdb", TMDB's title (or
      name, or its own title), and each of poster, backdrop, overview, rating and date only
      where TMDB's value is truthy; every other field is left alone. */
  function EnrichOne(item: Item, tmdb: TmdbClient): (r: Item)
    ensures !Truthy(item.id) ==> r == item
    ensures Truthy(item.id) && EnrichSource(item, tmdb).None? ==> r == item
    ensures Truthy(item.id) && EnrichSource(item, tmdb).Some? ==>
      var t := EnrichSource(item, tmdb).value;
      && r.id == t.id
      && r.idType == Str("tmdb")
      && (Truthy(t.title) ==> r.title == t.title)
      && (!Truthy(t.title) && Truthy(t.name) ==> r.title == t.name)
      && (!Truthy(t.title) && !Truthy(t.name) ==> r.title == item.title)
      && (Truthy(t.posterPath) ==> r.posterPath == t.posterPath)
      && (!Truthy(t.posterPath) ==> r.posterPath == item.posterPath)
      && (Truthy(t.backdropPath) ==> r.backdropPath == t.backdropPath)
      && (!Truthy(t.backdropPath) ==> r.backdropPath == item.backdropPath)
      && (Truthy(t.overview) ==> r.description == t.overview)
      && (!Truthy(t.overview) ==> r.description == item.description)
      && (Truthy(t.voteAverage) ==> r.rating == t.voteAverage)
      && (!Truthy(t.voteAverage) ==> r.rating == item.rating)
      && (Truthy(Or(t.releaseDate, t.firstAirDate)) ==> r.releaseDate == Or(t.releaseDate, t.firstAirDate))
      && (!Truthy(Or(t.releaseDate, t.firstAirDate)) ==> r.releaseDate == item.releaseDate)
      && r.(id := item.id, idType := item.idType, title := item.title, posterPath := item.posterPath,
            backdropPath := item.backdropPath, description := item.description, rating := item.rating,
            releaseDate := item.releaseDate) == item
  {
    if !Truthy(item.id) then item
    else
      match EnrichSource(item, tmdb)
      case None => item
      case Some(t) =>
        item.(
          id := t.id,
          idType := Str("tmdb"),
          title := Or(Or(t.title, t.name), item.title),
          posterPath := Keep(t.posterPath, item.posterPath),
          backdropPath := Keep(t.backdropPath, item.backdropPath),
          description := Keep(t.overview, item.description),
          rating := Keep(t.voteAverage, item.rating),
          releaseDate := Keep(Or(t.releaseDate, t.firstAirDate), item.releaseDate))
  }

  /** Unlike the catalog widget's resolver, enrichment has no cross-kind fallback: an IMDb item
      whose own bucket is empty stays as it is, whatever the other bucket holds. */
  lemma EnrichHasNoCrossKindFallback(item: Item, tmdb: TmdbClient, reply: FindReply)
    requires Truthy(item.id) && item.sourceType == Str("imdb")
    requires tmdb.find("find/" + ToStr(item.id)) == Success(Some(reply))
    requires var own := if item.mediaType == Str("movie") then reply.movieResults else reply.tvResults;
      !(own.Some? && |own.value| > 0)
    ensures EnrichOne(item, tmdb) == item
  {
  }

  /** `enrichWithTmdb(items)`: batches of five, each batch through `Promise.all`, the results
      pushed in order. It is the item-wise enrichment of the whole list. */
  function EnrichWithTmdb(items: seq<Item>, tmdb: TmdbClient): (r: seq<Item>)
    ensures |r| == |items|
    ensures forall i :: 0 <= i < |items| ==> r[i] == EnrichOne(items[i], tmdb)
  {
    BatchMapIsMap(items, BatchSize, (it: Item) => EnrichOne(it, tmdb));
    BatchMap(items, BatchSize, (it: Item) => EnrichOne(it, tmdb))
  }

  // ---------------------------------------------------------------------------
  // loadMergedCatalog
  // ---------------------------------------------------------------------------

  /** `provider.split('|')`: the movie catalog id and the series catalog id, the latter printing
      as "undefined" when there is no `|`. */
  function ProviderIds(provider: string): (r: (string, string))
    ensures r.0 == SplitOn(provider, '|')[0]
    ensures '|' !in r.0
    ensures '|' in provider ==> r.1 == SplitOn(provider, '|')[1]
    ensures '|' !in provider ==> r.0 == provider && r.1 == "undefined"
  {
    var pieces := SplitOn(provider, '|');
    (pieces[0], if |pieces| > 1 then pieces[1] else ToStr(Undefined))
  }

  /** The movie and series catalogs of a merged load. */
  function MergedMovies(manifestUrl: string, provider: string,
                        fetch: string -> Result<Option<seq<StremioMeta>>, Error>, co: Coercions): seq<Item>
  {
    FetchCatalog(ReplaceFirst(manifestUrl, "/manifest.json", ""), "movie", ProviderIds(provider).0, fetch, co)
  }

  function MergedShows(manifestUrl: string, provider: string,
                       fetch: string -> Result<Option<seq<StremioMeta>>, Error>, co: Coercions): seq<Item>
  {
    FetchCatalog(ReplaceFirst(manifestUrl, "/manifest.json", ""), "series", ProviderIds(provider).1, fetch, co)
  }

  /** The combining step of `loadMergedCatalog`: alternate movie and show, then the rest of
      the longer list, each item enriched. */
  function MergeAndEnrich(movies: seq<Item>, shows: seq<Item>, tmdb: TmdbClient): (r: seq<Item>)
    ensures |r| == |movies| + |shows|
    ensures forall k :: 0 <= k < |movies| && k < |shows| ==>
      r[2 * k] == EnrichOne(movies[k], tmdb) && r[2 * k + 1] == EnrichOne(shows[k], tmdb)
    ensures forall k :: |shows| <= k < |movies| ==> r[|shows| + k] == EnrichOne(movies[k], tmdb)
    ensures forall k :: |movies| <= k < |shows| ==> r[|movies| + k] == EnrichOne(shows[k], tmdb)
  {
    var c := Interleave(movies, shows);
    InterleavePairs(movies, shows);
    InterleaveTailA(movies, shows);
    InterleaveTailB(movies, shows);
    var r := EnrichWithTmdb(c, tmdb);
    assert forall k :: 0 <= k < |movies| && k < |shows| ==>
      r[2 * k] == EnrichOne(movies[k], tmdb) && r[2 * k + 1] == EnrichOne(shows[k], tmdb) by {
      forall k | 0 <= k < |movies| && k < |shows|
        ensures r[2 * k] == EnrichOne(movies[k], tmdb) && r[2 * k + 1] == EnrichOne(shows[k], tmdb)
      {
        assert c[2 * k] == movies[k] && c[2 * k + 1] == shows[k];
      }
    }
    assert forall k :: |shows| <= k < |movies| ==> r[|shows| + k] == EnrichOne(movies[k], tmdb) by {
      forall k | |shows| <= k < |movies| ensures r[|shows| + k] == EnrichOne(movies[k], tmdb) {
        assert c[|shows| + k] == movies[k];
      }
    }
    assert forall k :: |movies| <= k < |shows| ==> r[|movies| + k] == EnrichOne(shows[k], tmdb) by {
      forall k | |movies| <= k < |shows| ensures r[|movies| + k] == EnrichOne(shows[k], tmdb) {
        assert c[|movies| + k] == shows[k];
      }
    }
    r
  }

  /** `loadMergedCatalog`. Both parameters must be truthy, and both must be strings for `split`
      and `replace` not to throw; then the movie catalog (first id of the provider) and the
      series catalog (second id) are merged and enriched. */
  function LoadMergedCatalog(manifestUrl: Val, provider: Val,
                             fetch: string -> Result<Option<seq<StremioMeta>>, Error>,
                             tmdb: TmdbClient, co: Coercions): (r: Result<seq<Item>, Error>)
    ensures !Truthy(manifestUrl) || !Truthy(provider) ==> r == Failure(Error("Manifest URL and Provider are required"))
    ensures Truthy(manifestUrl) && Truthy(provider) && !(manifestUrl.Str? && provider.Str?) ==> r == Failure(TypeError)
    ensures r.Success? <==> Truthy(manifestUrl) && Truthy(provider) && manifestUrl.Str? && provider.Str?
    ensures r.Success? ==>
      r.value == MergeAndEnrich(MergedMovies(manifestUrl.s, provider.s, fetch, co),
                                MergedShows(manifestUrl.s, provider.s, fetch, co), tmdb)
  {
    if !Truthy(manifestUrl) || !Truthy(provider) then Failure(Error("Manifest URL and Provider are required"))
    else if !provider.Str? || !manifestUrl.Str? then Failure(TypeError)
    else Success(MergeAndEnrich(MergedMovies(manifestUrl.s, provider.s, fetch, co),
                                MergedShows(manifestUrl.s, provider.s, fetch, co), tmdb))
  }

  /** The merged list, before enrichment, is a rearrangement of the two catalogs together. */
  lemma MergedCatalogKeepsEverything(manifestUrl: string, provider: string,
                                     fetch: string -> Result<Option<seq<StremioMeta>>, Error>, co: Coercions)
    ensures var movies := MergedMovies(manifestUrl, provider, fetch, co);
      var shows := MergedShows(manifestUrl, provider, fetch, co);
      multiset(Interleave(movies, shows)) == multiset(movies) + multiset(shows)
  {
    InterleaveMultiset(MergedMovies(manifestUrl, provider, fetch, co), MergedShows(manifestUrl, provider, fetch, co));
  }
}
