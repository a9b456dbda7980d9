/** The records shared across the widgets: the item shape handed to the host, the TMDB
    records and lookup client, Stremio metas and streams, MDBList and Trakt list entries,
    the static catalog descriptors, and the TMDB list formatter four widgets repeat. */
module Media {
  import opened Wrappers
  import opened Js
  import opened Seqs

  /** The item shape returned to the host. A field a widget does not set is `Undefined`. */
  datatype Item = Item(
    id: Val,
    idType: Val,        // the item's `type`: which namespace `id` belongs to ("tmdb", "imdb", "url")
    title: Val,
    originalTitle: Val,
    description: Val,
    releaseDate: Val,
    backdropPath: Val,
    posterPath: Val,
    rating: Val,
    mediaType: Val,
    genreTitle: Val,
    year: Val,
    popularity: Val,
    voteCount: Val,
    sourceType: Val)

  /** An object literal with none of the item keys set. */
  const Blank: Item := Item(Undefined, Undefined, Undefined, Undefined, Undefined, Undefined, Undefined,
                            Undefined, Undefined, Undefined, Undefined, Undefined, Undefined, Undefined, Undefined)

  /** A TMDB list entry, detail object or find result. */
  datatype TmdbRecord = TmdbRecord(
    id: Val,
    title: Val,
    name: Val,
    overview: Val,
    posterPath: Val,
    backdropPath: Val,
    voteAverage: Val,
    releaseDate: Val,
    firstAirDate: Val,
    mediaType: Val,
    genreIds: Option<seq<Val>>)   // None: `genre_ids` is null or absent

  /** The reply of TMDB's `find/{id}?external_source=imdb_id`: one bucket per media kind,
      `None` where the key is missing. */
  datatype FindReply = FindReply(movieResults: Option<seq<TmdbRecord>>, tvResults: Option<seq<TmdbRecord>>)

  /** The TMDB client as a pair of lookups keyed by request path. `Failure` is a thrown error,
      `Success(None)` a null reply. */
  datatype TmdbClient = TmdbClient(
    find: string -> Result<Option<FindReply>, Error>,
    detail: string -> Result<Option<TmdbRecord>, Error>)

  /** JavaScript's numeric conversions, which this model does not interpret:
      `number` is `Number(v)`, `parseInt` is `parseInt(v)`, `tenth` is `Number(v) / 10`. */
  datatype Coercions = Coercions(number: Val -> Val, parseInt: Val -> Val, tenth: Val -> Val)

  /** A Stremio addon catalog entry. */
  datatype StremioMeta = StremioMeta(
    id: Val,
    metaType: Val,      // `type`
    name: Val,
    description: Val,
    poster: Val,
    background: Val,
    imdbRating: Val,
    releaseInfo: Val,
    year: Val)

  /** A Stremio addon stream entry. */
  datatype StremioStream = StremioStream(name: Val, title: Val, url: Val, infoHash: Val)

  /** The stream shape returned to the host. */
  datatype StreamLink = StreamLink(name: Val, description: Val, url: Val)

  /** An MDBList list entry. */
  datatype MdbItem = MdbItem(
    tmdbId: Val,
    title: Val,
    itemType: Val,      // `type`
    mediatype: Val,
    year: Val,
    score: Val,
    scoreAverage: Val,
    releaseDate: Val)

  datatype TraktIds = TraktIds(tmdb: Val, imdb: Val, trakt: Val)

  /** A Trakt movie or show object. */
  datatype TraktMedia = TraktMedia(
    title: Val,
    year: Val,
    ids: Option<TraktIds>,          // None: `ids` is null or absent
    overview: Val,
    released: Val,
    firstAired: Val,
    rating: Val,
    votes: Val,
    genres: Option<seq<Val>>)      // None: `genres` is not an array

  /** A Trakt list entry: trending lists wrap the media object in `movie` or `show`, popular
      lists return the media object itself (`own`). */
  datatype TraktEntry = TraktEntry(watchers: Val, movie: Option<TraktMedia>, show: Option<TraktMedia>, own: TraktMedia)

  /** The list-valued part of an upstream reply: missing (the response or the field is falsy),
      present but not an array, or an array. */
  datatype Body<T> = Missing | NotArray | Array(items: seq<T>)

  /** A static catalog descriptor. `kind` is the descriptor's `type` ("movie" or "series"),
      `source` is "tmdb", "stremio" or "mdblist", `path` the TMDB path of a TMDB-backed catalog. */
  datatype Catalog = Catalog(id: string, name: string, kind: string, source: string, path: string)

  /** `catalogs.find(c => c.id === id)`: the first descriptor with that id, if any. */
  function FindCatalog(catalogs: seq<Catalog>, id: string): (r: Option<Catalog>)
    ensures r.Some? ==> exists i :: 0 <= i < |catalogs| && catalogs[i] == r.value && r.value.id == id
                                    && forall j :: 0 <= j < i ==> catalogs[j].id != id
    ensures r.None? <==> forall i :: 0 <= i < |catalogs| ==> catalogs[i].id != id
    decreases |catalogs|
  {
    if catalogs == [] then None
    else if catalogs[0].id == id then Some(catalogs[0])
    else
      var r := FindCatalog(catalogs[1..], id);
      assert forall i :: 1 <= i < |catalogs| ==> catalogs[i] == catalogs[1..][i - 1];
      r
  }

  /** One TMDB list entry in the host's shape (the `formatTmdbItems` / TMDB branch of
      `formatItems` body shared by several widgets); `genreTitle` is what the widget puts there. */
  function FormatTmdbItem(rec: TmdbRecord, reqType: Val, genreTitle: Val): Item
  {
    Blank.(
      id := rec.id,
      idType := Str("tmdb"),
      title := Or(rec.title, rec.name),
      description := rec.overview,
      releaseDate := Or(rec.releaseDate, rec.firstAirDate),
      backdropPath := rec.backdropPath,
      posterPath := rec.posterPath,
      rating := rec.voteAverage,
      mediaType := Or(rec.mediaType, reqType),
      genreTitle := genreTitle)
  }

  /** `formatTmdbItems(listItems, reqType)`: one item per entry, in order, each typed "tmdb"
      under the entry's own id; the title is the entry's title, or its name when the title is
      empty; the release date is `release_date`, or `first_air_date` when that is empty; the
      media type is the entry's own, or the requested one when it has none. The keys the
      literal does not set stay undefined. */
  function FormatTmdbItems(items: seq<TmdbRecord>, reqType: Val, genre: TmdbRecord -> Val): (r: seq<Item>)
    ensures |r| == |items|
    ensures forall i :: 0 <= i < |items| ==>
      && r[i].id == items[i].id
      && r[i].idType == Str("tmdb")
      && (Truthy(items[i].title) ==> r[i].title == items[i].title)
      && (!Truthy(items[i].title) ==> r[i].title == items[i].name)
      && (Truthy(items[i].mediaType) ==> r[i].mediaType == items[i].mediaType)
      && (!Truthy(items[i].mediaType) ==> r[i].mediaType == reqType)
      && r[i].description == items[i].overview
      && r[i].releaseDate == Or(items[i].releaseDate, items[i].firstAirDate)
      && r[i].posterPath == items[i].posterPath
      && r[i].backdropPath == items[i].backdropPath
      && r[i].rating == items[i].voteAverage
      && r[i].genreTitle == genre(items[i])
      && r[i].originalTitle == Undefined && r[i].year == Undefined && r[i].popularity == Undefined
      && r[i].voteCount == Undefined && r[i].sourceType == Undefined
  {
    Map(items, rec => FormatTmdbItem(rec, reqType, genre(rec)))
  }

  /** The `genreTitle` of the widgets that leave it empty. */
  function NoGenre(rec: TmdbRecord): Val
  {
    Str("")
  }
}
