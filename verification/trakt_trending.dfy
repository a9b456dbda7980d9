/** widgets/trakt_trending.js: Trakt's trending movies or shows, each valid entry turned into
    an item whose id is namespaced by TMDB, IMDb or Trakt in that order of preference. */
module TraktTrending {
  import opened Wrappers
  import opened JsString
  import opened Js
  import opened Seqs
  import opened Media

  /** `buildTraktHeaders(clientId)`. */
  function BuildTraktHeaders(clientId: string): (h: map<string, string>)
    ensures h.Keys == {"Content-Type", "trakt-api-version", "trakt-api-key"}
    ensures h["trakt-api-key"] == clientId
    ensures h["trakt-api-version"] == "2" && h["Content-Type"] == "application/json"
  {
    map["Content-Type" := "application/json", "trakt-api-version" := "2", "trakt-api-key" := clientId]
  }

  /** The headers of the trending request: the Trakt headers plus a user agent. */
  function RequestHeaders(clientId: string): map<string, string>
  {
    BuildTraktHeaders(clientId)["User-Agent" := "ForwardWidget/1.0"]
  }

  /** The media object a trending entry carries for the list type: `movie` for "movies",
      `show` for anything else. */
  function EntryMedia(entry: TraktEntry, isMovie: bool): Option<TraktMedia>
  {
    if isMovie then entry.movie else entry.show
  }

  /** The validity filter: the media object is present, has a truthy title and has `ids`. */
  predicate IsValidEntry(entry: TraktEntry, isMovie: bool) {
    && EntryMedia(entry, isMovie).Some?
    && Truthy(EntryMedia(entry, isMovie).value.title)
    && EntryMedia(entry, isMovie).value.ids.Some?
  }

  /** The fields both trending widgets build the same way; `id` and `type` are left unset. */
  function TraktFields(entry: TraktEntry, media: TraktMedia, isMovie: bool, co: Coercions): (r: Item)
    ensures r.id == Undefined && r.idType == Undefined
    ensures r.title == Str(SafeStr(media.title)) && r.originalTitle == r.title
    ensures r.description == Str(SafeStr(media.overview))
    ensures r.mediaType == Str(if isMovie then "movie" else "tv")
    ensures r.backdropPath == Str("") && r.posterPath == Str("")
    ensures r.releaseDate == Str(ToISODate(Or(media.released, media.firstAired)))
    ensures Truthy(media.rating) ==> r.rating == co.number(media.rating)
    ensures !Truthy(media.rating) ==> r.rating == Num(0)
    ensures media.genres.Some? ==> r.genreTitle == Str(JoinVals(media.genres.value, ", "))
    ensures media.genres.None? ==> r.genreTitle == Str("")
    ensures Truthy(media.year) ==> r.year == Str(ToStr(media.year))
    ensures !Truthy(media.year) ==> r.year == Str("")
    ensures r.popularity == Or(entry.watchers, Num(0)) && r.voteCount == Or(media.votes, Num(0))
  {
    var title := Str(SafeStr(media.title));
    Blank.(
      title := title,
      originalTitle := title,
      description := Str(SafeStr(media.overview)),
      releaseDate := Str(ToISODate(Or(media.released, media.firstAired))),
      backdropPath := Str(""),
      posterPath := Str(""),
      rating := if Truthy(media.rating) then co.number(media.rating) else Num(0),
      mediaType := Str(if isMovie then "movie" else "tv"),
      genreTitle := Str(match media.genres case Some(g) => JoinVals(g, ", ") case None => ""),
      year := Str(if Truthy(media.year) then ToStr(media.year) else ""),
      popularity := Or(entry.watchers, Num(0)),
      voteCount := Or(media.votes, Num(0)))
  }

  /** `String(ids.trakt) || Math.random().toString(36)`: the random part is `fallbackId`. */
  function TraktIdOr(ids: TraktIds, fallbackId: string): string
  {
    if ToStr(ids.trakt) != "" then ToStr(ids.trakt) else fallbackId
  }

  /** The id rule of this widget: a TMDB id gives "movie.<id>" or "tv.<id>" under type "tmdb";
      failing that an IMDb id is used as it is under type "imdb"; failing that the Trakt id
      as a string, under type "url". */
  function TrendingId(ids: TraktIds, isMovie: bool, fallbackId: string): (r: (Val, Val))
    ensures Truthy(ids.tmdb) ==> r == (Str((if isMovie then "movie." else "tv.") + ToStr(ids.tmdb)), Str("tmdb"))
    ensures !Truthy(ids.tmdb) && Truthy(ids.imdb) ==> r == (ids.imdb, Str("imdb"))
    ensures !Truthy(ids.tmdb) && !Truthy(ids.imdb) ==> r == (Str(TraktIdOr(ids, fallbackId)), Str("url"))
  {
    if Truthy(ids.tmdb) then (Str((if isMovie then "movie." else "tv.") + ToStr(ids.tmdb)), Str("tmdb"))
    else if Truthy(ids.imdb) then (ids.imdb, Str("imdb"))
    else (Str(TraktIdOr(ids, fallbackId)), Str("url"))
  }

  /** One valid entry. */
  function FormatEntry(entry: TraktEntry, isMovie: bool, co: Coercions, fallbackId: string): Item
    requires IsValidEntry(entry, isMovie)
  {
    var media := EntryMedia(entry, isMovie).value;
    var (id, idType) := TrendingId(media.ids.value, isMovie, fallbackId);
    TraktFields(entry, media, isMovie, co).(id := id, idType := idType)
  }

  function IsValidFor(isMovie: bool): TraktEntry -> bool
  {
    e => IsValidEntry(e, isMovie)
  }

  /** `formatTraktData(list, type)`: the valid entries, in order, each formatted; the `i`-th
      item draws its random fallback id from `fallback(i)`. */
  function FormatTraktData(list: seq<TraktEntry>, kind: string, co: Coercions, fallback: nat -> string): (r: seq<Item>)
    ensures var valid := Filter(list, IsValidFor(kind == "movies"));
      && |r| == |valid|
      && forall i :: 0 <= i < |r| ==> IsValidEntry(valid[i], kind == "movies") && r[i] == FormatEntry(valid[i], kind == "movies", co, fallback(i))
  {
    var isMovie := kind == "movies";
    var valid := Filter(list, IsValidFor(isMovie));
    assert forall i :: 0 <= i < |valid| ==> IsValidEntry(valid[i], isMovie) by {
      forall i | 0 <= i < |valid| ensures IsValidEntry(valid[i], isMovie) {
        assert valid[i] in valid;
      }
    }
    seq(|valid|, i requires 0 <= i < |valid| => FormatEntry(valid[i], isMovie, co, fallback(i)))
  }

  /** Every formatted item is one of the list's valid entries, typed by the namespace of its id,
      and every valid entry is formatted: an entry is dropped exactly when it is not valid. */
  lemma FormatTraktDataSpec(list: seq<TraktEntry>, kind: string, co: Coercions, fallback: nat -> string)
    ensures var r := FormatTraktData(list, kind, co, fallback);
      && |r| <= |list|
      && (forall i :: 0 <= i < |r| ==>
            && (r[i].idType == Str("tmdb") || r[i].idType == Str("imdb") || r[i].idType == Str("url"))
            && r[i].mediaType == Str(if kind == "movies" then "movie" else "tv"))
      && (forall e :: e in list && IsValidEntry(e, kind == "movies") ==> exists i :: 0 <= i < |r| && r[i] == FormatEntry(e, kind == "movies", co, fallback(i)))
  {
    var valid := Filter(list, IsValidFor(kind == "movies"));
    var r := FormatTraktData(list, kind, co, fallback);
    forall e | e in list && IsValidEntry(e, kind == "movies")
      ensures exists i :: 0 <= i < |r| && r[i] == FormatEntry(e, kind == "movies", co, fallback(i))
    {
      assert IsValidFor(kind == "movies")(e);
      var i :| 0 <= i < |valid| && valid[i] == e;
      assert r[i] == FormatEntry(e, kind == "movies", co, fallback(i));
    }
  }

  /** A TMDB-typed id is "movie." or "tv." followed by the TMDB id: stripping the prefix gives
      back `String(ids.tmdb)`, and the prefix tells the media type. */
  lemma TmdbIdRoundTrip(ids: TraktIds, isMovie: bool, fallbackId: string)
    requires Truthy(ids.tmdb)
    ensures var id := TrendingId(ids, isMovie, fallbackId).0;
      var prefix := if isMovie then "movie." else "tv.";
      && id.Str? && StartsWith(id.s, prefix) && id.s[|prefix|..] == ToStr(ids.tmdb)
      && (StartsWith(id.s, "movie.") <==> isMovie)
  {
    var id := TrendingId(ids, isMovie, fallbackId).0;
    if !isMovie {
      assert id.s[0] == 't';
    }
  }

  /** `String(undefined)` is "undefined", so the random fallback is reached only for an empty
      Trakt id: an entry without any id is given the literal id "undefined". */
  lemma MissingTraktIdPrintsUndefined(ids: TraktIds, isMovie: bool, fallbackId: string)
    requires !Truthy(ids.tmdb) && !Truthy(ids.imdb) && ids.trakt == Undefined
    ensures TrendingId(ids, isMovie, fallbackId) == (Str("undefined"), Str("url"))
  {
  }

  function TrendingUrl(kind: string): string
  {
    "https://api.trakt.tv/" + kind + "/trending?extended=full&limit=20"
  }

  /** `fetchTraktTrending(type, params)`. The client id is trimmed; a blank one throws. The
      request carries the trimmed id in `trakt-api-key`; a thrown request is rethrown; a reply
      that is not an array gives the empty list. */
  function FetchTraktTrending(kind: string, clientId: Val,
                              fetch: (string, map<string, string>) -> Result<Body<TraktEntry>, Error>,
                              co: Coercions, fallback: nat -> string): (r: Result<seq<Item>, Error>)
    ensures Trim(SafeStr(clientId)) == "" ==>
      r == Failure(Error("Trakt Client ID is required. Please enter it in the widget settings."))
    ensures Trim(SafeStr(clientId)) != "" ==>
      var reply := fetch(TrendingUrl(kind), RequestHeaders(Trim(SafeStr(clientId))));
      && (reply.Failure? ==> r == Failure(reply.error))
      && (reply.Success? && !reply.value.Array? ==> r == Success([]))
      && (reply.Success? && reply.value.Array? ==> r == Success(FormatTraktData(reply.value.items, kind, co, fallback)))
  {
    var key := Trim(SafeStr(clientId));
    if key == "" then Failure(Error("Trakt Client ID is required. Please enter it in the widget settings."))
    else
      match fetch(TrendingUrl(kind), RequestHeaders(key))
      case Failure(e) => Failure(e)
      case Success(Array(list)) => Success(FormatTraktData(list, kind, co, fallback))
      case Success(_) => Success([])
  }

  /** The request carries the client id as the API key, next to the user agent. */
  lemma RequestCarriesKey(key: string)
    ensures RequestHeaders(key).Keys == {"Content-Type", "trakt-api-version", "trakt-api-key", "User-Agent"}
    ensures RequestHeaders(key)["trakt-api-key"] == key
    ensures RequestHeaders(key)["User-Agent"] == "ForwardWidget/1.0"
  {
  }
}
