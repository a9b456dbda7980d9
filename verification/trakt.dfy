/** widgets/trakt.js: paged Trakt trending and popular lists, each entry reduced to its TMDB id
    and a few raw fields; entries without a TMDB id are dropped. */
module Trakt {
  import opened Wrappers
  import opened JsString
  import opened Js
  import opened Seqs
  import opened Media

  const TraktApiUrl: string := "https://api.trakt.tv"

  /** The widget's four modules. */
  datatype TraktList = TrendingMovies | PopularMovies | TrendingShows | PopularShows

  function Endpoint(l: TraktList): string
  {
    match l
    case TrendingMovies => "/movies/trending"
    case PopularMovies => "/movies/popular"
    case TrendingShows => "/shows/trending"
    case PopularShows => "/shows/popular"
  }

  /** The fallback media type each module passes to the mapper. */
  function ListKind(l: TraktList): string
  {
    if l == TrendingMovies || l == PopularMovies then "movie" else "tv"
  }

  /** Each module asks its own endpoint, and its fallback type follows the endpoint. */
  lemma EndpointsAreDistinct(l1: TraktList, l2: TraktList)
    ensures Endpoint(l1) == Endpoint(l2) <==> l1 == l2
    ensures ListKind(l1) == "movie" <==> StartsWith(Endpoint(l1), "/movies/")
  {
    var e1 := Endpoint(l1);
    var e2 := Endpoint(l2);
    if l1 != l2 {
      if ListKind(l1) != ListKind(l2) {
        assert e1[1] != e2[1];
      } else {
        assert e1[8] != e2[8];
      }
    }
    if ListKind(l1) != "movie" {
      assert e1[1] == 's';
    }
  }

  function TraktUrl(endpoint: string, page: Val): string
  {
    TraktApiUrl + endpoint + "?page=" + ToStr(Or(page, Num(1))) + "&limit=20&extended=full"
  }

  function TraktHeaders(clientId: Val): map<string, string>
  {
    map["Content-Type" := "application/json", "trakt-api-version" := "2", "trakt-api-key" := ToStr(clientId)]
  }

  /** `fetchTrakt(endpoint, params)`. A falsy client id throws; the page defaults to 1; a
      missing reply or reply body throws "Failed to fetch data from Trakt."; a thrown request
      propagates. `Success(None)` is a body that is present but not an array. */
  function FetchTrakt(endpoint: string, page: Val, clientId: Val,
                      fetch: (string, map<string, string>) -> Result<Body<TraktEntry>, Error>): (r: Result<Option<seq<TraktEntry>>, Error>)
    ensures !Truthy(clientId) ==> r == Failure(Error("Please configure your Trakt Client ID in the widget settings."))
    ensures Truthy(clientId) ==>
      var reply := fetch(TraktUrl(endpoint, page), TraktHeaders(clientId));
      && (reply.Failure? ==> r == Failure(reply.error))
      && (reply == Success(Missing) ==> r == Failure(Error("Failed to fetch data from Trakt.")))
      && (reply == Success(NotArray) ==> r == Success(None))
      && (reply.Success? && reply.value.Array? ==> r == Success(Some(reply.value.items)))
  {
    if !Truthy(clientId) then Failure(Error("Please configure your Trakt Client ID in the widget settings."))
    else
      match fetch(TraktUrl(endpoint, page), TraktHeaders(clientId))
      case Failure(e) => Failure(e)
      case Success(Missing) => Failure(Error("Failed to fetch data from Trakt."))
      case Success(NotArray) => Success(None)
      case Success(Array(items)) => Success(Some(items))
  }

  /** `item.movie || item.show || item`. */
  function EntryData(entry: TraktEntry): TraktMedia
  {
    if entry.movie.Some? then entry.movie.value
    else if entry.show.Some? then entry.show.value
    else entry.own
  }

  /** `item.movie ? "movie" : (item.show ? "tv" : type)`. */
  function EntryKind(entry: TraktEntry, kind: string): string
  {
    if entry.movie.Some? then "movie" else if entry.show.Some? then "tv" else kind
  }

  /** One entry: reading `ids.tmdb` throws when `ids` is missing; a falsy TMDB id drops the
      entry; otherwise the item's id is the TMDB id itself (the object literal's second `id`
      key overrides the prefixed first one). */
  function EntryToItem(entry: TraktEntry, kind: string): (r: Result<Option<Item>, Error>)
    ensures r.Failure? <==> EntryData(entry).ids.None?
    ensures r.Failure? ==> r.error == TypeError
    ensures r.Success? ==> (r.value.None? <==> !Truthy(EntryData(entry).ids.value.tmdb))
    ensures r.Success? && r.value.Some? ==>
      var it := r.value.value;
      var data := EntryData(entry);
      && it.id == data.ids.value.tmdb
      && it.idType == Str("tmdb")
      && it.mediaType == Str(EntryKind(entry, kind))
      && it.title == data.title && it.description == data.overview && it.year == data.year
      && it.releaseDate == Or(data.released, data.firstAired)
      && it.rating == data.rating
  {
    var data := EntryData(entry);
    match data.ids
    case None => Failure(TypeError)
    case Some(ids) =>
      if !Truthy(ids.tmdb) then Success(None)
      else
        Success(Some(Blank.(
          id := ids.tmdb,
          idType := Str("tmdb"),
          title := data.title,
          description := data.overview,
          year := data.year,
          releaseDate := Or(data.released, data.firstAired),
          rating := data.rating,
          mediaType := Str(EntryKind(entry, kind)))))
  }

  function Identity(o: Option<Item>): Option<Item> { o }

  /** The item an entry contributes when nothing throws: none for a falsy TMDB id. */
  function KeptItem(entry: TraktEntry, kind: string): Option<Item>
  {
    match EntryToItem(entry, kind)
    case Success(o) => o
    case Failure(_) => None
  }

  /** `mapTraktItemsToForward(items, type)`. It throws exactly when some entry lacks `ids`;
      otherwise it keeps, in order, one item per entry with a truthy TMDB id, and only those. */
  function MapTraktItemsToForward(items: seq<TraktEntry>, kind: string): (r: Result<seq<Item>, Error>)
    ensures r.Failure? <==> exists i :: 0 <= i < |items| && EntryData(items[i]).ids.None?
    ensures r.Failure? ==> r.error == TypeError
    ensures r.Success? ==> |r.value| <= |items|
    ensures r.Success? ==> forall it :: it in r.value ==>
      exists e :: e in items && EntryToItem(e, kind) == Success(Some(it))
    ensures r.Success? ==> forall e :: e in items && Truthy(EntryData(e).ids.value.tmdb) ==>
      EntryToItem(e, kind).value.value in r.value
    ensures r.Success? ==> r.value == FilterMap(items, e => KeptItem(e, kind))
  {
    var all :- MapAll(items, (e: TraktEntry) => EntryToItem(e, kind));
    var kept := FilterMap(all, Identity);
    FilterMapPointwise(all, Identity, items, e => KeptItem(e, kind));
    KeptItemsMembership(items, kind);
    Success(kept)
  }

  /** When no entry lacks `ids`, the kept items are exactly the items of entries with a truthy
      TMDB id. */
  lemma KeptItemsMembership(items: seq<TraktEntry>, kind: string)
    requires forall i :: 0 <= i < |items| ==> EntryData(items[i]).ids.Some?
    ensures var kept := FilterMap(items, e => KeptItem(e, kind));
      && (forall it :: it in kept ==> exists e :: e in items && EntryToItem(e, kind) == Success(Some(it)))
      && (forall e :: e in items && Truthy(EntryData(e).ids.value.tmdb) ==> EntryToItem(e, kind).value.value in kept)
  {
  }

  /** One module: fetch the endpoint's page and map it with the module's fallback type. A body
      that is not an array makes the mapper throw. */
  function LoadTraktList(l: TraktList, page: Val, clientId: Val,
                         fetch: (string, map<string, string>) -> Result<Body<TraktEntry>, Error>): (r: Result<seq<Item>, Error>)
    ensures FetchTrakt(Endpoint(l), page, clientId, fetch).Failure? ==> r == Failure(FetchTrakt(Endpoint(l), page, clientId, fetch).error)
    ensures FetchTrakt(Endpoint(l), page, clientId, fetch) == Success(None) ==> r == Failure(TypeError)
    ensures FetchTrakt(Endpoint(l), page, clientId, fetch).Success? && FetchTrakt(Endpoint(l), page, clientId, fetch).value.Some? ==>
      r == MapTraktItemsToForward(FetchTrakt(Endpoint(l), page, clientId, fetch).value.value, ListKind(l))
  {
    var data :- FetchTrakt(Endpoint(l), page, clientId, fetch);
    match data
    case None => Failure(TypeError)
    case Some(items) => MapTraktItemsToForward(items, ListKind(l))
  }

  /** A wrapped entry's own type wins over the module's: a `movie` entry is a movie even in a
      shows list; only an entry of a popular list (neither wrapper) takes the module's type. */
  lemma WrapperDecidesKind(entry: TraktEntry, kind: string)
    ensures entry.movie.Some? ==> EntryKind(entry, kind) == "movie"
    ensures entry.movie.None? && entry.show.Some? ==> EntryKind(entry, kind) == "tv"
    ensures entry.movie.None? && entry.show.None? ==> EntryKind(entry, kind) == kind && EntryData(entry) == entry.own
  {
  }
}
