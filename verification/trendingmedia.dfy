/** widgets/trendingmedia.js: the same Trakt trending formatter with a different id rule (the
    bare TMDB id, always typed "tmdb") and with failures swallowed instead of rethrown. */
module TrendingMedia {
  import opened Wrappers
  import opened JsString
  import opened Js
  import opened Seqs
  import opened Media
  import TraktTrending

  /** The id rule of this widget: `String(ids.tmdb)` when the TMDB id is truthy, otherwise the
      Trakt id as a string (or the random fallback); the type is "tmdb" either way. */
  function MediaId(ids: TraktIds, fallbackId: string): (r: Val)
    ensures r.Str?
    ensures Truthy(ids.tmdb) ==> r == Str(ToStr(ids.tmdb))
    ensures !Truthy(ids.tmdb) ==> r == Str(TraktTrending.TraktIdOr(ids, fallbackId))
  {
    if Truthy(ids.tmdb) then Str(ToStr(ids.tmdb)) else Str(TraktTrending.TraktIdOr(ids, fallbackId))
  }

  function FormatEntry(entry: TraktEntry, isMovie: bool, co: Coercions, fallbackId: string): Item
    requires TraktTrending.IsValidEntry(entry, isMovie)
  {
    var media := TraktTrending.EntryMedia(entry, isMovie).value;
    TraktTrending.TraktFields(entry, media, isMovie, co).(id := MediaId(media.ids.value, fallbackId), idType := Str("tmdb"))
  }

  /** `formatTraktData(list, type)` of this widget. */
  function FormatTraktData(list: seq<TraktEntry>, kind: string, co: Coercions, fallback: nat -> string): (r: seq<Item>)
    ensures var valid := Filter(list, TraktTrending.IsValidFor(kind == "movies"));
      && |r| == |valid|
      && forall i :: 0 <= i < |r| ==> TraktTrending.IsValidEntry(valid[i], kind == "movies") && r[i] == FormatEntry(valid[i], kind == "movies", co, fallback(i))
  {
    var isMovie := kind == "movies";
    var valid := Filter(list, TraktTrending.IsValidFor(isMovie));
    assert forall i :: 0 <= i < |valid| ==> TraktTrending.IsValidEntry(valid[i], isMovie) by {
      forall i | 0 <= i < |valid| ensures TraktTrending.IsValidEntry(valid[i], isMovie) {
        assert valid[i] in valid;
      }
    }
    seq(|valid|, i requires 0 <= i < |valid| => FormatEntry(valid[i], isMovie, co, fallback(i)))
  }

  /** The two trending widgets keep the same entries in the same order and agree on every
      field but `id` and `type`; this one always says "tmdb", and where both use a TMDB id this
      one's is the other's without its "movie." / "tv." prefix. */
  lemma AgreesWithTraktTrending(list: seq<TraktEntry>, kind: string, co: Coercions, fallback: nat -> string)
    ensures var mine := FormatTraktData(list, kind, co, fallback);
      var theirs := TraktTrending.FormatTraktData(list, kind, co, fallback);
      && |mine| == |theirs|
      && forall i :: 0 <= i < |mine| ==>
           && mine[i].(id := theirs[i].id, idType := theirs[i].idType) == theirs[i]
           && mine[i].idType == Str("tmdb")
           && (theirs[i].idType == Str("tmdb") ==>
                 theirs[i].id == Str((if kind == "movies" then "movie." else "tv.") + mine[i].id.s))
  {
  }

  function TrendingUrl(kind: string): string
  {
    "https://api.trakt.tv/" + kind + "/trending?extended=full&limit=20"
  }

  /** `fetchTraktTrending(type, params)` of this widget: a blank trimmed client id throws,
      every later failure gives the empty list. */
  function FetchTraktTrending(kind: string, clientId: Val,
                              fetch: (string, map<string, string>) -> Result<Body<TraktEntry>, Error>,
                              co: Coercions, fallback: nat -> string): (r: Result<seq<Item>, Error>)
    ensures r.Failure? <==> Trim(SafeStr(clientId)) == ""
    ensures r.Failure? ==> r.error == Error("Trakt Client ID is required.")
    ensures r.Success? ==>
      var reply := fetch(TrendingUrl(kind), TraktTrending.RequestHeaders(Trim(SafeStr(clientId))));
      && (!(reply.Success? && reply.value.Array?) ==> r.value == [])
      && (reply.Success? && reply.value.Array? ==> r.value == FormatTraktData(reply.value.items, kind, co, fallback))
  {
    var key := Trim(SafeStr(clientId));
    if key == "" then Failure(Error("Trakt Client ID is required."))
    else
      match fetch(TrendingUrl(kind), TraktTrending.RequestHeaders(key))
      case Success(Array(list)) => Success(FormatTraktData(list, kind, co, fallback))
      case _ => Success([])
  }
}
