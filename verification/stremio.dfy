/** widgets/stremio.js: streams for one title from a Stremio addon, asked for by IMDb id or,
    failing that, by TMDB id; a stream without a URL but with an info hash becomes a magnet
    link. */
module StremioStreams {
  import opened Wrappers
  import opened JsString
  import opened Js
  import opened Seqs
  import opened Media

  const MissingAddonMessage: string := "Please configure the Stremio Addon URL in settings."

  const MagnetPrefix: string := "magnet:?xt=urn:btih:"

  /** "series" for a "tv" request, "movie" for anything else. */
  function StremioType(kind: Val): string
  {
    if kind == Str("tv") then "series" else "movie"
  }

  /** The title's Stremio id before the episode suffix: the IMDb id, or "tmdb:<id>" when there
      is no IMDb id but a TMDB id; none when there is neither. */
  function TitleId(imdbId: Val, tmdbId: Val): (r: Option<string>)
    ensures r.None? <==> !Truthy(imdbId) && !Truthy(tmdbId)
    ensures Truthy(imdbId) ==> r == Some(ToStr(imdbId))
    ensures !Truthy(imdbId) && Truthy(tmdbId) ==> r.Some? && StartsWith(r.value, "tmdb:") && r.value[5..] == ToStr(tmdbId)
  {
    if Truthy(imdbId) then Some(ToStr(imdbId))
    else if Truthy(tmdbId) then Some("tmdb:" + ToStr(tmdbId))
    else None
  }

  /** A series request names the episode: season and episode default to 1. */
  function StremioId(titleId: string, kind: Val, season: Val, episode: Val): string
  {
    if StremioType(kind) == "series" then titleId + ":" + ToStr(Or(season, Num(1))) + ":" + ToStr(Or(episode, Num(1)))
    else titleId
  }

  /** When neither the title id nor the episode numbers hold a colon, the series id splits
      back into its three parts. */
  lemma SeriesIdSplits(titleId: string, season: Val, episode: Val)
    requires ':' !in titleId && ':' !in ToStr(Or(season, Num(1))) && ':' !in ToStr(Or(episode, Num(1)))
    ensures SplitOn(StremioId(titleId, Str("tv"), season, episode), ':') ==
      [titleId, ToStr(Or(season, Num(1))), ToStr(Or(episode, Num(1)))]
  {
    var parts := [titleId, ToStr(Or(season, Num(1))), ToStr(Or(episode, Num(1)))];
    JoinThree(parts[0], parts[1], parts[2], ":");
    assert Join(parts, [':']) == StremioId(titleId, Str("tv"), season, episode);
    SplitJoin(parts, ':');
  }

  /** `addonUrl.replace(/\/manifest\.json$/, '').replace(/\/$/, '')`: one trailing
      "/manifest.json", then one trailing slash, removed. */
  function BaseUrl(addonUrl: string): string
  {
    DropSuffix(DropSuffix(addonUrl, "/manifest.json"), "/")
  }

  /** The manifest URL and the base URL, with or without one trailing slash, name the same
      addon. */
  lemma BaseUrlAgrees(base: string)
    requires !EndsWith(base, "/") && !EndsWith(base, "/manifest.json")
    ensures BaseUrl(base) == base
    ensures BaseUrl(base + "/") == base
    ensures BaseUrl(base + "/manifest.json") == base
  {
    assert !EndsWith(base + "/", "/manifest.json");
    assert (base + "/")[..|base|] == base;
    assert (base + "/manifest.json")[..|base|] == base;
  }

  function StreamUrl(base: string, kind: Val, id: string): string
  {
    base + "/stream/" + StremioType(kind) + "/" + id + ".json"
  }

  /** One stream in the host's shape. */
  function ToLink(s: StremioStream): (r: StreamLink)
    ensures Truthy(s.url) ==> r.url == s.url
    ensures !Truthy(s.url) && Truthy(s.infoHash) ==> r.url == Str(MagnetPrefix + ToStr(s.infoHash))
    ensures !Truthy(s.url) && !Truthy(s.infoHash) ==> r.url == s.url
    ensures Truthy(r.name) && (Truthy(s.name) ==> r.name == s.name)
    ensures !Truthy(s.name) ==> r.name == Str("Stream")
    ensures Truthy(s.title) ==> r.description == s.title
    ensures !Truthy(s.title) ==> r.description == Str("")
  {
    var url := if !Truthy(s.url) && Truthy(s.infoHash) then Str(MagnetPrefix + ToStr(s.infoHash)) else s.url;
    StreamLink(Or(s.name, Str("Stream")), Or(s.title, Str("")), url)
  }

  /** A magnet link carries the info hash: cutting the prefix gives it back. */
  lemma MagnetCarriesHash(s: StremioStream)
    requires !Truthy(s.url) && Truthy(s.infoHash)
    ensures ToLink(s).url.Str? && StartsWith(ToLink(s).url.s, MagnetPrefix)
    ensures ToLink(s).url.s[|MagnetPrefix|..] == ToStr(s.infoHash)
  {
  }

  /** `loadResource(params)`. A falsy addon URL throws; without any id the result is empty;
      an addon URL that is not a string makes `replace` throw. Everything from the request on
      is caught: a failed request, or a reply without a `streams` array, gives the empty list.
      Every stream is kept, in order. */
  function LoadResource(addonUrl: Val, imdbId: Val, tmdbId: Val, kind: Val, season: Val, episode: Val,
                        get: string -> Result<Body<StremioStream>, Error>): (r: Result<seq<StreamLink>, Error>)
    ensures !Truthy(addonUrl) ==> r == Failure(Error(MissingAddonMessage))
    ensures Truthy(addonUrl) && TitleId(imdbId, tmdbId).None? ==> r == Success([])
    ensures r.Failure? <==> !Truthy(addonUrl) || (TitleId(imdbId, tmdbId).Some? && !addonUrl.Str?)
    ensures r.Failure? && Truthy(addonUrl) ==> r.error == TypeError
    ensures Truthy(addonUrl) && addonUrl.Str? && TitleId(imdbId, tmdbId).Some? ==>
      var reply := get(StreamUrl(BaseUrl(addonUrl.s), kind, StremioId(TitleId(imdbId, tmdbId).value, kind, season, episode)));
      && (!(reply.Success? && reply.value.Array?) ==> r == Success([]))
      && (reply.Success? && reply.value.Array? ==>
            && r.Success? && |r.value| == |reply.value.items|
            && forall i :: 0 <= i < |r.value| ==> r.value[i] == ToLink(reply.value.items[i]))
  {
    if !Truthy(addonUrl) then Failure(Error(MissingAddonMessage))
    else
      match TitleId(imdbId, tmdbId)
      case None => Success([])
      case Some(titleId) =>
        if !addonUrl.Str? then Failure(TypeError)
        else
          var url := StreamUrl(BaseUrl(addonUrl.s), kind, StremioId(titleId, kind, season, episode));
          match get(url)
          case Success(Array(streams)) => Success(Map(streams, ToLink))
          case _ => Success([])
  }
}
