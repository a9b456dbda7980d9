/** widgets/aiostream.js: streams for one title from a user-configured Stremio addon
    (AIOStream, Torrentio and the like), keeping only the links the host can play over HTTP. */
module AioStream {
  import opened Wrappers
  import opened JsString
  import opened Js
  import opened Seqs
  import opened Media

  const MissingAddonMessage: string := "Addon URL is missing. Please configure it in the widget settings."

  /** The Stremio type and id of the request: a "tv" request asks for the series episode
      `<imdbId>:<season>:<episode>`, any other type is passed on with the bare IMDb id. */
  function StremioRequest(imdbId: Val, kind: Val, season: Val, episode: Val): (r: (string, string))
    ensures kind == Str("tv") ==> r.0 == "series" && r.1 == Join([ToStr(imdbId), ToStr(season), ToStr(episode)], ":")
    ensures kind != Str("tv") ==> r == (ToStr(kind), ToStr(imdbId))
  {
    JoinThree(ToStr(imdbId), ToStr(season), ToStr(episode), ":");
    if kind == Str("tv") then ("series", ToStr(imdbId) + ":" + ToStr(season) + ":" + ToStr(episode))
    else (ToStr(kind), ToStr(imdbId))
  }

  /** When none of the three parts holds a colon, the episode id splits back into the IMDb id,
      the season and the episode. */
  lemma StremioRequestSplits(imdbId: Val, season: Val, episode: Val)
    requires ':' !in ToStr(imdbId) && ':' !in ToStr(season) && ':' !in ToStr(episode)
    ensures SplitOn(StremioRequest(imdbId, Str("tv"), season, episode).1, ':') ==
      [ToStr(imdbId), ToStr(season), ToStr(episode)]
  {
    SplitJoin([ToStr(imdbId), ToStr(season), ToStr(episode)], ':');
  }

  /** The user's addon address made a base URL: trimmed, then cleaned by `CleanTrimmed`. */
  function CleanBase(addonUrl: string): (r: string)
    ensures r == [] || r[|r| - 1] != '/'
  {
    CleanTrimmed(Trim(addonUrl))
  }

  /** The first "/manifest.json" removed when the address ends in "manifest.json", then every
      trailing slash removed. */
  function CleanTrimmed(trimmed: string): (r: string)
    ensures r == [] || r[|r| - 1] != '/'
  {
    var noManifest := if EndsWith(trimmed, "manifest.json") then ReplaceFirst(trimmed, ManifestPath, "") else trimmed;
    StripTrailing(noManifest, '/')
  }

  /** An address without surrounding whitespace is cleaned as it is. */
  lemma CleanUntrimmed(s: string)
    requires s == [] || (!IsSpace(s[0]) && !IsSpace(s[|s| - 1]))
    ensures CleanBase(s) == CleanTrimmed(s)
  {
    TrimUntouched(s);
  }

  const ManifestPath: string := "/manifest.json"

  /** A base address without surrounding whitespace, without a trailing slash and without
      "/manifest.json" in it. */
  predicate PlainBase(base: string) {
    && base != []
    && !IsSpace(base[0])
    && base[|base| - 1] != '/'
    && !IsSpace(base[|base| - 1])
    && NoManifestIn(base)
  }

  /** "/manifest.json" occurs nowhere in `s`. */
  predicate NoManifestIn(s: string) {
    forall k :: 0 <= k <= |s| ==> !OccursAt(s, ManifestPath, k)
  }

  /** The only slash of "/manifest.json" is its first character. */
  lemma ManifestSlashIsFirst()
    ensures |ManifestPath| > 0 && ManifestPath[0] !in ManifestPath[1..]
  {
    assert ManifestPath[1..] == "manifest.json";
  }

  /** The address written as the bare base, with a trailing slash, or as the manifest URL
      gives the same base. */
  lemma CleanBaseAgrees(base: string)
    requires PlainBase(base)
    ensures CleanBase(base) == base
    ensures CleanBase(base + "/") == base
    ensures CleanBase(base + ManifestPath) == base
  {
    CleanBareBase(base);
    CleanSlashedBase(base);
    CleanManifestUrl(base);
  }

  lemma CleanBareBase(base: string)
    requires PlainBase(base)
    ensures CleanBase(base) == base
  {
    CleanUntrimmed(base);
  }

  lemma CleanSlashedBase(base: string)
    requires PlainBase(base)
    ensures CleanBase(base + "/") == base
  {
    var b := base + "/";
    CleanUntrimmed(b);
    assert !EndsWith(b, "manifest.json");
    assert b[..|b| - 1] == base;
    assert StripTrailing(b, '/') == StripTrailing(base, '/');
  }

  lemma CleanManifestUrl(base: string)
    requires PlainBase(base)
    ensures CleanBase(base + ManifestPath) == base
  {
    var m := base + ManifestPath;
    assert m[|m| - 1] == 'n';
    CleanUntrimmed(m);
    assert m[|m| - 13..] == ManifestPath[1..];
    assert EndsWith(m, "manifest.json");
    ContainsIff(base, ManifestPath);
    ManifestSlashIsFirst();
    ReplaceAtJunction(base, ManifestPath, "");
  }

  function StreamUrl(base: string, request: (string, string)): string
  {
    base + "/stream/" + request.0 + "/" + request.1 + ".json"
  }

  /** The filter's test on one stream: a falsy `url` fails it, a string `url` passes when it
      starts with "http", and any other truthy `url` throws on `startsWith`. */
  function CheckUrl(s: StremioStream): Result<bool, Error>
  {
    if !Truthy(s.url) then Success(false) else ValStartsWith(s.url, "http")
  }

  predicate IsHttpStream(s: StremioStream) {
    s.url.Str? && StartsWith(s.url.s, "http")
  }

  /** The host's stream shape: the name or "Stream", the title or "" as description, the url. */
  function ToLink(s: StremioStream): (r: StreamLink)
    ensures r.url == s.url
    ensures Truthy(s.name) ==> r.name == s.name
    ensures !Truthy(s.name) ==> r.name == Str("Stream")
    ensures Truthy(s.title) ==> r.description == s.title
    ensures !Truthy(s.title) ==> r.description == Str("")
  {
    StreamLink(Or(s.name, Str("Stream")), Or(s.title, Str("")), s.url)
  }

  /** `streams.filter(...).map(...)`: it throws when some stream has a truthy `url` that is not
      a string; otherwise the links of the HTTP streams, in order. */
  function PlayableLinks(streams: seq<StremioStream>): (r: Result<seq<StreamLink>, Error>)
    ensures r.Failure? <==> exists i :: 0 <= i < |streams| && Truthy(streams[i].url) && !streams[i].url.Str?
    ensures r.Success? ==> |r.value| <= |streams|
    ensures r.Success? ==> forall l :: l in r.value ==>
      l.url.Str? && StartsWith(l.url.s, "http") && Truthy(l.name) && !IsNullish(l.description)
    ensures r.Success? ==> forall s :: s in streams && IsHttpStream(s) ==> ToLink(s) in r.value
    ensures r.Success? ==> r.value == Map(Filter(streams, IsHttpStream), ToLink)
  {
    var _ :- MapAll(streams, CheckUrl);
    var links := Map(Filter(streams, IsHttpStream), ToLink);
    assert forall l :: l in links ==>
      l.url.Str? && StartsWith(l.url.s, "http") && Truthy(l.name) && !IsNullish(l.description) by {
      forall l | l in links ensures l.url.Str? && StartsWith(l.url.s, "http") && Truthy(l.name) && !IsNullish(l.description) {
        var kept := Filter(streams, IsHttpStream);
        var i :| 0 <= i < |links| && links[i] == l;
        assert kept[i] in kept;
      }
    }
    assert forall s :: s in streams && IsHttpStream(s) ==> ToLink(s) in links by {
      forall s | s in streams && IsHttpStream(s) ensures ToLink(s) in links {
        var kept := Filter(streams, IsHttpStream);
        var i :| 0 <= i < |kept| && kept[i] == s;
        assert links[i] == ToLink(s);
      }
    }
    Success(links)
  }

  /** `loadStremioStreams(params)`. A falsy addon URL throws; without an IMDb id there is
      nothing to ask for; an addon URL that is not a string makes `trim` throw. Everything
      after the request is built is caught: a failed request, a reply without a `streams`
      array, or a throwing filter all give the empty list. */
  function LoadStremioStreams(imdbId: Val, kind: Val, season: Val, episode: Val, addonUrl: Val,
                              get: string -> Result<Body<StremioStream>, Error>): (r: Result<seq<StreamLink>, Error>)
    ensures !Truthy(addonUrl) ==> r == Failure(Error(MissingAddonMessage))
    ensures Truthy(addonUrl) && !Truthy(imdbId) ==> r == Success([])
    ensures Truthy(addonUrl) && Truthy(imdbId) && !addonUrl.Str? ==> r == Failure(TypeError)
    ensures r.Failure? <==> !Truthy(addonUrl) || (Truthy(imdbId) && !addonUrl.Str?)
    ensures Truthy(addonUrl) && Truthy(imdbId) && addonUrl.Str? ==>
      var reply := get(StreamUrl(CleanBase(addonUrl.s), StremioRequest(imdbId, kind, season, episode)));
      && (!(reply.Success? && reply.value.Array?) ==> r == Success([]))
      && (reply.Success? && reply.value.Array? ==>
            var links := PlayableLinks(reply.value.items);
            r == Success(if links.Success? then links.value else []))
  {
    if !Truthy(addonUrl) then Failure(Error(MissingAddonMessage))
    else if !Truthy(imdbId) then Success([])
    else if !addonUrl.Str? then Failure(TypeError)
    else
      var url := StreamUrl(CleanBase(addonUrl.s), StremioRequest(imdbId, kind, season, episode));
      match get(url)
      case Success(Array(streams)) =>
        (match PlayableLinks(streams)
         case Success(links) => Success(links)
         case Failure(_) => Success([]))
      case _ => Success([])
  }
}
