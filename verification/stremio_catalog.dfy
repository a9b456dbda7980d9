/** widgets/test-stremio.js, `loadCatalog`: one catalog of a Stremio addon, each meta turned
    into an item; every failure after the URL is built is rethrown with a common prefix. */
module StremioCatalog {
  import opened Wrappers
  import opened JsString
  import opened Js
  import opened Seqs
  import opened Media
  import StremioMerged

  const ErrorPrefix: string := "Failed to load Stremio catalog: "

  const InvalidResponseMessage: string := "Invalid response from Stremio addon. Check the URL and Catalog ID."

  /** The `type` of an item with a truthy id: "imdb" for a "tt" id, "tmdb" for a numeric one,
      "imdb" for anything else; `startsWith` throws on an id that is not a string. */
  function IdNamespace(id: Val): (r: Result<string, Error>)
    requires Truthy(id)
    ensures r.Failure? <==> !id.Str?
    ensures r.Failure? ==> r.error == TypeError
    ensures r.Success? ==> (r.value == "tmdb" <==> !StartsWith(id.s, "tt") && AllDigits(id.s))
    ensures r.Success? ==> r.value == "imdb" || r.value == "tmdb"
  {
    if !id.Str? then Failure(TypeError)
    else if StartsWith(id.s, "tt") then Success("imdb")
    else if LooksNumeric(id) then Success("tmdb")
    else Success("imdb")
  }

  /** On string ids this widget and the merged-catalog widget name the same namespace. */
  lemma AgreesWithMergedCatalog(id: Val)
    requires Truthy(id) && id.Str?
    ensures IdNamespace(id) == Success(StremioMerged.ClassifyId(id).value)
  {
  }

  /** One meta. The item always carries the meta's title, artwork, description and rating and
      a media type of "tv" exactly when the request or the meta says "series"; it carries an id
      and a type only when the meta's id is truthy. */
  function MetaToItem(meta: StremioMeta, kind: Val, co: Coercions): (r: Result<Item, Error>)
    ensures r.Failure? <==> Truthy(meta.id) && !meta.id.Str?
    ensures r.Failure? ==> r.error == TypeError
    ensures r.Success? ==>
      && (r.value.mediaType == Str("tv") <==> kind == Str("series") || meta.metaType == Str("series"))
      && (r.value.mediaType == Str("movie") <==> !(kind == Str("series") || meta.metaType == Str("series")))
      && r.value.title == meta.name
      && r.value.year == Or(co.parseInt(meta.releaseInfo), co.parseInt(meta.year))
      && r.value.posterPath == meta.poster && r.value.backdropPath == meta.background
      && r.value.description == meta.description && r.value.rating == meta.imdbRating
      && (!Truthy(meta.id) ==> r.value.id == Undefined && r.value.idType == Undefined)
      && (Truthy(meta.id) ==> r.value.id == meta.id && r.value.idType == Str(IdNamespace(meta.id).value))
  {
    var item := Blank.(
      title := meta.name,
      year := Or(co.parseInt(meta.releaseInfo), co.parseInt(meta.year)),
      mediaType := Str(if kind == Str("series") || meta.metaType == Str("series") then "tv" else "movie"),
      posterPath := meta.poster,
      backdropPath := meta.background,
      description := meta.description,
      rating := meta.imdbRating);
    if !Truthy(meta.id) then Success(item)
    else
      var ns :- IdNamespace(meta.id);
      Success(item.(id := meta.id, idType := Str(ns)))
  }

  function CatalogUrl(base: string, kind: Val, catalogId: Val): string
  {
    base + "/catalog/" + ToStr(kind) + "/" + ToStr(catalogId) + ".json"
  }

  /** The rethrow of the `catch` block. */
  function Rewrap(e: Error): Error
  {
    Error(ErrorPrefix + e.message)
  }

  /** The body of the `try` block: a failed request, a reply without `metas`, `metas` that is
      not an array, or a meta whose id throws, each fail with their own error. */
  function LoadMetas(url: string, kind: Val, co: Coercions, get: string -> Result<Body<StremioMeta>, Error>): Result<seq<Item>, Error>
  {
    var reply :- get(url);
    match reply
    case Missing => Failure(Error(InvalidResponseMessage))
    case NotArray => Failure(TypeError)
    case Array(metas) => MapAll(metas, (m: StremioMeta) => MetaToItem(m, kind, co))
  }

  /** `loadCatalog(params)`. A falsy manifest URL throws; one that is not a string makes
      `replace` throw before the `try`. The base is the manifest URL with its first
      "/manifest.json" removed. Inside the `try` every error is rethrown as
      "Failed to load Stremio catalog: <message>"; otherwise there is one item per meta, in
      order. */
  function LoadCatalog(manifestUrl: Val, kind: Val, catalogId: Val, co: Coercions,
                       get: string -> Result<Body<StremioMeta>, Error>): (r: Result<seq<Item>, Error>)
    ensures !Truthy(manifestUrl) ==> r == Failure(Error("Manifest URL is required"))
    ensures Truthy(manifestUrl) && !manifestUrl.Str? ==> r == Failure(TypeError)
    ensures Truthy(manifestUrl) && manifestUrl.Str? ==>
      var reply := get(CatalogUrl(ReplaceFirst(manifestUrl.s, "/manifest.json", ""), kind, catalogId));
      && (reply.Failure? ==> r == Failure(Rewrap(reply.error)))
      && (reply == Success(Missing) ==> r == Failure(Rewrap(Error(InvalidResponseMessage))))
      && (reply == Success(NotArray) ==> r == Failure(Rewrap(TypeError)))
      && (reply.Success? && reply.value.Array? ==>
            var metas := reply.value.items;
            && (r.Success? <==> forall i :: 0 <= i < |metas| ==> !(Truthy(metas[i].id) && !metas[i].id.Str?))
            && (r.Failure? ==> r.error == Rewrap(TypeError))
            && (r.Success? ==> |r.value| == |metas| && forall i :: 0 <= i < |metas| ==> r.value[i] == MetaToItem(metas[i], kind, co).value))
  {
    if !Truthy(manifestUrl) then Failure(Error("Manifest URL is required"))
    else if !manifestUrl.Str? then Failure(TypeError)
    else
      var url := CatalogUrl(ReplaceFirst(manifestUrl.s, "/manifest.json", ""), kind, catalogId);
      match LoadMetas(url, kind, co, get)
      case Success(items) => Success(items)
      case Failure(e) => Failure(Rewrap(e))
  }

  /** Every error raised after the URL is built carries the prefix, and only those do: the
      two parameter errors come out as thrown. */
  lemma ErrorsAfterTheRequestArePrefixed(manifestUrl: Val, kind: Val, catalogId: Val, co: Coercions,
                                         get: string -> Result<Body<StremioMeta>, Error>)
    requires LoadCatalog(manifestUrl, kind, catalogId, co, get).Failure?
    ensures var m := LoadCatalog(manifestUrl, kind, catalogId, co, get).error.message;
      StartsWith(m, ErrorPrefix) <==> Truthy(manifestUrl) && manifestUrl.Str?
  {
  }
}
