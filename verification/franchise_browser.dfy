/** widgets/franchise_browser.js: a franchise as the parts of a TMDB collection in release
    order, or as a production company's most popular movies. */
module FranchiseBrowser {
  import opened Wrappers
  import opened Js
  import opened Seqs
  import opened Media
  import opened Sorting

  /** The TMDB client of this widget: a request path and its query parameters to the list in
      the reply (`parts` of a collection, `results` of a discover query). A thrown request is
      a `Failure`. */
  type TmdbGet = (string, map<string, string>) -> Result<Body<TmdbRecord>, Error>

  /** What the comparator compares: the release date, or "9999" when there is none, so that
      undated parts go last. */
  function SortKey(rec: TmdbRecord): string
  {
    ToStr(Or(rec.releaseDate, Str("9999")))
  }

  /** `parts.sort((a, b) => key(a) > key(b) ? 1 : -1)`. The comparator never answers 0, so
      the order of parts with equal keys is up to the engine; the model keeps their order. */
  function SortParts(parts: seq<TmdbRecord>): (r: seq<TmdbRecord>)
    ensures multiset(r) == multiset(parts)
    ensures SortedBy(r, SortKey)
  {
    SortBySorted(parts, SortKey);
    SortBy(parts, SortKey)
  }

  /** When no two parts share a key the comparator is consistent, and the sorted parts are the
      only arrangement of them in release order. */
  lemma SortPartsIsTheOrder(parts: seq<TmdbRecord>, other: seq<TmdbRecord>)
    requires multiset(other) == multiset(parts) && SortedBy(other, SortKey)
    requires DistinctKeys(other, SortKey)
    ensures SortParts(parts) == other
  {
    SortedUnique(other, SortParts(parts), SortKey);
  }

  /** Undated parts come after every dated one whose date sorts before "9999". */
  lemma UndatedPartsGoLast(parts: seq<TmdbRecord>, i: nat, j: nat)
    requires i < |SortParts(parts)| && j < |SortParts(parts)|
    requires !Truthy(SortParts(parts)[i].releaseDate)
    requires Truthy(SortParts(parts)[j].releaseDate)
    requires SortParts(parts)[j].releaseDate.Str? && StrLess(SortParts(parts)[j].releaseDate.s, "9999")
    ensures j < i
  {
  }

  function CollectionParams(language: string): map<string, string>
  {
    map["language" := language]
  }

  function CompanyParams(language: string, targetId: string): map<string, string>
  {
    map["language" := language, "with_companies" := targetId, "sort_by" := "popularity.desc"]
  }

  /** `fetchCollection(params)`. Mode "collection" asks for `collection/<targetId>` and returns
      its parts in release order; mode "company" asks TMDB's discover endpoint for the
      company's movies by popularity and returns them as they come; a reply without the list
      field, or any other mode, gives the empty list. Nothing is caught: a thrown request
      propagates, and a list field that is not an array makes `sort` or `map` throw. */
  function FetchCollection(mode: Val, targetId: Val, language: Val, get: TmdbGet): (r: Result<seq<Item>, Error>)
    ensures SafeStr(mode) == "collection" ==>
      var reply := get("collection/" + SafeStr(targetId), CollectionParams(SafeStr(Or(language, Str("zh-CN")))));
      && (reply.Failure? ==> r == Failure(reply.error))
      && (reply == Success(Missing) ==> r == Success([]))
      && (reply == Success(NotArray) ==> r == Failure(TypeError))
      && (reply.Success? && reply.value.Array? ==>
            r == Success(FormatTmdbItems(SortParts(reply.value.items), Str("movie"), NoGenre)))
    ensures SafeStr(mode) == "company" ==>
      var reply := get("discover/movie", CompanyParams(SafeStr(Or(language, Str("zh-CN"))), SafeStr(targetId)));
      && (reply.Failure? ==> r == Failure(reply.error))
      && (reply == Success(Missing) ==> r == Success([]))
      && (reply == Success(NotArray) ==> r == Failure(TypeError))
      && (reply.Success? && reply.value.Array? ==>
            r == Success(FormatTmdbItems(reply.value.items, Str("movie"), NoGenre)))
    ensures SafeStr(mode) != "collection" && SafeStr(mode) != "company" ==> r == Success([])
  {
    var lang := SafeStr(Or(language, Str("zh-CN")));
    var mode := SafeStr(mode);
    var targetId := SafeStr(targetId);
    if mode == "collection" then
      match get("collection/" + targetId, CollectionParams(lang))
      case Failure(e) => Failure(e)
      case Success(Missing) => Success([])
      case Success(NotArray) => Failure(TypeError)
      case Success(Array(parts)) => Success(FormatTmdbItems(SortParts(parts), Str("movie"), NoGenre))
    else if mode == "company" then
      match get("discover/movie", CompanyParams(lang, targetId))
      case Failure(e) => Failure(e)
      case Success(Missing) => Success([])
      case Success(NotArray) => Failure(TypeError)
      case Success(Array(results)) => Success(FormatTmdbItems(results, Str("movie"), NoGenre))
    else Success([])
  }

  /** A collection comes back whole: its items are the formatted parts, each exactly as often
      as it occurs. */
  lemma CollectionKeepsEveryPart(targetId: Val, language: Val, get: TmdbGet)
    requires var reply := get("collection/" + SafeStr(targetId), CollectionParams(SafeStr(Or(language, Str("zh-CN")))));
      reply.Success? && reply.value.Array?
    ensures var parts := get("collection/" + SafeStr(targetId), CollectionParams(SafeStr(Or(language, Str("zh-CN"))))).value.items;
      var r := FetchCollection(Str("collection"), targetId, language, get);
      && r.Success?
      && multiset(r.value) == multiset(FormatTmdbItems(parts, Str("movie"), NoGenre))
  {
    var parts := get("collection/" + SafeStr(targetId), CollectionParams(SafeStr(Or(language, Str("zh-CN"))))).value.items;
    FormatPreservesMultiset(SortParts(parts), parts);
  }

  /** Formatting commutes with rearranging: rearranged records give rearranged items. */
  lemma {:induction false} FormatPreservesMultiset(a: seq<TmdbRecord>, b: seq<TmdbRecord>)
    requires multiset(a) == multiset(b)
    ensures multiset(FormatTmdbItems(a, Str("movie"), NoGenre)) == multiset(FormatTmdbItems(b, Str("movie"), NoGenre))
    decreases |a|
  {
    var f := (rec: TmdbRecord) => FormatTmdbItem(rec, Str("movie"), NoGenre(rec));
    MapMultiset(a, b, f);
    assert FormatTmdbItems(a, Str("movie"), NoGenre) == Map(a, f);
    assert FormatTmdbItems(b, Str("movie"), NoGenre) == Map(b, f);
  }
}
