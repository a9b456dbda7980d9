# ForwardWidgets reshaping core, in Dafny

ForwardWidgets are small JavaScript widgets for the Forward media app. Each widget asks an
upstream service (TMDB, Trakt, MDBList, a Stremio addon) for a list, reshapes the JSON it gets
back into the host's item shape (`id`, `type`, `title`, `description`, `releaseDate`,
`posterPath`, `backdropPath`, `rating`, `mediaType`, `genreTitle`, ...) and hands the array to the host.
This project models that reshaping for twelve widgets. It covers:

- identifier classification and TMDB resolution;
- the merge/fallback formatters;
- the list combinators: first-seen-wins de-duplication, round-robin interleave, batched map,
  the keyword/type catalog filter and the release-date sort;
- the Trakt and MDBList record mappers;
- the genre table lookup;
- Stremio stream request building and stream mapping;
- every widget's error paths, for replies whose list elements are objects.

Every upstream reply is a parameter of the model: a function from request (URL or TMDB path)
to `Result<...>`, where `Failure` is a thrown error. Nothing performs I/O.

Layout (one module per file):

- `wrappers.dfy` (`Wrappers`): `Option` and `Result`.
- `js_string.dfy` (`JsString`): the string methods the widgets call (`trim`, `startsWith`,
  `includes`, `replace`, `split`, `join`, `toLowerCase`), plus decimal rendering.
- `js.dfy` (`Js`): JavaScript scalars (`Val`), truthiness, `||`, `String(v)`, the shared
  `safeStr` / `toISODate` helpers and thrown errors.
- `seqs.dfy` (`Seqs`): order-preserving map, filter, `Promise.all`, chunked batch map,
  interleave and first-seen-wins de-duplication, each with its source loop where the source
  has one.
- `sorting.dfy` (`Sorting`): JavaScript's `>` on strings and a sort by string key.
- `media.dfy` (`Media`): the records (host item, TMDB record and client, Stremio meta and
  stream, MDBList and Trakt entries, catalog descriptor) and the TMDB list formatter four
  widgets repeat.
- One module per widget: `aio_dynamic.dfy`, `aio_mdblist.dfy`, `stremio_merged.dfy`,
  `trakt_trending.dfy`, `trendingmedia.dfy`, `trakt.dfy`, `mdblist.dfy`, `kids_corner.dfy`,
  `franchise_browser.dfy`, `aiostream.dfy`, `stremio.dfy`, and `stremio_catalog.dfy` for the
  `loadCatalog` function of `test-stremio.js`.

## Model

| member | source | states |
|---|---|---|
| `Js.ToISODateSpec` | widgets/aio_dynamic.js:132-133 | `toISODate` gives "" for null and undefined. Otherwise it gives the string form with surrounding whitespace cut, "" exactly when that form is blank. It never starts or ends with whitespace and is idempotent. |
| `JsString.TrimSpec` | widgets/aio_dynamic.js:133 | `trim()` returns an infix of the string. Everything cut away before and after it is whitespace, neither edge of the result is whitespace, and the result is empty iff the string is all whitespace. |
| `JsString.TrimIdempotent` | widgets/aio_mdblist.js:165 | Trimming a trimmed string changes nothing. |
| `JsString.ReplaceFirst` | widgets/stremio_merged.js:165 | `replace` with a string pattern swaps only the first occurrence. The part before it is unchanged and so is the part after it. Without an occurrence the string is unchanged. |
| `JsString.ReplaceAtJunction` | widgets/aiostream.js:68 | A pattern whose first character does not recur in it, appended to a string free of it, is the copy `replace` removes. |
| `JsString.StripTrailing` | widgets/aiostream.js:70 | `replace(/\/+$/, '')` keeps a prefix and removes only slashes. The result does not end in a slash. |
| `JsString.DropSuffix` | widgets/stremio.js:66 | An anchored `replace` removes the suffix exactly when the string ends with it; the result plus the suffix is the string. |
| `JsString.SplitOn` | widgets/aio_dynamic.js:249 | `split(",")` gives at least one piece, and no piece holds the separator. |
| `JsString.JoinSplit` | widgets/aio_dynamic.js:249 | Joining the pieces of a split with the separator gives the string back. |
| `JsString.SplitJoin` | widgets/stremio.js:63 | Splitting a join of separator-free pieces gives the pieces back. |
| `JsString.LowerIsLowerCase` | widgets/aio_dynamic.js:249 | `toLowerCase()` leaves no upper-case letter. |
| `JsString.NatToString` | widgets/kids_corner.js:79 | `String(n)` is a run of digits that denotes `n`, with no leading zero. |
| `Seqs.MapAll` | widgets/aio_dynamic.js:164-197 | `Promise.all` over a mapper that may throw rejects iff some element throws. Otherwise it resolves to the element-wise results, in order. |
| `Seqs.FilterMap` | widgets/trakt.js:92-127 | `map(...).filter(Boolean)` keeps only present results. Every kept result comes from some input, and every present result is kept. |
| `Seqs.FilterMapPointwise` | widgets/trakt.js:92-127 | Two inputs whose mapped results agree position by position keep the same survivors in the same order. So dropping after a `Promise.all` is dropping straight from the entries. |
| `Seqs.Chunks` | widgets/stremio_merged.js:52-53 | The slices of five flatten back to the input. Each slice is non-empty and at most five long, and all but the last are exactly five. |
| `Seqs.BatchMapIsMap` | widgets/stremio_merged.js:52-104 | Mapping batch by batch and pushing each batch's results in order is the plain order-preserving map. |
| `Seqs.InterleavePairs` | widgets/stremio_merged.js:177-182 | While both lists last, position `2k` holds `movies[k]` and `2k+1` holds `shows[k]`. |
| `Seqs.InterleaveEven` | widgets/stremio_merged.js:177-182 | While both lists last, position `2k` holds `movies[k]`. |
| `Seqs.InterleaveOdd` | widgets/stremio_merged.js:177-182 | While both lists last, position `2k+1` holds `shows[k]`. |
| `Seqs.InterleaveTailA` | widgets/stremio_merged.js:177-182 | Once the shows run out, the remaining movies follow in order. |
| `Seqs.InterleaveTailB` | widgets/stremio_merged.js:177-182 | Once the movies run out, the remaining shows follow in order. |
| `Seqs.InterleaveMultiset` | widgets/stremio_merged.js:177-182 | The interleave is a rearrangement of the two lists together: nothing lost, nothing added. |
| `Seqs.InterleaveLoop` | widgets/stremio_merged.js:177-182 | The source loop pushes `movies[i]` then `shows[i]` up to the longer length, and so computes the interleave. |
| `Seqs.DedupBySpec` | widgets/aio_dynamic.js:270-280 | De-duplication keeps the input order and one element per id of the input, and no other. Each kept element is the first of its id. The result equals `FirstsUpTo(xs, key, \|xs\|)`: the first-of-id elements, in input order. |
| `Seqs.DedupByIsFirsts` | widgets/aio_dynamic.js:270-280 | De-duplicating any prefix gives exactly that prefix's first-of-id elements, taken in index order. |
| `Seqs.DedupLoop` | widgets/aio_dynamic.js:271-278 | The `seen`-set loop computes that de-duplication. |
| `Media.FindCatalog` | widgets/aio_dynamic.js:242 | `find` returns the first descriptor with the id, and none exactly when no descriptor has it. |
| `Media.FormatTmdbItems` | widgets/aio_dynamic.js:200-213 | One item per entry, in order, typed "tmdb" under the entry's id. The title is `title \|\| name`, the release date `release_date \|\| first_air_date` and the media type `media_type \|\| reqType`. Overview, artwork and rating are copied, the genre label is the widget's, and the keys the literal does not set stay undefined. |
| `AioDynamic.LookupFor` | widgets/aio_dynamic.js:138-157 | A `tt` id plans a find lookup at `find/<id>`. An all-digits id plans a detail lookup at `<type>/<id>`. Anything else, falsy or non-string, plans none. |
| `AioDynamic.FetchTmdbDetail` | widgets/aio_dynamic.js:137-160 | A falsy id resolves to nothing. A find reply gives the first result of the declared kind, else the first of the other kind, else nothing. A detail reply is returned as is. A thrown lookup gives nothing. |
| `AioDynamic.FetchTmdbDetailUsesOneLookup` | widgets/aio_dynamic.js:140-157 | The resolution depends on the one planned lookup only: clients that agree there resolve alike. |
| `AioDynamic.TmdbKind` | widgets/aio_dynamic.js:166-168 | The TMDB kind is "movie" iff `item.type \|\| reqType` is "movie", else "tv". |
| `AioDynamic.FormatStremioItem` | widgets/aio_dynamic.js:164-196 | It throws iff the meta id is not a string. With a TMDB record the content fields are TMDB's; without one they are the meta's, with poster and backdrop defaulting to "" and rating to `Number(imdbRating)` or 0. The id and type are the TMDB id under "tmdb", else the meta id under "imdb" for a `tt` id and "url" otherwise. |
| `AioDynamic.UnresolvedItemIsComplete` | widgets/aio_dynamic.js:171-195 | Without TMDB data every string field is a string, the id is the meta's, and the rating is 0 or `Number(imdbRating)`. |
| `AioDynamic.FormatStremioItems` | widgets/aio_dynamic.js:163-198 | It yields one item per meta, in order, and rejects iff some meta id is not a string. |
| `AioDynamic.FetchIndividualCatalog` | widgets/aio_dynamic.js:215-235 | A TMDB catalog formats `results`, a Stremio catalog formats `metas`, and every failure or unknown source yields []. |
| `AioDynamic.FetchList` | widgets/aio_dynamic.js:239-245 | It throws "Catalog not found." iff no descriptor has the id. Otherwise it fetches the first descriptor with that id. |
| `AioDynamic.KeywordFromPiece` | widgets/aio_dynamic.js:249 | Every keyword is the non-empty trim of some comma-separated piece. |
| `AioDynamic.ParseKeywordsWellFormed` | widgets/aio_dynamic.js:249 | Every keyword is non-empty and lower case, holds no comma, and has no surrounding whitespace. |
| `AioDynamic.ParseKeywordsComplete` | widgets/aio_dynamic.js:249 | Every non-blank piece contributes its trimmed self. |
| `AioDynamic.ParseKeywordsEmpty` | widgets/aio_dynamic.js:249-252 | No keyword survives iff every piece is blank, which is the condition of the first throw. |
| `AioDynamic.FetchMergedList` | widgets/aio_dynamic.js:247-281 | No keyword throws, and no matching catalog throws. Otherwise the result is an ordered subsequence of the flattened catalogs with distinct ids and the same id set, each element the first of its id. It is exactly the first-of-id items of the flattened catalogs, in input order. |
| `AioMdbList.FetchTmdbDetail` | widgets/aio_mdblist.js:103-110 | A falsy id resolves to nothing, a thrown lookup to nothing, otherwise to the detail at `<type>/<id>`. |
| `AioMdbList.FormatMdbItem` | widgets/aio_mdblist.js:130-157 | The id is always `tmdb_id` under "tmdb", and the media type is "movie" iff `mediatype` is "movie", else "tv". TMDB's content wins. Without it the title is the entry's, overview and artwork are "", and the rating is a tenth of the score or 0. |
| `AioMdbList.FormatMdbItems` | widgets/aio_mdblist.js:128-160 | The entries with a truthy `tmdb_id`, in order, each formatted. |
| `AioMdbList.FormatMdbItemsSound` | widgets/aio_mdblist.js:129-147 | Every item carries a truthy TMDB id taken from some entry. |
| `AioMdbList.FormatMdbItemsComplete` | widgets/aio_mdblist.js:129-146 | Every entry with a truthy TMDB id is represented. |
| `AioMdbList.FetchList` | widgets/aio_mdblist.js:164-199 | An unknown id throws first, then an MDBList catalog with a blank trimmed key throws. Upstream errors are rethrown, and a reply without a list gives []. Truthy TMDB `results` that are not an array throw a TypeError, which is rethrown. Otherwise the TMDB and MDBList branches format their list. |
| `AioMdbList.FetchListTrimsKey` | widgets/aio_mdblist.js:165 | Whitespace around the key makes no difference. |
| `AioMdbList.TmdbCatalogsIgnoreKey` | widgets/aio_mdblist.js:173-182 | A TMDB catalog's result does not depend on the key. |
| `StremioMerged.ClassifyId` | widgets/stremio_merged.js:134-147 | A falsy id drops the meta. A `tt` string form is "imdb", a numeric id is "tmdb", and anything else falls back to "imdb". |
| `StremioMerged.MetaToItem` | widgets/stremio_merged.js:119-151 | A meta with a truthy id becomes an item with `type == sourceType` and "tv" iff the request or the meta says "series". The raw fields are copied. |
| `StremioMerged.FetchCatalog` | widgets/stremio_merged.js:110-157 | Any failure gives []. Otherwise the metas with a truthy id, each classified, in their order: the `FilterMap` of the metas, so every such meta appears and no other. |
| `StremioMerged.EnrichOne` | widgets/stremio_merged.js:55-99 | An item without an id, or without a TMDB hit, is unchanged. On a hit the id and type become TMDB's, title falls back to the item's, and the five other fields are overwritten only by truthy TMDB values. Nothing else changes. |
| `StremioMerged.EnrichHasNoCrossKindFallback` | widgets/stremio_merged.js:73-78 | An IMDb item whose own bucket is empty stays unchanged, whatever the other bucket holds. |
| `StremioMerged.EnrichWithTmdb` | widgets/stremio_merged.js:47-107 | Batches of five give the same length and order as enriching each item. |
| `StremioMerged.ProviderIds` | widgets/stremio_merged.js:164 | `provider.split('\|')` gives the movie id before the bar and the series id after it. Without a bar the series id prints as "undefined". |
| `StremioMerged.MergeAndEnrich` | widgets/stremio_merged.js:176-185 | Position by position, the enriched interleave of movies and shows. |
| `StremioMerged.LoadMergedCatalog` | widgets/stremio_merged.js:159-186 | It throws when either parameter is missing, and a TypeError when either is not a string. Otherwise it returns the enriched interleave of the two catalogs. |
| `StremioMerged.MergedCatalogKeepsEverything` | widgets/stremio_merged.js:177-182 | The merged list is a rearrangement of both catalogs. |
| `TraktTrending.BuildTraktHeaders` | widgets/trakt_trending.js:53-59 | Exactly the three headers, with API version "2" and the client id as the key. |
| `TraktTrending.TraktFields` | widgets/trakt_trending.js:79-135 | Title and original title agree, the description is the overview's safe string, and poster and backdrop are "". The date is the trimmed `released \|\| first_aired`, rating is `Number(rating)` or 0, and genres are joined with ", " or "". Year is `String(year)` or "", and popularity and votes default to 0. |
| `TraktTrending.TrendingId` | widgets/trakt_trending.js:99-111 | A TMDB id gives "movie."/"tv." plus the id under "tmdb", else the IMDb id under "imdb", else the Trakt id under "url". |
| `TraktTrending.FormatTraktData` | widgets/trakt_trending.js:63-137 | The valid entries, in order, each formatted. |
| `TraktTrending.FormatTraktDataSpec` | widgets/trakt_trending.js:68-73 | No more items than entries, every valid entry formatted, and each item typed and kinded by the rule. |
| `TraktTrending.TmdbIdRoundTrip` | widgets/trakt_trending.js:102-104 | Stripping the "movie."/"tv." prefix gives `String(tmdb)` back, and the prefix tells the kind. |
| `TraktTrending.MissingTraktIdPrintsUndefined` | widgets/trakt_trending.js:108-110 | An entry without any id gets the id "undefined", not the random fallback. |
| `TraktTrending.FetchTraktTrending` | widgets/trakt_trending.js:141-179 | A blank trimmed client id throws before any request. A thrown request is rethrown, a non-array body gives [], and an array is formatted. |
| `TraktTrending.RequestCarriesKey` | widgets/trakt_trending.js:158-163 | The request headers are the Trakt headers plus the user agent. |
| `TrendingMedia.MediaId` | widgets/trendingmedia.js:98-99 | The id is `String(tmdb)` unprefixed, else the Trakt id or fallback. |
| `TrendingMedia.FormatTraktData` | widgets/trendingmedia.js:63-121 | The valid entries, in order, each formatted with this widget's id rule. |
| `TrendingMedia.AgreesWithTraktTrending` | widgets/trendingmedia.js:97-119 | It keeps the same entries as the trending widget, with the same fields except id and type. The type is always "tmdb", and a TMDB id is the other widget's without its prefix. |
| `TrendingMedia.FetchTraktTrending` | widgets/trendingmedia.js:125-163 | It fails iff the trimmed client id is blank. Every later failure gives [], never a rethrow. |
| `Trakt.EndpointsAreDistinct` | widgets/trakt.js:132-155 | The four entry points use four distinct endpoints. The fallback type is "movie" exactly for the movie endpoints. |
| `Trakt.FetchTrakt` | widgets/trakt.js:60-89 | A missing client id throws before the request. A missing reply or body throws "Failed to fetch data from Trakt.", and a thrown request propagates. |
| `Trakt.EntryToItem` | widgets/trakt.js:92-126 | It throws iff the payload has no `ids`, and drops an entry iff its TMDB id is falsy. Otherwise the id is the raw TMDB id (the later key wins), typed "tmdb", with date `released \|\| first_aired`. |
| `Trakt.MapTraktItemsToForward` | widgets/trakt.js:91-128 | It throws iff some payload lacks `ids`. Otherwise the result is the `FilterMap` of the entries through `EntryToItem`: the entries with a truthy TMDB id, in order, and no other. |
| `Trakt.LoadTraktList` | widgets/trakt.js:132-155 | An entry point fetches its endpoint and maps with its fallback type. A non-array body makes the mapper throw. |
| `Trakt.WrapperDecidesKind` | widgets/trakt.js:95-98 | A `movie` wrapper is a movie, a `show` wrapper is "tv", and only an unwrapped payload takes the fallback type. |
| `MdbList.Reword` | widgets/mdblist.js:122-129 | An error mentioning "404" becomes "List not found...", and any other is rethrown unchanged. |
| `MdbList.EntryToItem` | widgets/mdblist.js:99-119 | It drops an entry iff its TMDB id is falsy. Otherwise the id is `tmdb_id` under "tmdb", "show" becomes "tv" and other types pass through, and the rating is the score. |
| `MdbList.LoadList` | widgets/mdblist.js:41-130 | A missing key throws, then a missing list, then a non-string list. Errors inside the `try` pass through the 404 rewording, and otherwise the identified entries are mapped, in order. |
| `MdbList.LoadListKeepsIdentified` | widgets/mdblist.js:99-120 | Successful items are exactly the entries with a truthy TMDB id. |
| `MdbList.ParameterErrorsAreNotReworded` | widgets/mdblist.js:42-48 | Parameter errors are never reworded as "List not found". |
| `KidsCorner.FindGenre` | widgets/kids_corner.js:79 | The first table entry loosely equal to the id, or none iff no entry is. |
| `KidsCorner.FirstTwo` | widgets/kids_corner.js:77 | Only the first two ids are looked at. |
| `KidsCorner.GenreTitleCases` | widgets/kids_corner.js:46-82 | Two known genres give "a, b" and one known genre gives its name. No known genre gives "", and ids after the second do not matter. |
| `KidsCorner.GenreTitleShortCases` | widgets/kids_corner.js:46-82 | No ids or an unknown single id give "", and a known single id gives its name. A missing `genre_ids` gives "". |
| `KidsCorner.LabelCases` | widgets/kids_corner.js:77-81 | The joined names of the first two ids, case by case, for any lookup. |
| `KidsCorner.GenreNamesAreKnown` | widgets/kids_corner.js:48-81 | A label holds at most two names, all from the table. |
| `KidsCorner.StringIdsMatchNumbers` | widgets/kids_corner.js:79 | By loose equality an id written as a string finds the same genre as the number. |
| `KidsCorner.GenreLookupCongruent` | widgets/kids_corner.js:79 | Ids that equal the same table ids find the same genre. |
| `KidsCorner.FetchGlobal` | widgets/kids_corner.js:101-124 | A thrown request or missing results give []. Otherwise it is the shared TMDB formatter with fallback "movie": one item per result, in order, typed "tmdb" under the result's id, titled `title \|\| name`, dated `release_date \|\| first_air_date`, and labelled with the names of its first two known genres. |
| `Sorting.StrLessTransitive` | widgets/franchise_browser.js:100 | String `<` is transitive. |
| `Sorting.StrLessTotal` | widgets/franchise_browser.js:100 | Two different strings are ordered one way or the other. |
| `Sorting.StrLessAsymmetric` | widgets/franchise_browser.js:100 | String `<` never holds both ways. |
| `Sorting.SortBySorted` | widgets/franchise_browser.js:99-101 | The sort puts the keys in ascending order. |
| `Sorting.SortedUnique` | widgets/franchise_browser.js:99-101 | With distinct keys only one arrangement is sorted. |
| `FranchiseBrowser.SortParts` | widgets/franchise_browser.js:99-101 | The parts come out as a permutation, ascending by `release_date \|\| "9999"`. |
| `FranchiseBrowser.SortPartsIsTheOrder` | widgets/franchise_browser.js:99-101 | With distinct dates the sorted parts are the only arrangement in release order. |
| `FranchiseBrowser.UndatedPartsGoLast` | widgets/franchise_browser.js:100 | An undated part sorts after every part dated before "9999". |
| `FranchiseBrowser.FetchCollection` | widgets/franchise_browser.js:88-121 | "collection" sorts and formats `parts`, and "company" formats `results` as they come, both with fallback "movie". A missing field or unknown mode gives [], and errors propagate. |
| `FranchiseBrowser.CollectionKeepsEveryPart` | widgets/franchise_browser.js:97-103 | A collection's items are the formatted parts, each exactly as often as it occurs. |
| `FranchiseBrowser.FormatPreservesMultiset` | widgets/franchise_browser.js:102 | Formatting rearranged parts gives rearranged items. |
| `AioStream.StremioRequest` | widgets/aiostream.js:54-60 | "tv" becomes "series" with the id formed by joining the IMDb id, season and episode with ":". Any other type keeps the type and the bare id. |
| `AioStream.StremioRequestSplits` | widgets/aiostream.js:57-60 | When no part holds a colon, the episode id splits back into the IMDb id, the season and the episode. |
| `AioStream.CleanBase` | widgets/aiostream.js:66-70 | The cleaned base never ends in a slash. |
| `AioStream.CleanTrimmed` | widgets/aiostream.js:67-70 | After the conditional manifest removal, stripping slashes leaves no trailing slash. |
| `AioStream.CleanBaseAgrees` | widgets/aiostream.js:65-70 | The bare base, the base with a slash, and the manifest URL all clean to the base. |
| `AioStream.PlayableLinks` | widgets/aiostream.js:97-115 | It throws iff some stream has a truthy non-string url. Otherwise the result is the `http` streams, in order, each mapped by `ToLink`. Every such stream is represented and nothing else. |
| `AioStream.ToLink` | widgets/aiostream.js:103-115 | The url passes through unchanged. The name is the stream's when truthy, else "Stream", and the description is the title when truthy, else "". |
| `AioStream.LoadStremioStreams` | widgets/aiostream.js:36-122 | A missing addon URL throws first, and a missing IMDb id gives []. A non-string addon URL throws. Every failure after that gives []. |
| `StremioStreams.TitleId` | widgets/stremio.js:49-58 | The IMDb id, else "tmdb:" plus the TMDB id, else none. |
| `StremioStreams.SeriesIdSplits` | widgets/stremio.js:60-64 | The series id splits back into title id, season and episode, each defaulting to 1. |
| `StremioStreams.BaseUrlAgrees` | widgets/stremio.js:66 | The base, base + "/" and the manifest URL all give the base. |
| `StremioStreams.ToLink` | widgets/stremio.js:80-96 | The url passes through, or falls back to a magnet link from the info hash. The name defaults to "Stream" and the description to "". |
| `StremioStreams.MagnetCarriesHash` | widgets/stremio.js:82-84 | Cutting the magnet prefix gives the info hash back. |
| `StremioStreams.LoadResource` | widgets/stremio.js:35-102 | A missing addon URL throws, and no id gives []. A non-string addon URL throws. A failed request gives []; otherwise there is one link per stream, in order. |
| `StremioCatalog.IdNamespace` | widgets/test-stremio.js:87-96 | A non-string id throws. Otherwise "tmdb" iff it is not `tt` and numeric, else "imdb". |
| `StremioCatalog.AgreesWithMergedCatalog` | widgets/test-stremio.js:89-95 | On string ids it names the same namespace as the merged-catalog widget. |
| `StremioCatalog.MetaToItem` | widgets/test-stremio.js:65-99 | The raw fields are copied, and the kind is "tv" iff the request or the meta says "series". Id and type are set only for a truthy id. |
| `StremioCatalog.LoadCatalog` | widgets/test-stremio.js:40-105 | A missing manifest URL throws. The base has its first "/manifest.json" removed. Every error after that is rewrapped with the prefix, and otherwise there is one item per meta. |
| `StremioCatalog.ErrorsAfterTheRequestArePrefixed` | widgets/test-stremio.js:101-104 | An error carries the prefix iff it was raised after the URL was built. |

## Left out

- HTTP and TMDB clients, `JSON.parse`, headers on the wire. They are oracle functions keyed
  by URL or path. A thrown call is `Failure`; a missing or non-array list field is
  `Missing` / `NotArray`. Some oracles merge the two into `None`: those where the source
  turns a missing list and a non-array one into the same [], directly or through its catch block.
- `Promise.all` concurrency and `async`/`await`. They are modelled as order-preserving maps.
- `Number(...)`, `parseInt(...)` and `score_average / 10`. They are uninterpreted
  `Coercions` functions, because the model's numbers are integers and ratings are opaque.
- `!isNaN(id)`. It is approximated by `LooksNumeric`: numbers and booleans are numeric, and
  a string is numeric when it is all decimal digits. `isNaN("")`, signs, decimals and
  whitespace are not modelled.
- `KidsCorner.FindGenre`: loose equality (`==`) against a number is modelled for numbers,
  booleans and digit strings with surrounding whitespace. Other string forms (signs,
  decimals, exponents) are treated as unequal.
- `toLowerCase()` lowers ASCII letters only.
- String `<` compares by `char` code. UTF-16 surrogate ordering is not modelled.
- `Math.random().toString(36)`. It becomes a caller-supplied `fallback(i)` string.
- `FranchiseBrowser.SortParts`: the comparator never returns 0, so the source does not fix
  the order of parts with equal dates. The model picks one admissible order (a stable
  insertion sort) and claims uniqueness only for distinct dates. A non-string
  `release_date`, which JavaScript's `>` compares numerically, is compared through its string form.
- The `language` query parameters are left out. The key of a request is its path: the TMDB
  client and the list oracles are keyed by path or URL alone. The franchise widget is the
  exception; its parameters are modelled.
- The `vote_average.gte` / `vote_count.gte` filters of the kids widget's discover query live
  on the server and are not modelled.
- `genre_ids` is modelled as an array or absent. A truthy non-array value is not modelled.
- Logging (`console.*`), the widget metadata and module tables, `MODULES` generation,
  `widgets/demo.js` (fixtures only) and `widgets/introdb.js` (an HTTP wrapper) are left out.
- The Node `https` mock and the run block of `widgets/test-stremio.js` are left out.
- Constant output fields are not part of `Item`. These are `countries`, `directors`,
  `actors`, `isNew`, `playable` and `episodeCount`.
- The nested `tmdbInfo` object of the two Trakt trending widgets is not modelled
  (`widgets/trakt_trending.js:83-95`, `widgets/trendingmedia.js:83-95`). It is built per
  entry: its `id` is the bare TMDB id as a string, or "". Its other fields repeat the item's
  own description, date, rating, kind, genres, popularity and vote count.
- The prefixed `${mediaType}.${tmdbId}` id in `widgets/trakt.js:108` is dead: the object
  literal's second `id` key overrides it, so the model keeps only the raw id.
- `TypeError` messages: every engine TypeError is the single `Js.TypeError` value.
- Array elements are records: a `null` or primitive element in a reply list is not modelled.
  In the source, reading a field of such an element throws a TypeError in every widget's
  mapper, filter or comparator, and each widget then handles that error its own way. For
  example:
  - caught, giving [], in `widgets/aiostream.js:101`, `widgets/stremio_merged.js:121`,
    `widgets/stremio.js:81` and `widgets/kids_corner.js:86`;
  - rewrapped with the catalog prefix in `widgets/test-stremio.js:69`;
  - passed through the 404 check and rethrown in `widgets/mdblist.js:102`;
  - propagated in `widgets/trakt.js:95` and `widgets/franchise_browser.js:100`.

## Notes on behaviour

Where the widgets' own descriptions and their code differ, the model follows the code:

- `fetchMergedList` with an empty `mergeType` matches catalogs of every type
  (`widgets/aio_dynamic.js:257`). It does not require a non-empty type.
- In `formatStremioItems` a resolved TMDB record without a `title`, `name`, `overview` or
  `vote_average` gives an undefined field, not a default
  (`widgets/aio_dynamic.js:171-175`).
- In `formatStremioItems` a meta whose id is not a string and does not resolve makes
  `startsWith` throw. `Promise.all` then rejects, and `fetchIndividualCatalog` returns []
  for the whole catalog (`widgets/aio_dynamic.js:181`, 231-234).
- `String(undefined)` is the truthy "undefined". So in both Trakt trending widgets the random
  fallback id is reached only for an empty Trakt id (`widgets/trakt_trending.js:109`).
- The merged-catalog enrichment has no cross-kind fallback, unlike the catalog widget's
  resolver (`widgets/stremio_merged.js:74-77`).
- `loadCatalog` calls `meta.id.startsWith` directly. A truthy non-string id therefore throws
  inside the `try` and is rewrapped with the catalog error prefix
  (`widgets/test-stremio.js:89`, 101-104).
- In `loadStremioStreams` a truthy non-string stream `url` makes the filter throw inside
  the `try`, so the whole result is [] (`widgets/aiostream.js:101`, 117-121).
