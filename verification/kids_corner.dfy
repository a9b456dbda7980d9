/** widgets/kids_corner.js (the "Global Tour" widget): popular, well-rated movies in one
    original language from TMDB's discover endpoint, each labelled with the names of its first
    two known genres. */
module KidsCorner {
  import opened Wrappers
  import opened JsString
  import opened Js
  import opened Seqs
  import opened Media

  /** The widget's genre dictionary, in its order. */
  const GenreTable: seq<(nat, string)> := [
    (10759, "Action & Adventure"), (16, "Animation"), (35, "Comedy"), (80, "Crime"),
    (99, "Documentary"), (18, "Drama"), (10751, "Family"), (10762, "Kids"), (9648, "Mystery"),
    (10763, "News"), (10764, "Reality"), (10765, "Sci-Fi & Fantasy"), (10766, "Soap"),
    (10767, "Talk"), (10768, "War & Politics"), (37, "Western"), (28, "Action"),
    (12, "Adventure"), (14, "Fantasy"), (36, "History"), (27, "Horror"), (10402, "Music"),
    (10749, "Romance"), (878, "Science Fiction"), (10770, "TV Movie"), (53, "Thriller"),
    (10752, "War")
  ]

  /** `table.find(g => g.id == id)`, by loose equality: the name of the first entry whose id
      equals `id`, if any. */
  function FindGenre(table: seq<(nat, string)>, id: Val): (r: Option<string>)
    ensures r.Some? ==> exists i :: 0 <= i < |table| && LooseEqualsNum(id, table[i].0) && table[i].1 == r.value
                                    && forall j :: 0 <= j < i ==> !LooseEqualsNum(id, table[j].0)
    ensures r.None? <==> forall i :: 0 <= i < |table| ==> !LooseEqualsNum(id, table[i].0)
    decreases |table|
  {
    if table == [] then None
    else if LooseEqualsNum(id, table[0].0) then Some(table[0].1)
    else
      var r := FindGenre(table[1..], id);
      assert forall i :: 1 <= i < |table| ==> table[i] == table[1..][i - 1];
      r
  }

  function GenreName(id: Val): Option<string>
  {
    FindGenre(GenreTable, id)
  }

  /** The ids that are looked at: the first two. */
  function FirstTwo(ids: seq<Val>): (r: seq<Val>)
    ensures |r| == if |ids| < 2 then |ids| else 2
    ensures r == ids[..|r|]
  {
    if |ids| > 2 then ids[..2] else ids
  }

  /** The names of the known genres among the first two ids, in order. */
  function GenreNames(ids: seq<Val>): seq<string>
  {
    FilterMap(FirstTwo(ids), GenreName)
  }

  /** `genreTitleWith(genre_ids)`: "" without ids, otherwise the names of the known genres among
      the first two ids joined with ", ". */
  function GenreTitleWith(ids: Option<seq<Val>>): string
  {
    match ids
    case None => ""
    case Some(s) => Join(GenreNames(s), ", ")
  }

  /** The label of two or more ids: two known genres give "first, second", one known genre
      gives its name, and ids past the second do not matter. */
  lemma GenreTitleCases(ids: seq<Val>)
    requires |ids| >= 2
    ensures GenreName(ids[0]).Some? && GenreName(ids[1]).Some? ==>
      GenreTitleWith(Some(ids)) == GenreName(ids[0]).value + ", " + GenreName(ids[1]).value
    ensures GenreName(ids[0]).Some? && GenreName(ids[1]).None? ==>
      GenreTitleWith(Some(ids)) == GenreName(ids[0]).value
    ensures GenreName(ids[0]).None? && GenreName(ids[1]).Some? ==>
      GenreTitleWith(Some(ids)) == GenreName(ids[1]).value
    ensures GenreName(ids[0]).None? && GenreName(ids[1]).None? ==> GenreTitleWith(Some(ids)) == ""
    ensures GenreTitleWith(Some(ids)) == GenreTitleWith(Some(ids[..2]))
  {
    assert GenreTitleWith(Some(ids)) == Join(FilterMap(FirstTwo(ids), GenreName), ", ");
    assert GenreTitleWith(Some(ids[..2])) == Join(FilterMap(FirstTwo(ids[..2]), GenreName), ", ");
    LabelCases(ids, GenreName);
  }

  /** The label of fewer than two ids: no ids, or one unknown id, give "", one known id gives
      its genre's name; without `genre_ids` the label is "". */
  lemma GenreTitleShortCases(ids: seq<Val>)
    requires |ids| < 2
    ensures ids == [] ==> GenreTitleWith(Some(ids)) == ""
    ensures |ids| == 1 && GenreName(ids[0]).None? ==> GenreTitleWith(Some(ids)) == ""
    ensures |ids| == 1 && GenreName(ids[0]).Some? ==> GenreTitleWith(Some(ids)) == GenreName(ids[0]).value
    ensures GenreTitleWith(None) == ""
  {
    assert GenreTitleWith(Some(ids)) == Join(FilterMap(FirstTwo(ids), GenreName), ", ");
    LabelCases(ids, GenreName);
  }

  /** `LabelCases` for any lookup `f`: the joined names of the first two ids. */
  lemma LabelCases(ids: seq<Val>, f: Val -> Option<string>)
    ensures var joined := Join(FilterMap(FirstTwo(ids), f), ", ");
      && (|ids| >= 2 && f(ids[0]).Some? && f(ids[1]).Some? ==> joined == f(ids[0]).value + ", " + f(ids[1]).value)
      && (|ids| >= 2 && f(ids[0]).Some? && f(ids[1]).None? ==> joined == f(ids[0]).value)
      && (|ids| >= 2 && f(ids[0]).None? && f(ids[1]).Some? ==> joined == f(ids[1]).value)
      && (|ids| >= 2 && f(ids[0]).None? && f(ids[1]).None? ==> joined == "")
      && (|ids| == 1 && f(ids[0]).None? ==> joined == "")
      && (|ids| == 1 && f(ids[0]).Some? ==> joined == f(ids[0]).value)
      && (|ids| > 2 ==> joined == Join(FilterMap(FirstTwo(ids[..2]), f), ", "))
      && (ids == [] ==> joined == "")
  {
    var two := FirstTwo(ids);
    if |ids| >= 2 {
      assert two == [ids[0]] + [ids[1]];
      FilterMapConcat([ids[0]], [ids[1]], f);
      assert FirstTwo(ids[..2]) == two;
    } else if |ids| == 1 {
      assert two == [ids[0]];
    }
  }

  /** Every name in a label comes from the dictionary, and a label holds at most two names. */
  lemma GenreNamesAreKnown(ids: seq<Val>)
    ensures |GenreNames(ids)| <= 2
    ensures forall n :: n in GenreNames(ids) ==> exists i :: 0 <= i < |GenreTable| && GenreTable[i].1 == n
  {
    forall n | n in GenreNames(ids) ensures exists i :: 0 <= i < |GenreTable| && GenreTable[i].1 == n {
      var x :| x in FirstTwo(ids) && GenreName(x) == Some(n);
    }
  }

  /** Loose equality lets a genre id written as a string find the same genre as the number. */
  lemma StringIdsMatchNumbers(n: nat)
    ensures GenreName(Str(NatToString(n))) == GenreName(Num(n))
  {
    StringIdsMatchNumbersIn(GenreTable, n);
  }

  lemma StringIdsMatchNumbersIn(table: seq<(nat, string)>, n: nat)
    ensures FindGenre(table, Str(NatToString(n))) == FindGenre(table, Num(n))
  {
    var s := NatToString(n);
    assert !IsSpace(s[0]) && !IsSpace(s[|s| - 1]);
    TrimUntouched(s);
    GenreLookupCongruent(table, Str(s), Num(n));
  }

  /** Two ids that equal the same dictionary ids find the same genre. */
  lemma {:induction false} GenreLookupCongruent(table: seq<(nat, string)>, a: Val, b: Val)
    requires forall i :: 0 <= i < |table| ==> LooseEqualsNum(a, table[i].0) == LooseEqualsNum(b, table[i].0)
    ensures FindGenre(table, a) == FindGenre(table, b)
    decreases |table|
  {
    if table != [] && !LooseEqualsNum(a, table[0].0) {
      assert forall i :: 0 <= i < |table[1..]| ==> table[1..][i] == table[i + 1];
      GenreLookupCongruent(table[1..], a, b);
    }
  }

  function GenreLabel(rec: TmdbRecord): Val
  {
    Str(GenreTitleWith(rec.genreIds))
  }

  /** `fetchGlobal(params)`: the discover query for the original language `lang`; a thrown
      request or a reply without `results` gives the empty list, otherwise one movie item per
      result, labelled with its genres. */
  function FetchGlobal(lang: Val, discover: string -> Result<Option<seq<TmdbRecord>>, Error>): (r: seq<Item>)
    ensures !(discover(SafeStr(lang)).Success? && discover(SafeStr(lang)).value.Some?) ==> r == []
    ensures discover(SafeStr(lang)).Success? && discover(SafeStr(lang)).value.Some? ==>
      var results := discover(SafeStr(lang)).value.value;
      && r == FormatTmdbItems(results, Str("movie"), GenreLabel)
      && |r| == |results|
      && forall i :: 0 <= i < |r| ==>
           && r[i].id == results[i].id
           && r[i].idType == Str("tmdb")
           && r[i].title == Or(results[i].title, results[i].name)
           && r[i].releaseDate == Or(results[i].releaseDate, results[i].firstAirDate)
           && r[i].description == results[i].overview
           && r[i].rating == results[i].voteAverage
           && r[i].genreTitle == Str(GenreTitleWith(results[i].genreIds))
           && (Truthy(results[i].mediaType) ==> r[i].mediaType == results[i].mediaType)
           && (!Truthy(results[i].mediaType) ==> r[i].mediaType == Str("movie"))
  {
    match discover(SafeStr(lang))
    case Success(Some(results)) => FormatTmdbItems(results, Str("movie"), GenreLabel)
    case _ => []
  }
}
