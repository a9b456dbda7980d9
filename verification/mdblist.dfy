/** widgets/mdblist.js: one page of a user-supplied MDBList list, each entry reduced to its
    TMDB id; a failure whose message mentions 404 is reworded. */
module MdbList {
  import opened Wrappers
  import opened JsString
  import opened Js
  import opened Seqs
  import opened Media

  const BaseUrl: string := "https://api.mdblist.com"

  const NotFoundMessage: string := "List not found. Please ensure you are using the numeric List ID."

  function ListUrl(listId: string, apiKey: Val, page: Val): string
  {
    BaseUrl + "/lists/" + listId + "/items?apikey=" + ToStr(apiKey) + "&page=" + ToStr(Or(page, Num(1))) + "&limit=20"
  }

  /** The catch block: an error whose message contains "404" becomes the not-found error,
      any other is rethrown as it is. */
  function Reword(e: Error): (r: Error)
    ensures Contains(e.message, "404") ==> r == Error(NotFoundMessage)
    ensures !Contains(e.message, "404") ==> r == e
  {
    if Contains(e.message, "404") then Error(NotFoundMessage) else e
  }

  /** One entry: dropped without a truthy TMDB id, otherwise kept under that id with "show"
      renamed to "tv" and every other type passed through. */
  function EntryToItem(item: MdbItem): (r: Option<Item>)
    ensures r.None? <==> !Truthy(item.tmdbId)
    ensures r.Some? ==>
      && r.value.id == item.tmdbId && r.value.idType == Str("tmdb")
      && (item.itemType == Str("show") ==> r.value.mediaType == Str("tv"))
      && (item.itemType != Str("show") ==> r.value.mediaType == item.itemType)
      && r.value.title == item.title && r.value.year == item.year && r.value.rating == item.score
  {
    if !Truthy(item.tmdbId) then None
    else
      Some(Blank.(
        id := item.tmdbId,
        idType := Str("tmdb"),
        title := item.title,
        year := item.year,
        mediaType := if item.itemType == Str("show") then Str("tv") else item.itemType,
        rating := item.score))
  }

  /** `loadList(params)`. A falsy key or list throws its own message; a list that is not a
      string makes `match` throw. Inside the `try`, a missing body throws "Empty response from
      MDBList.", a body that is not an array makes `map` throw, and any thrown error passes
      through `Reword`. Otherwise the entries with a TMDB id become items, in order. */
  function LoadList(apiKey: Val, input: Val, page: Val, fetch: string -> Result<Body<MdbItem>, Error>): (r: Result<seq<Item>, Error>)
    ensures !Truthy(apiKey) ==> r == Failure(Error("Please provide your MDBList API Key."))
    ensures Truthy(apiKey) && !Truthy(input) ==> r == Failure(Error("Please provide a List URL or ID."))
    ensures Truthy(apiKey) && Truthy(input) && !input.Str? ==> r == Failure(TypeError)
    ensures Truthy(apiKey) && input.Str? && input.s != "" ==>
      var reply := fetch(ListUrl(input.s, apiKey, page));
      && (reply.Failure? ==> r == Failure(Reword(reply.error)))
      && (reply == Success(Missing) ==> r == Failure(Reword(Error("Empty response from MDBList."))))
      && (reply == Success(NotArray) ==> r == Failure(Reword(TypeError)))
      && (reply.Success? && reply.value.Array? ==> r.Success? && r.value == FilterMap(reply.value.items, EntryToItem))
  {
    if !Truthy(apiKey) then Failure(Error("Please provide your MDBList API Key."))
    else if !Truthy(input) then Failure(Error("Please provide a List URL or ID."))
    else if !input.Str? then Failure(TypeError)
    else
      match fetch(ListUrl(input.s, apiKey, page))
      case Failure(e) => Failure(Reword(e))
      case Success(Missing) => Failure(Reword(Error("Empty response from MDBList.")))
      case Success(NotArray) => Failure(Reword(TypeError))
      case Success(Array(items)) => Success(FilterMap(items, EntryToItem))
  }

  /** The items of a successful load are exactly the entries with a truthy TMDB id. */
  lemma LoadListKeepsIdentified(apiKey: Val, input: Val, page: Val, fetch: string -> Result<Body<MdbItem>, Error>)
    requires LoadList(apiKey, input, page, fetch).Success?
    ensures var items := fetch(ListUrl(input.s, apiKey, page)).value.items;
      var r := LoadList(apiKey, input, page, fetch).value;
      && |r| <= |items|
      && (forall it :: it in r ==> Truthy(it.id) && it.idType == Str("tmdb"))
      && (forall e :: e in items && Truthy(e.tmdbId) ==> EntryToItem(e).value in r)
      && (forall it :: it in r ==> exists e :: e in items && e.tmdbId == it.id)
  {
    var items := fetch(ListUrl(input.s, apiKey, page)).value.items;
    var r := LoadList(apiKey, input, page, fetch).value;
    forall it | it in r ensures Truthy(it.id) && it.idType == Str("tmdb") && exists e :: e in items && e.tmdbId == it.id {
      var e :| e in items && EntryToItem(e) == Some(it);
    }
  }

  /** Only the errors of the request and of reading its reply are reworded, and only when they
      mention 404: the parameter errors come out as thrown. */
  lemma ParameterErrorsAreNotReworded(apiKey: Val, input: Val, page: Val, fetch: string -> Result<Body<MdbItem>, Error>)
    requires !Truthy(apiKey) || !Truthy(input) || !input.Str?
    ensures LoadList(apiKey, input, page, fetch).Failure?
    ensures LoadList(apiKey, input, page, fetch).error != Error(NotFoundMessage)
  {
  }
}
