/** The search page of 20_Day20.py: on a Search click, a non-empty query
    and service are required, the service path must have three parts, and
    the hits are shown as numbered result cards with fallbacks for missing
    columns. The search itself is a parameter. */
module CortexSearch {
  import opened Wrappers
  import opened Text
  import opened SearchService

  const SearchColumns: seq<string> := ["CHUNK_TEXT", "FILE_NAME", "CHUNK_TYPE", "CHUNK_ID"]

  /** The "Number of results" slider: 1 to 20, default 5. */
  type ResultLimit = n: nat | 1 <= n <= 20 witness 5

  const DefaultLimit: ResultLimit := 5

  /** One result card: its number, file name, chunk type, chunk id, text. */
  datatype ResultCard = ResultCard(number: nat, fileName: string, chunkType: string, chunkId: string, text: string)

  function Card(number: nat, hit: Hit): ResultCard
  {
    ResultCard(number, Field(hit, "FILE_NAME", "N/A"), Field(hit, "CHUNK_TYPE", "N/A"),
               Field(hit, "CHUNK_ID", "N/A"), Field(hit, "CHUNK_TEXT", "No text found"))
  }

  /** `enumerate(results.results, 1)`: cards in service order, numbered from
      `first`. */
  function Cards(hits: seq<Hit>, first: nat): (cards: seq<ResultCard>)
    ensures |cards| == |hits|
    ensures forall i :: 0 <= i < |hits| ==> cards[i].number == first + i
    ensures forall i :: 0 <= i < |hits| ==>
      && (cards[i].fileName == if "FILE_NAME" in hits[i] then hits[i]["FILE_NAME"] else "N/A")
      && (cards[i].chunkType == if "CHUNK_TYPE" in hits[i] then hits[i]["CHUNK_TYPE"] else "N/A")
      && (cards[i].chunkId == if "CHUNK_ID" in hits[i] then hits[i]["CHUNK_ID"] else "N/A")
      && (cards[i].text == if "CHUNK_TEXT" in hits[i] then hits[i]["CHUNK_TEXT"] else "No text found")
  {
    if hits == [] then [] else [Card(first, hits[0])] + Cards(hits[1..], first + 1)
  }

  /** What the results container shows. */
  datatype SearchView =
    | Idle                            // no click yet
    | MissingInput                    // "Please enter a query and configure a search service."
    | BadPath(message: string)        // the three-part format message
    | SearchFailed(message: string)   // "Error: ..." from the search call
    | Found(cards: seq<ResultCard>)

  datatype SearchStep = SearchStep(request: Option<SearchRequest>, view: SearchView)

  function RunSearch(clicked: bool, query: string, service: string, limit: ResultLimit,
                     search: SearchRequest -> Result<seq<Hit>>): (s: SearchStep)
    ensures s.view.Idle? <==> !clicked
    ensures s.view.MissingInput? <==> clicked && (query == "" || service == "")
    ensures s.view.BadPath? <==> clicked && query != "" && service != "" && Count(service, '.') != 2
    ensures s.view.BadPath? ==> s.view.message == PathFormatError
    ensures s.request.Some? <==> clicked && query != "" && service != "" && Count(service, '.') == 2
    ensures s.request.Some? ==>
      && s.request.value.query == query
      && s.request.value.columns == SearchColumns
      && s.request.value.limit == limit
      && Join(".", [s.request.value.path.database, s.request.value.path.schema, s.request.value.path.service]) == service
    ensures s.view.Found? <==> s.request.Some? && search(s.request.value).Ok?
    ensures s.view.Found? ==> s.view.cards == Cards(search(s.request.value).value, 1)
    ensures s.request.Some? && search(s.request.value).Err? ==>
      s.view == SearchFailed("Error: " + search(s.request.value).error)
  {
    if !clicked then SearchStep(None, Idle)
    else if query == "" || service == "" then SearchStep(None, MissingInput)
    else
      match ParsePath(service)
      case Err(e) => SearchStep(None, BadPath(e))
      case Ok(path) =>
        var request := SearchRequest(path, query, SearchColumns, limit);
        match search(request)
        case Err(e) => SearchStep(Some(request), SearchFailed("Error: " + e))
        case Ok(hits) => SearchStep(Some(request), Found(Cards(hits, 1)))
  }

  /** Without both a query and a service nothing is searched: the view is
      the same whatever the search would answer. */
  lemma MissingInputSearchesNothing(query: string, service: string, limit: ResultLimit,
                                    s1: SearchRequest -> Result<seq<Hit>>, s2: SearchRequest -> Result<seq<Hit>>)
    requires query == "" || service == ""
    ensures RunSearch(true, query, service, limit, s1) == RunSearch(true, query, service, limit, s2)
    ensures RunSearch(true, query, service, limit, s1) == SearchStep(None, MissingInput)
  {
  }
}
