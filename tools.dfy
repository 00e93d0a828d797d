/**
 * The three tools the server exposes: `list_installed_docsets`,
 * `search_documentation` and `enable_docset_fts`. Each validates its input,
 * bootstraps a base URL, makes one GET request and maps the answer, or the
 * failure, to its result. Log messages become the error values they announce.
 */
module Tools {
  import opened Wrappers
  import opened Text
  import opened Json
  import opened Truncation
  import opened Records
  import opened Bootstrap

  /** What one data request yields. */
  datatype HttpOutcome =
    | Ok(body: Json)                   // a 2xx answer whose body decodes as JSON
    | Status(code: int, text: string)  // any other status: `raise_for_status` raises HTTPStatusError
    | RequestError                     // any other exception: no connection, a timeout, a body that is not JSON

  /** The errors the tools report. */
  datatype ToolError =
    | QueryEmpty                       // blank `query`
    | IdentifiersEmpty                 // blank `docset_identifiers`
    | MaxResultsOutOfRange             // `max_results` outside 1..1000
    | IdentifierEmpty                  // blank docset identifier for `enable_docset_fts`
    | NotConnected                     // the bootstrap found no working base URL
    | NoDocsetsFound                   // 404 from the docset listing
    | InvalidDocsetIdentifier          // 400 naming a docset identifier that was not found
    | NoValidDocsets                   // 400 saying no docsets were found
    | BadRequest(text: string)         // any other 400
    | TrialExpired                     // 403 because the Dash trial has expired
    | Forbidden(text: string)          // any other 403
    | DocsetNotFound                   // 404 from enabling full-text search
    | HttpError(code: int)             // any other status
    | OperationFailed                  // any other exception, including a record that does not build
    | Advisory(message: string)        // the `message` the search endpoint sent along with its results

  datatype DocsetResults = DocsetResults(docsets: seq<DocsetResult>, error: Option<ToolError>)

  datatype SearchResults = SearchResults(results: seq<SearchResult>, error: Option<ToolError>)

  /** `result.get("docsets", [])` as `len` and `for` see it; `None` when that raises. */
  function DocsetItems(body: Json): Option<seq<Json>> {
    if body.JObject? then Iterate(GetOr(body.entries, "docsets", JList([]))) else None
  }

  /**
   * The raw results of a search body and its advisory message; `None` when
   * reading them raises, or when the message is neither a string nor null
   * (the result model then refuses it).
   */
  function SearchBody(body: Json): Option<(seq<Json>, Option<string>)> {
    if !body.JObject? then None
    else
      match (Iterate(GetOr(body.entries, "results", JList([]))), Lookup(body.entries, "message"))
      case (Some(items), None) => Some((items, None))
      case (Some(items), Some(JNull)) => Some((items, None))
      case (Some(items), Some(JStr(m))) => Some((items, Some(m)))
      case _ => None
  }

  /**
   * A 2xx listing answered with `body` gives the token-limited prefix of its
   * docsets and no error, or, when the listing cannot be read or a docset
   * before the cut-off does not build, nothing but a failure.
   */
  ghost predicate ListedFrom(body: Json, r: DocsetResults) {
    match DocsetItems(body)
    case None => r == DocsetResults([], Some(OperationFailed))
    case Some(items) =>
      || (r.error.None? && IsTokenLimitedPrefix(items, ParseDocset, DocsetTokens, r.docsets))
      || (r == DocsetResults([], Some(OperationFailed)) && exists k: nat :: FailsAt(items, ParseDocset, DocsetTokens, k))
  }

  /**
   * `list_installed_docsets`. No URL: a connection error and no request. Else
   * one GET of `/docsets/list`; a 404 means no docsets are installed, any
   * other status is an HTTP error.
   */
  method ListInstalledDocsets(w: World, response: HttpOutcome) returns (r: DocsetResults, trace: seq<Action>)
    ensures BaseUrlOf(w).None? ==> r == DocsetResults([], Some(NotConnected)) && trace == BootstrapTrace(w)
    ensures BaseUrlOf(w).Some? ==> trace == BootstrapTrace(w) + [HttpGet(BaseUrlOf(w).value + "/docsets/list", [])]
    ensures BaseUrlOf(w).Some? && response.Status? ==>
              r == DocsetResults([], Some(if response.code == 404 then NoDocsetsFound else HttpError(response.code)))
    ensures BaseUrlOf(w).Some? && response.RequestError? ==> r == DocsetResults([], Some(OperationFailed))
    ensures BaseUrlOf(w).Some? && response.Ok? ==> ListedFrom(response.body, r)
  {
    var url;
    url, trace := WorkingApiBaseUrl(w);
    if url.None? {
      return DocsetResults([], Some(NotConnected)), trace;
    }
    trace := trace + [HttpGet(url.value + "/docsets/list", [])];
    match response {
      case Status(code, _) =>
        r := DocsetResults([], Some(if code == 404 then NoDocsetsFound else HttpError(code)));
      case RequestError =>
        r := DocsetResults([], Some(OperationFailed));
      case Ok(body) =>
        var items := DocsetItems(body);
        if items.None? {
          return DocsetResults([], Some(OperationFailed)), trace;
        }
        var limited := TakeWithinLimit(items.value, ParseDocset, DocsetTokens);
        match limited {
          case Kept(docsets) => r := DocsetResults(docsets, None);
          case Malformed(_) => r := DocsetResults([], Some(OperationFailed));
        }
    }
  }

  /** `search_documentation` accepts its input: a query, docset identifiers, and 1 <= max_results <= 1000. */
  predicate ValidSearch(query: string, docsetIdentifiers: string, maxResults: int) {
    !IsBlank(query) && !IsBlank(docsetIdentifiers) && 1 <= maxResults <= 1000
  }

  /** The query parameters of a search request. */
  function SearchParams(query: string, docsetIdentifiers: string, searchSnippets: bool, maxResults: int)
    : seq<(string, Param)>
  {
    [("query", PStr(query)), ("docset_identifiers", PStr(docsetIdentifiers)),
     ("search_snippets", PBool(searchSnippets)), ("max_results", PInt(maxResults))]
  }

  /** How `search_documentation` reports a non-2xx status. */
  function SearchStatusError(code: int, text: string): (e: ToolError)
    ensures e.InvalidDocsetIdentifier? <==> code == 400 && Contains(text, "Docset with identifier") && Contains(text, "not found")
    ensures (e.InvalidDocsetIdentifier? || e.NoValidDocsets? || e.BadRequest?) <==> code == 400
    ensures (e.TrialExpired? || e.Forbidden?) <==> code == 403
    ensures e.NoValidDocsets? <==> && code == 400
                                   && !(Contains(text, "Docset with identifier") && Contains(text, "not found"))
                                   && Contains(text, "No docsets found")
    ensures e.TrialExpired? <==> code == 403 && Contains(text, "API access blocked due to Dash trial expiration")
    ensures (e.BadRequest? || e.Forbidden?) ==> e.text == text
    ensures e.HttpError? <==> code != 400 && code != 403
    ensures e.HttpError? ==> e.code == code
  {
    if code == 400 then
      if Contains(text, "Docset with identifier") && Contains(text, "not found") then InvalidDocsetIdentifier
      else if Contains(text, "No docsets found") then NoValidDocsets
      else BadRequest(text)
    else if code == 403 then
      if Contains(text, "API access blocked due to Dash trial expiration") then TrialExpired
      else Forbidden(text)
    else HttpError(code)
  }

  /**
   * A 2xx search answered with `body` gives the token-limited prefix of its
   * results, with the advisory message as the error when there is one; or,
   * when the body cannot be read or a result before the cut-off does not
   * build, nothing but a failure.
   */
  ghost predicate SearchedFrom(body: Json, r: SearchResults) {
    match SearchBody(body)
    case None => r == SearchResults([], Some(OperationFailed))
    case Some((items, message)) =>
      || (&& IsTokenLimitedPrefix(items, ParseSearchResult, SearchResultTokens, r.results)
          && r.error == if message.Some? then Some(Advisory(message.value)) else None)
      || (r == SearchResults([], Some(OperationFailed))
          && exists k: nat :: FailsAt(items, ParseSearchResult, SearchResultTokens, k))
  }

  /**
   * `search_documentation`. The input is checked before anything else
   * happens, in this order: the query, the docset identifiers, the result
   * limit. Then as for the listing, with one GET of `/search`.
   */
  method SearchDocumentation(w: World, query: string, docsetIdentifiers: string, searchSnippets: bool,
                             maxResults: int, response: HttpOutcome)
    returns (r: SearchResults, trace: seq<Action>)
    ensures IsBlank(query) ==> r == SearchResults([], Some(QueryEmpty)) && trace == []
    ensures !IsBlank(query) && IsBlank(docsetIdentifiers) ==>
              r == SearchResults([], Some(IdentifiersEmpty)) && trace == []
    ensures !IsBlank(query) && !IsBlank(docsetIdentifiers) && !(1 <= maxResults <= 1000) ==>
              r == SearchResults([], Some(MaxResultsOutOfRange)) && trace == []
    ensures ValidSearch(query, docsetIdentifiers, maxResults) && BaseUrlOf(w).None? ==>
              r == SearchResults([], Some(NotConnected)) && trace == BootstrapTrace(w)
    ensures ValidSearch(query, docsetIdentifiers, maxResults) && BaseUrlOf(w).Some? ==>
              trace == BootstrapTrace(w) + [HttpGet(BaseUrlOf(w).value + "/search",
                                                    SearchParams(query, docsetIdentifiers, searchSnippets, maxResults))]
    ensures ValidSearch(query, docsetIdentifiers, maxResults) && BaseUrlOf(w).Some? && response.Status? ==>
              r == SearchResults([], Some(SearchStatusError(response.code, response.text)))
    ensures ValidSearch(query, docsetIdentifiers, maxResults) && BaseUrlOf(w).Some? && response.RequestError? ==>
              r == SearchResults([], Some(OperationFailed))
    ensures ValidSearch(query, docsetIdentifiers, maxResults) && BaseUrlOf(w).Some? && response.Ok? ==>
              SearchedFrom(response.body, r)
  {
    trace := [];
    if IsBlank(query) {
      return SearchResults([], Some(QueryEmpty)), trace;
    }
    if IsBlank(docsetIdentifiers) {
      return SearchResults([], Some(IdentifiersEmpty)), trace;
    }
    if maxResults < 1 || maxResults > 1000 {
      return SearchResults([], Some(MaxResultsOutOfRange)), trace;
    }

    var url;
    url, trace := WorkingApiBaseUrl(w);
    if url.None? {
      return SearchResults([], Some(NotConnected)), trace;
    }
    trace := trace + [HttpGet(url.value + "/search", SearchParams(query, docsetIdentifiers, searchSnippets, maxResults))];
    match response {
      case Status(code, text) =>
        r := SearchResults([], Some(SearchStatusError(code, text)));
      case RequestError =>
        r := SearchResults([], Some(OperationFailed));
      case Ok(body) =>
        var read := SearchBody(body);
        if read.None? {
          return SearchResults([], Some(OperationFailed)), trace;
        }
        var (items, message) := read.value;
        var limited := TakeWithinLimit(items, ParseSearchResult, SearchResultTokens);
        match limited {
          case Kept(results) =>
            r := SearchResults(results, if message.Some? then Some(Advisory(message.value)) else None);
          case Malformed(_) =>
            r := SearchResults([], Some(OperationFailed));
        }
    }
  }

  /** How `enable_docset_fts` reports a non-2xx status. */
  function FtsStatusError(code: int, text: string): (e: ToolError)
    ensures e.BadRequest? <==> code == 400
    ensures e.DocsetNotFound? <==> code == 404
    ensures e.HttpError? <==> code != 400 && code != 404
    ensures e.BadRequest? ==> e.text == text
    ensures e.HttpError? ==> e.code == code
  {
    if code == 400 then BadRequest(text) else if code == 404 then DocsetNotFound else HttpError(code)
  }

  /**
   * `enable_docset_fts`: `true` only when the identifier is not blank, the
   * bootstrap finds a URL and the GET of `/docsets/enable_fts` succeeds;
   * `false`, with the reason, in every other case.
   */
  method EnableDocsetFts(w: World, identifier: string, response: HttpOutcome)
    returns (enabled: bool, reason: Option<ToolError>, trace: seq<Action>)
    ensures enabled <==> !IsBlank(identifier) && BaseUrlOf(w).Some? && response.Ok?
    ensures enabled <==> reason.None?
    ensures IsBlank(identifier) ==> reason == Some(IdentifierEmpty) && trace == []
    ensures !IsBlank(identifier) && BaseUrlOf(w).None? ==> reason == Some(NotConnected) && trace == BootstrapTrace(w)
    ensures !IsBlank(identifier) && BaseUrlOf(w).Some? ==>
              trace == BootstrapTrace(w) + [HttpGet(BaseUrlOf(w).value + "/docsets/enable_fts",
                                                    [("identifier", PStr(identifier))])]
    ensures !IsBlank(identifier) && BaseUrlOf(w).Some? && response.Status? ==>
              reason == Some(FtsStatusError(response.code, response.text))
    ensures !IsBlank(identifier) && BaseUrlOf(w).Some? && response.RequestError? ==> reason == Some(OperationFailed)
  {
    trace := [];
    if IsBlank(identifier) {
      return false, Some(IdentifierEmpty), trace;
    }
    var url;
    url, trace := WorkingApiBaseUrl(w);
    if url.None? {
      return false, Some(NotConnected), trace;
    }
    trace := trace + [HttpGet(url.value + "/docsets/enable_fts", [("identifier", PStr(identifier))])];
    match response {
      case Status(code, text) => enabled, reason := false, Some(FtsStatusError(code, text));
      case RequestError => enabled, reason := false, Some(OperationFailed);
      case Ok(_) => enabled, reason := true, None;
    }
  }

  /**
   * A listing answer determines the tool's result: at most 1660 docsets,
   * and an error only ever with an empty list.
   */
  lemma ListingDetermined(body: Json, r: DocsetResults, r': DocsetResults)
    requires ListedFrom(body, r) && ListedFrom(body, r')
    ensures r == r'
    ensures |r.docsets| <= 1660
    ensures r.error.Some? ==> r == DocsetResults([], Some(OperationFailed))
  {
    match DocsetItems(body) {
      case None =>
      case Some(items) =>
        TruncationDeterminate(items, ParseDocset, DocsetTokens);
        if r.error.None? {
          DocsetsKeptAtMost(items, r.docsets);
        }
    }
  }

  /**
   * A search answer determines the tool's result: at most 1245 results, and
   * results come with no error other than the endpoint's advisory message.
   */
  lemma SearchDetermined(body: Json, r: SearchResults, r': SearchResults)
    requires SearchedFrom(body, r) && SearchedFrom(body, r')
    ensures r == r'
    ensures |r.results| <= 1245
    ensures r.results != [] ==> r.error.None? || r.error.value.Advisory?
  {
    match SearchBody(body) {
      case None =>
      case Some((items, message)) =>
        TruncationDeterminate(items, ParseSearchResult, SearchResultTokens);
        if IsTokenLimitedPrefix(items, ParseSearchResult, SearchResultTokens, r.results) {
          SearchResultsKeptAtMost(items, r.results);
        }
    }
  }
}
