/**
 * The two record types the tools return, `DocsetResult` and `SearchResult`:
 * how one is built from a raw JSON record of the Dash API (required fields
 * read with `record[key]`, optional ones with `record.get(key)`, each checked
 * to be a string or null as the model declares), what `model_dump()` gives
 * back, and what `estimate_tokens` charges for one.
 */
module Records {
  import opened Wrappers
  import opened Json
  import opened Tokens
  import opened Truncation

  datatype DocsetResult = DocsetResult(
    name: string,
    identifier: string,
    platform: string,
    fullTextSearch: string,   // "not supported", "disabled", "indexing" or "enabled", as sent by Dash
    notice: Option<string>)

  datatype SearchResult = SearchResult(
    name: string,
    kind: string,             // the `type` field: Function, Class, ...
    platform: Option<string>,
    loadUrl: string,
    docset: Option<string>,
    description: Option<string>,
    language: Option<string>,
    tags: Option<string>)

  /** `record[key]` for a field declared `str`: present and a string, or the build fails. */
  function Required(entries: seq<(string, Json)>, key: string): (r: Option<string>)
    ensures r.Some? <==> Lookup(entries, key).Some? && Lookup(entries, key).value.JStr?
    ensures r.Some? ==> Lookup(entries, key) == Some(JStr(r.value))
  {
    match Lookup(entries, key)
    case Some(JStr(s)) => Some(s)
    case _ => None
  }

  /**
   * `record.get(key)` for a field declared `Optional[str]`: absent or null gives
   * `Some(None)`, a string `Some(Some(s))`, anything else fails the build (`None`).
   */
  function Optional(entries: seq<(string, Json)>, key: string): (r: Option<Option<string>>)
    ensures r == Some(None) <==> Lookup(entries, key).None? || Lookup(entries, key) == Some(JNull)
    ensures (exists s :: r == Some(Some(s))) <==> Lookup(entries, key).Some? && Lookup(entries, key).value.JStr?
    ensures r.Some? && r.value.Some? ==> Lookup(entries, key) == Some(JStr(r.value.value))
  {
    match Lookup(entries, key)
    case None => Some(None)
    case Some(JNull) => Some(None)
    case Some(JStr(s)) => Some(Some(s))
    case Some(_) => None
  }

  /** The value `model_dump()` gives an optional string field. */
  function OptionalJson(v: Option<string>): (j: Json)
    ensures j.JStr? || j.JNull?
  {
    match v
    case Some(s) => JStr(s)
    case None => JNull
  }

  /** `DocsetResult(name=docset["name"], ..., notice=docset.get("notice"))`. */
  function ParseDocset(raw: Json): (r: Option<DocsetResult>)
    ensures r.Some? <==> && raw.JObject?
                         && Required(raw.entries, "name").Some?
                         && Required(raw.entries, "identifier").Some?
                         && Required(raw.entries, "platform").Some?
                         && Required(raw.entries, "full_text_search").Some?
                         && Optional(raw.entries, "notice").Some?
    ensures r.Some? ==> && Lookup(raw.entries, "name") == Some(JStr(r.value.name))
                        && Lookup(raw.entries, "identifier") == Some(JStr(r.value.identifier))
                        && Lookup(raw.entries, "platform") == Some(JStr(r.value.platform))
                        && Lookup(raw.entries, "full_text_search") == Some(JStr(r.value.fullTextSearch))
                        && Optional(raw.entries, "notice") == Some(r.value.notice)
  {
    if !raw.JObject? then None
    else
      var e := raw.entries;
      match (Required(e, "name"), Required(e, "identifier"), Required(e, "platform"),
             Required(e, "full_text_search"), Optional(e, "notice"))
      case (Some(name), Some(identifier), Some(platform), Some(fts), Some(notice)) =>
        Some(DocsetResult(name, identifier, platform, fts, notice))
      case _ => None
  }

  /** The five keys cost 1 + 2 + 2 + 4 + 1 tokens and each value at least 1. */
  const MinDocsetTokens: nat := 15
  /** The eight keys cost 1 + 1 + 2 + 2 + 1 + 2 + 2 + 1 tokens and each value at least 1. */
  const MinSearchResultTokens: nat := 20

  /** `DocsetResult.model_dump()`: the fields in declaration order. */
  function DocsetJson(d: DocsetResult): Json {
    JObject([("name", JStr(d.name)), ("identifier", JStr(d.identifier)), ("platform", JStr(d.platform)),
             ("full_text_search", JStr(d.fullTextSearch)), ("notice", OptionalJson(d.notice))])
  }

  /** `estimate_tokens(docset_info)`. */
  function DocsetTokens(d: DocsetResult): (n: nat)
    ensures n >= MinDocsetTokens
  {
    ObjectTokensAtLeast(DocsetJson(d).entries, [2, 3, 3, 5, 2]);
    EstimateTokens(DocsetJson(d))
  }

  /** `SearchResult(name=item["name"], type=item["type"], ..., tags=item.get("tags"))`. */
  function ParseSearchResult(raw: Json): (r: Option<SearchResult>)
    ensures r.Some? <==> && raw.JObject?
                         && Required(raw.entries, "name").Some?
                         && Required(raw.entries, "type").Some?
                         && Required(raw.entries, "load_url").Some?
                         && Optional(raw.entries, "platform").Some?
                         && Optional(raw.entries, "docset").Some?
                         && Optional(raw.entries, "description").Some?
                         && Optional(raw.entries, "language").Some?
                         && Optional(raw.entries, "tags").Some?
    ensures r.Some? ==> && Lookup(raw.entries, "name") == Some(JStr(r.value.name))
                        && Lookup(raw.entries, "type") == Some(JStr(r.value.kind))
                        && Lookup(raw.entries, "load_url") == Some(JStr(r.value.loadUrl))
                        && Optional(raw.entries, "platform") == Some(r.value.platform)
                        && Optional(raw.entries, "docset") == Some(r.value.docset)
                        && Optional(raw.entries, "description") == Some(r.value.description)
                        && Optional(raw.entries, "language") == Some(r.value.language)
                        && Optional(raw.entries, "tags") == Some(r.value.tags)
  {
    if !raw.JObject? then None
    else
      var e := raw.entries;
      match (Required(e, "name"), Required(e, "type"), Optional(e, "platform"), Required(e, "load_url"))
      case (Some(name), Some(kind), Some(platform), Some(loadUrl)) =>
        (match (Optional(e, "docset"), Optional(e, "description"), Optional(e, "language"), Optional(e, "tags"))
         case (Some(docset), Some(description), Some(language), Some(tags)) =>
           Some(SearchResult(name, kind, platform, loadUrl, docset, description, language, tags))
         case _ => None)
      case _ => None
  }

  /** `SearchResult.model_dump()`. */
  function SearchResultJson(r: SearchResult): Json {
    JObject([("name", JStr(r.name)), ("type", JStr(r.kind)), ("platform", OptionalJson(r.platform)),
             ("load_url", JStr(r.loadUrl)), ("docset", OptionalJson(r.docset)),
             ("description", OptionalJson(r.description)), ("language", OptionalJson(r.language)),
             ("tags", OptionalJson(r.tags))])
  }

  /** `estimate_tokens(search_result)`. */
  function SearchResultTokens(r: SearchResult): (n: nat)
    ensures n >= MinSearchResultTokens
  {
    SearchResultTokensFloor(r);
    EstimateTokens(SearchResultJson(r))
  }

  /** Lower bounds on the cost of the eight fields of a search result's dump, in order. */
  const SearchResultFloors: seq<nat> := [2, 2, 3, 3, 2, 3, 3, 2]

  /** Each field costs at least its key's tokens and one token of value. */
  lemma SearchResultFieldFloors(r: SearchResult)
    ensures |SearchResultFloors| == |SearchResultJson(r).entries|
    ensures forall i :: 0 <= i < |SearchResultFloors| ==>
              EntryTokens(SearchResultJson(r).entries[i]) >= SearchResultFloors[i]
  {
    var e := SearchResultJson(r).entries;
    forall i | 0 <= i < |e|
      ensures EntryTokens(e[i]) >= SearchResultFloors[i]
    {
      assert EntryTokens(e[i]) >= StringTokens(e[i].0) + 1;
    }
  }

  /** The eight field floors add up to the minimum cost of a search result. */
  lemma SearchResultTokensFloor(r: SearchResult)
    ensures EstimateTokens(SearchResultJson(r)) >= MinSearchResultTokens
  {
    var j := SearchResultJson(r);
    SearchResultFieldFloors(r);
    ObjectTokensAtLeast(j.entries, SearchResultFloors);
    SearchResultFloorsSum();
    assert EstimateTokens(j) == ObjectTokens(j.entries);
  }

  lemma SearchResultFloorsSum()
    ensures Sum(SearchResultFloors) == MinSearchResultTokens
  {
  }

  /** Building a docset record from its own dump gives the record back: no field is lost or altered. */
  lemma DocsetRoundTrip(d: DocsetResult)
    ensures ParseDocset(DocsetJson(d)) == Some(d)
  {
    var e := DocsetJson(d).entries;
    DocsetNamesFound(d);
    DocsetStatusFound(d);
    OptionalOfJson(e, "notice", d.notice);
    assert Required(e, "name") == Some(d.name);
    assert Required(e, "identifier") == Some(d.identifier);
    assert Required(e, "platform") == Some(d.platform);
    assert Required(e, "full_text_search") == Some(d.fullTextSearch);
  }

  /** The dump's name, identifier and platform are found under their keys. */
  lemma DocsetNamesFound(d: DocsetResult)
    ensures Lookup(DocsetJson(d).entries, "name") == Some(JStr(d.name))
    ensures Lookup(DocsetJson(d).entries, "identifier") == Some(JStr(d.identifier))
    ensures Lookup(DocsetJson(d).entries, "platform") == Some(JStr(d.platform))
  {
    var e := DocsetJson(d).entries;
    LookupAt(e, 2);
    LookupAt(e, 1);
    LookupAt(e, 0);
  }

  /** The dump's full-text search status and notice are found under their keys. */
  lemma DocsetStatusFound(d: DocsetResult)
    ensures Lookup(DocsetJson(d).entries, "full_text_search") == Some(JStr(d.fullTextSearch))
    ensures Lookup(DocsetJson(d).entries, "notice") == Some(OptionalJson(d.notice))
  {
    var e := DocsetJson(d).entries;
    LookupAt(e, 4);
    LookupAt(e, 3);
  }

  /** Building a search result from its own dump gives the result back. */
  lemma SearchResultRoundTrip(r: SearchResult)
    ensures ParseSearchResult(SearchResultJson(r)) == Some(r)
  {
    SearchResultHeadFound(r);
    SearchResultMiddleFound(r);
    SearchResultTailFound(r);
    BuildSearchResult(SearchResultJson(r).entries, r);
  }

  /** The dump's name, type and platform are found under their keys. */
  lemma SearchResultHeadFound(r: SearchResult)
    ensures Lookup(SearchResultJson(r).entries, "name") == Some(JStr(r.name))
    ensures Lookup(SearchResultJson(r).entries, "type") == Some(JStr(r.kind))
    ensures Lookup(SearchResultJson(r).entries, "platform") == Some(OptionalJson(r.platform))
  {
    var e := SearchResultJson(r).entries;
    // Keys of equal length differ in an early character.
    assert "name"[0] != "type"[0] && "name"[0] != "tags"[0] && "type"[1] != "tags"[1];
    assert "platform"[0] != "load_url"[0] && "platform"[0] != "language"[0];
    LookupAt(e, 0); LookupAt(e, 1); LookupAt(e, 2);
  }

  /** The dump's load URL, docset and description are found under their keys. */
  lemma SearchResultMiddleFound(r: SearchResult)
    ensures Lookup(SearchResultJson(r).entries, "load_url") == Some(JStr(r.loadUrl))
    ensures Lookup(SearchResultJson(r).entries, "docset") == Some(OptionalJson(r.docset))
    ensures Lookup(SearchResultJson(r).entries, "description") == Some(OptionalJson(r.description))
  {
    var e := SearchResultJson(r).entries;
    assert "load_url"[1] != "language"[1];
    LookupAt(e, 3); LookupAt(e, 4); LookupAt(e, 5);
  }

  /** The dump's language and tags are found under their keys. */
  lemma SearchResultTailFound(r: SearchResult)
    ensures Lookup(SearchResultJson(r).entries, "language") == Some(OptionalJson(r.language))
    ensures Lookup(SearchResultJson(r).entries, "tags") == Some(OptionalJson(r.tags))
  {
    var e := SearchResultJson(r).entries;
    LookupAt(e, 6); LookupAt(e, 7);
  }

  /** A search result is built from any record holding its dumped fields under their keys. */
  lemma BuildSearchResult(e: seq<(string, Json)>, r: SearchResult)
    requires Lookup(e, "name") == Some(JStr(r.name)) && Lookup(e, "type") == Some(JStr(r.kind))
    requires Lookup(e, "load_url") == Some(JStr(r.loadUrl))
    requires Lookup(e, "platform") == Some(OptionalJson(r.platform))
    requires Lookup(e, "docset") == Some(OptionalJson(r.docset))
    requires Lookup(e, "description") == Some(OptionalJson(r.description))
    requires Lookup(e, "language") == Some(OptionalJson(r.language))
    requires Lookup(e, "tags") == Some(OptionalJson(r.tags))
    ensures ParseSearchResult(JObject(e)) == Some(r)
  {
    OptionalOfJson(e, "platform", r.platform);
    OptionalOfJson(e, "docset", r.docset);
    OptionalOfJson(e, "description", r.description);
    OptionalOfJson(e, "language", r.language);
    OptionalOfJson(e, "tags", r.tags);
    assert Required(e, "name") == Some(r.name);
    assert Required(e, "type") == Some(r.kind);
    assert Required(e, "load_url") == Some(r.loadUrl);
  }

  /** `record.get(key)` on a dumped optional field gives the field back. */
  lemma OptionalOfJson(e: seq<(string, Json)>, key: string, v: Option<string>)
    requires Lookup(e, key) == Some(OptionalJson(v))
    ensures Optional(e, key) == Some(v)
  {
  }

  /** The token limit lets at most 1660 docsets through. */
  lemma DocsetsKeptAtMost(raw: seq<Json>, kept: seq<DocsetResult>)
    requires IsTokenLimitedPrefix(raw, ParseDocset, DocsetTokens, kept)
    ensures |kept| <= 1660
  {
    KeptAtMost(raw, ParseDocset, DocsetTokens, kept, MinDocsetTokens);
  }

  /** The token limit lets at most 1245 search results through, whatever `max_results` asks for. */
  lemma SearchResultsKeptAtMost(raw: seq<Json>, kept: seq<SearchResult>)
    requires IsTokenLimitedPrefix(raw, ParseSearchResult, SearchResultTokens, kept)
    ensures |kept| <= 1245
  {
    KeptAtMost(raw, ParseSearchResult, SearchResultTokens, kept, MinSearchResultTokens);
  }
}
