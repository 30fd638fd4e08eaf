/**
 * The input checks of the `/api/crawl` handler in server.backup.js (lines 17-35 and
 * 78-83): the request body's defaults, the three guards answered with status 400, and
 * the status-500 answer for anything thrown before the crawl starts, the log line of 21
 * among them.
 */
module Validation {
  import opened Wrappers
  import opened Text

  /** A parsed JSON value. Numbers are exact. */
  datatype Json =
    | JNull
    | JBool(b: bool)
    | JNumber(n: real)
    | JString(s: string)
    | JArray(items: seq<Json>)
    | JObject(fields: map<string, Json>)

  /** JavaScript truthiness of a JSON value. */
  predicate Truthy(j: Json) {
    match j
    case JNull => false
    case JBool(b) => b
    case JNumber(n) => n != 0.0
    case JString(s) => s != ""
    case _ => true
  }

  /** A request the handler goes on to crawl. */
  datatype CrawlRequest = CrawlRequest(categories: seq<Json>, maxPages: real, sortBy: Json)

  /** What the handler does with a request body: start the crawl, answer 400 with a
      message, or answer 500 because the body made it throw. */
  datatype Verdict = Accept(request: CrawlRequest) | BadRequest(error: string) | ServerError

  const ValidSorts: seq<string> :=
    ["recommended", "rating", "latest", "review_count", "popularity", "newest", "price_low", "price_high"]

  const CategoriesError: string := "Categories must be an array"
  const MaxPagesError: string := "maxPages must be a number between 1 and 100"

  /** The message of line 34, the valid orders joined by ", ". */
  const SortByError: string :=
    "sortBy must be one of: recommended, rating, latest, review_count, popularity, newest, price_low, price_high"

  /** The destructuring defaults of line 19: they apply only to a key the body does not have. */
  function Field(body: map<string, Json>, key: string, default: Json): (r: Json)
    ensures key in body ==> r == body[key]
    ensures key !in body ==> r == default
  {
    if key in body then body[key] else default
  }

  function CategoriesOf(body: map<string, Json>): Json { Field(body, "categories", JArray([])) }
  function MaxPagesOf(body: map<string, Json>): Json { Field(body, "maxPages", JNumber(30.0)) }
  function SortByOf(body: map<string, Json>): Json { Field(body, "sortBy", JNull) }

  /** `typeof maxPages !== 'number' || maxPages < 1 || maxPages > 100` (line 28). */
  predicate BadMaxPages(maxPages: Json) {
    !maxPages.JNumber? || maxPages.n < 1.0 || maxPages.n > 100.0
  }

  /** `sortBy && !validSorts.includes(sortBy)` (line 33): only a string can be among the
      valid ones, and a falsy value is not checked. */
  predicate BadSortBy(sortBy: Json) {
    Truthy(sortBy) && !(sortBy.JString? && sortBy.s in ValidSorts)
  }

  /** The guards in their order (lines 24-35), the first failure deciding the answer. */
  function Guards(categories: Json, maxPages: Json, sortBy: Json): (r: Verdict)
    ensures r.BadRequest? || r.Accept?
    ensures r.Accept? <==> categories.JArray? && !BadMaxPages(maxPages) && !BadSortBy(sortBy)
    ensures !categories.JArray? ==> r == BadRequest(CategoriesError)
    ensures categories.JArray? && BadMaxPages(maxPages) ==> r == BadRequest(MaxPagesError)
    ensures categories.JArray? && !BadMaxPages(maxPages) && BadSortBy(sortBy) ==> r == BadRequest(SortByError)
    ensures r.Accept? ==> r.request == CrawlRequest(categories.items, maxPages.n, sortBy)
  {
    if !categories.JArray? then BadRequest(CategoriesError)
    else if BadMaxPages(maxPages) then BadRequest(MaxPagesError)
    else if BadSortBy(sortBy) then BadRequest(SortByError)
    else Accept(CrawlRequest(categories.items, maxPages.n, sortBy))
  }

  /** Converting j to a string throws a TypeError. An object with its own `toString` key
      throws: in parsed JSON that value is never callable, and the inherited `valueOf` gives
      back the object itself. An array converts by `join`, which converts every item. */
  predicate StringThrows(j: Json) {
    match j
    case JObject(fields) => "toString" in fields
    case JArray(items) => exists k :: 0 <= k < |items| && StringThrows(items[k])
    case _ => false
  }

  /** The log line of line 21 throws: `categories.join` exists only on arrays and converts
      each item, `maxPages` is always converted, `sortBy` only when it is truthy. */
  predicate LogThrows(categories: Json, maxPages: Json, sortBy: Json) {
    !categories.JArray? || StringThrows(categories) || StringThrows(maxPages)
    || (Truthy(sortBy) && StringThrows(sortBy))
  }

  /** The handler as written: the log line at 21 runs before the array check at 24, and
      whatever it throws is caught at 78 and answered with 500. Every JSON value but an
      array lacks `join`, so a non-array `categories` never reaches the check. */
  function ValidateAsWritten(body: map<string, Json>): (r: Verdict)
    ensures r.ServerError? <==> LogThrows(CategoriesOf(body), MaxPagesOf(body), SortByOf(body))
    ensures !CategoriesOf(body).JArray? ==> r.ServerError?
    ensures !r.ServerError? ==> r == Guards(CategoriesOf(body), MaxPagesOf(body), SortByOf(body))
  {
    var categories := CategoriesOf(body);
    if LogThrows(categories, MaxPagesOf(body), SortByOf(body)) then ServerError
    else Guards(categories, MaxPagesOf(body), SortByOf(body))
  }

  /** The handler with the checks ahead of the log line, as the comment at line 23 and the
      message at line 25 intend: a request the guards refuse is answered 400, and the log
      line can then throw only on an item of the accepted categories array. */
  function Validate(body: map<string, Json>): (r: Verdict)
    ensures !CategoriesOf(body).JArray? ==> r == BadRequest(CategoriesError)
    ensures r.ServerError? <==>
      Guards(CategoriesOf(body), MaxPagesOf(body), SortByOf(body)).Accept? && StringThrows(CategoriesOf(body))
    ensures !r.ServerError? ==> r == Guards(CategoriesOf(body), MaxPagesOf(body), SortByOf(body))
  {
    var g := Guards(CategoriesOf(body), MaxPagesOf(body), SortByOf(body));
    if g.Accept? && LogThrows(CategoriesOf(body), MaxPagesOf(body), SortByOf(body)) then ServerError
    else g
  }

  /** As written, the array check at line 24 can never answer: `{"categories": "crm"}`
      gets a 500 where the check means to answer 400. */
  lemma CategoriesCheckUnreachable()
    ensures ValidateAsWritten(map["categories" := JString("crm")]) == ServerError
    ensures Validate(map["categories" := JString("crm")]) == BadRequest(CategoriesError)
    ensures forall body :: ValidateAsWritten(body) != BadRequest(CategoriesError)
  {
    forall body ensures ValidateAsWritten(body) != BadRequest(CategoriesError) {
      if !ValidateAsWritten(body).ServerError? {
        assert |CategoriesError| != |MaxPagesError|;
        assert |CategoriesError| != |SortByError|;
      }
    }
  }

  /** The two differ only where the log line throws on a body the guards refuse: as written
      that is a 500, corrected a 400. On a body the log line converts, or one the guards
      accept, they agree. */
  lemma AsWrittenAgreement(body: map<string, Json>)
    ensures ValidateAsWritten(body) != Validate(body) ==>
      ValidateAsWritten(body).ServerError? && Validate(body).BadRequest?
    ensures !LogThrows(CategoriesOf(body), MaxPagesOf(body), SortByOf(body)) ==>
      ValidateAsWritten(body) == Validate(body)
    ensures Guards(CategoriesOf(body), MaxPagesOf(body), SortByOf(body)).Accept? ==>
      ValidateAsWritten(body) == Validate(body)
  {
  }

  /** `{"toString": ...}` cannot be converted to a string: as `maxPages` or `sortBy` it makes
      the log line throw where the guards mean to answer 400, and as a category it makes
      both handlers answer 500. */
  lemma ToStringKeyThrows()
    ensures var o := JObject(map["toString" := JNumber(1.0)]);
      ValidateAsWritten(map["maxPages" := o]) == ServerError
      && Validate(map["maxPages" := o]) == BadRequest(MaxPagesError)
    ensures var o := JObject(map["toString" := JNumber(0.0)]);
      ValidateAsWritten(map["sortBy" := o]) == ServerError
      && Validate(map["sortBy" := o]) == BadRequest(SortByError)
    ensures var b := map["categories" := JArray([JObject(map["toString" := JNumber(1.0)])])];
      ValidateAsWritten(b) == ServerError && Validate(b) == ServerError
  {
    var c := JArray([JObject(map["toString" := JNumber(1.0)])]);
    assert StringThrows(c.items[0]);
  }

  /** An empty body takes the defaults of line 19: all categories, 30 pages, no sort. */
  lemma EmptyBodyDefaults()
    ensures Validate(map[]) == Accept(CrawlRequest([], 30.0, JNull))
  {
  }

  /** An accepted request has between 1 and 100 pages and a sort order that is either
      absent or one of the eight listed. */
  lemma AcceptedWithinBounds(body: map<string, Json>)
    requires Validate(body).Accept?
    ensures 1.0 <= Validate(body).request.maxPages <= 100.0
    ensures var s := Validate(body).request.sortBy; !Truthy(s) || (s.JString? && s.s in ValidSorts)
  {
  }

  /** An explicit null `sortBy` passes: the default applies only to a missing key, and a
      falsy value is not checked. */
  lemma NullSortByPasses(categories: seq<Json>, pages: real)
    requires 1.0 <= pages <= 100.0
    ensures Validate(map["categories" := JArray(categories), "maxPages" := JNumber(pages), "sortBy" := JNull])
      == if StringThrows(JArray(categories)) then ServerError else Accept(CrawlRequest(categories, pages, JNull))
  {
  }

  /** A number given as a string is not a number: `"maxPages": "30"` is refused. */
  lemma StringMaxPagesRefused()
    ensures Validate(map["maxPages" := JString("30")]) == BadRequest(MaxPagesError)
  {
  }

  /** A sort order outside the list is refused once the other fields pass. */
  lemma UnknownSortRefused()
    ensures Validate(map["sortBy" := JString("cheapest")]) == BadRequest(SortByError)
  {
    assert "cheapest" !in ValidSorts;
  }
}
