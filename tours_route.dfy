/**
 * The tours search-and-detail endpoint: it validates the city, logs the
 * keywords, builds one text query, follows the search's page tokens until
 * none is returned, then looks up the details of every hit and flattens
 * each hit and its detail into a tour record.
 *
 * The places directory is an oracle: `pages[i]` is what the i-th search
 * request yields and `details[i]` what the detail lookup for the i-th hit
 * yields, each either a value or a thrown error.
 */
module ToursRoute {
  import opened JsText

  /** One hit of a text-search page. */
  datatype PlaceSummary = PlaceSummary(placeId: string, name: string)

  /** One text-search response: its hits and the token of the next page, if any. */
  datatype SearchPage = SearchPage(results: seq<PlaceSummary>, nextPageToken: Option<string>)

  /** The fields the detail lookup asks for. */
  datatype PlaceDetail = PlaceDetail(
    name: string,
    formattedAddress: string,
    formattedPhoneNumber: Option<string>,
    website: Option<string>)

  /** The flattened record the endpoint returns, one per search hit. */
  datatype TourRecord = TourRecord(
    companyName: string,
    placeOfActivity: string,
    address: string,
    contact: string,
    city: string)

  /** The parameters of one text-search request. */
  datatype SearchRequest = SearchRequest(query: string, pageToken: Option<string>)

  /** The endpoint's reply: the records, or an error envelope with its status. */
  datatype TourResponse = Tours(records: seq<TourRecord>) | ErrorReply(status: nat, error: string)

  const QUERY_PREFIX := "tourist attractions in "
  const NO_CONTACT := "N/A"
  const CITY_REQUIRED := "City is required"
  const FETCH_FAILED := "Failed to fetch tourist attractions"

  /** The keywords log file, which only ever grows. */
  class KeywordLog {
    var contents: string

    constructor (initial: string)
      ensures contents == initial
    {
      contents := initial;
    }

    /**
     * Appends the keywords and a newline when they are truthy. A failed
     * append (`appendFails`) is swallowed and leaves the file as it was.
     */
    method LogKeywords(keywords: Option<string>, appendFails: bool)
      modifies this
      ensures Truthy(keywords) && !appendFails ==> contents == old(contents) + keywords.value + "\n"
      ensures !Truthy(keywords) || appendFails ==> contents == old(contents)
    {
      if Truthy(keywords) {
        if !appendFails {
          contents := contents + keywords.value + "\n";
        }
      }
    }
  }

  /**
   * The text query: the trimmed concatenation of the prefix, the city, a
   * space and the keywords (or nothing). It always starts with
   * "tourist attractions in" and never ends with whitespace.
   */
  function SearchQuery(city: string, keywords: Option<string>): (q: string)
    ensures |q| >= |QUERY_PREFIX| - 1 && q[..|QUERY_PREFIX| - 1] == QUERY_PREFIX[..|QUERY_PREFIX| - 1]
    ensures !IsWhitespace(q[|q| - 1])
  {
    var raw := QUERY_PREFIX + city + " " + OrEmpty(keywords);
    assert raw[..|QUERY_PREFIX|] == QUERY_PREFIX;
    assert raw[0] == 't' && raw[|QUERY_PREFIX| - 2] == 'n';
    TrimKeepsPrefix(raw, |QUERY_PREFIX| - 2);
    Trim(raw)
  }

  /**
   * Trimming a string that starts with a non-whitespace character and has
   * one at index `k` keeps everything up to and including index `k`.
   */
  lemma TrimKeepsPrefix(s: string, k: nat)
    requires k < |s| && !IsWhitespace(s[0]) && !IsWhitespace(s[k])
    ensures var r := Trim(s); |r| > k && r[..k + 1] == s[..k + 1] && !IsWhitespace(r[|r| - 1])
  {
    assert TrimStart(s) == s;
    TrimEndKeeps(s, k);
    TrimEndShape(s);
  }

  lemma {:induction false} TrimEndKeeps(s: string, k: nat)
    requires k < |s| && !IsWhitespace(s[k])
    ensures |TrimEnd(s)| > k
  {
    if IsWhitespace(s[|s| - 1]) {
      TrimEndKeeps(s[..|s| - 1], k);
    }
  }

  /** A string that neither starts nor ends with whitespace is its own trim. */
  lemma TrimOfUnpadded(s: string)
    requires s != [] && !IsWhitespace(s[0]) && !IsWhitespace(s[|s| - 1])
    ensures Trim(s) == s
  {
    assert TrimStart(s) == s;
    assert TrimEnd(s) == s;
  }

  /**
   * When the keywords are truthy and end in a visible character, the query
   * is the plain concatenation; when they are absent or empty and the city
   * ends in a visible character, the query is the prefix and the city, with
   * no trailing space.
   */
  lemma SearchQueryUntrimmed(city: string, keywords: Option<string>)
    requires var tail := if Truthy(keywords) then keywords.value else city;
      tail != "" && !IsWhitespace(tail[|tail| - 1])
    ensures Truthy(keywords) ==> SearchQuery(city, keywords) == QUERY_PREFIX + city + " " + keywords.value
    ensures !Truthy(keywords) ==> SearchQuery(city, keywords) == QUERY_PREFIX + city
  {
    if Truthy(keywords) {
      var s := QUERY_PREFIX + city + " " + keywords.value;
      assert s[0] == 't' && s[|s| - 1] == keywords.value[|keywords.value| - 1];
      TrimOfUnpadded(s);
    } else {
      var s := QUERY_PREFIX + city;
      var raw := s + " " + "";
      assert raw == s + " ";
      assert s[0] == 't' && s[|s| - 1] == city[|city| - 1];
      assert TrimStart(raw) == raw;
      assert raw[..|raw| - 1] == s;
      assert TrimEnd(raw) == TrimEnd(s) == s;
    }
  }

  /** `phone || website || 'N/A'`: the first truthy contact detail. */
  function Contact(d: PlaceDetail): (r: string)
    ensures r != ""
    ensures Truthy(d.formattedPhoneNumber) ==> r == d.formattedPhoneNumber.value
  {
    if Truthy(d.formattedPhoneNumber) then d.formattedPhoneNumber.value
    else if Truthy(d.website) then d.website.value
    else NO_CONTACT
  }

  /** The website stands in for a missing phone, and "N/A" for both missing. */
  lemma ContactFallback(d: PlaceDetail)
    ensures !Truthy(d.formattedPhoneNumber) && Truthy(d.website) ==> Contact(d) == d.website.value
    ensures !Truthy(d.formattedPhoneNumber) && !Truthy(d.website) ==> Contact(d) == NO_CONTACT
    ensures Contact(d) == NO_CONTACT ==>
      || (!Truthy(d.formattedPhoneNumber) && !Truthy(d.website))
      || d.formattedPhoneNumber == Some(NO_CONTACT)
      || d.website == Some(NO_CONTACT)
  {
  }

  /** The record built from one search hit, its detail and the request city. */
  function ToTourRecord(hit: PlaceSummary, detail: PlaceDetail, city: string): TourRecord {
    TourRecord(detail.name, hit.name, detail.formattedAddress, Contact(detail), city)
  }

  /**
   * `Promise.all` over the detail lookups: all records, in hit order, when
   * every lookup resolves, and a thrown error as soon as one throws.
   */
  function FanOut(hits: seq<PlaceSummary>, details: seq<Fetch<PlaceDetail>>, city: string): (r: Fetch<seq<TourRecord>>)
    requires |details| == |hits|
    ensures r.Fetched? <==> forall i :: 0 <= i < |details| ==> details[i].Fetched?
    ensures r.Fetched? ==> |r.value| == |hits|
    ensures r.Fetched? ==> forall i :: 0 <= i < |hits| ==>
      && r.value[i].companyName == details[i].value.name
      && r.value[i].placeOfActivity == hits[i].name
      && r.value[i].address == details[i].value.formattedAddress
      && r.value[i].contact == Contact(details[i].value)
      && r.value[i].city == city
  {
    if hits == [] then Fetched([])
    else match details[0]
      case Threw => Threw
      case Fetched(d) =>
        match FanOut(hits[1..], details[1..], city)
        case Threw => Threw
        case Fetched(rest) => Fetched([ToTourRecord(hits[0], d, city)] + rest)
  }

  /** A response stops the do-while loop: it threw, or its token is falsy. */
  predicate EndsPagination(p: Fetch<SearchPage>) {
    p.Threw? || !Truthy(p.value.nextPageToken)
  }

  /** The upstream eventually stops handing out page tokens (or fails). */
  predicate Terminates(pages: seq<Fetch<SearchPage>>) {
    exists i :: 0 <= i < |pages| && EndsPagination(pages[i])
  }

  lemma TerminatesTail(pages: seq<Fetch<SearchPage>>)
    requires Terminates(pages) && !EndsPagination(pages[0])
    ensures Terminates(pages[1..])
  {
    var i :| 0 <= i < |pages| && EndsPagination(pages[i]);
    assert pages[1..][i - 1] == pages[i];
  }

  /** The index of the last page requested: the first one that ends the loop. */
  function LastPage(pages: seq<Fetch<SearchPage>>): (k: nat)
    requires Terminates(pages)
    ensures k < |pages| && EndsPagination(pages[k])
    ensures forall i :: 0 <= i < k ==> !EndsPagination(pages[i])
  {
    if EndsPagination(pages[0]) then 0
    else
      TerminatesTail(pages);
      1 + LastPage(pages[1..])
  }

  /** The hits of the given responses, concatenated in order. */
  function Flatten(pages: seq<Fetch<SearchPage>>): seq<PlaceSummary> {
    if pages == [] then []
    else
      var last := pages[|pages| - 1];
      Flatten(pages[..|pages| - 1]) + (if last.Fetched? then last.value.results else [])
  }

  /** The total number of hits of the given responses. */
  function HitCount(pages: seq<Fetch<SearchPage>>): nat {
    if pages == [] then 0
    else
      var last := pages[|pages| - 1];
      HitCount(pages[..|pages| - 1]) + (if last.Fetched? then |last.value.results| else 0)
  }

  /** The accumulated hits number exactly the sum of the pages' hit counts. */
  lemma {:induction false} FlattenLength(pages: seq<Fetch<SearchPage>>)
    ensures |Flatten(pages)| == HitCount(pages)
  {
    if pages != [] {
      FlattenLength(pages[..|pages| - 1]);
    }
  }

  /** What the pagination loop produces: every page's hits, or a thrown error. */
  function SearchAll(pages: seq<Fetch<SearchPage>>): Fetch<seq<PlaceSummary>>
    requires Terminates(pages)
  {
    var k := LastPage(pages);
    if pages[k].Threw? then Threw else Fetched(Flatten(pages[..k + 1]))
  }

  /**
   * The do-while pagination loop: the first request carries no token, each
   * later one the token of the page before, and the loop stops at the first
   * page without a truthy token. The 2-second wait happens only when a token
   * was returned, so there is one wait fewer than there are requests.
   */
  method Paginate(query: string, pages: seq<Fetch<SearchPage>>)
    returns (result: Fetch<seq<PlaceSummary>>, requests: seq<SearchRequest>, delays: nat)
    requires Terminates(pages)
    ensures result == SearchAll(pages)
    ensures |requests| == LastPage(pages) + 1
    ensures requests[0] == SearchRequest(query, None)
    ensures forall i :: 0 < i < |requests| ==> requests[i] == SearchRequest(query, pages[i - 1].value.nextPageToken)
    ensures delays == |requests| - 1
  {
    ghost var k := LastPage(pages);
    var allPlaces: seq<PlaceSummary> := [];
    var nextPageToken: Option<string> := None;
    var i := 0;
    requests, delays := [], 0;
    while true
      invariant 0 <= i <= k
      invariant |requests| == i && delays == i
      invariant allPlaces == Flatten(pages[..i])
      invariant i == 0 ==> nextPageToken == None
      invariant i > 0 ==> nextPageToken == pages[i - 1].value.nextPageToken
      invariant forall j :: 0 <= j < i ==> requests[j] == SearchRequest(query, if j == 0 then None else pages[j - 1].value.nextPageToken)
      decreases k - i
    {
      requests := requests + [SearchRequest(query, nextPageToken)];
      var response := pages[i];
      if response.Threw? {
        result := Threw;
        return;
      }
      assert pages[..i + 1][..i] == pages[..i];
      allPlaces := allPlaces + response.value.results;
      nextPageToken := response.value.nextPageToken;
      if !Truthy(nextPageToken) {
        result := Fetched(allPlaces);
        return;
      }
      delays := delays + 1;
      i := i + 1;
    }
  }

  /**
   * POST /api/tours. A falsy city is a 400 before anything else happens;
   * otherwise the keywords are logged (best effort), every page is fetched
   * with the trimmed query, and every hit's detail is looked up by its
   * place id (`lookups`, in hit order). A throw from any upstream call
   * becomes a 500.
   */
  method Post(
    city: Option<string>, keywords: Option<string>,
    log: KeywordLog, appendFails: bool,
    pages: seq<Fetch<SearchPage>>, details: seq<Fetch<PlaceDetail>>)
    returns (response: TourResponse, requests: seq<SearchRequest>, lookups: seq<string>)
    requires Truthy(city) ==> Terminates(pages) && (SearchAll(pages).Fetched? ==> |details| == |SearchAll(pages).value|)
    modifies log
    ensures !Truthy(city) ==>
      response == ErrorReply(400, CITY_REQUIRED) && requests == [] && log.contents == old(log.contents)
    ensures Truthy(city) && Truthy(keywords) && !appendFails ==>
      log.contents == old(log.contents) + keywords.value + "\n"
    ensures Truthy(city) && (!Truthy(keywords) || appendFails) ==> log.contents == old(log.contents)
    ensures Truthy(city) ==> |requests| == LastPage(pages) + 1
    ensures forall i :: 0 <= i < |requests| ==> requests[i].query == SearchQuery(city.value, keywords)
    ensures !Truthy(city) || SearchAll(pages).Threw? ==> lookups == []
    ensures Truthy(city) && SearchAll(pages).Fetched? ==>
      |lookups| == |SearchAll(pages).value| &&
      forall i :: 0 <= i < |lookups| ==> lookups[i] == SearchAll(pages).value[i].placeId
    ensures Truthy(city) && SearchAll(pages).Threw? ==> response == ErrorReply(500, FETCH_FAILED)
    ensures Truthy(city) && SearchAll(pages).Fetched? ==>
      var fan := FanOut(SearchAll(pages).value, details, city.value);
      response == if fan.Threw? then ErrorReply(500, FETCH_FAILED) else Tours(fan.value)
  {
    if !Truthy(city) {
      return ErrorReply(400, CITY_REQUIRED), [], [];
    }
    log.LogKeywords(keywords, appendFails);
    var searchQuery := SearchQuery(city.value, keywords);
    var allPlaces, delays;
    allPlaces, requests, delays := Paginate(searchQuery, pages);
    if allPlaces.Threw? {
      return ErrorReply(500, FETCH_FAILED), requests, [];
    }
    var hits := allPlaces.value;
    lookups := seq(|hits|, i requires 0 <= i < |hits| => hits[i].placeId);
    var detailed := FanOut(allPlaces.value, details, city.value);
    if detailed.Threw? {
      return ErrorReply(500, FETCH_FAILED), requests, lookups;
    }
    response := Tours(detailed.value);
  }
}
