/**
 * The restaurants endpoint. POST validates the region, runs one text
 * search for "restaurants in <region>", maps every search result to a
 * restaurant record of a fixed shape and upserts the records one by one
 * into the `restaurants` table, keyed by name; GET lists the stored rows
 * that have a location.
 *
 * The places directory, the table's per-row errors and the generated ids
 * are inputs: `upstream` is what the search request yields, `failures[i]`
 * whether the i-th upsert reports an error, `ids[i]` the id generated for
 * the i-th record.
 */
module RestaurantsRoute {
  import opened JsText

  /** A point on the map. */
  datatype Coordinates = Coordinates(lat: real, lng: real)

  /**
   * One text-search result, as far as the endpoint reads it: `photos` holds
   * the photo references, and `geometry` is `None` when the result has no
   * location.
   */
  datatype RawPlace = RawPlace(
    name: string,
    photos: Option<seq<string>>,
    formattedPhoneNumber: Option<string>,
    website: Option<string>,
    formattedAddress: string,
    geometry: Option<Coordinates>)

  datatype Contact = Contact(phone: Option<string>, website: Option<string>)

  datatype Location = Location(address: string, lat: real, lng: real)

  /** A row of the `restaurants` table; `location` is nullable there. */
  datatype Restaurant = Restaurant(
    id: string,
    name: string,
    photo: Option<string>,
    contact: Contact,
    location: Option<Location>)

  /** What the search request yields: a thrown error, or a status and a body. */
  datatype Upstream = Unreachable | Reply(status: int, results: Option<seq<RawPlace>>)

  /** The parameters of the text-search request. */
  datatype SearchRequest = SearchRequest(query: string, key: string)

  /** What the store's select yields: the rows, an error result, or a throw. */
  datatype StoreRead = ReadOk | ReadError | ReadThrew

  /** The endpoint's reply: a message, a listing, or an error envelope with its status. */
  datatype RestaurantsReply = Message(message: string) | Listing(rows: set<Restaurant>) | ErrorReply(status: int, error: string)

  const QUERY_PREFIX := "restaurants in "
  const PHOTO_BASE := "https://maps.googleapis.com/maps/api/place/photo?maxwidth=400&photoreference="
  const KEY_PARAM := "&key="
  const REGION_REQUIRED := "Region is required"
  const UPSTREAM_FAILED := "Failed to fetch data from Google Places API"
  const INTERNAL_ERROR := "Internal server error"
  const UPDATED := "Restaurants updated successfully"
  const LIST_FAILED := "Failed to fetch restaurants"

  /** `response.ok`: a status in the 2xx range. */
  predicate Ok(status: int) {
    200 <= status <= 299
  }

  /** `data.results && data.results.length > 0`. */
  predicate HasResults(results: Option<seq<RawPlace>>) {
    results.Some? && |results.value| > 0
  }

  /**
   * The photo URL for a photo reference, from which the reference can be
   * read back.
   */
  function PhotoUrl(reference: string, apiKey: string): (url: string)
    ensures PhotoReference(url, apiKey) == Some(reference)
  {
    var tail := KEY_PARAM + apiKey;
    var url := PHOTO_BASE + reference + tail;
    assert url[..|PHOTO_BASE|] == PHOTO_BASE;
    assert url[|url| - |tail|..] == tail;
    assert url[|PHOTO_BASE|..|url| - |tail|] == reference;
    url
  }

  /**
   * The photo reference read back from a photo URL made with `apiKey`: what
   * lies between the fixed base and the trailing key parameter.
   */
  function PhotoReference(url: string, apiKey: string): (r: Option<string>)
    ensures r.Some? ==> |r.value| + |PHOTO_BASE| + |KEY_PARAM| + |apiKey| == |url|
  {
    var tail := KEY_PARAM + apiKey;
    if |url| >= |PHOTO_BASE| + |tail| && url[..|PHOTO_BASE|] == PHOTO_BASE && url[|url| - |tail|..] == tail
    then Some(url[|PHOTO_BASE|..|url| - |tail|])
    else None
  }

  /**
   * The record for one search result. Reading the coordinates of a result
   * without a geometry throws.
   */
  function Normalise(place: RawPlace, id: string, apiKey: string): (r: Fetch<Restaurant>)
    ensures r.Fetched? <==> place.geometry.Some?
    ensures r.Fetched? ==>
      && r.value.id == id
      && r.value.name == place.name
      && r.value.contact == Contact(place.formattedPhoneNumber, place.website)
      && r.value.location == Some(Location(place.formattedAddress, place.geometry.value.lat, place.geometry.value.lng))
    ensures r.Fetched? ==>
      (r.value.photo.Some? <==> place.photos.Some? && |place.photos.value| > 0)
    ensures r.Fetched? && r.value.photo.Some? ==>
      PhotoReference(r.value.photo.value, apiKey) == Some(place.photos.value[0])
  {
    var photo :=
      if place.photos.Some? && |place.photos.value| > 0
      then Some(PhotoUrl(place.photos.value[0], apiKey))
      else None;
    match place.geometry
    case None => Threw
    case Some(g) =>
      Fetched(Restaurant(
        id,
        place.name,
        photo,
        Contact(place.formattedPhoneNumber, place.website),
        Some(Location(place.formattedAddress, g.lat, g.lng))))
  }

  /**
   * `results.map(...)`: one record per result, in order, or a throw as
   * soon as a result lacks its geometry.
   */
  function NormaliseAll(places: seq<RawPlace>, ids: seq<string>, apiKey: string): (r: Fetch<seq<Restaurant>>)
    requires |ids| == |places|
    ensures r.Fetched? <==> forall i :: 0 <= i < |places| ==> places[i].geometry.Some?
    ensures r.Fetched? ==> |r.value| == |places|
    ensures r.Fetched? ==> forall i :: 0 <= i < |places| ==> Normalise(places[i], ids[i], apiKey) == Fetched(r.value[i])
  {
    if places == [] then Fetched([])
    else match Normalise(places[0], ids[0], apiKey)
      case Threw => Threw
      case Fetched(first) =>
        match NormaliseAll(places[1..], ids[1..], apiKey)
        case Threw => Threw
        case Fetched(rest) =>
          assert forall i :: 1 <= i < |places| ==> places[1..][i - 1] == places[i] && ids[1..][i - 1] == ids[i];
          Fetched([first] + rest)
  }

  /**
   * Every row is stored under its own name: the table's unique constraint
   * on `name`, which `onConflict: "name"` relies on.
   */
  ghost predicate NamesKeyed(rows: map<string, Restaurant>) {
    forall n :: n in rows ==> rows[n].name == n
  }

  /** In a table keyed by name, no two rows share a name. */
  lemma NameIdentifiesRow(rows: map<string, Restaurant>, x: Restaurant, y: Restaurant)
    requires NamesKeyed(rows) && x in rows.Values && y in rows.Values && x.name == y.name
    ensures x == y
  {
    var m :| m in rows && rows[m] == x;
    var n :| n in rows && rows[n] == y;
  }

  /** The names whose upsert succeeded. */
  ghost function WrittenNames(records: seq<Restaurant>, failures: seq<bool>): set<string>
    requires |failures| == |records|
  {
    set i | 0 <= i < |records| && !failures[i] :: records[i].name
  }

  /**
   * The table after upserting `records` in order with `onConflict: "name"`:
   * each successful upsert replaces the row of that name or adds one; a
   * failed upsert leaves the table as it was. The keys are the old names and
   * the names written, and a table keyed by name stays so.
   */
  function ApplyUpserts(rows: map<string, Restaurant>, records: seq<Restaurant>, failures: seq<bool>): (r: map<string, Restaurant>)
    requires |failures| == |records|
    ensures r.Keys == rows.Keys + WrittenNames(records, failures)
    ensures NamesKeyed(rows) ==> NamesKeyed(r)
  {
    if records == [] then rows
    else
      var n := |records| - 1;
      var before := ApplyUpserts(rows, records[..n], failures[..n]);
      assert WrittenNames(records, failures) == WrittenNames(records[..n], failures[..n]) + (if failures[n] then {} else {records[n].name}) by {
        WrittenNamesSnoc(records, failures);
      }
      if failures[n] then before else before[records[n].name := records[n]]
  }

  lemma WrittenNamesSnoc(records: seq<Restaurant>, failures: seq<bool>)
    requires |failures| == |records| > 0
    ensures var n := |records| - 1;
      WrittenNames(records, failures) == WrittenNames(records[..n], failures[..n]) + (if failures[n] then {} else {records[n].name})
  {
    var n := |records| - 1;
    forall x | x in WrittenNames(records, failures)
      ensures x in WrittenNames(records[..n], failures[..n]) + (if failures[n] then {} else {records[n].name})
    {
      var i :| 0 <= i < |records| && !failures[i] && records[i].name == x;
      if i < n {
        assert records[..n][i] == records[i] && failures[..n][i] == failures[i];
      }
    }
    forall x | x in WrittenNames(records[..n], failures[..n])
      ensures x in WrittenNames(records, failures)
    {
      var i :| 0 <= i < n && !failures[..n][i] && records[..n][i].name == x;
      assert records[i].name == x && !failures[i];
    }
  }

  /** The i-th upsert succeeded and no later successful upsert has the same name. */
  ghost predicate LastWrite(records: seq<Restaurant>, failures: seq<bool>, i: int)
    requires |failures| == |records|
  {
    && 0 <= i < |records|
    && !failures[i]
    && forall j :: i < j < |records| && !failures[j] ==> records[j].name != records[i].name
  }

  /** The last successful upsert of a name decides that name's row. */
  lemma {:induction false} LastWriteWins(rows: map<string, Restaurant>, records: seq<Restaurant>, failures: seq<bool>, i: int)
    requires |failures| == |records|
    requires LastWrite(records, failures, i)
    ensures var r := ApplyUpserts(rows, records, failures);
      records[i].name in r && r[records[i].name] == records[i]
  {
    var n := |records| - 1;
    var prefix, prefixFailures := records[..n], failures[..n];
    if i < n {
      forall j | i < j < n && !prefixFailures[j]
        ensures prefix[j].name != prefix[i].name
      {
        assert prefix[j] == records[j] && prefixFailures[j] == failures[j];
      }
      LastWriteWins(rows, prefix, prefixFailures, i);
      assert failures[n] || records[n].name != records[i].name;
    }
  }

  /** A name no successful upsert touched keeps its old row. */
  lemma {:induction false} UntouchedKept(rows: map<string, Restaurant>, records: seq<Restaurant>, failures: seq<bool>, name: string)
    requires |failures| == |records|
    requires forall i :: 0 <= i < |records| && !failures[i] ==> records[i].name != name
    ensures var r := ApplyUpserts(rows, records, failures);
      (name in r <==> name in rows) && (name in rows ==> r[name] == rows[name])
  {
    if records != [] {
      var n := |records| - 1;
      UntouchedKept(rows, records[..n], failures[..n], name);
    }
  }

  /** The table of restaurants, keyed by the `name` conflict column. */
  class RestaurantStore {
    var rows: map<string, Restaurant>

    /** The unique constraint on `name` holds. */
    ghost predicate Valid()
      reads this
    {
      NamesKeyed(rows)
    }

    constructor (initial: map<string, Restaurant>)
      requires NamesKeyed(initial)
      ensures rows == initial && Valid()
    {
      rows := initial;
    }

    /** One `upsert(restaurant, { onConflict: "name" })`; a failed one changes nothing. */
    method Upsert(restaurant: Restaurant, fails: bool)
      requires Valid()
      modifies this
      ensures rows == if fails then old(rows) else old(rows)[restaurant.name := restaurant]
      ensures Valid()
    {
      if !fails {
        rows := rows[restaurant.name := restaurant];
      }
    }

    /**
     * The upsert loop: every record is upserted once, in order, and a
     * failed upsert is logged and skipped. `errors` lists the indices of
     * the failed upserts, in order.
     */
    method UpsertAll(records: seq<Restaurant>, failures: seq<bool>) returns (errors: seq<nat>)
      requires |failures| == |records| && Valid()
      modifies this
      ensures rows == ApplyUpserts(old(rows), records, failures) && Valid()
      ensures forall k :: 0 <= k < |errors| ==> errors[k] < |records| && failures[errors[k]]
      ensures forall a, b :: 0 <= a < b < |errors| ==> errors[a] < errors[b]
      ensures forall i :: 0 <= i < |records| && failures[i] ==> i in errors
    {
      errors := [];
      for i := 0 to |records|
        invariant rows == ApplyUpserts(old(rows), records[..i], failures[..i]) && Valid()
        invariant forall k :: 0 <= k < |errors| ==> errors[k] < i && failures[errors[k]]
        invariant forall a, b :: 0 <= a < b < |errors| ==> errors[a] < errors[b]
        invariant forall j :: 0 <= j < i && failures[j] ==> j in errors
      {
        assert records[..i + 1][..i] == records[..i] && failures[..i + 1][..i] == failures[..i];
        Upsert(records[i], failures[i]);
        if failures[i] {
          errors := errors + [i];
        }
      }
      assert records[..|records|] == records && failures[..|failures|] == failures;
    }
  }

  /** The select with `.not("location", "is", null)`: the rows that have a location. */
  function Located(rows: map<string, Restaurant>): set<Restaurant> {
    set x | x in rows.Values && x.location.Some?
  }

  /**
   * GET /api/restaurants: the located rows, a 500 when the store reports an
   * error, and a 500 of another text when the query throws.
   */
  function Get(store: RestaurantStore, read: StoreRead): (r: RestaurantsReply)
    reads store
    ensures read.ReadOk? <==> r.Listing?
    ensures r.Listing? ==> forall x :: x in r.rows <==> x.location.Some? && exists n :: n in store.rows && store.rows[n] == x
    ensures read.ReadError? ==> r == ErrorReply(500, LIST_FAILED)
    ensures read.ReadThrew? ==> r == ErrorReply(500, INTERNAL_ERROR)
  {
    match read
    case ReadOk => Listing(Located(store.rows))
    case ReadError => ErrorReply(500, LIST_FAILED)
    case ReadThrew => ErrorReply(500, INTERNAL_ERROR)
  }

  /**
   * After POST's upserts, the record that last wrote a name is listed by
   * GET: the normaliser always sets a location.
   */
  lemma PostedRecordListed(rows: map<string, Restaurant>, places: seq<RawPlace>, ids: seq<string>, apiKey: string, failures: seq<bool>, i: int)
    requires |ids| == |places| == |failures|
    requires NormaliseAll(places, ids, apiKey).Fetched?
    requires LastWrite(NormaliseAll(places, ids, apiKey).value, failures, i)
    ensures var records := NormaliseAll(places, ids, apiKey).value;
      records[i] in Located(ApplyUpserts(rows, records, failures))
  {
    var records := NormaliseAll(places, ids, apiKey).value;
    LastWriteWins(rows, records, failures, i);
    var r := ApplyUpserts(rows, records, failures);
    assert r[records[i].name] in r.Values;
  }

  /**
   * In a table keyed by name, the record that last wrote a name is the only
   * row of that name GET lists after the upserts.
   */
  lemma LastWriteOnlyRow(rows: map<string, Restaurant>, records: seq<Restaurant>, failures: seq<bool>, i: int)
    requires |failures| == |records| && NamesKeyed(rows)
    requires LastWrite(records, failures, i)
    ensures forall x :: x in Located(ApplyUpserts(rows, records, failures)) && x.name == records[i].name ==> x == records[i]
  {
    LastWriteWins(rows, records, failures, i);
    var r := ApplyUpserts(rows, records, failures);
    assert records[i] in r.Values by {
      assert r[records[i].name] == records[i];
    }
    forall x | x in Located(r) && x.name == records[i].name
      ensures x == records[i]
    {
      NameIdentifiesRow(r, x, records[i]);
    }
  }

  /**
   * POST /api/restaurants. A falsy region is a 400 before any request; a
   * throw from the search request or the mapping is a 500; a non-2xx search
   * reply is an error carrying its status. Otherwise every result's record
   * is upserted in order and the success message is returned, even when
   * some upserts failed.
   */
  method Post(
    region: Option<string>, apiKey: string, upstream: Upstream,
    ids: seq<string>, failures: seq<bool>, store: RestaurantStore)
    returns (response: RestaurantsReply, request: Option<SearchRequest>, attempted: seq<Restaurant>)
    requires upstream.Reply? && HasResults(upstream.results) ==>
      |ids| == |upstream.results.value| == |failures|
    requires store.Valid()
    modifies store
    ensures store.Valid()
    ensures !Truthy(region) ==>
      response == ErrorReply(400, REGION_REQUIRED) && request == None && attempted == [] && store.rows == old(store.rows)
    ensures Truthy(region) ==> request == Some(SearchRequest(QUERY_PREFIX + region.value, apiKey))
    ensures Truthy(region) && upstream.Unreachable? ==>
      response == ErrorReply(500, INTERNAL_ERROR) && attempted == [] && store.rows == old(store.rows)
    ensures Truthy(region) && upstream.Reply? && !Ok(upstream.status) ==>
      response == ErrorReply(upstream.status, UPSTREAM_FAILED) && attempted == [] && store.rows == old(store.rows)
    ensures Truthy(region) && upstream.Reply? && Ok(upstream.status) && !HasResults(upstream.results) ==>
      response == Message(UPDATED) && attempted == [] && store.rows == old(store.rows)
    ensures Truthy(region) && upstream.Reply? && Ok(upstream.status) && HasResults(upstream.results) ==>
      var records := NormaliseAll(upstream.results.value, ids, apiKey);
      if records.Threw? then
        response == ErrorReply(500, INTERNAL_ERROR) && attempted == [] && store.rows == old(store.rows)
      else
        response == Message(UPDATED) && attempted == records.value
        && store.rows == ApplyUpserts(old(store.rows), records.value, failures)
  {
    attempted := [];
    if !Truthy(region) {
      return ErrorReply(400, REGION_REQUIRED), None, attempted;
    }
    request := Some(SearchRequest(QUERY_PREFIX + region.value, apiKey));
    if upstream.Unreachable? {
      return ErrorReply(500, INTERNAL_ERROR), request, attempted;
    }
    if !Ok(upstream.status) {
      return ErrorReply(upstream.status, UPSTREAM_FAILED), request, attempted;
    }
    if HasResults(upstream.results) {
      var restaurants := NormaliseAll(upstream.results.value, ids, apiKey);
      if restaurants.Threw? {
        return ErrorReply(500, INTERNAL_ERROR), request, attempted;
      }
      attempted := restaurants.value;
      var errors := store.UpsertAll(attempted, failures);
    }
    response := Message(UPDATED);
  }
}
