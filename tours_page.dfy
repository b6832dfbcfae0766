/**
 * The tours page's batch run. Two text areas hold cities and keyword groups,
 * one per line. A run calls the tours endpoint once per (city, keyword group)
 * pair, cities outer and groups inner. It appends each successful unit's
 * records to `places`, logs one line per unit that found records or failed,
 * and reports progress after every unit.
 *
 * The endpoint is an oracle: `outcomes[n]` is what the n-th call yields.
 */
module ToursUi {
  import opened JsText
  import opened ToursRoute

  /** One unit of batch work. */
  datatype SearchTerm = SearchTerm(city: string, keywords: string)

  /** What one call to the tours endpoint yields on the page. */
  datatype UnitOutcome = Responded(data: seq<TourRecord>) | Failed

  const COMPLETE_STATUS := "Automation Complete."
  const CLEARED_MESSAGE := "Results cleared."

  /** The inner loop's units for one city: every keyword group in order. */
  function Row(city: string, groups: seq<string>): (r: seq<SearchTerm>)
    ensures |r| == |groups|
    ensures forall j :: 0 <= j < |r| ==> r[j] == SearchTerm(city, groups[j])
  {
    seq(|groups|, j requires 0 <= j < |groups| => SearchTerm(city, groups[j]))
  }

  /** The units of a run in nested order, cities outer and keyword groups inner. */
  function SearchTerms(cities: seq<string>, groups: seq<string>): (r: seq<SearchTerm>)
    ensures |r| == |cities| * |groups|
  {
    if cities == [] then []
    else
      var rest := SearchTerms(cities[1..], groups);
      assert |cities| * |groups| == |groups| + (|cities| - 1) * |groups|;
      Row(cities[0], groups) + rest
  }

  /** Unit number `i * |groups| + j` pairs city `i` with keyword group `j`. */
  lemma {:induction false} SearchTermAt(cities: seq<string>, groups: seq<string>, i: nat, j: nat)
    requires i < |cities| && j < |groups|
    ensures i * |groups| + j < |cities| * |groups|
    ensures SearchTerms(cities, groups)[i * |groups| + j] == SearchTerm(cities[i], groups[j])
  {
    if i > 0 {
      SearchTermAt(cities[1..], groups, i - 1, j);
      assert i * |groups| + j == |groups| + ((i - 1) * |groups| + j);
      assert |cities| * |groups| == |groups| + (|cities| - 1) * |groups|;
    }
  }

  /**
   * Row `i` of a run's units, which starts at unit `off`, pairs city `i` with
   * every keyword group, in order, and ends where row `i + 1` starts.
   */
  lemma SearchTermsRow(cities: seq<string>, groups: seq<string>, i: nat, off: nat)
    requires i < |cities| && off == i * |groups|
    ensures off + |groups| == (i + 1) * |groups| <= |SearchTerms(cities, groups)|
    ensures forall j :: 0 <= j < |groups| ==> SearchTerms(cities, groups)[off + j] == SearchTerm(cities[i], groups[j])
  {
    RowEnd(i, |cities|, |groups|);
    forall j | 0 <= j < |groups|
      ensures SearchTerms(cities, groups)[off + j] == SearchTerm(cities[i], groups[j])
    {
      SearchTermAt(cities, groups, i, j);
    }
  }

  /** Newline-free text areas give newline-free units. */
  lemma {:induction false} SearchTermsNewlineFree(cities: seq<string>, groups: seq<string>)
    requires forall i :: 0 <= i < |cities| ==> '\n' !in cities[i]
    requires forall j :: 0 <= j < |groups| ==> '\n' !in groups[j]
    ensures forall n :: 0 <= n < |SearchTerms(cities, groups)| ==>
      '\n' !in SearchTerms(cities, groups)[n].city && '\n' !in SearchTerms(cities, groups)[n].keywords
  {
    if cities != [] {
      SearchTermsNewlineFree(cities[1..], groups);
      var row: seq<SearchTerm>, rest: seq<SearchTerm> := Row(cities[0], groups), SearchTerms(cities[1..], groups);
      forall n | 0 <= n < |row + rest|
        ensures '\n' !in (row + rest)[n].city && '\n' !in (row + rest)[n].keywords
      {
        if n >= |row| { assert (row + rest)[n] == rest[n - |row|]; }
      }
    }
  }

  /** The records one unit adds to `places`: none when its call failed. */
  function Data(o: UnitOutcome): seq<TourRecord> {
    if o.Responded? then o.data else []
  }

  /** The records of the successful units, in loop order; failures add nothing. */
  function Gathered(outcomes: seq<UnitOutcome>): seq<TourRecord> {
    if outcomes == [] then []
    else Gathered(outcomes[..|outcomes| - 1]) + Data(outcomes[|outcomes| - 1])
  }

  lemma {:induction false} GatheredAppend(a: seq<UnitOutcome>, b: seq<UnitOutcome>)
    ensures Gathered(a + b) == Gathered(a) + Gathered(b)
  {
    if b != [] {
      GatheredAppend(a, b[..|b| - 1]);
      assert (a + b)[..|a + b| - 1] == a + b[..|b| - 1];
    } else {
      assert a + b == a;
    }
  }

  /**
   * The records of a successful unit appear, contiguously, in what a run
   * gathers, right after those of the successful units before it, whatever
   * the other units did.
   */
  lemma SuccessfulUnitKept(outcomes: seq<UnitOutcome>, n: nat)
    requires n < |outcomes| && outcomes[n].Responded?
    ensures var off, d := |Gathered(outcomes[..n])|, outcomes[n].data;
      off + |d| <= |Gathered(outcomes)| && Gathered(outcomes)[off..off + |d|] == d
  {
    var before, after := outcomes[..n], outcomes[n + 1..];
    assert outcomes == (before + [outcomes[n]]) + after;
    GatheredAppend(before + [outcomes[n]], after);
    assert (before + [outcomes[n]])[..n] == before;
    SliceOf(Gathered(outcomes), Gathered(before), outcomes[n].data, Gathered(after));
  }

  /** The middle part of a sequence cut in three. */
  lemma SliceOf<T>(whole: seq<T>, a: seq<T>, d: seq<T>, b: seq<T>)
    requires whole == a + d + b
    ensures |a| + |d| <= |whole| && whole[|a|..|a| + |d|] == d
  {
    assert whole[|a|..] == d + b;
  }

  /**
   * The templates of the texts the page shows during a run: the status line
   * of a unit, and the log line of a unit that found records or failed.
   */
  datatype PageText = PageText(
    status: SearchTerm -> string,
    found: (SearchTerm, nat) -> string,
    failed: SearchTerm -> string)

  /** The page's own templates. */
  const PAGE_TEXT := PageText(
    (t: SearchTerm) => "Processing: " + t.city + " - " + t.keywords + "...",
    (t: SearchTerm, count: nat) => "Found " + NatToString(count) + " results for " + t.city + " with keywords \"" + t.keywords + "\".",
    (t: SearchTerm) => "Failed to fetch for " + t.city + " with keywords \"" + t.keywords + "\".")

  /** A unit whose city and keywords break no line gets a log line that breaks none. */
  ghost predicate SingleLine(pt: PageText) {
    && (forall t: SearchTerm, count: nat :: '\n' !in t.city && '\n' !in t.keywords ==> '\n' !in pt.found(t, count))
    && (forall t: SearchTerm :: '\n' !in t.city && '\n' !in t.keywords ==> '\n' !in pt.failed(t))
  }

  /** The page's templates give single lines. */
  lemma PageTextSingleLine()
    ensures SingleLine(PAGE_TEXT)
  {
    forall t: SearchTerm, count: nat | '\n' !in t.city && '\n' !in t.keywords
      ensures '\n' !in PAGE_TEXT.found(t, count)
    {
      NatToStringDigits(count);
    }
  }

  /** The log lines one unit contributes: none for a success without records. */
  function UnitLines(pt: PageText, t: SearchTerm, o: UnitOutcome): (r: seq<string>)
    ensures |r| <= 1
  {
    match o
    case Responded(data) => if |data| > 0 then [pt.found(t, |data|)] else []
    case Failed => [pt.failed(t)]
  }

  /** The log lines of a run, unit by unit. */
  function Lines(pt: PageText, terms: seq<SearchTerm>, outcomes: seq<UnitOutcome>): seq<string>
    requires |terms| == |outcomes|
  {
    if terms == [] then []
    else
      var n := |terms| - 1;
      Lines(pt, terms[..n], outcomes[..n]) + UnitLines(pt, terms[n], outcomes[n])
  }

  /** What one unit appends to the message: its line, after a newline. */
  function UnitLog(pt: PageText, t: SearchTerm, o: UnitOutcome): string {
    match o
    case Responded(data) => if |data| > 0 then "\n" + pt.found(t, |data|) else ""
    case Failed => "\n" + pt.failed(t)
  }

  /** The message text a run builds. */
  function Log(pt: PageText, terms: seq<SearchTerm>, outcomes: seq<UnitOutcome>): string
    requires |terms| == |outcomes|
  {
    if terms == [] then ""
    else
      var n := |terms| - 1;
      Log(pt, terms[..n], outcomes[..n]) + UnitLog(pt, terms[n], outcomes[n])
  }

  /** A unit logs nothing, or one newline-free line after a newline. */
  lemma UnitLogShape(pt: PageText, t: SearchTerm, o: UnitOutcome)
    requires SingleLine(pt) && '\n' !in t.city && '\n' !in t.keywords
    ensures var unit := UnitLines(pt, t, o);
      || (unit == [] && UnitLog(pt, t, o) == "")
      || (unit == [unit[0]] && UnitLog(pt, t, o) == "\n" + unit[0] && '\n' !in unit[0])
  {
  }

  /**
   * Splitting the message on newlines gives an empty first line (the message
   * starts empty) followed by exactly the units' log lines, in order.
   */
  lemma {:induction false} LogLines(pt: PageText, terms: seq<SearchTerm>, outcomes: seq<UnitOutcome>)
    requires |terms| == |outcomes| && SingleLine(pt)
    requires forall n :: 0 <= n < |terms| ==> '\n' !in terms[n].city && '\n' !in terms[n].keywords
    ensures Split(Log(pt, terms, outcomes)) == [""] + Lines(pt, terms, outcomes)
  {
    if terms != [] {
      var n := |terms| - 1;
      LogLines(pt, terms[..n], outcomes[..n]);
      var prefix := Log(pt, terms[..n], outcomes[..n]);
      var unit := UnitLines(pt, terms[n], outcomes[n]);
      UnitLogShape(pt, terms[n], outcomes[n]);
      assert Log(pt, terms, outcomes) == prefix + UnitLog(pt, terms[n], outcomes[n]);
      assert Lines(pt, terms, outcomes) == Lines(pt, terms[..n], outcomes[..n]) + unit;
      if unit == [] {
        assert Log(pt, terms, outcomes) == prefix;
        assert Lines(pt, terms, outcomes) == Lines(pt, terms[..n], outcomes[..n]);
      } else {
        SplitAppend(prefix, unit[0]);
        SplitSingle(unit[0]);
        AppendAssoc(prefix, "\n", unit[0]);
        assert Log(pt, terms, outcomes) == prefix + "\n" + unit[0];
        assert Split(Log(pt, terms, outcomes)) == Split(prefix) + [unit[0]];
        AppendAssoc([""], Lines(pt, terms[..n], outcomes[..n]), unit);
      }
    }
  }
  /**
   * The message of a run over the non-blank lines of two text areas splits
   * back into its log lines, after the leading empty one.
   */
  lemma BatchLogLines(pt: PageText, cities: string, keywordGroups: string, outcomes: seq<UnitOutcome>)
    requires SingleLine(pt)
    requires |outcomes| == |SearchTerms(NonBlankLines(cities), NonBlankLines(keywordGroups))|
    ensures var terms := SearchTerms(NonBlankLines(cities), NonBlankLines(keywordGroups));
      Split(Log(pt, terms, outcomes)) == [""] + Lines(pt, terms, outcomes)
  {
    NonBlankLinesShape(cities);
    NonBlankLinesShape(keywordGroups);
    var cityList, keywordGroupList := NonBlankLines(cities), NonBlankLines(keywordGroups);
    SearchTermsNewlineFree(cityList, keywordGroupList);
    LogLines(pt, SearchTerms(cityList, keywordGroupList), outcomes);
  }


  /** A failed unit leaves a failure line naming its city and keywords. */
  lemma {:induction false} FailedUnitLogged(pt: PageText, terms: seq<SearchTerm>, outcomes: seq<UnitOutcome>, n: nat)
    requires |terms| == |outcomes| && n < |terms| && outcomes[n].Failed?
    ensures pt.failed(terms[n]) in Lines(pt, terms, outcomes)
  {
    var last := |terms| - 1;
    if n < last {
      FailedUnitLogged(pt, terms[..last], outcomes[..last], n);
    }
  }

  /** The progress shown after `completed` of `total` units, as a percentage. */
  function ProgressAfter(completed: nat, total: nat): real
    requires total > 0
  {
    (completed as real / total as real) * 100.0
  }

  /** Progress never decreases, starts at 0 and reaches 100 with the last unit. */
  lemma ProgressMonotone(m: nat, n: nat, total: nat)
    requires 0 < total && m <= n <= total
    ensures ProgressAfter(m, total) <= ProgressAfter(n, total)
    ensures ProgressAfter(0, total) == 0.0 && ProgressAfter(total, total) == 100.0
  {
    var t := total as real;
    DivMonotone(m as real, n as real, t);
    assert t / t == 1.0;
  }

  /** Row `i` of `n` rows of `k` units ends within the run, where row `i + 1` starts. */
  lemma RowEnd(i: nat, n: nat, k: nat)
    requires i < n
    ensures i * k + k == (i + 1) * k <= n * k
  {
    assert n * k == (i + 1) * k + (n - i - 1) * k;
  }

  /** The page fields a run updates. */
  datatype RunState = RunState(places: seq<TourRecord>, message: string, progress: real)

  /** The fields once unit `n` of a run of `total` units has run on top of `s`. */
  function Step(pt: PageText, s: RunState, t: SearchTerm, o: UnitOutcome, n: nat, total: nat): RunState
    requires n < total
  {
    RunState(s.places + Data(o), s.message + UnitLog(pt, t, o), ProgressAfter(n + 1, total))
  }

  /**
   * The fields after the first `k` units of a run over `terms`, starting
   * from the records `startPlaces`, an empty message and no progress.
   */
  ghost function StateAt(
    pt: PageText, terms: seq<SearchTerm>, outcomes: seq<UnitOutcome>, startPlaces: seq<TourRecord>, k: nat): RunState
    requires k <= |terms| == |outcomes|
  {
    if k == 0 then RunState(startPlaces, "", 0.0)
    else Step(pt, StateAt(pt, terms, outcomes, startPlaces, k - 1), terms[k - 1], outcomes[k - 1], k - 1, |terms|)
  }

  /**
   * After `k` units, the records are the starting ones followed by those
   * the first `k` units gathered, the message is their log, and progress is
   * that of unit `k`.
   */
  lemma {:induction false} StateAtLog(
    pt: PageText, terms: seq<SearchTerm>, outcomes: seq<UnitOutcome>, startPlaces: seq<TourRecord>, k: nat)
    requires k <= |terms| == |outcomes|
    ensures StateAt(pt, terms, outcomes, startPlaces, k) ==
      RunState(startPlaces + Gathered(outcomes[..k]), Log(pt, terms[..k], outcomes[..k]),
               if k == 0 then 0.0 else ProgressAfter(k, |terms|))
  {
    if k > 0 {
      StateAtLog(pt, terms, outcomes, startPlaces, k - 1);
      assert outcomes[..k][..k - 1] == outcomes[..k - 1] && terms[..k][..k - 1] == terms[..k - 1];
      AppendAssoc(startPlaces, Gathered(outcomes[..k - 1]), Data(outcomes[k - 1]));
    }
  }

  /** The progress values set by the first `n` units of a run of `total`. */
  function Trace(n: nat, total: nat): (r: seq<real>)
    requires n <= total
    ensures |r| == n
  {
    if n == 0 then [] else Trace(n - 1, total) + [ProgressAfter(n, total)]
  }

  /** The `k`-th value set is the progress after `k + 1` units. */
  lemma {:induction false} TraceValues(n: nat, total: nat)
    requires n <= total
    ensures forall k :: 0 <= k < n ==> Trace(n, total)[k] == ProgressAfter(k + 1, total)
  {
    if n > 0 {
      TraceValues(n - 1, total);
    }
  }

  /** The progress values set, in order, never decrease. */
  lemma TraceMonotone(n: nat, total: nat)
    requires n <= total
    ensures forall a, b :: 0 <= a <= b < n ==> Trace(n, total)[a] <= Trace(n, total)[b]
  {
    var trace := Trace(n, total);
    TraceValues(n, total);
    forall a, b | 0 <= a <= b < n ensures trace[a] <= trace[b] {
      ProgressMonotone(a + 1, b + 1, total);
    }
  }

  lemma AppendAssoc<T>(a: seq<T>, b: seq<T>, c: seq<T>)
    ensures (a + b) + c == a + (b + c)
  {
  }

  lemma CallsStep(terms: seq<SearchTerm>, calls: seq<SearchTerm>, n: nat)
    requires n < |terms| && calls == terms[..n]
    ensures calls + [terms[n]] == terms[..n + 1]
  {
  }

  lemma DivMonotone(x: real, y: real, t: real)
    requires 0.0 <= x <= y && t > 0.0
    ensures x / t <= y / t
  {
    var d := (y - x) / t;
    assert d * t == y - x;
    assert y / t == x / t + d;
  }

  /** The page's state. */
  class ToursPage {
    /** The fixed texts the page shows. */
    const text: PageText
    var cities: string
    var keywordGroups: string
    var places: seq<TourRecord>
    var loading: bool
    var message: string
    var progress: real
    var currentStatus: string

    /**
     * The page shows its own texts. This reads only the constant `text`, so
     * it holds for the page's whole life once the constructor establishes it.
     */
    ghost predicate Valid() {
      text == PAGE_TEXT
    }

    constructor ()
      ensures Valid() && SingleLine(text)
      ensures cities == "" && keywordGroups == "" && places == [] && !loading
      ensures message == "" && progress == 0.0 && currentStatus == ""
    {
      text := PAGE_TEXT;
      PageTextSingleLine();
      cities, keywordGroups, places, loading := "", "", [], false;
      message, progress, currentStatus := "", 0.0, "";
    }

    /** The cities text area's change handler. */
    method SetCities(value: string)
      modifies this
      ensures cities == value
      ensures keywordGroups == old(keywordGroups) && places == old(places) && loading == old(loading)
      ensures message == old(message) && progress == old(progress) && currentStatus == old(currentStatus)
    {
      cities := value;
    }

    /** The keyword groups text area's change handler. */
    method SetKeywordGroups(value: string)
      modifies this
      ensures keywordGroups == value
      ensures cities == old(cities) && places == old(places) && loading == old(loading)
      ensures message == old(message) && progress == old(progress) && currentStatus == old(currentStatus)
    {
      keywordGroups := value;
    }

    /**
     * One batch run. `calls` lists the (city, keywords) pair of every call
     * made, and `progressTrace` the progress value set after each unit, in
     * order (the reset to 0 at the start is not included).
     */
    method HandleAutomation(outcomes: seq<UnitOutcome>) returns (calls: seq<SearchTerm>, progressTrace: seq<real>)
      requires |outcomes| == |SearchTerms(NonBlankLines(cities), NonBlankLines(keywordGroups))|
      modifies this
      ensures cities == old(cities) && keywordGroups == old(keywordGroups)
      ensures calls == SearchTerms(NonBlankLines(cities), NonBlankLines(keywordGroups))
      ensures places == old(places) + Gathered(outcomes)
      ensures message == Log(text, calls, outcomes)
      ensures progressTrace == Trace(|outcomes|, |outcomes|)
      ensures progress == (if outcomes == [] then 0.0 else 100.0)
      ensures currentStatus == COMPLETE_STATUS && !loading
    {
      loading := true;
      message := "";
      progress := 0.0;
      currentStatus := "";
      var cityList := NonBlankLines(cities);
      var keywordGroupList := NonBlankLines(keywordGroups);
      calls, progressTrace := RunBatch(cityList, keywordGroupList, outcomes);

      currentStatus := COMPLETE_STATUS;
      loading := false;
    }

    /**
     * The nested loops of a run over the given city and keyword group lists,
     * starting from an empty message and no progress.
     */
    method RunBatch(cityList: seq<string>, keywordGroupList: seq<string>, outcomes: seq<UnitOutcome>)
      returns (calls: seq<SearchTerm>, progressTrace: seq<real>)
      requires |outcomes| == |cityList| * |keywordGroupList|
      requires message == "" && progress == 0.0
      modifies this
      ensures cities == old(cities) && keywordGroups == old(keywordGroups)
      ensures calls == SearchTerms(cityList, keywordGroupList)
      ensures progressTrace == Trace(|outcomes|, |outcomes|)
      ensures places == old(places) + Gathered(outcomes) && message == Log(text, calls, outcomes)
      ensures progress == (if outcomes == [] then 0.0 else 100.0)
    {
      var totalRequests := |cityList| * |keywordGroupList|;
      var completedRequests := 0;
      ghost var terms := SearchTerms(cityList, keywordGroupList);
      ghost var startPlaces := places;
      calls, progressTrace := [], [];

      for i := 0 to |cityList|
        invariant cities == old(cities) && keywordGroups == old(keywordGroups)
        invariant completedRequests == i * |keywordGroupList| <= totalRequests
        invariant calls == terms[..completedRequests]
        invariant progressTrace == Trace(completedRequests, totalRequests)
        invariant RunState(places, message, progress) == StateAt(text, terms, outcomes, startPlaces, completedRequests)
      {
        SearchTermsRow(cityList, keywordGroupList, i, completedRequests);
        var city := cityList[i];
        calls, progressTrace, completedRequests := RunRow(
          city, keywordGroupList, outcomes, totalRequests, calls, progressTrace, completedRequests, terms, startPlaces);
      }
      assert terms[..totalRequests] == terms && outcomes[..totalRequests] == outcomes;
      StateAtLog(text, terms, outcomes, startPlaces, totalRequests);
      if totalRequests > 0 {
        ProgressMonotone(totalRequests, totalRequests, totalRequests);
      }
    }

    /**
     * The inner loop of a run, over the keyword groups for one city. It
     * carries on from the loop's local state `calls0`, `trace0` and
     * `completed0`, and returns that state once the row is done.
     */
    method RunRow(
      city: string, keywordGroupList: seq<string>, outcomes: seq<UnitOutcome>, totalRequests: nat,
      calls0: seq<SearchTerm>, trace0: seq<real>, completed0: nat,
      ghost terms: seq<SearchTerm>, ghost startPlaces: seq<TourRecord>)
      returns (calls: seq<SearchTerm>, progressTrace: seq<real>, completedRequests: nat)
      requires |outcomes| == |terms| == totalRequests && completed0 + |keywordGroupList| <= totalRequests
      requires forall j :: 0 <= j < |keywordGroupList| ==> terms[completed0 + j] == SearchTerm(city, keywordGroupList[j])
      requires calls0 == terms[..completed0] && trace0 == Trace(completed0, totalRequests)
      requires RunState(places, message, progress) == StateAt(text, terms, outcomes, startPlaces, completed0)
      modifies this
      ensures cities == old(cities) && keywordGroups == old(keywordGroups)
      ensures completedRequests == completed0 + |keywordGroupList|
      ensures calls == terms[..completedRequests] && progressTrace == Trace(completedRequests, totalRequests)
      ensures RunState(places, message, progress) == StateAt(text, terms, outcomes, startPlaces, completedRequests)
    {
      calls, progressTrace, completedRequests := calls0, trace0, completed0;
      for j := 0 to |keywordGroupList|
        invariant cities == old(cities) && keywordGroups == old(keywordGroups)
        invariant completedRequests == completed0 + j
        invariant calls == terms[..completedRequests]
        invariant progressTrace == Trace(completedRequests, totalRequests)
        invariant RunState(places, message, progress) == StateAt(text, terms, outcomes, startPlaces, completedRequests)
      {
        var keywords := keywordGroupList[j];
        var term := SearchTerm(city, keywords);
        calls, progressTrace :=
          RunUnit(term, outcomes[completedRequests], completedRequests, totalRequests, calls, progressTrace, terms, outcomes, startPlaces);
        completedRequests := completedRequests + 1;
      }
    }

    /**
     * One pass of the inner loop's body, for unit `completed` of `total`: the
     * status names the unit, the call is made and the unit runs, and the
     * progress is updated and recorded.
     */
    method RunUnit(
      term: SearchTerm, outcome: UnitOutcome, completed: nat, total: nat,
      calls0: seq<SearchTerm>, trace0: seq<real>,
      ghost terms: seq<SearchTerm>, ghost outcomes: seq<UnitOutcome>, ghost startPlaces: seq<TourRecord>)
      returns (calls: seq<SearchTerm>, progressTrace: seq<real>)
      requires completed < |terms| == |outcomes| == total
      requires terms[completed] == term && outcomes[completed] == outcome
      requires calls0 == terms[..completed] && trace0 == Trace(completed, total)
      requires RunState(places, message, progress) == StateAt(text, terms, outcomes, startPlaces, completed)
      modifies this
      ensures cities == old(cities) && keywordGroups == old(keywordGroups)
      ensures currentStatus == text.status(term)
      ensures calls == terms[..completed + 1] && progressTrace == Trace(completed + 1, total)
      ensures RunState(places, message, progress) == StateAt(text, terms, outcomes, startPlaces, completed + 1)
    {
      currentStatus := text.status(term);
      CallsStep(terms, calls0, completed);
      calls := calls0 + [term];
      ProcessUnit(term, outcome);
      progress := ((completed + 1) as real / total as real) * 100.0;
      progressTrace := trace0 + [progress];
    }

    /**
     * The body of one unit: the call's records are appended on success, and
     * a line is logged for a success with records or for a failure.
     */
    method ProcessUnit(term: SearchTerm, outcome: UnitOutcome)
      modifies this
      ensures places == old(places) + Data(outcome)
      ensures message == old(message) + UnitLog(text, term, outcome)
      ensures cities == old(cities) && keywordGroups == old(keywordGroups) && loading == old(loading)
      ensures progress == old(progress) && currentStatus == old(currentStatus)
    {
      match outcome {
        case Responded(data) =>
          places := places + data;
          if |data| > 0 {
            message := message + ("\n" + text.found(term, |data|));
          }
        case Failed =>
          message := message + ("\n" + text.failed(term));
      }
    }

    /** The "Clear Results" handler: empties the results and says so. */
    method HandleClear()
      modifies this
      ensures places == [] && message == CLEARED_MESSAGE
      ensures cities == old(cities) && keywordGroups == old(keywordGroups) && loading == old(loading)
      ensures progress == old(progress) && currentStatus == old(currentStatus)
    {
      places := [];
      message := CLEARED_MESSAGE;
    }
  }
}
