/**
 * The e-mail log page (`frontend/src/components/EmailLogs/EmailLogs.jsx`): the logs fetched from
 * `GET /logs`, the filter state, and the filtered list shown in the table, which the page
 * recomputes whenever the logs or the filters change.
 *
 * The rows are the `PredictionLog` rows the backend serialises; a timestamp is the number
 * `new Date(log.timestamp).getTime()` yields.
 */
module EmailLogs {
  import opened Wrappers
  import opened Models
  import opened LogFilters

  /** `Array.prototype.filter`: the elements satisfying `p`, in their original order. */
  function Filter<T>(s: seq<T>, p: T -> bool): (r: seq<T>)
    ensures |r| <= |s|
    ensures forall i :: 0 <= i < |r| ==> p(r[i])
    decreases |s|
  {
    if |s| == 0 then []
    else (if p(s[0]) then [s[0]] else []) + Filter(s[1..], p)
  }

  /** A log is kept by a filter exactly when it is in the input and passes the test. */
  lemma {:induction false} FilterMembers(s: seq<PredictionLog>, p: PredictionLog -> bool, x: PredictionLog)
    ensures x in Filter(s, p) <==> x in s && p(x)
    decreases |s|
  {
    if |s| > 0 {
      FilterMembers(s[1..], p, x);
      assert s == [s[0]] + s[1..];
    }
  }

  /** `a` occurs in `b` with its elements in the same order, possibly with gaps. */
  predicate IsSubsequence<T(==)>(a: seq<T>, b: seq<T>)
    decreases |b|
  {
    if |a| == 0 then true
    else if |b| == 0 then false
    else if a[0] == b[0] then IsSubsequence(a[1..], b[1..])
    else IsSubsequence(a, b[1..])
  }

  /** The status test of EmailLogs.jsx:57-61: "all" keeps everything, "phishing" the logs
      predicted phishing, and any other status the logs predicted safe. */
  predicate StatusKeeps(status: string, log: PredictionLog) {
    status == STATUS_ALL || (if status == STATUS_PHISHING then log.prediction else !log.prediction)
  }

  /** The date test of EmailLogs.jsx:63-68, inclusive at both ends; no range keeps everything. */
  predicate DateKeeps(dateRange: Option<(int, int)>, log: PredictionLog) {
    match dateRange
    case None => true
    case Some((start, end)) => start <= log.timestamp <= end
  }

  /** The confidence test of EmailLogs.jsx:71-75, inclusive at both ends. */
  predicate ConfidenceKeeps(confidence: (real, real), log: PredictionLog) {
    confidence.0 <= log.confidence <= confidence.1
  }

  /** A log is shown when it passes all three tests. */
  predicate Keep(f: Filters, log: PredictionLog) {
    StatusKeeps(f.status, log) && DateKeeps(f.dateRange, log) && ConfidenceKeeps(f.confidence, log)
  }

  /** `applyFilters` (EmailLogs.jsx:54-78): the status filter unless the status is "all", the date
      filter when a range is set, then the confidence filter, one after the other. */
  function ApplyFilters(logs: seq<PredictionLog>, f: Filters): (r: seq<PredictionLog>)
    ensures |r| <= |logs|
    ensures forall i :: 0 <= i < |r| ==> ConfidenceKeeps(f.confidence, r[i])
  {
    var byStatus := if f.status != STATUS_ALL then Filter(logs, (l: PredictionLog) => StatusKeeps(f.status, l))
                    else logs;
    var byDate := if f.dateRange.Some? then Filter(byStatus, (l: PredictionLog) => DateKeeps(f.dateRange, l))
                  else byStatus;
    Filter(byDate, (l: PredictionLog) => ConfidenceKeeps(f.confidence, l))
  }

  // ---------------------------------------------------------------------------------------------
  // Properties of the filtering

  /** Filtering twice is filtering once by a test that asks both. */
  lemma {:induction false} FilterFilter<T>(s: seq<T>, p: T -> bool, q: T -> bool, both: T -> bool)
    requires forall i :: 0 <= i < |s| ==> both(s[i]) == (p(s[i]) && q(s[i]))
    ensures Filter(Filter(s, p), q) == Filter(s, both)
    decreases |s|
  {
    if |s| > 0 {
      FilterFilter(s[1..], p, q, both);
      var rest := Filter(s[1..], p);
      if p(s[0]) {
        assert Filter(s, p) == [s[0]] + rest;
        assert ([s[0]] + rest)[1..] == rest;
      } else {
        assert Filter(s, p) == rest;
      }
    }
  }

  /** Filtering by a test every element passes keeps everything. */
  lemma {:induction false} FilterAll<T>(s: seq<T>, p: T -> bool)
    requires forall i :: 0 <= i < |s| ==> p(s[i])
    ensures Filter(s, p) == s
    decreases |s|
  {
    if |s| > 0 {
      FilterAll(s[1..], p);
      assert [s[0]] + s[1..] == s;
    }
  }

  /** What a filter keeps is a subsequence of its input. */
  lemma {:induction false} FilterIsSubsequence<T>(s: seq<T>, p: T -> bool)
    ensures IsSubsequence(Filter(s, p), s)
    decreases |s|
  {
    if |s| > 0 {
      FilterIsSubsequence(s[1..], p);
      var rest := Filter(s[1..], p);
      if p(s[0]) {
        assert Filter(s, p) == [s[0]] + rest;
        assert ([s[0]] + rest)[1..] == rest;
      } else {
        assert Filter(s, p) == rest;
        if |rest| > 0 {
          SubsequenceCons(rest, s[1..], s[0]);
        }
      }
    }
  }

  /** An element put in front of the host sequence does not spoil a subsequence. */
  lemma {:induction false} SubsequenceCons<T>(a: seq<T>, b: seq<T>, x: T)
    requires IsSubsequence(a, b)
    ensures IsSubsequence(a, [x] + b)
    decreases |b|, 1
  {
    assert ([x] + b)[1..] == b;
    if |a| > 0 && a[0] == x {
      SubsequenceTail(a, b);
    }
  }

  /** Dropping the first element of a subsequence leaves a subsequence. */
  lemma {:induction false} SubsequenceTail<T>(a: seq<T>, b: seq<T>)
    requires |a| > 0 && IsSubsequence(a, b)
    ensures IsSubsequence(a[1..], b)
    decreases |b|, 0
  {
    assert |b| > 0;
    if a[0] == b[0] {
      SubsequenceCons(a[1..], b[1..], b[0]);
    } else {
      SubsequenceTail(a, b[1..]);
      SubsequenceCons(a[1..], b[1..], b[0]);
    }
    assert [b[0]] + b[1..] == b;
  }

  /** The three filters in a row keep exactly the logs passing all three tests, in order:
      `applyFilters` is the single conjunctive filter. */
  lemma ApplyFiltersIsConjunction(logs: seq<PredictionLog>, f: Filters)
    ensures ApplyFilters(logs, f) == Filter(logs, (l: PredictionLog) => Keep(f, l))
  {
    var s := (l: PredictionLog) => StatusKeeps(f.status, l);
    var d := (l: PredictionLog) => DateKeeps(f.dateRange, l);
    var c := (l: PredictionLog) => ConfidenceKeeps(f.confidence, l);
    var byStatus := if f.status != STATUS_ALL then Filter(logs, s) else logs;
    if f.status == STATUS_ALL {
      FilterAll(logs, s);
    }
    assert byStatus == Filter(logs, s);
    var byDate := if f.dateRange.Some? then Filter(byStatus, d) else byStatus;
    if f.dateRange.None? {
      FilterAll(byStatus, d);
    }
    assert byDate == Filter(byStatus, d);
    var sd := (l: PredictionLog) => s(l) && d(l);
    FilterFilter(logs, s, d, sd);
    FilterFilter(logs, sd, c, (l: PredictionLog) => Keep(f, l));
  }

  /** A log is shown exactly when it was fetched and passes the status, date and confidence tests,
      spelled out case by case. */
  lemma ShownIff(logs: seq<PredictionLog>, f: Filters, log: PredictionLog)
    ensures log in ApplyFilters(logs, f) <==>
      && log in logs
      && (f.status == STATUS_ALL || (f.status == STATUS_PHISHING && log.prediction)
          || (f.status != STATUS_ALL && f.status != STATUS_PHISHING && !log.prediction))
      && (f.dateRange.Some? ==> f.dateRange.value.0 <= log.timestamp <= f.dateRange.value.1)
      && f.confidence.0 <= log.confidence <= f.confidence.1
  {
    ApplyFiltersIsConjunction(logs, f);
    FilterMembers(logs, (l: PredictionLog) => Keep(f, l), log);
  }

  /** The shown logs keep the order they were fetched in. */
  lemma ShownInOrder(logs: seq<PredictionLog>, f: Filters)
    ensures IsSubsequence(ApplyFilters(logs, f), logs)
  {
    ApplyFiltersIsConjunction(logs, f);
    FilterIsSubsequence(logs, (l: PredictionLog) => Keep(f, l));
  }

  /** With the initial filters every log whose confidence lies in [0, 1] is shown, so a list of
      model outputs is shown whole. */
  lemma InitialShowsAll(logs: seq<PredictionLog>)
    requires forall i :: 0 <= i < |logs| ==> 0.0 <= logs[i].confidence <= 1.0
    ensures ApplyFilters(logs, INITIAL) == logs
  {
    ApplyFiltersIsConjunction(logs, INITIAL);
    FilterAll(logs, (l: PredictionLog) => Keep(INITIAL, l));
  }

  // ---------------------------------------------------------------------------------------------
  // The page's state

  /** The result of `axios.get("/logs")`: the rows, or the request failing. */
  datatype FetchResponse = Loaded(rows: seq<PredictionLog>) | RequestFailed

  /** The component's `useState` slots. Each handler below ends with the effect of
      EmailLogs.jsx:50-52, which runs `applyFilters` after any change to the logs or filters. */
  class EmailLogsPage {
    var logs: seq<PredictionLog>
    var filtered: seq<PredictionLog>
    var loading: bool
    var filters: Filters

    /** The table shows the fetched logs filtered by the current filters. */
    predicate Consistent()
      reads this
    {
      filtered == ApplyFilters(logs, filters)
    }

    /** The first render (EmailLogs.jsx:13-20): nothing fetched, loading, initial filters. */
    constructor ()
      ensures Consistent()
      ensures logs == [] && filtered == [] && loading && filters == INITIAL
    {
      logs, filtered, loading, filters := [], [], true, INITIAL;
    }

    /** The effect of EmailLogs.jsx:50-52: `setFiltered(applyFilters())`. */
    method Refilter()
      modifies this
      ensures Consistent()
      ensures logs == old(logs) && loading == old(loading) && filters == old(filters)
    {
      filtered := ApplyFilters(logs, filters);
    }

    /** `fetchLogs` (EmailLogs.jsx:22-44): without a stored token nothing happens, and the page
        stays loading; otherwise the fetched rows replace the logs and loading ends, whether the
        request succeeded or not. */
    method FetchLogs(token: Option<string>, response: FetchResponse)
      requires Consistent()
      modifies this
      ensures Consistent()
      ensures filters == old(filters)
      ensures token.None? ==> unchanged(this)
      ensures token.Some? ==> !loading
      ensures token.Some? && response.Loaded? ==> logs == response.rows
      ensures token.Some? && response.RequestFailed? ==> logs == old(logs)
    {
      if token.None? {
        return;
      }
      if response.Loaded? {
        logs := response.rows;
        filtered := response.rows;
      }
      loading := false;
      Refilter();
    }

    /** The `setFilters` the filter bar calls with the handler's new state. */
    method SetFilters(f: Filters)
      modifies this
      ensures Consistent()
      ensures filters == f && logs == old(logs) && loading == old(loading)
    {
      filters := f;
      Refilter();
    }

    /** `clearFilters` (EmailLogs.jsx:80-83): back to the initial filters, logs untouched. */
    method ClearFilters()
      modifies this
      ensures Consistent()
      ensures filters == INITIAL && logs == old(logs) && loading == old(loading)
    {
      SetFilters(INITIAL);
    }
  }
}
