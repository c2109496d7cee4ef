/**
 * The filter state of the e-mail log page and the two change handlers of its filter bar
 * (`frontend/src/components/EmailLogs/Filters.jsx`). Each handler builds a new state from the
 * old one; neither mutates it.
 *
 * Times are integers on the same clock as the log timestamps (`Date.getTime()`), confidences
 * are reals, and the value of the range input is taken as the number `parseFloat` produced.
 */
module LogFilters {
  import opened Wrappers

  const STATUS_ALL: string := "all"
  const STATUS_PHISHING: string := "phishing"
  const STATUS_SAFE: string := "safe"

  /** `{confidence: [lo, hi], status, dateRange}`; a `null` date range is `None`. */
  datatype Filters = Filters(confidence: (real, real), status: string, dateRange: Option<(int, int)>)

  /** The state the page starts in (EmailLogs.jsx:16-20) and that "Clear Filters" restores. */
  const INITIAL: Filters := Filters((0.0, 1.0), STATUS_ALL, None)

  /** The confidence interval lies within [0, 1], lower bound first. */
  predicate WellFormed(f: Filters) {
    0.0 <= f.confidence.0 <= f.confidence.1 <= 1.0
  }

  /** `handleConfidenceChange` (Filters.jsx:6-13): a value outside [0, 1] is refused with a
      warning and changes nothing; any other value becomes the new lower bound, and nothing else
      moves. */
  function HandleConfidenceChange(f: Filters, value: real): (f': Filters)
    ensures value < 0.0 || value > 1.0 ==> f' == f
    ensures 0.0 <= value <= 1.0 ==> f'.confidence.0 == value
    ensures f'.confidence.1 == f.confidence.1 && f'.status == f.status && f'.dateRange == f.dateRange
  {
    if value < 0.0 || value > 1.0 then f
    else f.(confidence := (value, f.confidence.1))
  }

  /** `handleStatusChange` (Filters.jsx:15-17): the selected option becomes the status. */
  function HandleStatusChange(f: Filters, status: string): (f': Filters)
    ensures f'.status == status
    ensures f'.confidence == f.confidence && f'.dateRange == f.dateRange
  {
    f.(status := status)
  }

  /** The initial state is well formed. */
  lemma InitialWellFormed()
    ensures WellFormed(INITIAL)
  {
  }

  /** The refusal test is inclusive at both ends: 0 and 1 are accepted, anything beyond is not. */
  lemma ConfidenceBoundsInclusive(f: Filters, value: real)
    ensures HandleConfidenceChange(f, 0.0).confidence == (0.0, f.confidence.1)
    ensures HandleConfidenceChange(f, 1.0).confidence == (1.0, f.confidence.1)
    ensures value < 0.0 || value > 1.0 ==> HandleConfidenceChange(f, value) == f
  {
  }

  /** Starting from [0, 1], the upper bound never moves from 1 and every accepted lower bound
      lies in [0, 1], so the interval stays inside [0, 1] with its bounds in order. */
  lemma HandlersKeepWellFormed(f: Filters, value: real, status: string)
    requires WellFormed(f) && f.confidence.1 == 1.0
    ensures WellFormed(HandleConfidenceChange(f, value))
    ensures HandleConfidenceChange(f, value).confidence.1 == 1.0
    ensures WellFormed(HandleStatusChange(f, status))
    ensures HandleStatusChange(f, status).confidence.1 == 1.0
  {
  }

  /** Any sequence of handler calls from the initial state: the confidence values typed into the
      range input and the statuses chosen from the select, replayed in order. */
  datatype Edit = Confidence(value: real) | Status(status: string)

  /** The handler an edit calls. */
  function Step(f: Filters, e: Edit): (f': Filters)
    ensures f'.dateRange == f.dateRange
  {
    match e
    case Confidence(v) => HandleConfidenceChange(f, v)
    case Status(s) => HandleStatusChange(f, s)
  }

  function Replay(f: Filters, edits: seq<Edit>): (f': Filters)
    ensures f'.dateRange == f.dateRange
    decreases |edits|
  {
    if |edits| == 0 then f else Replay(Step(f, edits[0]), edits[1..])
  }

  /** Whatever the user does with the filter bar, the filters stay well formed. */
  lemma {:induction false} ReplayKeepsWellFormed(f: Filters, edits: seq<Edit>)
    requires WellFormed(f) && f.confidence.1 == 1.0
    ensures WellFormed(Replay(f, edits)) && Replay(f, edits).confidence.1 == 1.0
    decreases |edits|
  {
    if |edits| > 0 {
      match edits[0] {
        case Confidence(v) => HandlersKeepWellFormed(f, v, "");
        case Status(s) => HandlersKeepWellFormed(f, 0.0, s);
      }
      ReplayKeepsWellFormed(Step(f, edits[0]), edits[1..]);
    }
  }
}
