/**
 * The scanning and reporting endpoints of `backend/app/routes.py`: `/predict`, `/feedback`,
 * `/logs`, `/scan-inbox` and `/scan-eml`.
 *
 * IMAP and MIME are left out: a connected inbox is the list of outcomes of its per-message
 * `mail.fetch`, and an uploaded `.eml` is its extracted text. The classifier is
 * `Phishing.ModelStore.Predict`, which loads the model on first use.
 *
 * For `/feedback`, `/scan-inbox` and `/scan-eml`, `caller` is the row `get_current_user` returned
 * for the request (see `AuthRoutes.CurrentUser`). That dependency is resolved before the handler
 * body runs, so a request without a valid token gets its 401 first -- for `/scan-eml` even when
 * the file name is wrong (routes.py:754). `/predict` and `/logs` take no caller.
 */
module ScanRoutes {
  import opened Wrappers
  import opened Utils
  import opened Http
  import opened Models
  import opened Sorting
  import Phishing
  import Retraining

  const EMAIL_URL: string := "[EMAIL]"
  const UPLOAD_URL: string := "[EMAIL_UPLOAD]"
  const REASON_PHISHING: string := "phishing"
  const LOG_LIMIT: nat := 100
  const SNIPPET_LENGTH: nat := 100

  /** The probability function of one fitted model. */
  function Classify(score: Phishing.Scorer, m: Phishing.Classifier, v: Phishing.Vectorizer)
    : string -> Phishing.Probability
  {
    (t: string) => score(m, v, t)
  }

  /** The probability function of the model the store has loaded. */
  function ScoreOf(store: Phishing.ModelStore): string -> Phishing.Probability
    reads store
    requires store.Loaded()
  {
    Classify(store.score, store.model.value, store.vectorizer.value)
  }

  // ---------------------------------------------------------------------------------------------
  // /predict (routes.py:242-271)

  /** `/predict`: classify the URL and log the prediction. */
  method PredictUrl(db: Database, store: Phishing.ModelStore, url: string, now: int)
    returns (prediction: int, confidence: Phishing.Probability)
    requires db.Valid()
    modifies db, store
    ensures db.Valid()
    ensures store.State() == Phishing.EnsureLoaded(old(store.State()))
    ensures store.Loaded() && confidence == ScoreOf(store)(url)
    ensures prediction == Phishing.Verdict(confidence)
    ensures db.Snap() == old(db.Snap()).(
      logs := old(db.logs) + [PredictionLog(old(db.nextLogId), url, prediction == 1, confidence, now)],
      nextLogId := old(db.nextLogId) + 1)
  {
    prediction, confidence := store.Predict(url);
    db.logs := db.logs + [PredictionLog(db.nextLogId, url, prediction == 1, confidence, now)];
    db.nextLogId := db.nextLogId + 1;
  }

  // ---------------------------------------------------------------------------------------------
  // /feedback (routes.py:298-317)

  /** A quarantined email with this id that belongs to this user. */
  predicate Owns(q: QuarantinedEmail, emailId: int, userId: nat) {
    q.id == emailId && q.userId == userId
  }

  function FindOwned(rows: seq<QuarantinedEmail>, emailId: int, userId: nat): Option<nat> {
    Find(rows, (q: QuarantinedEmail) => Owns(q, emailId, userId))
  }

  /** `/feedback`: 404 unless the caller owns the quarantined email; then one Feedback row whose
      `url` is the email's content and whose label is the caller's. */
  method SubmitFeedback(db: Database, caller: User, emailId: int, isPhishing: bool, now: int)
    returns (status: int)
    requires db.Valid()
    modifies db
    ensures db.Valid()
    ensures status == NOT_FOUND <==>
      forall j :: 0 <= j < |old(db.quarantine)| ==> !Owns(old(db.quarantine)[j], emailId, caller.id)
    ensures status == OK || status == NOT_FOUND
    ensures status == NOT_FOUND ==> db.Snap() == old(db.Snap())
    ensures status == OK ==> FindOwned(old(db.quarantine), emailId, caller.id).Some?
    ensures status == OK ==>
      var q := old(db.quarantine)[FindOwned(old(db.quarantine), emailId, caller.id).value];
      && Owns(q, emailId, caller.id)
      && db.Snap() == old(db.Snap()).(
           feedback := old(db.feedback) + [Feedback(old(db.nextFeedbackId), q.emailContent, isPhishing, now)],
           nextFeedbackId := old(db.nextFeedbackId) + 1)
  {
    var found := FindOwned(db.quarantine, emailId, caller.id);
    if found.None? {
      return NOT_FOUND;
    }
    var q := db.quarantine[found.value];
    db.feedback := db.feedback + [Feedback(db.nextFeedbackId, q.emailContent, isPhishing, now)];
    db.nextFeedbackId := db.nextFeedbackId + 1;
    status := OK;
  }

  /** Submitted feedback becomes a training example for `retrain`, with the caller's label. */
  lemma FeedbackReachesTraining(feedback: seq<Feedback>, external: seq<ExternalPhishingEntry>, f: Feedback)
    ensures Retraining.TrainingData(feedback + [f], external)[|feedback|] == f.url
    ensures Retraining.TrainingLabels(feedback + [f], external)[|feedback|] == (if f.isPhishing then 1 else 0)
  {
    Retraining.DatasetShape(feedback + [f], external);
  }

  // ---------------------------------------------------------------------------------------------
  // /logs (routes.py:354-359)

  predicate NewestFirst(r: seq<PredictionLog>) {
    forall i, j :: 0 <= i < j < |r| ==> r[i].timestamp >= r[j].timestamp
  }

  /** The sort key of `order_by(PredictionLog.timestamp.desc())`. */
  function NegatedTimestamp(l: PredictionLog): int {
    -l.timestamp
  }

  /** The logs, newest first. */
  function ByNewest(logs: seq<PredictionLog>): (s: seq<PredictionLog>)
    ensures NewestFirst(s) && multiset(s) == multiset(logs) && |s| == |logs|
  {
    var s := SortBy(logs, NegatedTimestamp);
    assert forall i, j :: 0 <= i < j < |s| ==> NegatedTimestamp(s[i]) <= NegatedTimestamp(s[j]);
    s
  }

  /** Splitting a list at `k`: what the prefix leaves of the whole is the suffix. */
  lemma SplitMultiset(s: seq<PredictionLog>, k: nat)
    requires k <= |s|
    ensures multiset(s[..k]) <= multiset(s)
    ensures multiset(s) - multiset(s[..k]) == multiset(s[k..])
  {
    assert s == s[..k] + s[k..];
  }

  /** The first `k` rows of a newest-first ordering of `logs` are at least as recent as every
      row left out. */
  lemma TakeNewest(logs: seq<PredictionLog>, s: seq<PredictionLog>, k: nat)
    requires NewestFirst(s) && multiset(s) == multiset(logs) && k <= |s|
    ensures NewestFirst(s[..k])
    ensures multiset(s[..k]) <= multiset(logs)
    ensures k == |s| ==> multiset(s[..k]) == multiset(logs)
    ensures forall x | x in multiset(logs) - multiset(s[..k]) :: forall i | 0 <= i < k :: x.timestamp <= s[i].timestamp
  {
    SplitMultiset(s, k);
    var rest := s[k..];
    forall x: PredictionLog | x in multiset(rest)
      ensures forall i | 0 <= i < k :: x.timestamp <= s[i].timestamp
    {
      var m :| 0 <= m < |rest| && rest[m] == x;
      assert x == s[k + m];
    }
    assert k == |s| ==> s[..k] == s;
  }

  /** `get_logs`: `order_by(timestamp.desc()).limit(100)` -- the 100 most recent logs (all of
      them when there are fewer), newest first. */
  function RecentLogs(logs: seq<PredictionLog>): (r: seq<PredictionLog>)
    ensures |r| == if |logs| < LOG_LIMIT then |logs| else LOG_LIMIT
    ensures NewestFirst(r)
    ensures multiset(r) <= multiset(logs)
    ensures |logs| <= LOG_LIMIT ==> multiset(r) == multiset(logs)
    ensures forall x | x in multiset(logs) - multiset(r) :: forall i | 0 <= i < |r| :: x.timestamp <= r[i].timestamp
  {
    var s := ByNewest(logs);
    var k := if |s| < LOG_LIMIT then |s| else LOG_LIMIT;
    TakeNewest(logs, s, k);
    s[..k]
  }

  // ---------------------------------------------------------------------------------------------
  // /scan-inbox (routes.py:424-513)

  /** What one `mail.fetch` gives: an exception, a reply without a message body, or a message
      with its sender, subject and extracted plain text. */
  datatype FetchOutcome = FetchRaised | Malformed | Fetched(sender: string, subject: string, content: string)

  /** The IMAP credentials in the session: none, a server failing at login/select/search, or the
      inbox's messages in sequence-number order. */
  datatype ImapSession = NotConnected | ImapFailed | Inbox(messages: seq<FetchOutcome>)

  /** A message that reaches `predict`, with its IMAP sequence number. */
  datatype Message = Message(num: nat, sender: string, subject: string, content: string)

  /** One entry of the reply's `emails` list. */
  datatype ScannedEmail = ScannedEmail(id: nat, sender: string, subject: string, snippet: string,
                                       isPhishing: bool, confidence: real)

  datatype ScanReport = ScanReport(scanned: nat, quarantined: nat, phishingDetected: nat,
                                   emails: seq<ScannedEmail>)

  /** `s[:n]`. */
  function Prefix(s: string, n: nat): (r: string)
    ensures |r| == (if |s| < n then |s| else n) && r == s[..|r|]
  {
    if |s| <= n then s else s[..n]
  }

  /** What message number `num` contributes: nothing when the fetch raises; a malformed reply is
      read as an empty message. */
  function ReadStep(m: FetchOutcome, num: nat): (r: seq<Message>)
    ensures r == [] <==> m.FetchRaised?
    ensures |r| <= 1
    ensures forall i :: 0 <= i < |r| ==> r[i].num == num
    ensures m.Malformed? ==> r == [Message(num, "", "", "")]
    ensures m.Fetched? ==> r == [Message(num, m.sender, m.subject, m.content)]
  {
    match m
    case FetchRaised => []
    case Malformed => [Message(num, "", "", "")]
    case Fetched(sender, subject, content) => [Message(num, sender, subject, content)]
  }

  /** The messages that reach `predict`, numbered from 1. */
  function Readable(msgs: seq<FetchOutcome>): (r: seq<Message>)
    ensures |r| <= |msgs|
    ensures forall i :: 0 <= i < |r| ==> 1 <= r[i].num <= |msgs|
  {
    if |msgs| == 0 then [] else Readable(msgs[..|msgs| - 1]) + ReadStep(msgs[|msgs| - 1], |msgs|)
  }

  lemma ReadableSnoc(msgs: seq<FetchOutcome>, j: nat)
    requires j < |msgs|
    ensures Readable(msgs[..j + 1]) == Readable(msgs[..j]) + ReadStep(msgs[j], j + 1)
  {
    assert msgs[..j + 1][..j] == msgs[..j];
  }

  /** Scanned messages keep inbox order, and each is scanned once. */
  lemma {:induction false} ReadableNumbers(msgs: seq<FetchOutcome>)
    ensures forall i :: 0 <= i < |Readable(msgs)| ==> 1 <= Readable(msgs)[i].num <= |msgs|
    ensures forall i, j :: 0 <= i < j < |Readable(msgs)| ==> Readable(msgs)[i].num < Readable(msgs)[j].num
  {
    if |msgs| > 0 {
      ReadableNumbers(msgs[..|msgs| - 1]);
    }
  }

  /** Each scanned message is scanned with its own sender, subject and content (empty for a
      malformed reply). */
  lemma {:induction false} ReadableOwnContent(msgs: seq<FetchOutcome>)
    ensures forall i :: 0 <= i < |Readable(msgs)| ==>
      1 <= Readable(msgs)[i].num <= |msgs| && ReadStep(msgs[Readable(msgs)[i].num - 1], Readable(msgs)[i].num) == [Readable(msgs)[i]]
  {
    ReadableNumbers(msgs);
    if |msgs| > 0 {
      var init := msgs[..|msgs| - 1];
      ReadableOwnContent(init);
      ReadableNumbers(init);
      forall i | 0 <= i < |Readable(init)|
        ensures msgs[Readable(init)[i].num - 1] == init[Readable(init)[i].num - 1]
      {
      }
    }
  }

  /** Message number `num` is among the scanned ones. */
  predicate ScannedNumber(ms: seq<Message>, num: nat) {
    exists i :: 0 <= i < |ms| && ms[i].num == num
  }

  /** Only a message whose fetch raises is left out. */
  lemma {:induction false} ReadableCoversInbox(msgs: seq<FetchOutcome>)
    ensures forall n :: 0 <= n < |msgs| && !msgs[n].FetchRaised? ==> ScannedNumber(Readable(msgs), n + 1)
  {
    if |msgs| > 0 {
      var init := msgs[..|msgs| - 1];
      ReadableCoversInbox(init);
      var r := Readable(msgs);
      var last := ReadStep(msgs[|msgs| - 1], |msgs|);
      assert r == Readable(init) + last;
      forall n | 0 <= n < |msgs| && !msgs[n].FetchRaised?
        ensures ScannedNumber(r, n + 1)
      {
        if n < |msgs| - 1 {
          assert !init[n].FetchRaised?;
          assert ScannedNumber(Readable(init), n + 1);
          var i :| 0 <= i < |Readable(init)| && Readable(init)[i].num == n + 1;
          assert r[i] == Readable(init)[i];
        } else {
          assert |last| == 1 && last[0].num == n + 1;
          assert r[|r| - 1] == last[0];
        }
      }
    }
  }

  /** A message whose fetch raises changes nothing that is counted. */
  lemma RaisingMessageIsSkipped(msgs: seq<FetchOutcome>)
    ensures Readable(msgs + [FetchRaised]) == Readable(msgs)
  {
    assert (msgs + [FetchRaised])[..|msgs|] == msgs;
  }

  /** One message's reply entry, given its phishing probability. */
  function Scan(m: Message, p: Phishing.Probability): ScannedEmail {
    ScannedEmail(m.num, m.sender, m.subject, Prefix(m.content, SNIPPET_LENGTH), Phishing.Verdict(p) == 1, p)
  }

  function ScanAll(ms: seq<Message>, classify: string -> Phishing.Probability): seq<ScannedEmail> {
    seq(|ms|, i requires 0 <= i < |ms| => Scan(ms[i], classify(ms[i].content)))
  }

  /** The number of entries flagged as phishing. */
  function CountFlagged(es: seq<ScannedEmail>): (n: nat)
    ensures n <= |es|
  {
    if |es| == 0 then 0
    else CountFlagged(es[..|es| - 1]) + (if es[|es| - 1].isPhishing then 1 else 0)
  }

  lemma CountFlaggedSnoc(es: seq<ScannedEmail>, e: ScannedEmail)
    ensures CountFlagged(es + [e]) == CountFlagged(es) + (if e.isPhishing then 1 else 0)
  {
    assert (es + [e])[..|es|] == es;
  }

  /** At most as many phishing detections as messages scanned; none when nothing scores above
      one half. */
  lemma {:induction false} CountFlaggedBounds(ms: seq<Message>, classify: string -> Phishing.Probability)
    ensures CountFlagged(ScanAll(ms, classify)) <= |ms|
    ensures (forall i :: 0 <= i < |ms| ==> classify(ms[i].content) <= 0.5) ==> CountFlagged(ScanAll(ms, classify)) == 0
    ensures (forall i :: 0 <= i < |ms| ==> classify(ms[i].content) > 0.5) ==> CountFlagged(ScanAll(ms, classify)) == |ms|
    decreases |ms|
  {
    if |ms| > 0 {
      var init := ms[..|ms| - 1];
      CountFlaggedBounds(init, classify);
      assert ScanAll(ms, classify)[..|ms| - 1] == ScanAll(init, classify);
      Phishing.VerdictThreshold(classify(ms[|ms| - 1].content), 1.0);
    }
  }

  /** The quarantine rows the scan adds: every scanned message, safe or not. */
  function QuarantineRows(ms: seq<Message>, userId: nat, firstId: nat, now: int): seq<QuarantinedEmail> {
    seq(|ms|, i requires 0 <= i < |ms| =>
      QuarantinedEmail(firstId + i, userId, ms[i].content, REASON_PHISHING, STATUS_PENDING, now))
  }

  /** The prediction logs the scan adds, one per entry. */
  function LogRows(es: seq<ScannedEmail>, firstId: nat, now: int): seq<PredictionLog> {
    seq(|es|, i requires 0 <= i < |es| => PredictionLog(firstId + i, EMAIL_URL, es[i].isPhishing, es[i].confidence, now))
  }

  /** The database after scanning `ms` with entries `es`: one quarantine row and one log per
      message, with consecutive ids. */
  function AfterScan(t: Tables, ms: seq<Message>, es: seq<ScannedEmail>, userId: nat, now: int): Tables {
    t.(quarantine := t.quarantine + QuarantineRows(ms, userId, t.nextQuarantineId, now),
       logs := t.logs + LogRows(es, t.nextLogId, now),
       nextQuarantineId := t.nextQuarantineId + |ms|,
       nextLogId := t.nextLogId + |es|)
  }

  /** The rows one more message adds. */
  function AddScanned(t: Tables, m: Message, e: ScannedEmail, userId: nat, now: int): Tables {
    t.(quarantine := t.quarantine + [QuarantinedEmail(t.nextQuarantineId, userId, m.content, REASON_PHISHING, STATUS_PENDING, now)],
       logs := t.logs + [PredictionLog(t.nextLogId, EMAIL_URL, e.isPhishing, e.confidence, now)],
       nextQuarantineId := t.nextQuarantineId + 1,
       nextLogId := t.nextLogId + 1)
  }

  lemma AfterScanSnoc(t: Tables, ms: seq<Message>, m: Message, es: seq<ScannedEmail>, e: ScannedEmail,
                      userId: nat, now: int)
    requires |es| == |ms|
    ensures AfterScan(t, ms + [m], es + [e], userId, now) == AddScanned(AfterScan(t, ms, es, userId, now), m, e, userId, now)
  {
    assert QuarantineRows(ms + [m], userId, t.nextQuarantineId, now) == QuarantineRows(ms, userId, t.nextQuarantineId, now)
      + [QuarantinedEmail(t.nextQuarantineId + |ms|, userId, m.content, REASON_PHISHING, STATUS_PENDING, now)];
    assert LogRows(es + [e], t.nextLogId, now)
      == LogRows(es, t.nextLogId, now) + [PredictionLog(t.nextLogId + |es|, EMAIL_URL, e.isPhishing, e.confidence, now)];
  }

  lemma ScanAllSnoc(ms: seq<Message>, m: Message, classify: string -> Phishing.Probability)
    ensures ScanAll(ms + [m], classify) == ScanAll(ms, classify) + [Scan(m, classify(m.content))]
  {
  }

  /** The body of the per-message `try` for a message that reaches `predict`. */
  method ScanOne(db: Database, store: Phishing.ModelStore, m: Message, userId: nat, now: int)
    returns (e: ScannedEmail)
    requires db.Valid()
    modifies db, store
    ensures db.Valid()
    ensures store.Loaded() && e == Scan(m, store.score(store.model.value, store.vectorizer.value, m.content))
    ensures store.State() == Phishing.EnsureLoaded(old(store.State()))
    ensures old(store.Loaded()) ==> unchanged(store)
    ensures db.Snap() == AddScanned(old(db.Snap()), m, e, userId, now)
  {
    var verdict, confidence := store.Predict(m.content);
    var isPhishing := verdict == 1;
    db.quarantine := db.quarantine + [NewQuarantinedEmail(db.nextQuarantineId, userId, m.content, REASON_PHISHING, now)];
    db.nextQuarantineId := db.nextQuarantineId + 1;
    db.logs := db.logs + [PredictionLog(db.nextLogId, EMAIL_URL, isPhishing, confidence, now)];
    db.nextLogId := db.nextLogId + 1;
    e := ScannedEmail(m.num, m.sender, m.subject, Prefix(m.content, SNIPPET_LENGTH), isPhishing, confidence);
  }

  /** What the scan of the first messages has left: their rows in the database, entries scored
      by the loaded model `m`, `v`, and the store loaded once from `s0` if anything was scanned. */
  ghost predicate Progress(db: Database, store: Phishing.ModelStore, t0: Tables, s0: Phishing.StoreState,
                           ms: seq<Message>, emails: seq<ScannedEmail>,
                           m: Phishing.Classifier, v: Phishing.Vectorizer, userId: nat, now: int)
    reads db, store
  {
    && db.Valid()
    && store.State() == (if |ms| > 0 then Phishing.EnsureLoaded(s0) else s0)
    && |emails| == |ms|
    && (|ms| > 0 ==> store.model == Some(m) && store.vectorizer == Some(v))
    && emails == ScanAll(ms, Classify(store.score, m, v))
    && db.Snap() == AfterScan(t0, ms, emails, userId, now)
  }

  /** The counters agree with the messages scanned so far. */
  predicate Counted(scanned: nat, quarantined: nat, phishing: nat, ms: seq<Message>, emails: seq<ScannedEmail>) {
    scanned == |ms| && quarantined == |ms| && phishing == CountFlagged(emails)
  }

  /** One iteration's `try`: when the fetch does not raise, classify the message, add its
      quarantine row and log, bump the counters and append its entry. */
  method ScanNext(db: Database, store: Phishing.ModelStore, o: FetchOutcome, num: nat, userId: nat, now: int,
                  scanned: nat, quarantined: nat, phishing: nat, emails: seq<ScannedEmail>,
                  ghost t0: Tables, ghost s0: Phishing.StoreState, ghost ms: seq<Message>, ghost m: Phishing.Classifier, ghost v: Phishing.Vectorizer)
    returns (scanned': nat, quarantined': nat, phishing': nat, emails': seq<ScannedEmail>,
             ghost m': Phishing.Classifier, ghost v': Phishing.Vectorizer)
    requires Progress(db, store, t0, s0, ms, emails, m, v, userId, now)
    requires Counted(scanned, quarantined, phishing, ms, emails)
    modifies db, store
    ensures Progress(db, store, t0, s0, ms + ReadStep(o, num), emails', m', v', userId, now)
    ensures Counted(scanned', quarantined', phishing', ms + ReadStep(o, num), emails')
    ensures old(store.Loaded()) ==> unchanged(store)
  {
    var step := ReadStep(o, num);
    if step == [] {
      assert ms + step == ms;
      return scanned, quarantined, phishing, emails, m, v;
    }
    var msg := step[0];
    assert step == [msg];
    Phishing.EnsureLoadedIdempotent(s0);
    var e := ScanOne(db, store, msg, userId, now);
    m', v' := if |ms| == 0 then store.model.value else m, if |ms| == 0 then store.vectorizer.value else v;
    AfterScanSnoc(t0, ms, msg, emails, e, userId, now);
    ScanAllSnoc(ms, msg, Classify(store.score, m', v'));
    CountFlaggedSnoc(emails, e);
    scanned' := scanned + 1;
    phishing' := phishing;
    if e.isPhishing {
      phishing' := phishing' + 1;
    }
    quarantined' := quarantined + 1;
    emails' := emails + [e];
  }

  /** The `for num in message_numbers` loop of `/scan-inbox`. */
  method ScanMessages(db: Database, store: Phishing.ModelStore, msgs: seq<FetchOutcome>, userId: nat, now: int)
    returns (scanned: nat, quarantined: nat, phishing: nat, emails: seq<ScannedEmail>,
             ghost m: Phishing.Classifier, ghost v: Phishing.Vectorizer)
    requires db.Valid()
    modifies db, store
    ensures old(store.Loaded()) ==> unchanged(store)
    ensures Counted(scanned, quarantined, phishing, Readable(msgs), emails)
    ensures Progress(db, store, old(db.Snap()), old(store.State()), Readable(msgs), emails, m, v, userId, now)
  {
    scanned, quarantined, phishing := 0, 0, 0;
    emails := [];
    ghost var ms: seq<Message> := [];
    ghost var t0 := db.Snap();
    ghost var s0 := store.State();
    m, v := Phishing.FALLBACK_MODEL, Phishing.FALLBACK_VECTORIZER;
    var j := 0;
    while j < |msgs|
      invariant 0 <= j <= |msgs|
      invariant ms == Readable(msgs[..j])
      invariant Counted(scanned, quarantined, phishing, ms, emails)
      invariant Progress(db, store, t0, s0, ms, emails, m, v, userId, now)
      invariant old(store.Loaded()) ==> unchanged(store)
    {
      ReadableSnoc(msgs, j);
      scanned, quarantined, phishing, emails, m, v :=
        ScanNext(db, store, msgs[j], j + 1, userId, now, scanned, quarantined, phishing, emails, t0, s0, ms, m, v);
      ms := ms + ReadStep(msgs[j], j + 1);
      j := j + 1;
    }
    assert msgs[..j] == msgs;
  }

  /**
   * `/scan-inbox`: 401 without stored credentials, 400 when the IMAP server fails before the
   * loop; otherwise every message that reaches `predict` is counted as scanned and as
   * quarantined, whatever its verdict, gets a quarantine row and a prediction log, and is listed.
   */
  method ScanInbox(db: Database, store: Phishing.ModelStore, caller: User, session: ImapSession, now: int)
    returns (status: int, report: ScanReport)
    requires db.Valid()
    modifies db, store
    ensures db.Valid()
    ensures status == UNAUTHORIZED <==> session.NotConnected?
    ensures status == BAD_REQUEST <==> session.ImapFailed?
    ensures status == OK <==> session.Inbox?
    ensures !session.Inbox? ==> db.Snap() == old(db.Snap()) && unchanged(store)
    ensures old(store.Loaded()) ==> unchanged(store)
    ensures session.Inbox? ==>
      var ms := Readable(session.messages);
      && report.scanned == |ms| && report.quarantined == |ms| && |report.emails| == |ms|
      && report.phishingDetected == CountFlagged(report.emails)
      && store.State() == (if |ms| > 0 then Phishing.EnsureLoaded(old(store.State())) else old(store.State()))
      && (|ms| > 0 ==> store.Loaded() && report.emails == ScanAll(ms, ScoreOf(store)))
      && db.Snap() == AfterScan(old(db.Snap()), ms, report.emails, caller.id, now)
  {
    if session.NotConnected? {
      return UNAUTHORIZED, ScanReport(0, 0, 0, []);
    }
    if session.ImapFailed? {
      return BAD_REQUEST, ScanReport(0, 0, 0, []);
    }
    var scanned, quarantined, phishing, emails;
    ghost var m, v;
    scanned, quarantined, phishing, emails, m, v := ScanMessages(db, store, session.messages, caller.id, now);
    status := OK;
    report := ScanReport(scanned, quarantined, phishing, emails);
  }

  /** The counters of a scan report: detections never exceed scans, and every scan is a
      quarantine. */
  lemma ScanCounters(msgs: seq<FetchOutcome>, classify: string -> Phishing.Probability)
    ensures var es := ScanAll(Readable(msgs), classify);
      CountFlagged(es) <= |es| == |Readable(msgs)| <= |msgs|
  {
    CountFlaggedBounds(Readable(msgs), classify);
    ReadableLength(msgs);
  }

  lemma {:induction false} ReadableLength(msgs: seq<FetchOutcome>)
    ensures |Readable(msgs)| <= |msgs|
  {
    if |msgs| > 0 {
      ReadableLength(msgs[..|msgs| - 1]);
    }
  }

  // As written, a malformed `mail.fetch` reply skips the block that binds `sender`, `subject`,
  // `snippet` and `email_content` (routes.py:443-469), so `predict(email_content)` runs on the
  // values left by the last message parsed -- or raises `UnboundLocalError`, caught as a
  // per-message failure, when no message was parsed yet.

  /** The last message parsed so far, whose values the loop's locals still hold. */
  function LastParsed(msgs: seq<FetchOutcome>): (r: Option<Message>)
    ensures r.None? <==> forall i :: 0 <= i < |msgs| ==> !msgs[i].Fetched?
    ensures r.Some? ==>
      && 1 <= r.value.num <= |msgs|
      && msgs[r.value.num - 1] == Fetched(r.value.sender, r.value.subject, r.value.content)
      && forall i :: r.value.num <= i < |msgs| ==> !msgs[i].Fetched?
  {
    if |msgs| == 0 then None
    else match msgs[|msgs| - 1]
      case Fetched(sender, subject, content) => Some(Message(|msgs|, sender, subject, content))
      case _ => LastParsed(msgs[..|msgs| - 1])
  }

  /** The messages that reach `predict` in the code as written. */
  function ReadableAsWritten(msgs: seq<FetchOutcome>): (r: seq<Message>)
    ensures |r| <= |msgs|
    ensures forall i :: 0 <= i < |r| ==> 1 <= r[i].num <= |msgs|
  {
    if |msgs| == 0 then []
    else
      var n := |msgs|;
      ReadableAsWritten(msgs[..n - 1]) +
        match msgs[n - 1]
        case FetchRaised => []
        case Fetched(sender, subject, content) => [Message(n, sender, subject, content)]
        case Malformed =>
          match LastParsed(msgs[..n - 1])
          case None => []
          case Some(p) => [p.(num := n)]
  }

  /** A malformed second message is scanned as a copy of the first; a malformed first message
      is dropped. The corrected reading scans each as an empty message. */
  lemma MalformedFetchRescansStaleMessage()
    ensures ReadableAsWritten([Fetched("a@example.com", "Prize", "claim your prize"), Malformed])
      == [Message(1, "a@example.com", "Prize", "claim your prize"), Message(2, "a@example.com", "Prize", "claim your prize")]
    ensures Readable([Fetched("a@example.com", "Prize", "claim your prize"), Malformed])
      == [Message(1, "a@example.com", "Prize", "claim your prize"), Message(2, "", "", "")]
    ensures ReadableAsWritten([Malformed]) == []
    ensures Readable([Malformed]) == [Message(1, "", "", "")]
  {
    var two := [Fetched("a@example.com", "Prize", "claim your prize"), Malformed];
    assert two[..1] == [Fetched("a@example.com", "Prize", "claim your prize")];
    assert two[..1][..0] == [];
    assert [Malformed][..0] == [];
  }

  // ---------------------------------------------------------------------------------------------
  // /scan-eml (routes.py:753-827)

  datatype EmlReport = EmlReport(isPhishing: bool, confidence: real, quarantinedId: Option<nat>)

  /** The rows an upload leaves in the database: always its prediction log, and a quarantine row
      exactly when it is classified as phishing. */
  function EmlStored(t: Tables, isPhishing: bool, confidence: real, userId: nat, text: string, now: int)
    : (t': Tables)
    ensures t'.logs == t.logs + [PredictionLog(t.nextLogId, UPLOAD_URL, isPhishing, confidence, now)]
    ensures t'.nextLogId == t.nextLogId + 1
    ensures isPhishing ==> t'.quarantine == t.quarantine + [QuarantinedEmail(t.nextQuarantineId, userId, text, REASON_PHISHING, STATUS_PENDING, now)]
    ensures isPhishing ==> t'.nextQuarantineId == t.nextQuarantineId + 1
    ensures !isPhishing ==> t'.quarantine == t.quarantine && t'.nextQuarantineId == t.nextQuarantineId
    ensures t'.users == t.users && t'.feedback == t.feedback && t'.external == t.external && t'.tips == t.tips
    ensures TablesValid(t) ==> TablesValid(t')
  {
    var logged := t.(logs := t.logs + [PredictionLog(t.nextLogId, UPLOAD_URL, isPhishing, confidence, now)],
                     nextLogId := t.nextLogId + 1);
    if isPhishing then
      logged.(quarantine := t.quarantine + [NewQuarantinedEmail(t.nextQuarantineId, userId, text, REASON_PHISHING, now)],
              nextQuarantineId := t.nextQuarantineId + 1)
    else logged
  }

  /** As written, `db.commit()` runs only in the phishing branch (routes.py:814), so for a safe
      upload the session closes with the log uncommitted and it is discarded. */
  function EmlStoredAsWritten(t: Tables, isPhishing: bool, confidence: real, userId: nat, text: string, now: int)
    : (t': Tables)
    ensures isPhishing ==> t' == EmlStored(t, isPhishing, confidence, userId, text, now)
    ensures !isPhishing ==> t' == t
  {
    if isPhishing then EmlStored(t, isPhishing, confidence, userId, text, now) else t
  }

  /** A safe upload leaves no prediction log as written; the corrected flow keeps one. */
  lemma SafeUploadLogIsLost(t: Tables, confidence: real, userId: nat, text: string, now: int)
    ensures EmlStoredAsWritten(t, false, confidence, userId, text, now).logs == t.logs
    ensures |EmlStored(t, false, confidence, userId, text, now).logs| == |t.logs| + 1
  {
  }

  /** `/scan-eml`: 400 unless the file name ends in ".eml"; otherwise classify the text, log it,
      and quarantine it iff it is phishing. */
  method ScanEml(db: Database, store: Phishing.ModelStore, caller: User, filename: Option<string>,
                 text: string, now: int) returns (status: int, report: EmlReport)
    requires db.Valid()
    modifies db, store
    ensures db.Valid()
    ensures status == BAD_REQUEST <==> !(filename.Some? && HasSuffix(filename.value, ".eml"))
    ensures status == OK || status == BAD_REQUEST
    ensures status == BAD_REQUEST ==> db.Snap() == old(db.Snap()) && unchanged(store)
    ensures status == OK ==>
      && store.State() == Phishing.EnsureLoaded(old(store.State()))
      && store.Loaded() && report.confidence == ScoreOf(store)(text)
      && report.isPhishing == (Phishing.Verdict(ScoreOf(store)(text)) == 1)
      && (report.quarantinedId.Some? <==> report.isPhishing)
      && (report.isPhishing ==> report.quarantinedId == Some(old(db.nextQuarantineId)))
      && db.Snap() == EmlStored(old(db.Snap()), report.isPhishing, report.confidence, caller.id, text, now)
  {
    if !(filename.Some? && HasSuffix(filename.value, ".eml")) {
      return BAD_REQUEST, EmlReport(false, 0.0, None);
    }
    var verdict, confidence := store.Predict(text);
    var isPhishing := verdict == 1;
    ghost var before := db.Snap();
    var qid := db.nextQuarantineId;
    db.logs := db.logs + [PredictionLog(db.nextLogId, UPLOAD_URL, isPhishing, confidence, now)];
    db.nextLogId := db.nextLogId + 1;
    if isPhishing {
      db.quarantine := db.quarantine + [NewQuarantinedEmail(db.nextQuarantineId, caller.id, text, REASON_PHISHING, now)];
      db.nextQuarantineId := db.nextQuarantineId + 1;
      report := EmlReport(true, confidence, Some(qid));
    } else {
      report := EmlReport(false, confidence, None);
    }
    assert db.Snap() == EmlStored(before, isPhishing, confidence, caller.id, text, now);
    status := OK;
  }
}
