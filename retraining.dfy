/**
 * `backend/app/retraining.py`: `retrain()` fits a fresh pair on every feedback row (with its human
 * label) and every external-feed URL (labelled 1) and writes both pickle files. The fitted objects
 * are local variables, so the globals that `predict` uses are never refreshed.
 */
module Retraining {
  import opened Wrappers
  import opened Models
  import opened Phishing

  /** `[x.url for x in feedback] + [x.url for x in external]` (retraining.py:26). */
  function TrainingData(feedback: seq<Feedback>, external: seq<ExternalPhishingEntry>): (data: seq<string>)
    ensures |data| == |feedback| + |external|
    ensures forall i :: 0 <= i < |feedback| ==> data[i] == feedback[i].url
    ensures forall j :: 0 <= j < |external| ==> data[|feedback| + j] == external[j].url
  {
    seq(|feedback|, i requires 0 <= i < |feedback| => feedback[i].url)
    + seq(|external|, j requires 0 <= j < |external| => external[j].url)
  }

  /** `[x.is_phishing for x in feedback] + [1] * len(external)` (retraining.py:27). */
  function TrainingLabels(feedback: seq<Feedback>, external: seq<ExternalPhishingEntry>): (labels: seq<int>)
    ensures |labels| == |feedback| + |external|
    ensures forall i :: 0 <= i < |feedback| ==> (labels[i] == 1 <==> feedback[i].isPhishing)
    ensures forall i :: 0 <= i < |labels| ==> labels[i] == 0 || labels[i] == 1
    ensures forall i :: |feedback| <= i < |labels| ==> labels[i] == 1
  {
    seq(|feedback|, i requires 0 <= i < |feedback| => if feedback[i].isPhishing then 1 else 0)
    + seq(|external|, j requires 0 <= j < |external| => 1)
  }

  /** The dataset is feedback first, then feeds; labels are parallel, human labels on the
      feedback part and 1 on the feed part. */
  lemma DatasetShape(feedback: seq<Feedback>, external: seq<ExternalPhishingEntry>)
    ensures |TrainingData(feedback, external)| == |TrainingLabels(feedback, external)|
                                               == |feedback| + |external|
    ensures forall i :: 0 <= i < |feedback| ==>
      && TrainingData(feedback, external)[i] == feedback[i].url
      && (TrainingLabels(feedback, external)[i] == 1 <==> feedback[i].isPhishing)
    ensures forall j :: 0 <= j < |external| ==>
      && TrainingData(feedback, external)[|feedback| + j] == external[j].url
      && TrainingLabels(feedback, external)[|feedback| + j] == 1
  {
  }

  /**
   * Fitting succeeds exactly when some feedback row is labelled safe, some row of the dataset is
   * phishing (a phishing feedback row or any feed entry), and some URL of either table holds a
   * term. In particular feed entries alone can never be fitted: they are all labelled 1.
   */
  lemma FitSucceedsIff(feedback: seq<Feedback>, external: seq<ExternalPhishingEntry>)
    ensures Fit(TrainingData(feedback, external), TrainingLabels(feedback, external)).Some?
      <==> (exists i :: 0 <= i < |feedback| && !feedback[i].isPhishing)
           && ((exists i :: 0 <= i < |feedback| && feedback[i].isPhishing) || |external| > 0)
           && ((exists i :: 0 <= i < |feedback| && HasToken(feedback[i].url))
               || (exists j :: 0 <= j < |external| && HasToken(external[j].url)))
  {
    var labels := TrainingLabels(feedback, external);
    DatasetShape(feedback, external);
    TwoClassesIff(feedback, external);
    SomeTokenIff(feedback, external);
  }

  /** The labels hold both classes exactly when a feedback row is safe and some row is phishing. */
  lemma TwoClassesIff(feedback: seq<Feedback>, external: seq<ExternalPhishingEntry>)
    ensures TwoClasses(TrainingLabels(feedback, external))
      <==> (exists i :: 0 <= i < |feedback| && !feedback[i].isPhishing)
           && ((exists i :: 0 <= i < |feedback| && feedback[i].isPhishing) || |external| > 0)
  {
    var labels := TrainingLabels(feedback, external);
    DatasetShape(feedback, external);
    var hasSafe := exists i :: 0 <= i < |feedback| && !feedback[i].isPhishing;
    var hasPhish := (exists i :: 0 <= i < |feedback| && feedback[i].isPhishing) || |external| > 0;
    if hasSafe && hasPhish {
      var s :| 0 <= s < |feedback| && !feedback[s].isPhishing;
      var p: nat;
      if exists i :: 0 <= i < |feedback| && feedback[i].isPhishing {
        p :| 0 <= p < |feedback| && feedback[p].isPhishing;
      } else {
        p := |feedback|;
        assert labels[|feedback| + 0] == 1;
      }
      assert labels[s] != labels[p];
    }
    if TwoClasses(labels) {
      var a, b :| 0 <= a < |labels| && 0 <= b < |labels| && labels[a] != labels[b];
      var z := if labels[a] == 0 then a else b;
      var o := if labels[a] == 0 then b else a;
      assert z < |feedback| && !feedback[z].isPhishing;
      if o < |feedback| {
        assert feedback[o].isPhishing;
      } else {
        assert |external| > 0;
      }
    }
  }

  /** The corpus yields a term exactly when some feedback URL or some feed URL does. */
  lemma SomeTokenIff(feedback: seq<Feedback>, external: seq<ExternalPhishingEntry>)
    ensures SomeToken(TrainingData(feedback, external))
      <==> (exists i :: 0 <= i < |feedback| && HasToken(feedback[i].url))
           || (exists j :: 0 <= j < |external| && HasToken(external[j].url))
  {
    var data := TrainingData(feedback, external);
    DatasetShape(feedback, external);
    if SomeToken(data) {
      var k :| 0 <= k < |data| && HasToken(data[k]);
      if k < |feedback| {
        assert HasToken(feedback[k].url);
      } else {
        assert HasToken(external[k - |feedback|].url);
      }
    }
    if exists i :: 0 <= i < |feedback| && HasToken(feedback[i].url) {
      var i :| 0 <= i < |feedback| && HasToken(feedback[i].url);
      assert HasToken(data[i]);
    } else if exists j :: 0 <= j < |external| && HasToken(external[j].url) {
      var j :| 0 <= j < |external| && HasToken(external[j].url);
      assert HasToken(data[|feedback| + j]);
    }
  }

  /** Both classes present is not enough: two feedback rows with empty URLs, one safe and one
      phishing, give an empty vocabulary and the fit fails. */
  lemma EmptyUrlsCannotFit(a: Feedback, b: Feedback)
    requires a.url == "" && b.url == "" && !a.isPhishing && b.isPhishing
    ensures TwoClasses(TrainingLabels([a, b], []))
    ensures Fit(TrainingData([a, b], []), TrainingLabels([a, b], [])).None?
  {
    var labels := TrainingLabels([a, b], []);
    DatasetShape([a, b], []);
    assert labels[0] != labels[1];
    FitSucceedsIff([a, b], []);
  }

  /** Feed entries alone (no feedback) cannot be fitted. */
  lemma FeedsAloneCannotFit(external: seq<ExternalPhishingEntry>)
    ensures Fit(TrainingData([], external), TrainingLabels([], external)).None?
  {
    FitSucceedsIff([], external);
  }

  /** How a `retrain()` run ended: saved, skipped with the "No data" warning, or an exception
      logged as "Retraining failed". */
  datatype RetrainOutcome = Saved | SkippedNoData | FailedLogged

  /**
   * `retrain()`. Reads the feedback and feed tables; with no data at all it only logs a warning
   * (retraining.py:29, 45-46); otherwise it fits, and only after a successful fit writes the
   * model file and then the vectorizer file (retraining.py:35-43). A fit error is caught and
   * logged (retraining.py:47-48). The globals of the model store are never touched.
   */
  method Retrain(store: ModelStore, db: Database) returns (outcome: RetrainOutcome)
    modifies store
    ensures store.model == old(store.model) && store.vectorizer == old(store.vectorizer)
    ensures outcome == SkippedNoData <==> |db.feedback| + |db.external| == 0
    ensures outcome == Saved <==>
      Fit(TrainingData(db.feedback, db.external), TrainingLabels(db.feedback, db.external)).Some?
    ensures outcome == Saved ==>
      var data := TrainingData(db.feedback, db.external);
      var labels := TrainingLabels(db.feedback, db.external);
      && store.modelFile == Some(Classifier(data, labels))
      && store.vectorizerFile == Some(Vectorizer(data))
      && store.writes == old(store.writes) + [ModelPathWritten, VectorizerPathWritten]
    ensures outcome != Saved ==>
      && store.modelFile == old(store.modelFile) && store.vectorizerFile == old(store.vectorizerFile)
      && store.writes == old(store.writes)
  {
    var feedback := db.feedback;
    var external := db.external;
    var data := TrainingData(feedback, external);
    var labels := TrainingLabels(feedback, external);
    DatasetShape(feedback, external);
    if |data| > 0 {
      var fitted := Fit(data, labels);
      if fitted.Some? {
        // the fitted pair stays local to this call
        var (model, vectorizer) := fitted.value;
        store.modelFile := Some(model);
        store.writes := store.writes + [ModelPathWritten];
        store.vectorizerFile := Some(vectorizer);
        store.writes := store.writes + [VectorizerPathWritten];
        outcome := Saved;
      } else {
        outcome := FailedLogged;
      }
    } else {
      outcome := SkippedNoData;
    }
  }
}
