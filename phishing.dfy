/**
 * `backend/app/phishing.py`: the process-wide `model`/`vectorizer` slots, the two pickle files
 * that back them, lazy loading, training on the built-in URL list, and the verdict rule.
 *
 * scikit-learn is abstract. A fitted `TfidfVectorizer` and `LogisticRegression` are known only by
 * the data they were fitted on. `predict_proba(...)[0][1]` is the `Scorer` supplied when the store
 * is created: some function of the fitted pair and the text, with values in [0, 1].
 */
module Phishing {
  import opened Wrappers

  const MODEL_PATH: string := "phishing_model.pkl"
  const VECTORIZER_PATH: string := "vectorizer.pkl"

  /** A positive-class probability. */
  type Probability = r: real | 0.0 <= r <= 1.0

  /** A fitted `TfidfVectorizer`, known by the corpus it was fitted on. */
  datatype Vectorizer = Vectorizer(corpus: seq<string>)

  /** A fitted `LogisticRegression`, known by the samples and labels it was fitted on. */
  datatype Classifier = Classifier(corpus: seq<string>, labels: seq<int>)

  /** `model.predict_proba(vectorizer.transform([text]))[0][1]`. */
  type Scorer = (Classifier, Vectorizer, string) -> Probability

  /** The two files `train_model` and `retrain` write, in the order written. */
  datatype PathWritten = ModelPathWritten | VectorizerPathWritten

  /** What `pd.read_csv("phishlegiturls.csv")` produced: the URL and Label columns, or nothing. */
  datatype CsvRead = CsvMissing | CsvColumns(urls: seq<string>, labels: seq<int>)

  /** Both labels occur: what `LogisticRegression.fit` needs ("at least 2 classes"). */
  predicate TwoClasses(labels: seq<int>) {
    exists i, j :: 0 <= i < |labels| && 0 <= j < |labels| && labels[i] != labels[j]
  }

  /** A character `\w` matches, restricted to ASCII. */
  predicate IsWordChar(c: char) {
    'a' <= c <= 'z' || 'A' <= c <= 'Z' || '0' <= c <= '9' || c == '_'
  }

  /** The default token pattern of `TfidfVectorizer`, `(?u)\b\w\w+\b`, finds a term in `doc`
      exactly when two word characters are adjacent somewhere in it. */
  predicate HasToken(doc: string) {
    exists i :: 0 <= i < |doc| - 1 && IsWordChar(doc[i]) && IsWordChar(doc[i + 1])
  }

  /** Some document yields a term, so the fitted vocabulary is not empty. */
  predicate SomeToken(docs: seq<string>) {
    exists k :: 0 <= k < |docs| && HasToken(docs[k])
  }

  /**
   * `vectorizer.fit_transform(data)` then `model.fit(X, labels)`; scikit-learn raises a
   * `ValueError` when no document yields a term ("empty vocabulary"), when the sample and label
   * counts differ, or when only one class is present.
   */
  function Fit(data: seq<string>, labels: seq<int>): Option<(Classifier, Vectorizer)> {
    if SomeToken(data) && |data| == |labels| && TwoClasses(labels) then
      Some((Classifier(data, labels), Vectorizer(data)))
    else None
  }

  /** Each of the three `ValueError`s on a small dataset: counts that differ, a single class, and
      documents with no term of two word characters; a well-formed pair is fitted as given. */
  lemma FitErrorExamples()
    ensures Fit(["http://a.com"], [0, 1]).None?
    ensures Fit(["http://a.com", "http://b.com"], [1, 1]).None?
    ensures Fit(["", "a.b"], [0, 1]).None?
    ensures Fit(["http://a.com", "x.io"], [0, 1])
      == Some((Classifier(["http://a.com", "x.io"], [0, 1]), Vectorizer(["http://a.com", "x.io"])))
  {
    var one: seq<int> := [1, 1];
    assert !TwoClasses(one) by {
      forall i, j | 0 <= i < |one| && 0 <= j < |one| ensures one[i] == one[j] { }
    }
    var docs := ["", "a.b"];
    assert !SomeToken(docs) by {
      forall k | 0 <= k < |docs| ensures !HasToken(docs[k]) {
        if k == 1 {
          forall i | 0 <= i < |docs[k]| - 1 ensures !(IsWordChar(docs[k][i]) && IsWordChar(docs[k][i + 1])) {
            assert docs[k] == "a.b";
          }
        }
      }
    }
    var ok := ["http://a.com", "x.io"];
    assert HasToken(ok[0]) by { assert IsWordChar(ok[0][0]) && IsWordChar(ok[0][1]); }
    var lab: seq<int> := [0, 1];
    assert lab[0] != lab[1];
  }

  /** The fallback URL list of phishing.py:51-68: five safe URLs, then nine phishing URLs. */
  const FALLBACK_URLS: seq<string> := [
    "http://example.com",
    "http://safe-site.com",
    "https://www.google.com",
    "https://www.wikipedia.org",
    "https://www.github.com",
    "http://malicious.xyz/phish",
    "http://www.testingmcafeesites.com/testcat_ph.html",
    "http://phishingsite.com",
    "http://malicious-link.net",
    "http://fakebank-login.com",
    "http://paypal-security-alert.com",
    "http://update-your-account.com",
    "http://secure-appleid.com",
    "http://login-facebook-support.com"
  ]

  /** The labels of phishing.py:69-72. */
  const FALLBACK_LABELS: seq<int> := [0, 0, 0, 0, 0, 1, 1, 1, 1, 1, 1, 1, 1, 1]

  /** The fallback dataset is 14 parallel entries, five 0s then nine 1s, and both classes occur. */
  lemma FallbackDatasetShape()
    ensures |FALLBACK_URLS| == |FALLBACK_LABELS| == 14
    ensures forall i :: 0 <= i < 5 ==> FALLBACK_LABELS[i] == 0
    ensures forall i :: 5 <= i < 14 ==> FALLBACK_LABELS[i] == 1
    ensures TwoClasses(FALLBACK_LABELS)
    ensures SomeToken(FALLBACK_URLS)
    ensures Fit(FALLBACK_URLS, FALLBACK_LABELS).Some?
  {
    assert FALLBACK_LABELS[0] != FALLBACK_LABELS[5];
    assert HasToken(FALLBACK_URLS[0]) by {
      assert IsWordChar(FALLBACK_URLS[0][0]) && IsWordChar(FALLBACK_URLS[0][1]);
    }
  }

  /** The pair `train_model` always produces. */
  const FALLBACK_MODEL: Classifier := Classifier(FALLBACK_URLS, FALLBACK_LABELS)
  const FALLBACK_VECTORIZER: Vectorizer := Vectorizer(FALLBACK_URLS)

  /** `int(p > 0.5)` (phishing.py:104). */
  function Verdict(p: Probability): (verdict: int)
    ensures verdict == 0 || verdict == 1
  {
    if p > 0.5 then 1 else 0
  }

  /** The verdict is 1 exactly above one half: a probability of exactly 0.5 is safe, and a higher
      probability never gives a lower verdict. */
  lemma VerdictThreshold(p: Probability, q: Probability)
    ensures Verdict(p) == 1 <==> p > 0.5
    ensures Verdict(0.5) == 0
    ensures p <= q ==> Verdict(p) <= Verdict(q)
  {
  }

  /** The value of a `ModelStore`: both globals, both files and the writes so far. */
  datatype StoreState = StoreState(model: Option<Classifier>, vectorizer: Option<Vectorizer>,
                                   modelFile: Option<Classifier>, vectorizerFile: Option<Vectorizer>,
                                   writes: seq<PathWritten>)

  /**
   * The state `predict` leaves before it scores (phishing.py:93-94 with `load_model`,
   * phishing.py:21-32): unchanged when both globals are set; otherwise read from both files when
   * both exist; otherwise trained on the fallback list, both files written, then read back.
   */
  function EnsureLoaded(s: StoreState): (t: StoreState)
    ensures t.model.Some? && t.vectorizer.Some?
    ensures s.model.Some? && s.vectorizer.Some? ==> t == s
    ensures t.writes == s.writes || t.writes == s.writes + [ModelPathWritten, VectorizerPathWritten]
  {
    if s.model.Some? && s.vectorizer.Some? then s
    else if s.modelFile.Some? && s.vectorizerFile.Some? then
      s.(model := s.modelFile, vectorizer := s.vectorizerFile)
    else
      StoreState(Some(FALLBACK_MODEL), Some(FALLBACK_VECTORIZER), Some(FALLBACK_MODEL),
                 Some(FALLBACK_VECTORIZER), s.writes + [ModelPathWritten, VectorizerPathWritten])
  }

  /** Loading happens at most once: a second `predict` finds the model loaded and changes nothing,
      and the files only change when one of them was missing. */
  lemma EnsureLoadedIdempotent(s: StoreState)
    ensures EnsureLoaded(EnsureLoaded(s)) == EnsureLoaded(s)
    ensures s.modelFile.Some? && s.vectorizerFile.Some? ==>
      && EnsureLoaded(s).modelFile == s.modelFile && EnsureLoaded(s).vectorizerFile == s.vectorizerFile
      && EnsureLoaded(s).writes == s.writes
  {
  }

  /**
   * The module's global state and the disk: the `model` and `vectorizer` globals (None until
   * loaded), the contents of MODEL_PATH and VECTORIZER_PATH (None when the file does not exist),
   * and the sequence of file writes made so far.
   */
  class ModelStore {
    var model: Option<Classifier>
    var vectorizer: Option<Vectorizer>
    var modelFile: Option<Classifier>
    var vectorizerFile: Option<Vectorizer>
    var writes: seq<PathWritten>
    const score: Scorer

    /** Import of the module: both globals unset (phishing.py:13-14), the disk as found. */
    constructor (score: Scorer, modelFile: Option<Classifier>, vectorizerFile: Option<Vectorizer>)
      ensures this.model.None? && this.vectorizer.None?
      ensures this.modelFile == modelFile && this.vectorizerFile == vectorizerFile
      ensures this.writes == [] && this.score == score
    {
      this.score := score;
      this.model, this.vectorizer := None, None;
      this.modelFile, this.vectorizerFile := modelFile, vectorizerFile;
      this.writes := [];
    }

    /** The store as a value. */
    function State(): StoreState
      reads this
    {
      StoreState(model, vectorizer, modelFile, vectorizerFile, writes)
    }

    /** Both globals are set. */
    predicate Loaded()
      reads this
    {
      model.Some? && vectorizer.Some?
    }

    /**
     * `train_model()`. Whatever the CSV read gives, the assignment at phishing.py:51-72 runs after
     * the `try`/`except` and overwrites it, so the fit is always on the fallback list. Both globals
     * are set, then the model file is written, then the vectorizer file.
     */
    method TrainModel(csv: CsvRead)
      modifies this
      ensures model == Some(FALLBACK_MODEL) && vectorizer == Some(FALLBACK_VECTORIZER)
      ensures modelFile == model && vectorizerFile == vectorizer
      ensures writes == old(writes) + [ModelPathWritten, VectorizerPathWritten]
    {
      var data, labels := FALLBACK_URLS, FALLBACK_LABELS;
      if csv.CsvColumns? {
        data, labels := csv.urls, csv.labels;
      }
      // the fallback assignment is not inside the `except` branch
      data, labels := FALLBACK_URLS, FALLBACK_LABELS;
      FallbackDatasetShape();
      var fitted := Fit(data, labels).value;
      model, vectorizer := Some(fitted.0), Some(fitted.1);
      modelFile := model;
      writes := writes + [ModelPathWritten];
      vectorizerFile := vectorizer;
      writes := writes + [VectorizerPathWritten];
    }

    /**
     * `load_model()`: train first when either file is missing (phishing.py:27-28), then read both
     * files into the globals.
     */
    method LoadModel()
      modifies this
      ensures old(modelFile).Some? && old(vectorizerFile).Some? ==>
        modelFile == old(modelFile) && vectorizerFile == old(vectorizerFile) && writes == old(writes)
      ensures old(modelFile).None? || old(vectorizerFile).None? ==>
        && modelFile == Some(FALLBACK_MODEL) && vectorizerFile == Some(FALLBACK_VECTORIZER)
        && writes == old(writes) + [ModelPathWritten, VectorizerPathWritten]
      ensures model == modelFile && vectorizer == vectorizerFile && Loaded()
    {
      if modelFile.None? || vectorizerFile.None? {
        TrainModel(CsvMissing);
      }
      model := modelFile;
      vectorizer := vectorizerFile;
    }

    /**
     * `predict(url)`: load only when a global is unset (phishing.py:93-94); once both are set
     * nothing is reloaded, retrained or written. The double check at phishing.py:97-98 never
     * raises, because loading always leaves both globals set. The label is `int(p > 0.5)` and the
     * confidence is `p` itself.
     */
    method Predict(text: string) returns (verdict: int, confidence: Probability)
      modifies this
      ensures old(Loaded()) ==> unchanged(this)
      ensures !old(Loaded()) && old(modelFile).Some? && old(vectorizerFile).Some? ==>
        && model == old(modelFile) && vectorizer == old(vectorizerFile)
        && modelFile == old(modelFile) && vectorizerFile == old(vectorizerFile)
        && writes == old(writes)
      ensures !old(Loaded()) && (old(modelFile).None? || old(vectorizerFile).None?) ==>
        && model == Some(FALLBACK_MODEL) && vectorizer == Some(FALLBACK_VECTORIZER)
        && modelFile == model && vectorizerFile == vectorizer
        && writes == old(writes) + [ModelPathWritten, VectorizerPathWritten]
      ensures State() == EnsureLoaded(old(State()))
      ensures Loaded()
      ensures confidence == score(model.value, vectorizer.value, text)
      ensures verdict == Verdict(confidence)
    {
      if model.None? || vectorizer.None? {
        LoadModel();
      }
      assert Loaded();
      confidence := score(model.value, vectorizer.value, text);
      verdict := if confidence > 0.5 then 1 else 0;
    }
  }
}
