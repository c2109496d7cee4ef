# AI e-mail phishing detector: a verified model of its core

The model covers the backend of the phishing detector. That backend is a FastAPI service over a SQLAlchemy database. It does the following:

- classifies URLs and e-mail text with a TF-IDF / logistic-regression model trained on a built-in URL list;
- logs every prediction;
- quarantines e-mails read from a user's IMAP inbox or uploaded as `.eml` files;
- takes user feedback on quarantined e-mails;
- imports phishing URLs from the PhishTank and OpenPhish feeds;
- retrains on feedback and feed data;
- handles account sign-up, admin approval, login and password reset;
- manages educative tips and answers a keyword chatbot;
- seeds an admin account, a test account and demonstration rows at start-up.

The model also covers one frontend page: the prediction-log page, with its filter bar.

Each core file keeps its own shape in the model:

- **Database.** `Models.Database` is a class whose fields are the tables, and the route handlers are methods that change it in place. Every handler is proved against an explicit new database state.
  - That state is written with `Snap()`, the whole database as a value, so "nothing else changes" is part of every contract.
  - Each handler keeps the schema's constraints `Valid()`: primary keys below the next key, keys pairwise distinct, and unique `User.email` and `ExternalPhishingEntry.url`.
- **Model store.** The module globals and pickle files of `phishing.py` form the class `Phishing.ModelStore`. Its value is `State()`, and every handler that classifies states the store it leaves as `Phishing.EnsureLoaded` of the store it found.
- **Pure code.** Computations without state are functions with lemmas: the URL helpers, the chatbot, the dataset construction of `retrain`, the log filters and the start-up seeding rules.
- **Loops.** The source's loops stay loops with invariants: the feed collection and insertion loops, and the inbox scan loop.

scikit-learn, bcrypt, JWT signing, IMAP/MIME and the clock are abstract and passed in as parameters:

- a fitted vectorizer or classifier is known only by the data it was fitted on;
- `predict_proba` is a scoring function with values in [0, 1];
- `verify_password` and `decode_token` are function parameters;
- hashes, reset tokens and timestamps are caller-supplied values.

Notes on what the code does:

- `train_model` (backend/app/phishing.py:35-85) reads the CSV and then unconditionally overwrites its data with the built-in list. The assignment at lines 51-72 sits after the `try`/`except`, not inside it. Every trained model is therefore the fallback model (`Phishing.ModelStore.TrainModel`).
- `/retrain` (backend/app/routes.py:376-381) calls `train_model`, not the feedback-based `retrain()`. `retrain()` never refreshes the in-memory model `predict` uses (`AdminRoutes.RetrainRoute`, `Retraining.Retrain`).
- Prediction is the classifier's verdict alone: label `p > 0.5`, confidence `p`. Both scan routes return only that verdict and confidence; the `phishing_reasons` field that the upload page reads (frontend/src/components/UploadEmailScan.jsx:68) is never produced by the backend.
- `/scan-inbox` stores every scanned message as a pending quarantined e-mail with reason "phishing", whatever its verdict (routes.py:475-483).
- The feed import collects `(url, source)` pairs into a set. When both feeds offer a URL, the feed it is stored under depends on the set's iteration order, not on which feed came first (`PhishingFeeds.FetchAndStore`).

## Model

| member | source | states |
|---|---|---|
| Utils.IsValidUrl | backend/app/utils.py:32-37 | a URL is valid exactly when it starts with `http://` or `https://` |
| Utils.IsValidUrlExamples | backend/app/utils.py:37 | the test is case-sensitive, accepts a bare scheme, and rejects other schemes and a missing slash |
| Utils.CleanUrl | backend/app/utils.py:24-29 | the cleaned URL is a piece of the lower-cased input with only whitespace before and after it (`Padded`), and it is no longer than the input |
| Utils.Strip | backend/app/utils.py:29 | `str.strip` returns a piece of its input with whitespace at neither end, and the input is that piece with only whitespace before and after it (`Padded`) |
| Utils.StripOfPadded | backend/app/utils.py:29 | whitespace added on either side of a trimmed string is exactly what `strip` removes |
| Utils.StripUnique | backend/app/utils.py:29 | those clauses fix the result: a string with whitespace at neither end that the input pads with whitespace is `strip`'s result |
| Utils.TrimStartStopsAt | backend/app/utils.py:29 | `lstrip` drops exactly the whitespace before the first other character |
| Utils.TrimEndStopsAt | backend/app/utils.py:29 | `rstrip` drops exactly the whitespace after the last other character |
| Utils.StripWhitespaceSet | backend/app/utils.py:29 | `strip` removes Python's whitespace set: tab to carriage return, the separators 28-31, the space, NEL, NO-BREAK SPACE, IDEOGRAPHIC SPACE; not ZERO WIDTH SPACE |
| Utils.Lower | backend/app/utils.py:29 | lower-casing keeps the length and changes a character exactly when it is an ASCII upper-case letter |
| Utils.CleanUrlIsClean | backend/app/utils.py:24-29 | a cleaned URL has no leading or trailing whitespace and no ASCII upper-case letter (ASCII lower-casing; see Left out) |
| Utils.CleanUrlIdempotent | backend/app/utils.py:29 | cleaning a cleaned URL changes nothing (proved for ASCII lower-casing; see Left out) |
| Utils.TrimStartIsSuffix | backend/app/utils.py:29 | stripping the front leaves a suffix of the input that does not start with whitespace, and every removed character is whitespace |
| Utils.TrimEndIsPrefix | backend/app/utils.py:29 | stripping the end leaves a prefix of the input that does not end with whitespace, and every removed character is whitespace |
| Utils.StripIsTrimmed | backend/app/utils.py:29 | `str.strip` leaves whitespace at neither end |
| Utils.StripOfTrimmed | backend/app/utils.py:29 | a string with whitespace at neither end is its own strip |
| Utils.StripIdempotent | backend/app/utils.py:29 | stripping twice is stripping once |
| Utils.StripOfBlank | backend/app/utils.py:29 | an all-whitespace string strips to the empty string |
| Utils.LowerFacts | backend/app/utils.py:29 | ASCII `lower` keeps the length and the whitespace positions, and leaves no ASCII upper-case letter |
| Utils.LowerIdempotent | backend/app/utils.py:29 | ASCII lower-casing twice is lower-casing once |
| Utils.LowerKeepsTrimmed | backend/app/utils.py:29 | ASCII lower-casing a stripped string leaves it stripped |
| Models.NewUser | backend/app/models.py:38-43 | a user built from email and hash has role "user", is not approved and holds no reset token |
| Models.NewQuarantinedEmail | backend/app/models.py:128-133 | a quarantined e-mail built without a status is "pending" and keeps the given owner, content and reason |
| Models.Database.constructor | backend/app/models.py:38-148 | a fresh schema has every table empty, every key sequence at 1, and satisfies the constraints |
| Models.UniqueEmailLookup | backend/app/models.py:39 | with unique emails, a lookup by email fails iff no row has it, and otherwise finds the only row that has it |
| Models.FindUserByEmail | backend/app/routes.py:181 | the lookup finds the first row with that email, and finds nothing iff no row has it |
| Models.FindUserById | backend/app/routes.py:569 | the lookup finds the first row with that id, and finds nothing iff no row has it |
| Models.AdminCount | backend/app/routes.py:628 | the admin count never exceeds the number of rows |
| Models.AdminCountUpdate | backend/app/routes.py:590 | replacing a row by one with the same role keeps the admin count |
| Models.AdminCountAppend | backend/app/routes.py:189-196 | appending a row adds one to the admin count iff the row is an admin |
| Models.AdminCountRemove | backend/app/routes.py:627-631 | deleting a row lowers the admin count by one iff that row is an admin |
| Sorting.SortBy | backend/app/routes.py:902 | `ORDER BY` yields a permutation of the rows in non-decreasing key order |
| Phishing.FallbackDatasetShape | backend/app/phishing.py:51-72 | the built-in list has 14 URLs with parallel labels, five safe then nine phishing, so it can be fitted |
| Phishing.FitErrorExamples | backend/app/phishing.py:76-80 | fitting fails on differing sample and label counts, on a single class, and on documents without a term; a well-formed dataset is fitted as given |
| Phishing.Verdict | backend/app/phishing.py:104 | the verdict is 0 or 1 |
| Phishing.EnsureLoaded | backend/app/phishing.py:93-94 | after loading both globals are set; a loaded store is kept; the writes grow by nothing or by the model file then the vectorizer file |
| Phishing.EnsureLoadedIdempotent | backend/app/phishing.py:21-32 | loading twice is loading once, and with both files present loading rewrites no file |
| Phishing.VerdictThreshold | backend/app/phishing.py:104 | the verdict is 1 exactly above one half, 0.5 itself is safe, and the verdict is monotone in the probability |
| Phishing.ModelStore.constructor | backend/app/phishing.py:13-14 | on import both globals are unset, the files are as found, and nothing has been written |
| Phishing.ModelStore.TrainModel | backend/app/phishing.py:35-85 | whatever the CSV read gives, both globals and both files hold the fallback pair, with the model file written before the vectorizer file |
| Phishing.ModelStore.LoadModel | backend/app/phishing.py:21-32 | existing files are loaded unchanged with no write; if either is missing, training runs first; afterwards the globals equal the files |
| Phishing.ModelStore.Predict | backend/app/phishing.py:88-104 | the store becomes `EnsureLoaded` of the store found: a loaded store is left untouched; otherwise it is loaded as `LoadModel` says; the confidence is the loaded model's score and the label is its verdict |
| Retraining.DatasetShape | backend/app/retraining.py:20-27 | the dataset is the feedback URLs followed by the feed URLs, with the human labels on the first part and 1 on the second |
| Retraining.TrainingData | backend/app/retraining.py:26 | the data is the feedback URLs in order, then the feed URLs in order |
| Retraining.TrainingLabels | backend/app/retraining.py:27 | the labels are parallel to the data: 1 exactly for phishing feedback and for every feed entry, otherwise 0 |
| Retraining.TwoClassesIff | backend/app/retraining.py:27 | both classes occur iff some feedback row is safe and some row is phishing |
| Retraining.SomeTokenIff | backend/app/retraining.py:26 | the corpus yields a term iff some feedback URL or feed URL does |
| Retraining.EmptyUrlsCannotFit | backend/app/retraining.py:35-38 | two feedback rows with empty URLs, one safe and one phishing, have both classes and still fail to fit |
| Retraining.FitSucceedsIff | backend/app/retraining.py:26-38 | fitting succeeds iff some feedback row is safe, some row (a phishing feedback row or any feed entry) is phishing, and some URL holds a term of two word characters |
| Retraining.FeedsAloneCannotFit | backend/app/retraining.py:27 | feed entries without feedback can never be fitted, since they are all labelled 1 |
| Retraining.Retrain | backend/app/retraining.py:18-50 | with no data it skips; it saves both files, model first, iff the fit succeeds (both classes and a non-empty vocabulary); on failure no file changes; the globals are never touched |
| PhishingFeeds.RowsWithUrl | backend/app/phishing_feeds.py:24-25 | the rows read are exactly those before the first row without a "url" column |
| PhishingFeeds.PhishTankPairs | backend/app/phishing_feeds.py:20-29 | every PhishTank pair is tagged "PhishTank", and a feed that is down gives none |
| PhishingFeeds.OpenPhishPairs | backend/app/phishing_feeds.py:30-39 | every OpenPhish pair is tagged "OpenPhish" and stripped, every line gives its stripped pair, and a feed that is down gives none |
| PhishingFeeds.CollectPhishTank | backend/app/phishing_feeds.py:20-29 | the set gains one PhishTank pair per row read, and nothing when the request fails |
| PhishingFeeds.CollectOpenPhish | backend/app/phishing_feeds.py:30-39 | the set gains one stripped OpenPhish pair per line; the count is the number of lines, blank ones included, or 0 when the request fails |
| PhishingFeeds.DistinctUrlsCount | backend/app/models.py:106 | a table with pairwise-distinct URLs has as many distinct URLs as rows |
| PhishingFeeds.InsertIfNew | backend/app/phishing_feeds.py:44-46 | a pair is inserted iff no stored row has its URL; the new row gets the next id; nothing else changes |
| PhishingFeeds.InsertAll | backend/app/phishing_feeds.py:41-47 | after the loop every pair's URL is stored, old rows are a prefix, new rows come from new pairs, and `added` counts them |
| PhishingFeeds.AddedCount | backend/app/phishing_feeds.py:41-46 | the number of new rows equals the number of collected URLs not stored before |
| PhishingFeeds.FetchAndStore | backend/app/phishing_feeds.py:12-49 | every collected URL ends up stored, existing rows are kept, new rows carry collected pairs with new URLs, URLs stay unique, and `added` counts the new distinct URLs |
| PhishingFeeds.FeedFailuresAreIsolated | backend/app/phishing_feeds.py:20-39 | each feed's pairs are collected whatever the other feed did, and a failing feed contributes nothing |
| PhishingFeeds.BlankLineGivesEmptyUrl | backend/app/phishing_feeds.py:34-35 | a blank OpenPhish line is collected as the empty URL |
| PhishingFeeds.PhishTankRowContributes | backend/app/phishing_feeds.py:24-25 | each row before the first row without a "url" column contributes its URL |
| AuthRoutes.TakeUntilSpace | backend/app/routes.py:134 | the result is the longest space-free prefix of the input |
| AuthRoutes.BearerToken | backend/app/routes.py:134 | the token is the text right after "Bearer ", contains no space, and ends at the next space or the end of the header |
| AuthRoutes.Subject | backend/app/routes.py:130-144 | a subject is found only for a "Bearer " header whose token decodes to a payload with that non-empty "sub" |
| AuthRoutes.BearerTokenRoundTrip | backend/app/routes.py:134 | a space-free token put after "Bearer " is read back unchanged |
| AuthRoutes.BearerTokenShape | backend/app/routes.py:134 | the token read from any "Bearer " header has no space and begins the rest of the header |
| AuthRoutes.CurrentUser | backend/app/routes.py:130-154 | a user is returned iff the header yields a subject that is a registered email, and it is the row with that email |
| AuthRoutes.CurrentUserFromToken | backend/app/routes.py:130-154 | a well-formed header whose token decodes to a registered email authenticates exactly that user |
| AuthRoutes.Signup | backend/app/routes.py:181-197 | for an address that passed validation, 400 iff the email is registered, with nothing changed; otherwise exactly one new unapproved "user" row with the next id; the admin count is kept |
| AuthRoutes.Login | backend/app/routes.py:224-237 | a failure is 401 or 403; a success carries the email and role of an approved row whose password verifies |
| AuthRoutes.LoginOutcomes | backend/app/routes.py:224-237 | with unique emails: 401 iff no row with that email verifies, 403 iff it verifies but is unapproved, success iff it verifies and is approved |
| AuthRoutes.RequestPasswordReset | backend/app/routes.py:715-723 | for an address that passed validation, always 200; the registered user's token is replaced, and nothing else changes, an unknown email included |
| AuthRoutes.ResetPassword | backend/app/routes.py:743-750 | 400 iff nobody holds the token, with nothing changed; otherwise the holder gets the new hash and the token is cleared; the admin count is kept |
| AuthRoutes.ResetTokenSingleUse | backend/app/routes.py:743-750 | when a single user holds the token, after the reset nobody holds it, so it cannot be used again |
| AdminRoutes.ApproveUser | backend/app/routes.py:567-595 | 403 iff not admin, then 404 iff no such id, 400 for self-approval of an unapproved row, otherwise only that row is approved (an approved row is left as is); the admin count is kept |
| AdminRoutes.ApprovedUserCanLogIn | backend/app/routes.py:567-595 | after approval, a user whose password verifies logs in with their own email and role |
| AdminRoutes.RejectKeepsAnAdmin | backend/app/routes.py:623-631 | any deletion the guard allows leaves at least one admin if there was one |
| AdminRoutes.RemoveKeepsUsersValid | backend/app/routes.py:631 | deleting a row keeps ids and emails distinct |
| AdminRoutes.RemoveKeepsOthers | backend/app/routes.py:623-626 | deleting a row with another id keeps every row with the caller's id |
| AdminRoutes.RejectUser | backend/app/routes.py:615-633 | 403/404/400 as the guard says with nothing changed; otherwise only that row is deleted; an admin always remains and the caller is never deleted |
| AdminRoutes.RetrainRoute | backend/app/routes.py:376-381 | 403 iff not admin, with nothing changed; otherwise the store holds the fallback model and both files are written |
| AdminRoutes.AddTip | backend/app/routes.py:917-922 | 403 iff not admin; otherwise exactly one new tip with the next id |
| AdminRoutes.UpdateTip | backend/app/routes.py:934-941 | 403 iff not admin, then 404 iff no such tip; otherwise only that tip's content changes |
| AdminRoutes.DeleteTip | backend/app/routes.py:952-959 | 403 iff not admin, then 404 iff no such tip; otherwise only that tip is removed and no tip with that id remains |
| AdminRoutes.GetTips | backend/app/routes.py:897-903 | contents and ids are parallel lists of every tip, in an order by ascending timestamp |
| AdminRoutes.AddedTipIsListed | backend/app/routes.py:897-903 | an added tip is listed with its id and content |
| AdminRoutes.Chatbot | backend/app/routes.py:881-895 | the reply is decided by the first of "phishing", "report", "spot"/"identify" found in the lower-cased message, with the fallback iff none is found |
| AdminRoutes.ChatbotIgnoresCase | backend/app/routes.py:886 | the reply does not depend on ASCII case |
| ScanRoutes.PredictUrl | backend/app/routes.py:242-271 | the store becomes `EnsureLoaded` of the store found; the result is the loaded model's verdict and score, and exactly one prediction log with the next id is added |
| ScanRoutes.SubmitFeedback | backend/app/routes.py:298-317 | 404 iff the caller owns no quarantined e-mail with that id, with nothing changed; otherwise one feedback row with the e-mail's content and the caller's label |
| ScanRoutes.FeedbackReachesTraining | backend/app/retraining.py:26-27 | a submitted feedback row becomes a training example with the caller's label |
| ScanRoutes.ByNewest | backend/app/routes.py:356-358 | the logs are a permutation ordered newest first |
| ScanRoutes.TakeNewest | backend/app/routes.py:356-360 | a prefix of a newest-first ordering is at least as recent as every row left out |
| ScanRoutes.RecentLogs | backend/app/routes.py:356-361 | at most 100 logs, newest first, drawn from the table, all of them when there are at most 100, and none older than a log left out |
| ScanRoutes.Prefix | backend/app/routes.py:461 | `s[:n]` is the prefix of length min(n, len s) |
| ScanRoutes.ReadStep | backend/app/routes.py:443-470 | a raising fetch gives no message, a malformed reply an empty one, and a parsed reply its own sender, subject and text, numbered as fetched |
| ScanRoutes.Readable | backend/app/routes.py:441-501 | no more messages reach `predict` than the inbox holds, each numbered within the inbox |
| ScanRoutes.ReadableNumbers | backend/app/routes.py:441-501 | the messages scanned keep inbox order, each is scanned at most once, and numbers run from 1 |
| ScanRoutes.ReadableOwnContent | backend/app/routes.py:443-470 | each scanned message is scanned with its own sender, subject and content |
| ScanRoutes.ReadableCoversInbox | backend/app/routes.py:441-501 | every message is scanned unless its fetch raises |
| ScanRoutes.RaisingMessageIsSkipped | backend/app/routes.py:499-501 | a message whose fetch raises contributes nothing |
| ScanRoutes.CountFlaggedBounds | backend/app/routes.py:471-474 | detections never exceed scans; none when nothing scores above one half; all when everything does |
| ScanRoutes.ScanOne | backend/app/routes.py:470-498 | the entry is the model's verdict on the message; the store becomes `EnsureLoaded` of the store found; one quarantine row and one log are added |
| ScanRoutes.ScanNext | backend/app/routes.py:442-501 | one loop iteration keeps the scan's progress: database rows, entries, counters and the store loaded once |
| ScanRoutes.ScanMessages | backend/app/routes.py:441-501 | after the loop the counters count the scanned messages and detections, and the database holds exactly their rows |
| ScanRoutes.ScanInbox | backend/app/routes.py:424-513 | 401 without credentials and 400 on IMAP failure, with nothing changed; otherwise every scanned message is counted, quarantined, logged and listed with the model's verdict, and the store is loaded once iff a message was scanned |
| ScanRoutes.ScanCounters | backend/app/routes.py:471-483 | detections ≤ quarantined = scanned ≤ messages in the inbox |
| ScanRoutes.LastParsed | backend/app/routes.py:443-469 | the values the loop's locals hold are those of the last parsed message, and there are none iff no message parsed |
| ScanRoutes.ReadableAsWritten | backend/app/routes.py:441-501 | as written, no more messages reach `predict` than the inbox holds, each numbered within it |
| ScanRoutes.MalformedFetchRescansStaleMessage | backend/app/routes.py:443-470 | as written, a malformed reply re-scans the previous message's values, or is dropped when it comes first |
| ScanRoutes.EmlStored | backend/app/routes.py:796-825 | an upload always adds its log, and adds a pending quarantine row iff it is phishing |
| ScanRoutes.EmlStoredAsWritten | backend/app/routes.py:798-825 | as written, a phishing upload stores what `EmlStored` gives and a safe upload stores nothing |
| ScanRoutes.SafeUploadLogIsLost | backend/app/routes.py:798-825 | as written, a safe upload leaves no log; the corrected flow keeps one |
| ScanRoutes.ScanEml | backend/app/routes.py:753-827 | 400 iff the file name does not end in ".eml", with nothing changed; otherwise the store becomes `EnsureLoaded` of the store found, the reply is the model's verdict with the id of the quarantine row iff phishing, and the database is the state `EmlStored` gives |
| Startup.EnsureUser | backend/app/startup.py:23-40 | afterwards the email is registered and the old rows are kept; an existing account changes nothing; otherwise one approved row with the role is appended |
| Startup.SeedFeedback | backend/app/startup.py:88-95 | three feedback rows with consecutive ids: phishing, safe, phishing |
| Startup.SeedLogs | backend/app/startup.py:98-105 | three logs with consecutive ids on the same URLs and verdicts as the feedback rows, with confidences in [0, 1] |
| Startup.WithSeedFeedback | backend/app/startup.py:88-95 | seeding the feedback table keeps the constraints |
| Startup.WithSeedLogs | backend/app/startup.py:98-105 | seeding the log table keeps the constraints |
| Startup.WithSeedQuarantine | backend/app/startup.py:108-119 | seeding the quarantine table keeps the constraints |
| Startup.Seeded | backend/app/startup.py:83-127 | each of the three tables is seeded iff empty, the quarantined e-mail only if the admin exists and owned by the admin, and the other tables are unchanged |
| Startup.Initialized | backend/app/startup.py:129-155 | the constraints hold, and each account is registered unless its routine failed |
| Startup.SeedIdempotent | backend/app/startup.py:83-127 | seeding twice is seeding once, whatever the clock says |
| Startup.InitializeTwice | backend/app/main.py:72 | initializing after a successful initialization changes nothing, whatever the hashes, the clock or the failures, so the double call at start-up is harmless |
| Startup.SeedEmptyTables | backend/app/startup.py:88-119 | with empty seed tables and the admin present, all three tables are seeded |
| Startup.AccountsDistinct | backend/app/startup.py:23 | the admin and test accounts have different emails |
| Startup.TwoAccounts | backend/app/startup.py:23-74 | on an empty user table, two distinct accounts get consecutive ids in order |
| Startup.InitializeFresh | backend/app/main.py:60 | on a fresh schema: admin #1, test user #2, the three feedback rows and logs, and one pending quarantined e-mail owned by the admin |
| Startup.SeededAdminCanLogIn | backend/app/startup.py:15-47 | once initialization has created the admin, the admin can log in with the password whose hash was stored and gets the admin role |
| Startup.CreateAdminUser | backend/app/startup.py:15-47 | a failure returns None and rolls back; otherwise the state is `EnsureUser` for the admin and the admin row is returned |
| Startup.CreateTestUser | backend/app/startup.py:49-81 | the same for the test account with role "user" |
| Startup.CreateUser | backend/app/startup.py:57-74 | the shared body: a failure changes nothing; otherwise the row found or appended is returned |
| Startup.SeedTestData | backend/app/startup.py:83-127 | a failure rolls back all three inserts; otherwise the state is `Seeded` |
| Startup.SeedFeedbackTable | backend/app/startup.py:88-95 | the state becomes `WithSeedFeedback` of the old state |
| Startup.SeedLogTable | backend/app/startup.py:98-105 | the state becomes `WithSeedLogs` of the old state |
| Startup.SeedQuarantineTable | backend/app/startup.py:108-119 | the state becomes `WithSeedQuarantine` of the old state |
| Startup.InitializeDatabase | backend/app/startup.py:129-155 | the report flags say which account routines succeeded, and the state is `Initialized` |
| LogFilters.HandleConfidenceChange | frontend/src/components/EmailLogs/Filters.jsx:6-13 | a value outside [0, 1] changes nothing; otherwise only the lower bound becomes the value |
| LogFilters.HandleStatusChange | frontend/src/components/EmailLogs/Filters.jsx:15-17 | only the status changes |
| LogFilters.InitialWellFormed | frontend/src/components/EmailLogs/EmailLogs.jsx:16-20 | the initial interval [0, 1] is well formed |
| LogFilters.ConfidenceBoundsInclusive | frontend/src/components/EmailLogs/Filters.jsx:8 | 0 and 1 are accepted and anything beyond is refused |
| LogFilters.HandlersKeepWellFormed | frontend/src/components/EmailLogs/Filters.jsx:6-17 | from an interval ending at 1, each handler keeps the interval inside [0, 1] with its bounds in order |
| LogFilters.Step | frontend/src/components/EmailLogs/Filters.jsx:6-17 | no filter-bar handler touches the date range |
| LogFilters.Replay | frontend/src/components/EmailLogs/Filters.jsx:6-17 | no sequence of filter-bar edits touches the date range |
| LogFilters.ReplayKeepsWellFormed | frontend/src/components/EmailLogs/Filters.jsx:6-17 | any sequence of filter-bar edits keeps the filters well formed |
| EmailLogs.FilterMembers | frontend/src/components/EmailLogs/EmailLogs.jsx:58 | a log is kept iff it is in the input and passes the test |
| EmailLogs.Filter | frontend/src/components/EmailLogs/EmailLogs.jsx:58 | a filter keeps no more elements than it is given, and only elements passing the test |
| EmailLogs.ApplyFilters | frontend/src/components/EmailLogs/EmailLogs.jsx:54-78 | the filtered list is no longer than the fetched one and every shown log passes the confidence test |
| EmailLogs.FilterFilter | frontend/src/components/EmailLogs/EmailLogs.jsx:54-78 | two filters in a row are one filter by both tests |
| EmailLogs.FilterAll | frontend/src/components/EmailLogs/EmailLogs.jsx:57 | a filter every element passes keeps everything |
| EmailLogs.FilterIsSubsequence | frontend/src/components/EmailLogs/EmailLogs.jsx:58 | what a filter keeps is a subsequence of its input |
| EmailLogs.ApplyFiltersIsConjunction | frontend/src/components/EmailLogs/EmailLogs.jsx:54-78 | the three conditional filters are one filter by status, date and confidence together |
| EmailLogs.ShownIff | frontend/src/components/EmailLogs/EmailLogs.jsx:54-78 | a log is shown iff it was fetched and passes the status test of 57-61, the inclusive date test of 63-68 and the inclusive confidence test of 71-75 |
| EmailLogs.ShownInOrder | frontend/src/components/EmailLogs/EmailLogs.jsx:54-78 | the shown logs keep the fetched order |
| EmailLogs.InitialShowsAll | frontend/src/components/EmailLogs/EmailLogs.jsx:16-20 | with the initial filters every log with confidence in [0, 1] is shown |
| EmailLogs.EmailLogsPage.constructor | frontend/src/components/EmailLogs/EmailLogs.jsx:13-20 | nothing fetched, loading, initial filters, and the table consistent |
| EmailLogs.EmailLogsPage.Refilter | frontend/src/components/EmailLogs/EmailLogs.jsx:50-52 | the table becomes the filtered logs and nothing else changes |
| EmailLogs.EmailLogsPage.FetchLogs | frontend/src/components/EmailLogs/EmailLogs.jsx:22-44 | without a token nothing changes; otherwise loading ends, the logs are the rows on success and are kept on failure, and the table stays consistent |
| EmailLogs.EmailLogsPage.SetFilters | frontend/src/components/EmailLogs/EmailLogs.jsx:50-52 | the filters are replaced, the logs are kept, and the table is refiltered |
| EmailLogs.EmailLogsPage.ClearFilters | frontend/src/components/EmailLogs/EmailLogs.jsx:80-83 | the filters return to the initial state, the logs are kept, and the table is refiltered |

## Left out

- IMAP, MIME and `.eml` parsing (`imaplib`, `email`): an inbox is the list of per-message fetch outcomes, and an upload is its extracted text.
- The login, select and search steps and the `mail.logout` of `/scan-inbox`: they are collapsed into "connected or failed".
- The 500 answers of `/scan-inbox` and `/scan-eml` for unexpected exceptions outside the per-message `try` (routes.py:512-513, 826-827): they are not modelled.
- scikit-learn: fitting and `predict_proba` are abstract, and TF-IDF and logistic-regression arithmetic are not modelled.
- pickle I/O: a file's contents are the fitted object itself.
- JWT signing and decoding, bcrypt hashing and verification, `secrets.token_urlsafe` and `datetime.utcnow()`: these are parameters.
- The reset e-mail that `/request-password-reset` would send: not modelled.
- The daily background thread (routes.py:865-875): concurrency and `time.sleep` are not modelled. Each of its runs calls `train_model`, which `Phishing.ModelStore.TrainModel` models.
- The HTTP requests, timeouts and `csv.DictReader` parsing of `phishing_feeds.py`: a feed is either down or the rows it yields.
- Start-up wiring: `main.py` beyond its two calls of `initialize_database`, `config.py`, and the SQLAlchemy engine and session factory are not modelled. A failing start-up routine is a flag that rolls that routine back as a whole.
- Startup.InitializeDatabase: the fixed plaintext credentials the source returns in its report are not modelled. The report holds only the two flags.
- The routes `/admin/users`, `/dashboard`, `/health`, `/system-info`, `/logout`, the `/quarantine` listing, `/connect-email` and `/update-feeds`: these are read-only listings, session plumbing, or a plain call of `fetch_and_store`, and are not modelled.
- The session's autoflush behaviour (`app/database.py` is not part of this model): rows added earlier in a feed import are assumed visible to the existence query, as the unique constraint on the URL requires.
- The frontend components other than the log page and its filter bar: they only call the routes above.
- LogFilters.HandleConfidenceChange: the value is taken as a number, so the `NaN` that `parseFloat` returns for a non-number passes the range test in the source, and that case is not modelled.
- ScanRoutes.RecentLogs and AdminRoutes.GetTips: SQL leaves the order among equal timestamps unspecified. The contracts hold for every such order rather than fixing one.
- PhishingFeeds.FetchAndStore: the order in which the set of pairs is iterated is unspecified, so which source is stored for a URL offered by both feeds is not fixed.
- Utils.Lower, Utils.CleanUrl: only ASCII `A`-`Z` are lower-cased. Python's Unicode case mapping (other cased letters, and mappings that change length, such as 'İ' becoming two characters) is not modelled.
- Utils.LowerFacts: proved about ASCII lower-casing only, for the reason above; with Unicode case mapping the length is not always kept.
- Utils.LowerIdempotent: proved about ASCII lower-casing only, for the reason above.
- Utils.LowerKeepsTrimmed: proved about ASCII lower-casing only, for the reason above.
- Utils.CleanUrlIsClean: says no ASCII upper-case letter remains; other cased letters are out of the model, for the reason above.
- Utils.CleanUrlIdempotent: proved about ASCII lower-casing only, for the reason above.
- Phishing.HasToken: the token pattern's `\w` is taken as ASCII letters, digits and `_`. The Unicode letters and digits that `(?u)\w` also matches are treated as separators, so a corpus written only in such characters counts as empty.
- Phishing.Fit: of scikit-learn's `ValueError`s, only three are modelled: differing sample and label counts, a single class, and an empty vocabulary.
- AuthRoutes.Signup, AuthRoutes.RequestPasswordReset: `email` is the address after pydantic's `EmailStr` validation (routes.py:43, routes.py:76). The 422 answer to a string that is not an e-mail address, and the lower-casing of the domain part before the lookup, are not modelled, so `a@X.COM` and `a@x.com` are different emails here.
- Retraining.Retrain: exceptions other than a failed fit (database errors, a failed file write) are not modelled.
- The maintenance and test scripts outside `backend/app` are not modelled.
- `backend/app/auth.py` is not part of this model beyond `decode_token` returning a payload or nothing.

## Findings

| source | as written | input that shows it | evidently intended | confidence | as-written member | corrected member |
|---|---|---|---|---|---|---|
| backend/app/routes.py:443-470 | when a fetch reply has no message body, the block that binds `sender`, `subject`, `snippet` and `email_content` is skipped, yet `predict(email_content)` and the quarantine insert still run on whatever the previous message left, or raise `UnboundLocalError` for the first message | an inbox whose first message parses and whose second reply is malformed: the second is scanned, quarantined and listed as a copy of the first | a malformed reply is scanned with the empty values the parsing block gives a message it cannot read (lines 448-452), never with another message's content | medium, not executed | ScanRoutes.MalformedFetchRescansStaleMessage | ScanRoutes.ReadableOwnContent |
| backend/app/routes.py:798-825 | `db.commit()` runs only in the phishing branch (line 814), so for a safe upload the added `PredictionLog` is never committed and is discarded when the session closes | any `.eml` upload the model scores at or below one half | every upload's prediction is logged "for reports" (line 797), whatever the verdict | medium, not executed | ScanRoutes.SafeUploadLogIsLost | ScanRoutes.EmlStored |

The corrected definitions are the ones the methods implement: `ScanRoutes.ScanInbox` scans `Readable`, and `ScanRoutes.ScanEml` leaves the state `EmlStored`. The as-written behaviour is kept beside them: `ScanRoutes.ReadableAsWritten` and `ScanRoutes.EmlStoredAsWritten`.
