/**
 * `backend/app/phishing_feeds.py`: `fetch_and_store()` collects `(url, source)` pairs from
 * PhishTank and OpenPhish into a set, each source behind its own `try`, then inserts a row for
 * every pair whose URL is not yet stored, counting the insertions.
 *
 * The HTTP fetches and the CSV split are abstract: a feed is either down (the request or the
 * parse raised before any row was read) or the rows / lines it produced. The insertion loop
 * assumes that a row added earlier in the same run is visible to the existence query, which is
 * what the UNIQUE constraint on `ExternalPhishingEntry.url` requires for the commit to succeed.
 */
module PhishingFeeds {
  import opened Utils
  import opened Models

  const PHISHTANK: string := "PhishTank"
  const OPENPHISH: string := "OpenPhish"

  /** A collected `(url, source)` pair. */
  datatype Pair = Pair(url: string, source: string)

  /** The PhishTank response: down, or the rows of `csv.DictReader` as column-to-value maps. */
  datatype PhishTankFeed = PhishTankDown | PhishTankRows(rows: seq<map<string, string>>)

  /** The OpenPhish response: down, or `resp.text.splitlines()`. */
  datatype OpenPhishFeed = OpenPhishDown | OpenPhishLines(lines: seq<string>)

  /** The number of leading rows that have a "url" column; `row["url"]` raises `KeyError` on
      the first row without one, which ends the PhishTank step. */
  function RowsWithUrl(rows: seq<map<string, string>>): (k: nat)
    ensures k <= |rows|
    ensures forall j :: 0 <= j < k ==> "url" in rows[j]
    ensures k < |rows| ==> "url" !in rows[k]
  {
    if |rows| == 0 || "url" !in rows[0] then 0 else 1 + RowsWithUrl(rows[1..])
  }

  /** The pairs PhishTank contributes: `(row["url"], "PhishTank")` for each row read. */
  function PhishTankPairs(feed: PhishTankFeed): (pairs: set<Pair>)
    ensures forall p :: p in pairs ==> p.source == PHISHTANK
    ensures feed.PhishTankDown? ==> pairs == {}
  {
    match feed
    case PhishTankDown => {}
    case PhishTankRows(rows) =>
      set j | 0 <= j < RowsWithUrl(rows) && "url" in rows[j] :: Pair(rows[j]["url"], PHISHTANK)
  }

  /** The pairs OpenPhish contributes: `(line.strip(), "OpenPhish")` for each line. */
  function OpenPhishPairs(feed: OpenPhishFeed): (pairs: set<Pair>)
    ensures forall p :: p in pairs ==> p.source == OPENPHISH && Trimmed(p.url)
    ensures feed.OpenPhishDown? ==> pairs == {}
    ensures feed.OpenPhishLines? ==> forall j :: 0 <= j < |feed.lines| ==> Pair(Strip(feed.lines[j]), OPENPHISH) in pairs
  {
    match feed
    case OpenPhishDown => {}
    case OpenPhishLines(lines) => set j | 0 <= j < |lines| :: Pair(Strip(lines[j]), OPENPHISH)
  }

  /** The set `urls` after both collection steps. */
  function Collected(phishTank: PhishTankFeed, openPhish: OpenPhishFeed): set<Pair> {
    PhishTankPairs(phishTank) + OpenPhishPairs(openPhish)
  }

  /** The URLs of a set of pairs. */
  function PairUrls(pairs: set<Pair>): set<string> {
    set p | p in pairs :: p.url
  }

  /** The URLs stored in the feed table. */
  function StoredUrls(rows: seq<ExternalPhishingEntry>): set<string> {
    set e | e in rows :: e.url
  }

  /** `db.query(ExternalPhishingEntry).filter_by(url=url).first()` is not None. */
  predicate HasUrl(rows: seq<ExternalPhishingEntry>, url: string) {
    exists k :: 0 <= k < |rows| && rows[k].url == url
  }

  /** Step 1 (phishing_feeds.py:20-29): add one pair per CSV row, stopping at the first row
      without a "url" column; a failed request contributes nothing. */
  method CollectPhishTank(feed: PhishTankFeed, urls: set<Pair>) returns (urls': set<Pair>)
    ensures urls' == urls + PhishTankPairs(feed)
  {
    urls' := urls;
    match feed {
      case PhishTankDown =>
      case PhishTankRows(rows) =>
        var i := 0;
        while i < |rows| && "url" in rows[i]
          invariant 0 <= i <= RowsWithUrl(rows)
          invariant urls' == urls + set j | 0 <= j < i && "url" in rows[j] :: Pair(rows[j]["url"], PHISHTANK)
        {
          ghost var before := set j | 0 <= j < i && "url" in rows[j] :: Pair(rows[j]["url"], PHISHTANK);
          ghost var after := set j | 0 <= j < i + 1 && "url" in rows[j] :: Pair(rows[j]["url"], PHISHTANK);
          assert after == before + {Pair(rows[i]["url"], PHISHTANK)};
          urls' := urls' + {Pair(rows[i]["url"], PHISHTANK)};
          i := i + 1;
        }
    }
  }

  /** Step 2 (phishing_feeds.py:31-39): add `(line.strip(), "OpenPhish")` per line and count every
      line, blank ones included; a failed request contributes nothing and counts nothing. */
  method CollectOpenPhish(feed: OpenPhishFeed, urls: set<Pair>) returns (urls': set<Pair>, count: nat)
    ensures urls' == urls + OpenPhishPairs(feed)
    ensures count == (if feed.OpenPhishLines? then |feed.lines| else 0)
  {
    urls', count := urls, 0;
    match feed {
      case OpenPhishDown =>
      case OpenPhishLines(lines) =>
        for i := 0 to |lines|
          invariant urls' == urls + set j | 0 <= j < i :: Pair(Strip(lines[j]), OPENPHISH)
          invariant count == i
        {
          ghost var before := set j | 0 <= j < i :: Pair(Strip(lines[j]), OPENPHISH);
          ghost var after := set j | 0 <= j < i + 1 :: Pair(Strip(lines[j]), OPENPHISH);
          assert after == before + {Pair(Strip(lines[i]), OPENPHISH)};
          urls' := urls' + {Pair(Strip(lines[i]), OPENPHISH)};
          count := count + 1;
        }
    }
  }

  /** A table whose URLs are pairwise distinct has as many distinct URLs as rows. */
  lemma {:induction false} DistinctUrlsCount(rows: seq<ExternalPhishingEntry>)
    requires forall i, j :: 0 <= i < j < |rows| ==> rows[i].url != rows[j].url
    ensures |StoredUrls(rows)| == |rows|
  {
    if |rows| > 0 {
      var init := rows[..|rows| - 1];
      var last := rows[|rows| - 1];
      DistinctUrlsCount(init);
      assert rows == init + [last];
      assert StoredUrls(rows) == StoredUrls(init) + {last.url};
      assert last.url !in StoredUrls(init);
    }
  }

  /** The body of the insertion loop (phishing_feeds.py:43-46): add a row for the pair unless a
      stored row already has its URL. */
  method InsertIfNew(db: Database, p: Pair, now: int) returns (inserted: bool)
    requires db.Valid()
    modifies db
    ensures db.Valid()
    ensures db.Snap() == old(db.Snap()).(external := db.external, nextExternalId := db.nextExternalId)
    ensures inserted <==> !HasUrl(old(db.external), p.url)
    ensures db.external == if inserted
      then old(db.external) + [ExternalPhishingEntry(old(db.nextExternalId), p.url, p.source, now)]
      else old(db.external)
  {
    inserted := !HasUrl(db.external, p.url);
    if inserted {
      db.external := db.external + [ExternalPhishingEntry(db.nextExternalId, p.url, p.source, now)];
      db.nextExternalId := db.nextExternalId + 1;
    }
  }

  /** What the insertion loop has achieved once the pairs in `done` are handled. */
  ghost predicate InsertedSoFar(start: seq<ExternalPhishingEntry>, rows: seq<ExternalPhishingEntry>,
                                done: set<Pair>)
  {
    && |start| <= |rows| && rows[..|start|] == start
    && (forall p :: p in done ==> HasUrl(rows, p.url))
    && (forall k :: |start| <= k < |rows| ==>
          Pair(rows[k].url, rows[k].source) in done && !HasUrl(start, rows[k].url))
    && StoredUrls(rows) == StoredUrls(start) + PairUrls(done)
  }

  /** One more pair handled keeps `InsertedSoFar`. */
  lemma InsertedStep(start: seq<ExternalPhishingEntry>, rows: seq<ExternalPhishingEntry>, done: set<Pair>,
                     p: Pair, rows': seq<ExternalPhishingEntry>, id: nat, now: int)
    requires InsertedSoFar(start, rows, done)
    requires rows' == if HasUrl(rows, p.url) then rows
                      else rows + [ExternalPhishingEntry(id, p.url, p.source, now)]
    ensures InsertedSoFar(start, rows', done + {p})
  {
    assert PairUrls(done + {p}) == PairUrls(done) + {p.url};
    if !HasUrl(rows, p.url) {
      assert StoredUrls(rows') == StoredUrls(rows) + {p.url};
      assert rows'[..|start|] == rows[..|start|];
      forall q | q in done + {p} ensures HasUrl(rows', q.url) {
        if q == p {
          assert rows'[|rows|].url == p.url;
        } else {
          var k :| 0 <= k < |rows| && rows[k].url == q.url;
          assert rows'[k].url == q.url;
        }
      }
      forall k | |start| <= k < |rows'|
        ensures Pair(rows'[k].url, rows'[k].source) in done + {p} && !HasUrl(start, rows'[k].url)
      {
        if k < |rows| {
          assert rows'[k] == rows[k];
        }
      }
    }
  }

  /**
   * `fetch_and_store()`. Afterwards every collected URL is stored; existing rows are kept as
   * they were; each new row carries a collected pair whose URL was not stored before; the URLs
   * stay unique; and `added` is the number of rows inserted, which is the number of distinct
   * collected URLs that were not stored before. Which source a URL offered by both feeds is
   * stored under depends on the iteration order of the set, which is not specified.
   */
  method FetchAndStore(db: Database, phishTank: PhishTankFeed, openPhish: OpenPhishFeed, now: int)
    returns (added: nat)
    requires db.Valid()
    modifies db
    ensures db.Valid()
    ensures db.Snap() == old(db.Snap()).(external := db.external, nextExternalId := db.nextExternalId)
    ensures |old(db.external)| <= |db.external| && db.external[..|old(db.external)|] == old(db.external)
    ensures added == |db.external| - |old(db.external)|
    ensures forall p :: p in Collected(phishTank, openPhish) ==> HasUrl(db.external, p.url)
    ensures forall k :: |old(db.external)| <= k < |db.external| ==>
      && Pair(db.external[k].url, db.external[k].source) in Collected(phishTank, openPhish)
      && !HasUrl(old(db.external), db.external[k].url)
    ensures added == |PairUrls(Collected(phishTank, openPhish)) - StoredUrls(old(db.external))|
  {
    var urls: set<Pair> := {};
    urls := CollectPhishTank(phishTank, urls);
    var count;
    urls, count := CollectOpenPhish(openPhish, urls);
    assert urls == Collected(phishTank, openPhish);
    added := InsertAll(db, urls, now);
    AddedCount(old(db.external), db.external, urls);
  }

  /** The insertion loop (phishing_feeds.py:41-46), over the pairs in an unspecified order. */
  method InsertAll(db: Database, urls: set<Pair>, now: int) returns (added: nat)
    requires db.Valid()
    modifies db
    ensures db.Valid()
    ensures db.Snap() == old(db.Snap()).(external := db.external, nextExternalId := db.nextExternalId)
    ensures added == |db.external| - |old(db.external)|
    ensures InsertedSoFar(old(db.external), db.external, urls)
  {
    ghost var start := db.external;
    added := 0;
    var remaining := urls;
    while remaining != {}
      invariant remaining <= urls
      invariant db.Valid()
      invariant db.Snap() == old(db.Snap()).(external := db.external, nextExternalId := db.nextExternalId)
      invariant added == |db.external| - |start|
      invariant InsertedSoFar(start, db.external, urls - remaining)
      decreases remaining
    {
      var p :| p in remaining;
      ghost var rows, nextId, done := db.external, db.nextExternalId, urls - remaining;
      var inserted := InsertIfNew(db, p, now);
      if inserted {
        added := added + 1;
      }
      InsertedStep(start, rows, done, p, db.external, nextId, now);
      remaining := remaining - {p};
      assert urls - remaining == done + {p};
    }
    assert urls - remaining == urls;
  }

  /** Once every pair is handled, the number of new rows is the number of new distinct URLs. */
  lemma AddedCount(start: seq<ExternalPhishingEntry>, rows: seq<ExternalPhishingEntry>, done: set<Pair>)
    requires InsertedSoFar(start, rows, done)
    requires forall i, j :: 0 <= i < j < |rows| ==> rows[i].url != rows[j].url
    ensures |rows| - |start| == |PairUrls(done) - StoredUrls(start)|
  {
    DistinctUrlsCount(rows);
    assert forall i, j :: 0 <= i < j < |start| ==> start[i].url != start[j].url by {
      forall i, j | 0 <= i < j < |start| ensures start[i].url != start[j].url {
        assert start[i] == rows[i] && start[j] == rows[j];
      }
    }
    DistinctUrlsCount(start);
    var a, b := StoredUrls(start), PairUrls(done);
    assert a + b == a + (b - a);
    assert a !! (b - a);
  }

  // ---------------------------------------------------------------------------------------------
  // Properties of the collection step

  /** A PhishTank failure does not stop OpenPhish, and the reverse: each feed's pairs are
      collected whatever the other feed did. */
  lemma FeedFailuresAreIsolated(phishTank: PhishTankFeed, openPhish: OpenPhishFeed)
    ensures OpenPhishPairs(openPhish) <= Collected(phishTank, openPhish)
    ensures PhishTankPairs(phishTank) <= Collected(phishTank, openPhish)
    ensures Collected(PhishTankDown, openPhish) == OpenPhishPairs(openPhish)
    ensures Collected(phishTank, OpenPhishDown) == PhishTankPairs(phishTank)
  {
  }

  /** A blank OpenPhish line is collected as the empty URL. */
  lemma BlankLineGivesEmptyUrl(lines: seq<string>, j: nat)
    requires j < |lines| && forall i :: 0 <= i < |lines[j]| ==> IsSpace(lines[j][i])
    ensures Pair("", OPENPHISH) in OpenPhishPairs(OpenPhishLines(lines))
  {
    StripOfBlank(lines[j]);
  }

  /** Every row read before the first row without a "url" column contributes its URL. */
  lemma PhishTankRowContributes(rows: seq<map<string, string>>, j: nat)
    requires j < |rows| && forall i :: 0 <= i <= j ==> "url" in rows[i]
    ensures Pair(rows[j]["url"], PHISHTANK) in PhishTankPairs(PhishTankRows(rows))
  {
  }
}
