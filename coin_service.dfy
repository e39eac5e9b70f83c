/**
 * The coin synchronisations: the paged coin listing, the per-coin market data, and the
 * per-coin documents and ticker pages for coins above a volume threshold.
 */
module CoinSync {
  import opened Wrappers
  import opened Domain
  import opened Tables
  import opened SyncSteps
  import opened Client
  import Seqs
  import opened CoinRepo
  import opened MarketDataRepo
  import opened ExchangeRepo
  import opened DetailRepo
  import opened TickerRepo

  /** CoinGecko's largest page of /coins/markets. */
  const PerPage: nat := 250

  datatype CoinSyncError =
    | LoadFailed                                            // "failed to get current coins" / "failed to load coins"
    | PageFetchFailed(page: nat, fetch: ClientError)        // "failed to fetch coins page %d"
    | PageStoreFailed(page: nat, store: TxError<string>)    // "failed to store coins page %d"
    | ReloadFailed                                          // "failed to get updated coins"

  /** The error, the coins table, the pages requested in order, and the number of coins stored. */
  datatype Paging = Paging(err: Option<CoinSyncError>, state: Snapshot<string, CoinData>, requested: seq<nat>, total: nat)

  // ---------------------------------------------------------------- SyncCoins

  /** What GetCoins answers for each page of 250. */
  type Pager = nat -> Result<seq<Coin>, ClientError>

  /** What storing a page's coins does to the coins table. */
  type Storer = (Snapshot<string, CoinData>, nat, seq<Coin>) -> (Option<TxError<string>>, Snapshot<string, CoinData>)

  /** A store that fails leaves the table alone, and storing no coins changes nothing. */
  ghost predicate RollsBack(store: Storer)
  {
    && (forall s, p :: store(s, p, []) == (None, s))
    && (forall s, p, coins :: store(s, p, coins).0.Some? ==> store(s, p, coins).1 == s)
  }

  /** UpsertBatch, with the database's answers for page `p` given by `pageFaults(p)`, rolls back. */
  lemma UpsertBatchRollsBack(store: Storer, pageFaults: nat -> DbFaults)
    requires forall s, p: nat, coins {:trigger UpsertBatchResult(s, coins, ValidCoin, pageFaults(p))} ::
      store(s, p, coins) == UpsertBatchResult(s, coins, ValidCoin, pageFaults(p))
    ensures RollsBack(store)
  {
    forall s, p, coins
      ensures var r := store(s, p, coins);
        (r.0.Some? ==> r.1 == s) && (coins == [] ==> r == (None, s))
    {
      UpsertBatchMeaning(s, coins, ValidCoin, pageFaults(p));
      assert store(s, p, coins) == UpsertBatchResult(s, coins, ValidCoin, pageFaults(p));
      if coins == [] {
        assert Seqs.Filter(coins, ValidCoin) == [];
      }
    }
  }

  /** By page `last` the listing has ended: the request fails or the page is short. */
  ghost predicate EndsBy(pages: Pager, last: nat)
  {
    pages(last).Err? || |pages(last).value| < PerPage
  }

  /** The coins of page `p`, none when its request fails. */
  function PageCoins(pages: Pager, p: nat): seq<Coin>
  {
    if pages(p).Ok? then pages(p).value else []
  }

  /**
   * The paging loop from `page` on: fetch the page; a failed request or store ends the
   * run with an error naming the page; an empty page ends it without storing; a short
   * page ends it after storing; a full page goes on to the next.
   */
  ghost function SyncPages(pages: Pager, store: Storer,
                           s: Snapshot<string, CoinData>, page: nat, total: nat, last: nat): Paging
    requires page <= last && EndsBy(pages, last)
    decreases last - page
  {
    match pages(page)
    case Err(e) => Paging(Some(PageFetchFailed(page, e)), s, [page], total)
    case Ok(coins) =>
      if |coins| == 0 then Paging(None, s, [page], total)
      else
        var (stored, t) := store(s, page, coins);
        if stored.Some? then Paging(Some(PageStoreFailed(page, stored.value)), t, [page], total)
        else if |coins| < PerPage then Paging(None, t, [page], total + |coins|)
        else
          var rest := SyncPages(pages, store, t, page + 1, total + |coins|, last);
          Paging(rest.err, rest.state, [page] + rest.requested, rest.total)
  }

  /** SyncCoins: a read of the coins table that aborts on failure, the paging loop, and a final read that does too. */
  ghost function SyncCoinsResult(pages: Pager, store: Storer,
                                 s: Snapshot<string, CoinData>, around: ReadFaults, last: nat): Paging
    requires 1 <= last && EndsBy(pages, last)
  {
    if around.beforeFails then Paging(Some(LoadFailed), s, [], 0)
    else
      var r := SyncPages(pages, store, s, 1, 0, last);
      if r.err.None? && around.afterFails then r.(err := Some(ReloadFailed)) else r
  }

  /** The coins table after storing `count` pages from page `from` on, one batch upsert each. */
  ghost function StoredPages(pages: Pager, store: Storer,
                             s: Snapshot<string, CoinData>, from: nat, count: nat): Snapshot<string, CoinData>
    decreases count
  {
    if count == 0 then s
    else StoredPages(pages, store, store(s, from, PageCoins(pages, from)).1,
                     from + 1, count - 1)
  }

  /** The number of coins on `count` pages from page `from` on. */
  ghost function FetchedCount(pages: Pager, from: nat, count: nat): nat
    decreases count
  {
    if count == 0 then 0 else |PageCoins(pages, from)| + FetchedCount(pages, from + 1, count - 1)
  }

  /** Page `page + i` came back full and its batch was stored on top of the pages before it. */
  ghost predicate FullAndStored(pages: Pager, store: Storer,
                                s: Snapshot<string, CoinData>, page: nat, i: nat)
  {
    && pages(page + i).Ok?
    && |pages(page + i).value| >= PerPage
    && store(StoredPages(pages, store, s, page, i), page + i, PageCoins(pages, page + i)).0.None?
  }

  /** Storing one more page is one more batch on top of the pages before it. */
  lemma {:induction false} StoredPagesStep(pages: Pager, store: Storer,
                                           s: Snapshot<string, CoinData>, page: nat, i: nat)
    ensures var t := store(s, page, PageCoins(pages, page)).1;
      StoredPages(pages, store, s, page, i + 1) == StoredPages(pages, store, t, page + 1, i)
  {
  }

  /** The paging loop asks for consecutive pages, from `page` on and never past `last`. */
  lemma {:induction false} SyncPagesRequests(pages: Pager, store: Storer,
                                             s: Snapshot<string, CoinData>, page: nat, total: nat, last: nat)
    requires page <= last && EndsBy(pages, last)
    ensures var r := SyncPages(pages, store, s, page, total, last);
      && 1 <= |r.requested| <= last - page + 1
      && (forall i :: 0 <= i < |r.requested| ==> r.requested[i] == page + i)
    decreases last - page
  {
    var r := SyncPages(pages, store, s, page, total, last);
    match pages(page)
    case Err(e) =>
    case Ok(coins) =>
      var (stored, t) := store(s, page, coins);
      if |coins| >= PerPage && stored.None? {
        SyncPagesRequests(pages, store, t, page + 1, total + |coins|, last);
        var rest := SyncPages(pages, store, t, page + 1, total + |coins|, last);
        assert r.requested == [page] + rest.requested;
      }
  }

  /** The paging loop goes past a page only when it came back full and was stored. */
  lemma {:induction false} SyncPagesFullBefore(pages: Pager, store: Storer,
                                               s: Snapshot<string, CoinData>, page: nat, total: nat, last: nat, i: nat)
    requires page <= last && EndsBy(pages, last)
    requires i < |SyncPages(pages, store, s, page, total, last).requested| - 1
    ensures FullAndStored(pages, store, s, page, i)
    decreases last - page
  {
    var r := SyncPages(pages, store, s, page, total, last);
    match pages(page)
    case Err(e) =>
    case Ok(coins) =>
      var (stored, t) := store(s, page, coins);
      assert PageCoins(pages, page) == coins;
      if |coins| >= PerPage && stored.None? && i > 0 {
        var rest := SyncPages(pages, store, t, page + 1, total + |coins|, last);
        assert r.requested == [page] + rest.requested;
        SyncPagesFullBefore(pages, store, t, page + 1, total + |coins|, last, i - 1);
        StoredPagesStep(pages, store, s, page, i - 1);
      }
  }

  /** A paging loop that ends without error ends on a short page, with every requested page stored and counted. */
  lemma {:induction false} SyncPagesSucceeds(pages: Pager, store: Storer,
                                             s: Snapshot<string, CoinData>, page: nat, total: nat, last: nat)
    requires page <= last && EndsBy(pages, last) && RollsBack(store)
    ensures var r := SyncPages(pages, store, s, page, total, last);
      var p := page + |r.requested| - 1;
      r.err.None? ==>
        && pages(p).Ok?
        && |pages(p).value| < PerPage
        && r.state == StoredPages(pages, store, s, page, |r.requested|)
        && r.total == total + FetchedCount(pages, page, |r.requested|)
    decreases last - page
  {
    var r := SyncPages(pages, store, s, page, total, last);
    match pages(page)
    case Err(e) =>
    case Ok(coins) =>
      assert PageCoins(pages, page) == coins;
      var t := store(s, page, coins).1;
      StoredPagesStep(pages, store, s, page, 0);
      if |coins| >= PerPage && store(s, page, coins).0.None? {
        SyncPagesSucceeds(pages, store, t, page + 1, total + |coins|, last);
        var rest := SyncPages(pages, store, t, page + 1, total + |coins|, last);
        assert |r.requested| == 1 + |rest.requested|;
        StoredPagesStep(pages, store, s, page, |rest.requested|);
      }
  }

  /** A paging loop that ends in error names the last requested page; the pages before it stay stored. */
  lemma {:induction false} SyncPagesFails(pages: Pager, store: Storer,
                                          s: Snapshot<string, CoinData>, page: nat, total: nat, last: nat)
    requires page <= last && EndsBy(pages, last) && RollsBack(store)
    ensures var r := SyncPages(pages, store, s, page, total, last);
      var p := page + |r.requested| - 1;
      r.err.Some? ==>
        && r.state == StoredPages(pages, store, s, page, |r.requested| - 1)
        && (r.err.value.PageFetchFailed? || r.err.value.PageStoreFailed?)
        && r.err.value.page == p
        && (r.err.value.PageFetchFailed? ==> pages(p) == Err(r.err.value.fetch))
        && (r.err.value.PageStoreFailed? ==>
              store(r.state, p, PageCoins(pages, p)).0 == Some(r.err.value.store))
    decreases last - page
  {
    var r := SyncPages(pages, store, s, page, total, last);
    match pages(page)
    case Err(e) =>
    case Ok(coins) =>
      assert PageCoins(pages, page) == coins;
      var t := store(s, page, coins).1;
      if |coins| >= PerPage && store(s, page, coins).0.None? {
        SyncPagesFails(pages, store, t, page + 1, total + |coins|, last);
        SyncPagesRequests(pages, store, t, page + 1, total + |coins|, last);
        var rest := SyncPages(pages, store, t, page + 1, total + |coins|, last);
        assert |r.requested| == 1 + |rest.requested|;
        StoredPagesStep(pages, store, s, page, |rest.requested| - 1);
      }
  }

  /**
   * How the paging loop ends. On success the last requested page was short (or empty),
   * every requested page is stored, and the count is the sum of their sizes.
   * On a failed request or store, the error names the last requested page, the pages
   * before it stay stored, and the failing page leaves no trace.
   */
  lemma SyncPagesOutcome(pages: Pager, store: Storer,
                         s: Snapshot<string, CoinData>, page: nat, total: nat, last: nat)
    requires page <= last && EndsBy(pages, last) && RollsBack(store)
    ensures var r := SyncPages(pages, store, s, page, total, last);
      var p := page + |r.requested| - 1;
      && (r.err.None? ==>
            && pages(p).Ok?
            && |pages(p).value| < PerPage
            && r.state == StoredPages(pages, store, s, page, |r.requested|)
            && r.total == total + FetchedCount(pages, page, |r.requested|))
      && (r.err.Some? ==>
            && r.state == StoredPages(pages, store, s, page, |r.requested| - 1)
            && (r.err.value.PageFetchFailed? || r.err.value.PageStoreFailed?)
            && r.err.value.page == p
            && (r.err.value.PageFetchFailed? ==> pages(p) == Err(r.err.value.fetch))
            && (r.err.value.PageStoreFailed? ==>
                  store(r.state, p, PageCoins(pages, p)).0 == Some(r.err.value.store)))
  {
    SyncPagesSucceeds(pages, store, s, page, total, last);
    SyncPagesFails(pages, store, s, page, total, last);
  }

  /** A full, stored page is followed by the next one, which exists before `last`. */
  lemma SyncPagesNext(pages: Pager, store: Storer, s: Snapshot<string, CoinData>, page: nat, total: nat, last: nat)
    requires page <= last && EndsBy(pages, last)
    requires pages(page).Ok? && |pages(page).value| >= PerPage && store(s, page, pages(page).value).0.None?
    ensures page < last
    ensures var rest := SyncPages(pages, store, store(s, page, pages(page).value).1, page + 1, total + |pages(page).value|, last);
      SyncPages(pages, store, s, page, total, last) == Paging(rest.err, rest.state, [page] + rest.requested, rest.total)
  {
  }

  /** The paging loop's invariant carried over a full, stored page to the next one. */
  lemma SyncPagesAdvance(goal: Paging, prev: seq<nat>, pages: Pager, store: Storer,
                         s: Snapshot<string, CoinData>, page: nat, total: nat, last: nat)
    requires page <= last && EndsBy(pages, last)
    requires pages(page).Ok? && |pages(page).value| >= PerPage && store(s, page, pages(page).value).0.None?
    requires var r := SyncPages(pages, store, s, page, total, last);
      goal == Paging(r.err, r.state, prev + r.requested, r.total)
    ensures page < last
    ensures var rest := SyncPages(pages, store, store(s, page, pages(page).value).1, page + 1, total + |pages(page).value|, last);
      goal == Paging(rest.err, rest.state, (prev + [page]) + rest.requested, rest.total)
  {
    SyncPagesNext(pages, store, s, page, total, last);
    var rest := SyncPages(pages, store, store(s, page, pages(page).value).1, page + 1, total + |pages(page).value|, last);
    Seqs.AppendAssociates(prev, [page], rest.requested);
  }

  /** A full page of 250 followed by a short page of 80: two requests, both stored, 330 coins. */
  lemma FullThenShortPage(pages: Pager, store: Storer, s: Snapshot<string, CoinData>, last: nat)
    requires 2 <= last && EndsBy(pages, last)
    requires pages(1).Ok? && |pages(1).value| == 250 && pages(2).Ok? && |pages(2).value| == 80
    requires store(s, 1, pages(1).value).0.None?
    requires store(store(s, 1, pages(1).value).1, 2, pages(2).value).0.None?
    ensures SyncPages(pages, store, s, 1, 0, last) ==
      Paging(None, StoredPages(pages, store, s, 1, 2), [1, 2], 330)
  {
    var t := store(s, 1, pages(1).value).1;
    assert SyncPages(pages, store, t, 2, 250, last) == Paging(None, store(t, 2, pages(2).value).1, [2], 330);
    assert PageCoins(pages, 1) == pages(1).value && PageCoins(pages, 2) == pages(2).value;
  }

  /** An empty first page ends the listing at once: one request, nothing stored, no coins counted. */
  lemma EmptyFirstPage(pages: Pager, store: Storer,
                       s: Snapshot<string, CoinData>, around: ReadFaults, last: nat)
    requires 1 <= last && EndsBy(pages, last)
    requires pages(1) == Ok([])
    ensures var r := SyncCoinsResult(pages, store, s, around, last);
      r.state == s && r.total == 0 && (around.beforeFails || r.requested == [1]) &&
      (r.err.None? <==> !around.beforeFails && !around.afterFails)
  {
  }

  // ---------------------------------------------------------------- SyncCoinMarketData

  datatype MarketSyncError =
    | CoinLookupFailed                          // "failed to get coin"
    | CoinNotFound(coinId: string)              // "coin with ID %s not found in database"
    | MarketDataReadFailed                      // "failed to get current market data"
    | MarketDataFetchFailed(fetch: ClientError) // "failed to fetch market data"
    | ExchangesReadFailed                       // "failed to get exchanges"

  /** The database's answers to the three reads of SyncCoinMarketData. */
  datatype MarketReads = MarketReads(coinFails: bool, marketDataFails: bool, exchangesFails: bool)

  /**
   * SyncCoinMarketData: look the coin up, read its stored market data, fetch the market
   * data, read the exchanges. The entries fetched are never converted, so nothing is
   * stored; the run only reports the first failure.
   */
  function MarketSyncResult(coins: Snapshot<string, CoinData>, coinId: string,
                            fetched: Result<seq<CoinMarketData>, ClientError>, answers: MarketReads)
    : (Option<MarketSyncError>, seq<Step>)
  {
    if answers.coinFails then (Some(CoinLookupFailed), [Read])
    else if !(coinId in coins.rows && coins.rows[coinId].Live()) then (Some(CoinNotFound(coinId)), [Read])
    else if answers.marketDataFails then (Some(MarketDataReadFailed), [Read, Read])
    else match fetched
      case Err(e) => (Some(MarketDataFetchFailed(e)), [Read, Read, Fetch])
      case Ok(_) => (if answers.exchangesFails then Some(ExchangesReadFailed) else None, [Read, Read, Fetch, Read])
  }

  /**
   * The market-data sync succeeds exactly when the coin is stored and live and every read
   * and the fetch succeed; it asks CoinGecko only for a live coin whose stored market
   * data could be read; and it never writes.
   */
  lemma MarketSyncMeaning(coins: Snapshot<string, CoinData>, coinId: string,
                          fetched: Result<seq<CoinMarketData>, ClientError>, answers: MarketReads)
    ensures var (err, steps) := MarketSyncResult(coins, coinId, fetched, answers);
      var live := coinId in coins.rows && coins.rows[coinId].Live();
      && (err.None? <==> live && !answers.coinFails && !answers.marketDataFails && fetched.Ok? && !answers.exchangesFails)
      && (Fetch in steps <==> live && !answers.coinFails && !answers.marketDataFails)
      && (err == Some(CoinNotFound(coinId)) <==> !answers.coinFails && !live)
      && Store !in steps
  {
  }

  // ---------------------------------------------------------------- SyncCoinsData

  /** One effectful call of SyncCoinsData, with what it requests or writes. */
  datatype DataStep =
    | DetailFetch(coingeckoId: string)
    | DetailStore(detail: CoinDetail)
    | TickerFetch(coingeckoId: string, page: nat)
    | TickerStore(ticker: CoinTicker)

  /** What GetCoinDataByID answers for each CoinGecko id. */
  type Documents = string -> Result<CoinDocument, ClientError>

  /** What GetCoinTickers answers for each CoinGecko id and page. */
  type TickerDocuments = (string, nat) -> Result<TickersDocument, ClientError>

  /** The volume filter: a known total volume of at least the threshold. */
  predicate AboveVolume(c: Coin, minTotalVolume: Float)
  {
    c.data.totalVolume.Some? && c.data.totalVolume.value >= minTotalVolume
  }

  function Eligible(coins: seq<Coin>, minTotalVolume: Float): seq<Coin>
  {
    Seqs.Filter(coins, VolumeFilter(minTotalVolume))
  }

  /** The coin_details record built from a coin and its document. */
  function DetailOf(c: Coin, doc: CoinDocument): CoinDetail
  {
    Row(0, c.key, DetailData(c.id, doc.raw, doc.genesisDate, doc.hashingAlgorithm, doc.categories, doc.homepage, doc.lastUpdated),
        ZeroTime, ZeroTime, None)
  }

  /** The coin_tickers record for one page of a coin's tickers. */
  function TickerOf(c: Coin, page: nat, doc: TickersDocument): CoinTicker
  {
    Row(0, TickerKey(c.id, page), TickerData(doc.raw), ZeroTime, ZeroTime, None)
  }

  /** The page has a `tickers` array with at least one entry, so the next page is asked for. */
  predicate HasMore(doc: TickersDocument)
  {
    doc.tickers.List? && doc.tickers.length > 0
  }

  /** By page `last` the coin's ticker pages have ended: the request fails or the page has no tickers. */
  ghost predicate TickersEndBy(tickerDocs: TickerDocuments, id: string, last: nat)
  {
    tickerDocs(id, last).Err? || !HasMore(tickerDocs(id, last).value)
  }

  /** The coin's ticker pages end by page `tickerEnd(id)`. */
  ghost predicate TickersEndFor(tickerDocs: TickerDocuments, tickerEnd: string -> nat, id: string)
  {
    1 <= tickerEnd(id) && TickersEndBy(tickerDocs, id, tickerEnd(id))
  }

  /** The ticker pages of every coin of `coins` end by page `tickerEnd` of its id. */
  ghost predicate TickersEnd(tickerDocs: TickerDocuments, tickerEnd: string -> nat, coins: seq<Coin>)
  {
    forall c :: c in coins ==> TickersEndFor(tickerDocs, tickerEnd, c.key)
  }

  /**
   * The ticker loop from `page` on: request the page; a failed request ends the loop; an
   * answered page is written and the loop goes on while the page has tickers.
   */
  ghost function TickerSteps(tickerDocs: TickerDocuments, c: Coin, page: nat, last: nat): seq<DataStep>
    requires 1 <= page <= last && TickersEndBy(tickerDocs, c.key, last)
    decreases last - page
  {
    [TickerFetch(c.key, page)] +
    match tickerDocs(c.key, page)
    case Err(_) => []
    case Ok(doc) => [TickerStore(TickerOf(c, page, doc))] + (if HasMore(doc) then TickerSteps(tickerDocs, c, page + 1, last) else [])
  }

  /** One coin: request its document; when it comes, write the detail and page through its tickers. */
  ghost function CoinSteps(docs: Documents, tickerDocs: TickerDocuments, c: Coin, tickerEnd: string -> nat): seq<DataStep>
    requires TickersEndFor(tickerDocs, tickerEnd, c.key)
  {
    [DetailFetch(c.key)] +
    match docs(c.key)
    case Err(_) => []
    case Ok(doc) => [DetailStore(DetailOf(c, doc))] + TickerSteps(tickerDocs, c, 1, tickerEnd(c.key))
  }

  /** The eligible coins one after another; a coin's failures never stop the run. */
  ghost function PlanSteps(docs: Documents, tickerDocs: TickerDocuments, coins: seq<Coin>, tickerEnd: string -> nat): seq<DataStep>
    requires TickersEnd(tickerDocs, tickerEnd, coins)
    decreases |coins|
  {
    if coins == [] then []
    else PlanSteps(docs, tickerDocs, coins[..|coins| - 1], tickerEnd) + CoinSteps(docs, tickerDocs, coins[|coins| - 1], tickerEnd)
  }

  /** A single ticker Upsert on the coin_tickers table; its error is ignored, a failed write leaves the table. */
  function TickerWritten(s: Snapshot<TickerKey, TickerData>, t: CoinTicker, now: Time, fails: bool): Snapshot<TickerKey, TickerData>
  {
    var found := if t.key in s.rows && s.rows[t.key].Live() && MatchesId(s.rows[t.key], t.id) then Some(t.key) else None;
    match AssignUpsertResult(s, t, now, AssignTickerData, false, fails, found)
    case Ok(u) => u
    case Err(_) => s
  }

  /** How one ticker write changes the coin_tickers table. */
  type TickerWriter = (Snapshot<TickerKey, TickerData>, CoinTicker) -> Snapshot<TickerKey, TickerData>

  /** `write` is the single ticker Upsert at time `now`, failing where `tickerFails` says. */
  ghost predicate WritesTickers(write: TickerWriter, now: Time, tickerFails: TickerKey -> bool)
  {
    forall s, t {:trigger TickerWritten(s, t, now, tickerFails(t.key))} :: write(s, t) == TickerWritten(s, t, now, tickerFails(t.key))
  }

  /** The coin_tickers table after the ticker writes among `steps`, in order, each done by `write`. */
  ghost function Replay(s: Snapshot<TickerKey, TickerData>, steps: seq<DataStep>, write: TickerWriter)
    : Snapshot<TickerKey, TickerData>
    decreases |steps|
  {
    if steps == [] then s
    else
      var t := Replay(s, steps[..|steps| - 1], write);
      match steps[|steps| - 1]
      case TickerStore(ticker) => write(t, ticker)
      case _ => t
  }

  /** Replaying two runs of steps is replaying the first and then the second. */
  lemma {:induction false} ReplayAppend(s: Snapshot<TickerKey, TickerData>, a: seq<DataStep>, b: seq<DataStep>,
                                        write: TickerWriter)
    ensures Replay(s, a + b, write) == Replay(Replay(s, a, write), b, write)
    decreases |b|
  {
    if b != [] {
      assert (a + b)[..|a + b| - 1] == a + b[..|b| - 1];
      assert (a + b)[|a + b| - 1] == b[|b| - 1];
      ReplayAppend(s, a, b[..|b| - 1], write);
    } else {
      assert a + b == a;
    }
  }

  /** A step that writes no ticker leaves the replayed table as it was. */
  lemma ReplaySkips(s: Snapshot<TickerKey, TickerData>, steps: seq<DataStep>, x: DataStep, write: TickerWriter)
    requires !x.TickerStore?
    ensures Replay(s, steps + [x], write) == Replay(s, steps, write)
  {
    assert (steps + [x])[..|steps|] == steps;
  }

  /** Two steps that write no ticker, replayed from the start, leave the table as it was. */
  lemma ReplayTwoSkips(s: Snapshot<TickerKey, TickerData>, x: DataStep, y: DataStep, write: TickerWriter)
    requires !x.TickerStore? && !y.TickerStore?
    ensures Replay(s, [x] + [y], write) == s
  {
    ReplaySkips(s, [x], y, write);
    ReplaySkips(s, [], x, write);
    assert [] + [x] == [x];
  }

  /** A ticker write step applies one single-record Upsert to the replayed table. */
  lemma ReplayWrites(s: Snapshot<TickerKey, TickerData>, steps: seq<DataStep>, t: CoinTicker, write: TickerWriter)
    ensures Replay(s, steps + [TickerStore(t)], write) == write(Replay(s, steps, write), t)
  {
    assert (steps + [TickerStore(t)])[..|steps|] == steps;
  }

  /** One round of the ticker loop: the page is requested and, when answered, written. */
  lemma TickerStepsUnfold(tickerDocs: TickerDocuments, c: Coin, page: nat, last: nat)
    requires 1 <= page <= last && TickersEndBy(tickerDocs, c.key, last)
    ensures tickerDocs(c.key, page).Err? ==> TickerSteps(tickerDocs, c, page, last) == [TickerFetch(c.key, page)]
    ensures tickerDocs(c.key, page).Ok? && !HasMore(tickerDocs(c.key, page).value) ==>
      TickerSteps(tickerDocs, c, page, last) == [TickerFetch(c.key, page), TickerStore(TickerOf(c, page, tickerDocs(c.key, page).value))]
    ensures tickerDocs(c.key, page).Ok? && HasMore(tickerDocs(c.key, page).value) ==>
      page < last &&
      TickerSteps(tickerDocs, c, page, last) ==
        [TickerFetch(c.key, page), TickerStore(TickerOf(c, page, tickerDocs(c.key, page).value))] + TickerSteps(tickerDocs, c, page + 1, last)
  {
    var fetch := [TickerFetch(c.key, page)];
    match tickerDocs(c.key, page)
    case Err(_) =>
      assert fetch + [] == fetch;
    case Ok(doc) =>
      var write := [TickerStore(TickerOf(c, page, doc))];
      assert fetch + write == [TickerFetch(c.key, page), TickerStore(TickerOf(c, page, doc))];
      if HasMore(doc) {
        Seqs.AppendAssociates(fetch, write, TickerSteps(tickerDocs, c, page + 1, last));
      } else {
        assert write + [] == write;
      }
  }

  /**
   * One ticker write: no row but the page's own changes, and a failing write changes
   * nothing. A page without an explicit id, as TickerOf builds them, that does not fail
   * gives its key a row (live, carrying the page's document when it has one).
   */
  lemma TickerWrittenMeaning(s: Snapshot<TickerKey, TickerData>, t: CoinTicker, now: Time, fails: bool)
    requires now != ZeroTime && KeysMatch(s.rows)
    ensures var r := TickerWritten(s, t, now, fails);
      && KeysMatch(r.rows)
      && (fails ==> r == s)
      && (forall k :: k in s.rows && k != t.key ==> k in r.rows && r.rows[k] == s.rows[k])
      && r.rows.Keys <= s.rows.Keys + {t.key}
      && (!fails && t.id == 0 ==> r.rows.Keys == s.rows.Keys + {t.key})
      && (!fails && t.id == 0 && t.deletedAt.None? ==> r.rows[t.key].Live())
      && (!fails && t.id == 0 && t.deletedAt.None? && t.data.rawJson != "" ==> r.rows[t.key].data == t.data)
  {
    var found := if t.key in s.rows && s.rows[t.key].Live() && MatchesId(s.rows[t.key], t.id) then Some(t.key) else None;
    AssignUpsertMeaning(s, t, now, AssignTickerData, false, fails, found);
    if t.deletedAt.None? && t.data.rawJson != "" {
      UpsertReplacesPage(s, t, now, fails, found);
    }
  }

  /** Replayed writes keep every row filed under its own key. */
  lemma {:induction false} ReplayKeysMatch(s: Snapshot<TickerKey, TickerData>, steps: seq<DataStep>, write: TickerWriter,
                                           now: Time, tickerFails: TickerKey -> bool)
    requires WritesTickers(write, now, tickerFails) && now != ZeroTime && KeysMatch(s.rows)
    ensures KeysMatch(Replay(s, steps, write).rows)
    decreases |steps|
  {
    if steps != [] {
      var u := Replay(s, steps[..|steps| - 1], write);
      ReplayKeysMatch(s, steps[..|steps| - 1], write, now, tickerFails);
      match steps[|steps| - 1]
      case TickerStore(t) => TickerWrittenMeaning(u, t, now, tickerFails(t.key));
      case _ =>
    }
  }

  /**
   * The last write of a ticker page (without an explicit id) that does not fail decides that page's row: after
   * all the steps the row is live and holds the page's document, whatever came before.
   */
  lemma {:induction false} ReplayLastWriteWins(s: Snapshot<TickerKey, TickerData>, steps: seq<DataStep>, write: TickerWriter,
                                               now: Time, tickerFails: TickerKey -> bool, j: nat)
    requires WritesTickers(write, now, tickerFails) && now != ZeroTime && KeysMatch(s.rows)
    requires j < |steps| && steps[j].TickerStore?
    requires steps[j].ticker.id == 0 && steps[j].ticker.deletedAt.None? && steps[j].ticker.data.rawJson != ""
    requires !tickerFails(steps[j].ticker.key)
    requires forall i :: j < i < |steps| && steps[i].TickerStore? ==> steps[i].ticker.key != steps[j].ticker.key
    ensures var r := Replay(s, steps, write);
      steps[j].ticker.key in r.rows && r.rows[steps[j].ticker.key].Live() && r.rows[steps[j].ticker.key].data == steps[j].ticker.data
    decreases |steps|
  {
    var pre := steps[..|steps| - 1];
    var t := steps[j].ticker;
    var u := Replay(s, pre, write);
    ReplayKeysMatch(s, pre, write, now, tickerFails);
    if j == |steps| - 1 {
      TickerWrittenMeaning(u, t, now, tickerFails(t.key));
    } else {
      assert pre[j] == steps[j];
      ReplayLastWriteWins(s, pre, write, now, tickerFails, j);
      match steps[|steps| - 1]
      case TickerStore(t2) => TickerWrittenMeaning(u, t2, now, tickerFails(t2.key));
      case _ =>
    }
  }

  /** The volume filter as the predicate handed to the selection. */
  function VolumeFilter(minTotalVolume: Float): Coin -> bool
  {
    (c: Coin) => AboveVolume(c, minTotalVolume)
  }

  /**
   * The volume filter keeps exactly the coins with a known total volume of at least the
   * threshold, and keeps them in listing order.
   */
  lemma EligibleMeaning(coins: seq<Coin>, more: seq<Coin>, minTotalVolume: Float)
    ensures forall c :: c in Eligible(coins, minTotalVolume) <==> c in coins && AboveVolume(c, minTotalVolume)
    ensures Eligible(coins + more, minTotalVolume) == Eligible(coins, minTotalVolume) + Eligible(more, minTotalVolume)
  {
    Seqs.FilterAppend(coins, more, VolumeFilter(minTotalVolume));
  }

  /** The CoinGecko ids whose documents the steps request, in order. */
  function DetailIds(steps: seq<DataStep>): seq<string>
  {
    if steps == [] then []
    else (if steps[0].DetailFetch? then [steps[0].coingeckoId] else []) + DetailIds(steps[1..])
  }

  /** The ticker pages the steps request, in order. */
  function TickerPages(steps: seq<DataStep>): seq<nat>
  {
    if steps == [] then []
    else (if steps[0].TickerFetch? then [steps[0].page] else []) + TickerPages(steps[1..])
  }

  /** The CoinGecko ids of the coins, in order. */
  function Keys(coins: seq<Coin>): seq<string>
  {
    if coins == [] then [] else Keys(coins[..|coins| - 1]) + [coins[|coins| - 1].key]
  }

  lemma {:induction false} DetailIdsAppend(a: seq<DataStep>, b: seq<DataStep>)
    ensures DetailIds(a + b) == DetailIds(a) + DetailIds(b)
    decreases |a|
  {
    if a == [] {
      assert a + b == b;
    } else {
      assert (a + b)[1..] == a[1..] + b;
      DetailIdsAppend(a[1..], b);
    }
  }

  /** The ticker loop requests no coin document. */
  lemma {:induction false} TickerStepsFetchNoDocument(tickerDocs: TickerDocuments, c: Coin, page: nat, last: nat)
    requires 1 <= page <= last && TickersEndBy(tickerDocs, c.key, last)
    ensures DetailIds(TickerSteps(tickerDocs, c, page, last)) == []
    decreases last - page
  {
    var r := TickerSteps(tickerDocs, c, page, last);
    var rest := r[1..];
    assert DetailIds(r) == DetailIds(rest);
    match tickerDocs(c.key, page)
    case Err(_) =>
    case Ok(doc) =>
      assert DetailIds(rest) == DetailIds(rest[1..]);
      if HasMore(doc) {
        assert rest[1..] == TickerSteps(tickerDocs, c, page + 1, last);
        TickerStepsFetchNoDocument(tickerDocs, c, page + 1, last);
      }
  }

  /**
   * Every eligible coin's document is requested exactly once, in listing order, whatever
   * happened to the coins before it: a failed fetch or write only skips the rest of that coin.
   */
  lemma {:induction false} PlanRequestsEveryCoin(docs: Documents, tickerDocs: TickerDocuments, coins: seq<Coin>,
                                                 tickerEnd: string -> nat)
    requires TickersEnd(tickerDocs, tickerEnd, coins)
    ensures DetailIds(PlanSteps(docs, tickerDocs, coins, tickerEnd)) == Keys(coins)
    decreases |coins|
  {
    if coins != [] {
      var c := coins[|coins| - 1];
      var cs := CoinSteps(docs, tickerDocs, c, tickerEnd);
      DetailIdsAppend(PlanSteps(docs, tickerDocs, coins[..|coins| - 1], tickerEnd), cs);
      PlanRequestsEveryCoin(docs, tickerDocs, coins[..|coins| - 1], tickerEnd);
      assert DetailIds(cs) == [c.key] + DetailIds(cs[1..]);
      match docs(c.key)
      case Err(_) =>
      case Ok(doc) =>
        var ts := TickerSteps(tickerDocs, c, 1, tickerEnd(c.key));
        assert cs[1..] == [DetailStore(DetailOf(c, doc))] + ts;
        assert DetailIds(cs[1..]) == DetailIds(ts);
        TickerStepsFetchNoDocument(tickerDocs, c, 1, tickerEnd(c.key));
    }
  }

  /**
   * The ticker loop requests pages `page`, `page + 1`, … one after another: every page
   * before the last one requested came back with tickers, and the last one failed or had none.
   */
  lemma {:induction false} TickerStepsPagesInOrder(tickerDocs: TickerDocuments, c: Coin, page: nat, last: nat)
    requires 1 <= page <= last && TickersEndBy(tickerDocs, c.key, last)
    ensures var ps := TickerPages(TickerSteps(tickerDocs, c, page, last));
      && 1 <= |ps| <= last - page + 1
      && (forall i :: 0 <= i < |ps| ==> ps[i] == page + i)
      && (forall q: nat :: page <= q < page + |ps| - 1 ==> tickerDocs(c.key, q).Ok? && HasMore(tickerDocs(c.key, q).value))
      && TickersEndBy(tickerDocs, c.key, page + |ps| - 1)
    decreases last - page
  {
    var r := TickerSteps(tickerDocs, c, page, last);
    var rest := r[1..];
    assert TickerPages(r) == [page] + TickerPages(rest);
    match tickerDocs(c.key, page)
    case Err(_) =>
    case Ok(doc) =>
      assert TickerPages(rest) == TickerPages(rest[1..]);
      if HasMore(doc) {
        assert rest[1..] == TickerSteps(tickerDocs, c, page + 1, last);
        TickerStepsPagesInOrder(tickerDocs, c, page + 1, last);
      } else {
        assert rest[1..] == [];
      }
  }

  class CoinService {
    const coinRepo: CoinRepository
    const coinMarketDataRepo: MarketDataRepository
    const exchangeRepo: ExchangeRepository
    const coingeckoClient: CoinGeckoClient
    const coinDetailRepo: DetailRepository
    const coinTickerRepo: TickerRepository

    constructor (coinRepo: CoinRepository, coinMarketDataRepo: MarketDataRepository, exchangeRepo: ExchangeRepository,
                 coinDetailRepo: DetailRepository, coinTickerRepo: TickerRepository, client: CoinGeckoClient)
      ensures this.coinRepo == coinRepo && this.coinMarketDataRepo == coinMarketDataRepo
      ensures this.exchangeRepo == exchangeRepo && this.coinDetailRepo == coinDetailRepo
      ensures this.coinTickerRepo == coinTickerRepo && this.coingeckoClient == client
    {
      this.coinRepo := coinRepo;
      this.coinMarketDataRepo := coinMarketDataRepo;
      this.exchangeRepo := exchangeRepo;
      this.coinDetailRepo := coinDetailRepo;
      this.coinTickerRepo := coinTickerRepo;
      this.coingeckoClient := client;
    }

    /** One round of the paging loop: fetch the page and, when it has coins, upsert them. */
    method FetchAndStorePage(up: Upstream<seq<CoinResponse>>, pageFaults: nat -> DbFaults, page: nat,
                             ghost pages: Pager, ghost store: Storer)
      returns (coins: Result<seq<Coin>, ClientError>, stored: Option<TxError<string>>)
      requires forall p: nat {:trigger CoinsResult(coingeckoClient, p, PerPage, up)} ::
        pages(p) == CoinsResult(coingeckoClient, p, PerPage, up)
      requires forall s, p: nat, coins {:trigger UpsertBatchResult(s, coins, ValidCoin, pageFaults(p))} ::
        store(s, p, coins) == UpsertBatchResult(s, coins, ValidCoin, pageFaults(p))
      modifies coinRepo.table
      ensures coins == pages(page)
      ensures old(coinRepo.table.Valid()) ==> coinRepo.table.Valid()
      ensures coins.Ok? && |coins.value| > 0 ==> (stored, coinRepo.table.Snap()) == store(old(coinRepo.table.Snap()), page, coins.value)
      ensures !(coins.Ok? && |coins.value| > 0) ==> stored.None? && coinRepo.table.Snap() == old(coinRepo.table.Snap())
    {
      var trace;
      coins, trace := GetCoins(coingeckoClient, page, PerPage, up);
      stored := None;
      if coins.Ok? && |coins.value| > 0 {
        stored := coinRepo.UpsertBatch(coins.value, pageFaults(page));
      }
    }

    /**
     * Pages through /coins/markets 250 at a time, upserting each page, until a page is
     * short or empty. `pages` is what GetCoins answers for each page, `store` what
     * UpsertBatch does, and `last` a page by which the listing is known to end.
     */
    method SyncCoins(up: Upstream<seq<CoinResponse>>, pageFaults: nat -> DbFaults, around: ReadFaults,
                     ghost pages: Pager, ghost store: Storer, ghost last: nat)
      returns (err: Option<CoinSyncError>, requested: seq<nat>, total: nat)
      requires forall p: nat {:trigger CoinsResult(coingeckoClient, p, PerPage, up)} ::
        pages(p) == CoinsResult(coingeckoClient, p, PerPage, up)
      requires forall s, p: nat, coins {:trigger UpsertBatchResult(s, coins, ValidCoin, pageFaults(p))} ::
        store(s, p, coins) == UpsertBatchResult(s, coins, ValidCoin, pageFaults(p))
      requires 1 <= last && EndsBy(pages, last)
      requires coinRepo.table.Valid()
      modifies coinRepo.table
      ensures coinRepo.table.Valid()
      ensures Paging(err, coinRepo.table.Snap(), requested, total) == SyncCoinsResult(pages, store, old(coinRepo.table.Snap()), around, last)
    {
      err, requested, total := None, [], 0;
      var current := coinRepo.GetAll(around.beforeFails);
      if current.Err? {
        return Some(LoadFailed), requested, total;
      }
      ghost var goal := SyncPages(pages, store, coinRepo.table.Snap(), 1, 0, last);
      var page: nat := 1;
      while true
        invariant 1 <= page <= last
        invariant coinRepo.table.Valid()
        invariant var rest := SyncPages(pages, store, coinRepo.table.Snap(), page, total, last);
          goal == Paging(rest.err, rest.state, requested + rest.requested, rest.total)
        decreases last - page
      {
        ghost var before := coinRepo.table.Snap();
        ghost var prev := requested;
        var coins, stored := FetchAndStorePage(up, pageFaults, page, pages, store);
        requested := requested + [page];
        if coins.Err? {
          return Some(PageFetchFailed(page, coins.error)), requested, total;
        }
        if |coins.value| == 0 {
          break;
        }
        if stored.Some? {
          return Some(PageStoreFailed(page, stored.value)), requested, total;
        }
        if |coins.value| < PerPage {
          total := total + |coins.value|;
          break;
        }
        SyncPagesAdvance(goal, prev, pages, store, before, page, total, last);
        total := total + |coins.value|;
        page := page + 1;
      }
      var updated := coinRepo.GetAll(around.afterFails);
      if updated.Err? {
        err := Some(ReloadFailed);
      }
    }

    /** Checks the coin and the stored market data, fetches the market data and reads the exchanges; stores nothing. */
    method SyncCoinMarketData(coinId: string, up: Upstream<seq<TickerResponse>>, answers: MarketReads)
      returns (err: Option<MarketSyncError>, steps: seq<Step>)
      requires coinMarketDataRepo.table.Valid() && exchangeRepo.table.Valid()
      ensures (err, steps) == MarketSyncResult(coinRepo.table.Snap(), coinId, CoinMarketDataResult(coingeckoClient, coinId, up), answers)
    {
      var coin := coinRepo.GetByCoingeckoID(coinId, answers.coinFails);
      if coin.Err? {
        return Some(CoinLookupFailed), [Read];
      }
      if coin.value.None? {
        return Some(CoinNotFound(coinId)), [Read];
      }
      assert coinId in coinRepo.table.Snap().rows && coinRepo.table.Snap().rows[coinId].Live();
      var current := coinMarketDataRepo.GetByCoinID(coin.value.value.id, answers.marketDataFails);
      if current.Err? {
        return Some(MarketDataReadFailed), [Read, Read];
      }
      var fetched, trace := GetCoinMarketData(coingeckoClient, coinId, up);
      if fetched.Err? {
        return Some(MarketDataFetchFailed(fetched.error)), [Read, Read, Fetch];
      }
      var exchanges := exchangeRepo.GetAll(answers.exchangesFails);
      if exchanges.Err? {
        return Some(ExchangesReadFailed), [Read, Read, Fetch, Read];
      }
      // The exchange name map and the per-entry loop produce no records, so the
      // store guarded by a non-empty list never runs.
      err, steps := None, [Read, Read, Fetch, Read];
    }

    /** GetCoinDataByID for one coin, answered as `docs` says. */
    method FetchDocument(coinId: string, dup: Upstream<CoinDocument>, ghost docs: Documents)
      returns (doc: Result<CoinDocument, ClientError>)
      requires forall id {:trigger CoinDataResult(coingeckoClient, id, dup)} :: docs(id) == CoinDataResult(coingeckoClient, id, dup)
      ensures doc == docs(coinId)
    {
      var trace;
      doc, trace := GetCoinDataByID(coingeckoClient, coinId, dup);
    }

    /** GetCoinDataByID for one coin and, when answered, the Upsert of its detail row. */
    method FetchAndStoreDetail(c: Coin, now: Time, dup: Upstream<CoinDocument>, detailFails: string -> bool,
                               ghost docs: Documents)
      returns (doc: Result<CoinDocument, ClientError>)
      requires forall id {:trigger CoinDataResult(coingeckoClient, id, dup)} :: docs(id) == CoinDataResult(coingeckoClient, id, dup)
      modifies coinDetailRepo.table
      ensures doc == docs(c.key)
      ensures doc.Err? ==> coinDetailRepo.table.Snap() == old(coinDetailRepo.table.Snap())
      ensures doc.Ok? ==>
        DetailWritten(old(coinDetailRepo.table.Snap()), coinDetailRepo.table.Snap(), DetailOf(c, doc.value), now, detailFails(c.key))
      ensures old(coinDetailRepo.table.Valid()) ==> coinDetailRepo.table.Valid()
    {
      doc := FetchDocument(c.key, dup, docs);
      if doc.Ok? {
        var ignored := coinDetailRepo.Upsert(DetailOf(c, doc.value), now, detailFails(c.key));
      }
    }

    /** GetCoinTickers for one page of one coin, answered as `tickerDocs` says. */
    method FetchTickerPage(coinId: string, page: nat, tup: Upstream<TickersDocument>, ghost tickerDocs: TickerDocuments)
      returns (doc: Result<TickersDocument, ClientError>)
      requires forall id, p: nat {:trigger CoinTickersResult(coingeckoClient, id, p, tup)} ::
        tickerDocs(id, p) == CoinTickersResult(coingeckoClient, id, p, tup)
      ensures doc == tickerDocs(coinId, page)
    {
      var trace;
      doc, trace := GetCoinTickers(coingeckoClient, coinId, page, tup);
    }

    /** One ticker page written with Upsert; its error is dropped. */
    method StoreTickerPage(t: CoinTicker, now: Time, fails: bool)
      modifies coinTickerRepo.table
      ensures coinTickerRepo.table.Snap() == TickerWritten(old(coinTickerRepo.table.Snap()), t, now, fails)
    {
      var ignored := coinTickerRepo.Upsert(t, now, fails);
    }

    /** One round of the ticker loop: request the page and, when it is answered, write it. */
    method TickerRound(c: Coin, page: nat, now: Time, tup: Upstream<TickersDocument>, tickerFails: TickerKey -> bool,
                       ghost tickerDocs: TickerDocuments, ghost last: nat, ghost write: TickerWriter,
                       ghost s0: Snapshot<TickerKey, TickerData>, ghost steps: seq<DataStep>)
      returns (more: bool, round: seq<DataStep>)
      requires forall id, p: nat {:trigger CoinTickersResult(coingeckoClient, id, p, tup)} ::
        tickerDocs(id, p) == CoinTickersResult(coingeckoClient, id, p, tup)
      requires WritesTickers(write, now, tickerFails)
      requires coinTickerRepo.table.Snap() == Replay(s0, steps, write)
      requires 1 <= page <= last && TickersEndBy(tickerDocs, c.key, last)
      modifies coinTickerRepo.table
      ensures more <==> tickerDocs(c.key, page).Ok? && HasMore(tickerDocs(c.key, page).value)
      ensures !more ==> round == TickerSteps(tickerDocs, c, page, last)
      ensures more ==> page < last && round + TickerSteps(tickerDocs, c, page + 1, last) == TickerSteps(tickerDocs, c, page, last)
      ensures coinTickerRepo.table.Snap() == Replay(s0, steps + round, write)
    {
      TickerStepsUnfold(tickerDocs, c, page, last);
      var doc := FetchTickerPage(c.key, page, tup, tickerDocs);
      more := doc.Ok? && HasMore(doc.value);
      var fetch := TickerFetch(c.key, page);
      ReplaySkips(s0, steps, fetch, write);
      if doc.Err? {
        round := [fetch];
        return;
      }
      var t := TickerOf(c, page, doc.value);
      StoreTickerPage(t, now, tickerFails(t.key));
      ReplayWrites(s0, steps + [fetch], t, write);
      round := [fetch, TickerStore(t)];
      assert steps + [fetch] + [TickerStore(t)] == steps + round;
    }

    /** The ticker loop of one coin: pages 1, 2, … until a request fails or a page has no tickers. */
    method SyncTickers(c: Coin, now: Time, tup: Upstream<TickersDocument>, tickerFails: TickerKey -> bool,
                       ghost tickerDocs: TickerDocuments, ghost last: nat, ghost write: TickerWriter)
      returns (steps: seq<DataStep>)
      requires forall id, p: nat {:trigger CoinTickersResult(coingeckoClient, id, p, tup)} ::
        tickerDocs(id, p) == CoinTickersResult(coingeckoClient, id, p, tup)
      requires WritesTickers(write, now, tickerFails)
      requires 1 <= last && TickersEndBy(tickerDocs, c.key, last)
      modifies coinTickerRepo.table
      ensures steps == TickerSteps(tickerDocs, c, 1, last)
      ensures coinTickerRepo.table.Snap() == Replay(old(coinTickerRepo.table.Snap()), steps, write)
    {
      ghost var goal := TickerSteps(tickerDocs, c, 1, last);
      ghost var s0 := coinTickerRepo.table.Snap();
      var page: nat := 1;
      steps := [];
      while true
        invariant 1 <= page <= last
        invariant steps + TickerSteps(tickerDocs, c, page, last) == goal
        invariant coinTickerRepo.table.Snap() == Replay(s0, steps, write)
        decreases last - page
      {
        var more, round := TickerRound(c, page, now, tup, tickerFails, tickerDocs, last, write, s0, steps);
        if !more {
          steps := steps + round;
          return;
        }
        Seqs.AppendAssociates(steps, round, TickerSteps(tickerDocs, c, page + 1, last));
        steps := steps + round;
        page := page + 1;
      }
    }

    /** One eligible coin: its document, its detail row, then its ticker pages. */
    method SyncCoinData(c: Coin, now: Time, dup: Upstream<CoinDocument>, tup: Upstream<TickersDocument>,
                        detailFails: string -> bool, tickerFails: TickerKey -> bool,
                        ghost docs: Documents, ghost tickerDocs: TickerDocuments, ghost tickerEnd: string -> nat,
                        ghost write: TickerWriter)
      returns (steps: seq<DataStep>)
      requires forall id {:trigger CoinDataResult(coingeckoClient, id, dup)} :: docs(id) == CoinDataResult(coingeckoClient, id, dup)
      requires forall id, p: nat {:trigger CoinTickersResult(coingeckoClient, id, p, tup)} ::
        tickerDocs(id, p) == CoinTickersResult(coingeckoClient, id, p, tup)
      requires WritesTickers(write, now, tickerFails)
      requires TickersEndFor(tickerDocs, tickerEnd, c.key)
      modifies coinDetailRepo.table, coinTickerRepo.table
      ensures steps == CoinSteps(docs, tickerDocs, c, tickerEnd)
      ensures docs(c.key).Err? ==> coinDetailRepo.table.Snap() == old(coinDetailRepo.table.Snap())
      ensures docs(c.key).Ok? ==>
        DetailWritten(old(coinDetailRepo.table.Snap()), coinDetailRepo.table.Snap(), DetailOf(c, docs(c.key).value), now, detailFails(c.key))
      ensures old(coinDetailRepo.table.Valid()) ==> coinDetailRepo.table.Valid()
      ensures coinTickerRepo.table.Snap() == Replay(old(coinTickerRepo.table.Snap()), steps, write)
    {
      ghost var s0 := coinTickerRepo.table.Snap();
      var doc := FetchAndStoreDetail(c, now, dup, detailFails, docs);
      if doc.Err? {
        return [DetailFetch(c.key)];
      }
      var detail := DetailOf(c, doc.value);
      var ts := SyncTickers(c, now, tup, tickerFails, tickerDocs, tickerEnd(c.key), write);
      var head := [DetailFetch(c.key)] + [DetailStore(detail)];
      ReplayTwoSkips(s0, DetailFetch(c.key), DetailStore(detail), write);
      Seqs.AppendAssociates([DetailFetch(c.key)], [DetailStore(detail)], ts);
      ReplayAppend(s0, head, ts, write);
      steps := head + ts;
    }

    /** The loop over the eligible coins, one coin after another. */
    method SyncEligible(coins: seq<Coin>, now: Time, dup: Upstream<CoinDocument>, tup: Upstream<TickersDocument>,
                        detailFails: string -> bool, tickerFails: TickerKey -> bool,
                        ghost docs: Documents, ghost tickerDocs: TickerDocuments, ghost tickerEnd: string -> nat,
                        ghost write: TickerWriter)
      returns (steps: seq<DataStep>)
      requires forall id {:trigger CoinDataResult(coingeckoClient, id, dup)} :: docs(id) == CoinDataResult(coingeckoClient, id, dup)
      requires forall id, p: nat {:trigger CoinTickersResult(coingeckoClient, id, p, tup)} ::
        tickerDocs(id, p) == CoinTickersResult(coingeckoClient, id, p, tup)
      requires WritesTickers(write, now, tickerFails)
      requires TickersEnd(tickerDocs, tickerEnd, coins)
      modifies coinDetailRepo.table, coinTickerRepo.table
      ensures steps == PlanSteps(docs, tickerDocs, coins, tickerEnd)
      ensures old(coinDetailRepo.table.Valid()) ==> coinDetailRepo.table.Valid()
      ensures coinTickerRepo.table.Snap() == Replay(old(coinTickerRepo.table.Snap()), steps, write)
    {
      ghost var s0 := coinTickerRepo.table.Snap();
      steps := [];
      for i := 0 to |coins|
        invariant steps == PlanSteps(docs, tickerDocs, coins[..i], tickerEnd)
        invariant coinTickerRepo.table.Snap() == Replay(s0, steps, write)
        invariant old(coinDetailRepo.table.Valid()) ==> coinDetailRepo.table.Valid()
      {
        var cs := SyncCoinData(coins[i], now, dup, tup, detailFails, tickerFails, docs, tickerDocs, tickerEnd, write);
        ReplayAppend(s0, steps, cs, write);
        assert coins[..i + 1][..i] == coins[..i];
        steps := steps + cs;
      }
      assert coins[..|coins|] == coins;
    }

    /**
     * Loads every coin, keeps those whose total volume is known and at least the
     * threshold, and for each fetches and stores its detail and ticker pages. Failures
     * past the load are skipped, so only the load can fail the call.
     */
    method SyncCoinsData(minTotalVolume: Float, now: Time, loadFails: bool,
                         dup: Upstream<CoinDocument>, tup: Upstream<TickersDocument>,
                         detailFails: string -> bool, tickerFails: TickerKey -> bool,
                         ghost docs: Documents, ghost tickerDocs: TickerDocuments, ghost tickerEnd: string -> nat,
                        ghost write: TickerWriter)
      returns (err: Option<CoinSyncError>, steps: seq<DataStep>, ghost listing: seq<Coin>)
      requires forall id {:trigger CoinDataResult(coingeckoClient, id, dup)} :: docs(id) == CoinDataResult(coingeckoClient, id, dup)
      requires forall id, p: nat {:trigger CoinTickersResult(coingeckoClient, id, p, tup)} ::
        tickerDocs(id, p) == CoinTickersResult(coingeckoClient, id, p, tup)
      requires WritesTickers(write, now, tickerFails)
      requires forall c :: c in LiveRows(coinRepo.table.rows) ==> TickersEndFor(tickerDocs, tickerEnd, c.key)
      requires coinRepo.table.Valid()
      modifies coinDetailRepo.table, coinTickerRepo.table
      ensures err.Some? <==> loadFails
      ensures loadFails ==> err == Some(LoadFailed) && steps == [] && coinTickerRepo.table.Snap() == old(coinTickerRepo.table.Snap())
      ensures !loadFails ==>
        && (forall i :: 0 <= i < |listing| ==> listing[i] in LiveRows(old(coinRepo.table.rows)))
        && (forall k :: k in old(coinRepo.table.rows) && old(coinRepo.table.rows)[k].Live() ==> old(coinRepo.table.rows)[k] in listing)
        && (forall i, j :: 0 <= i < j < |listing| ==> listing[i].key != listing[j].key)
        && steps == PlanSteps(docs, tickerDocs, Eligible(listing, minTotalVolume), tickerEnd)
        && coinTickerRepo.table.Snap() == Replay(old(coinTickerRepo.table.Snap()), steps, write)
      ensures old(coinDetailRepo.table.Valid()) ==> coinDetailRepo.table.Valid()
    {
      var all := coinRepo.GetAll(loadFails);
      if all.Err? {
        return Some(LoadFailed), [], [];
      }
      err, listing := None, all.value;
      var filtered := SelectValid(all.value, VolumeFilter(minTotalVolume));
      assert filtered == Eligible(listing, minTotalVolume);
      steps := SyncEligible(filtered, now, dup, tup, detailFails, tickerFails, docs, tickerDocs, tickerEnd, write);
    }
  }
}
