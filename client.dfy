/**
 * The CoinGecko HTTP client. The network is an oracle: `Upstream<T>` gives, for a URL
 * and an attempt number, how that request ended. Everything the client decides
 * (which URL, how often to retry, what counts as failure, how responses become rows)
 * is modelled on top of it.
 */
module Client {
  import opened Wrappers
  import opened Domain
  import Decimal
  import Config
  import Seqs

  /** How reading and decoding a 200 response went. */
  datatype Body<T> = Unreadable | Malformed | Decoded(value: T)

  /** How one HTTP attempt ended. */
  datatype Reply<T> = RequestNotBuilt | Unreachable | Answered(status: int, body: Body<T>)

  /** The reply to the attempt-th request (counting from 0) for a URL. */
  type Upstream<T> = (string, nat) -> Reply<T>

  /** The error one attempt reports: request creation, transport, status, read, decode. */
  datatype FetchError = BuildRequest | Transport | BadStatus(code: int) | ReadBody | Unmarshal

  const StatusOK: int := 200

  /** One attempt: only a 200 whose body reads and decodes is a success. */
  function Fetch<T>(reply: Reply<T>): (r: Result<T, FetchError>)
    ensures r.Ok? <==> reply.Answered? && reply.status == StatusOK && reply.body.Decoded?
    ensures r.Ok? ==> r.value == reply.body.value
    ensures reply.Answered? && reply.status != StatusOK ==> r == Err(BadStatus(reply.status))
  {
    match reply
    case RequestNotBuilt => Err(BuildRequest)
    case Unreachable => Err(Transport)
    case Answered(status, body) =>
      if status != StatusOK then Err(BadStatus(status))
      else
        match body
        case Unreadable => Err(ReadBody)
        case Malformed => Err(Unmarshal)
        case Decoded(v) => Ok(v)
  }

  datatype CoinGeckoClient = CoinGeckoClient(baseUrl: string, retryCount: int, retryDelay: Config.Duration)

  /** The client takes its base URL and retry policy from the API configuration. */
  function NewCoinGeckoClient(cfg: Config.ApiConfig): (c: CoinGeckoClient)
    ensures c.baseUrl == cfg.coinGeckoBaseUrl
    ensures c.retryCount == cfg.retryAttempts && c.retryDelay == cfg.retryDelay
  {
    CoinGeckoClient(cfg.coinGeckoBaseUrl, cfg.retryAttempts, cfg.retryDelay)
  }

  // ---------------------------------------------------------------- endpoints

  function AssetPlatformsUrl(base: string): string { base + "/asset_platforms" }

  function CoinCategoriesUrl(base: string): string { base + "/coins/categories/list" }

  function ExchangesUrl(base: string): string { base + "/exchanges" }

  function CoinsUrlPrefix(base: string, perPage: int): string
  {
    base + "/coins/markets?vs_currency=usd&order=market_cap_desc&per_page=" + Decimal.Itoa(perPage) + "&page="
  }

  function CoinsUrl(base: string, page: int, perPage: int): string
  {
    CoinsUrlPrefix(base, perPage) + Decimal.Itoa(page) + "&sparkline=false"
  }

  function CoinMarketDataUrl(base: string, coinId: string): string { base + "/coins/" + coinId + "/tickers" }

  function CoinDataUrl(base: string, coinId: string): string { base + "/coins/" + coinId }

  function CoinTickersUrl(base: string, coinId: string, page: int): string
  {
    base + "/coins/" + coinId + "/tickers?page=" + Decimal.Itoa(page)
  }

  function PingUrl(base: string): string { base + "/ping" }

  /** Two requests of the coins listing with the same page size hit the same URL only for the same page. */
  lemma CoinsUrlDistinguishesPages(base: string, perPage: int, p1: int, p2: int)
    requires CoinsUrl(base, p1, perPage) == CoinsUrl(base, p2, perPage)
    ensures p1 == p2
  {
    var prefix := CoinsUrlPrefix(base, perPage);
    var suffix := "&sparkline=false";
    var u1 := CoinsUrl(base, p1, perPage);
    var u2 := CoinsUrl(base, p2, perPage);
    assert |Decimal.Itoa(p1)| == |Decimal.Itoa(p2)|;
    assert Decimal.Itoa(p1) == u1[|prefix|..|u1| - |suffix|];
    assert Decimal.Itoa(p2) == u2[|prefix|..|u2| - |suffix|];
    Decimal.ItoaInjective(p1, p2);
  }

  /** Ticker pages of one coin have pairwise distinct URLs. */
  lemma TickersUrlDistinguishesPages(base: string, coinId: string, p1: int, p2: int)
    requires CoinTickersUrl(base, coinId, p1) == CoinTickersUrl(base, coinId, p2)
    ensures p1 == p2
  {
    var prefix := base + "/coins/" + coinId + "/tickers?page=";
    assert Decimal.Itoa(p1) == CoinTickersUrl(base, coinId, p1)[|prefix|..];
    assert Decimal.Itoa(p2) == CoinTickersUrl(base, coinId, p2)[|prefix|..];
    Decimal.ItoaInjective(p1, p2);
  }

  // ---------------------------------------------------------------- retrying

  /**
   * How a retry loop ended: a decoded value, all attempts spent (with the error of the
   * last one, none if no attempt was made), or an unbuildable request that the two
   * document endpoints do not retry.
   */
  datatype Retried<T> = Succeeded(value: T) | Exhausted(last: Option<FetchError>) | Aborted

  /** An attempt that failed in a way the loop answers with another attempt. */
  predicate Retryable<T>(reply: Reply<T>, abortOnBuild: bool)
  {
    Fetch(reply).Err? && !(abortOnBuild && reply.RequestNotBuilt?)
  }

  function Max(a: int, b: int): int { if a < b then b else a }

  /**
   * The loop `for attempt := 0; attempt <= retryCount; attempt++` from `attempt` on,
   * with `last` the error seen so far; the second component counts the attempts made.
   */
  function RetryFrom<T>(url: string, up: Upstream<T>, retryCount: int, abortOnBuild: bool,
                        attempt: nat, last: Option<FetchError>): (r: (Retried<T>, nat))
    decreases retryCount + 1 - attempt
    ensures attempt <= r.1 <= Max(attempt, retryCount + 1)
    ensures forall j :: attempt <= j < r.1 - 1 ==> Retryable(up(url, j), abortOnBuild)
    ensures r.0.Succeeded? ==> attempt < r.1 && Fetch(up(url, r.1 - 1)) == Ok(r.0.value)
    ensures r.0.Aborted? ==> abortOnBuild && attempt < r.1 && up(url, r.1 - 1).RequestNotBuilt?
    ensures r.0.Exhausted? ==> r.1 == Max(attempt, retryCount + 1)
    ensures r.0.Exhausted? && r.1 == attempt ==> r.0.last == last
    ensures r.0.Exhausted? && attempt < r.1 ==>
      Retryable(up(url, r.1 - 1), abortOnBuild) && r.0.last == Some(Fetch(up(url, r.1 - 1)).error)
  {
    if attempt > retryCount then (Exhausted(last), attempt)
    else
      var reply := up(url, attempt);
      if abortOnBuild && reply.RequestNotBuilt? then (Aborted, attempt + 1)
      else
        match Fetch(reply)
        case Ok(v) => (Succeeded(v), attempt + 1)
        case Err(e) => RetryFrom(url, up, retryCount, abortOnBuild, attempt + 1, Some(e))
  }

  function Retry<T>(url: string, up: Upstream<T>, retryCount: int, abortOnBuild: bool): (Retried<T>, nat)
  {
    RetryFrom(url, up, retryCount, abortOnBuild, 0, None)
  }

  /** What a retry loop does observably: request attempts and the sleeps between them. */
  datatype Event = Request(attempt: nat) | Sleep(delay: Config.Duration)

  /** n attempts: no sleep before the first one, one sleep before each later one. */
  function RetryTrace(n: nat, delay: Config.Duration): (t: seq<Event>)
    ensures |t| == if n == 0 then 0 else 2 * n - 1
    ensures forall k :: 0 <= k < |t| ==> t[k] == (if k % 2 == 0 then Request(k / 2) else Sleep(delay))
  {
    if n == 0 then []
    else if n == 1 then [Request(0)]
    else RetryTrace(n - 1, delay) + [Sleep(delay), Request(n - 1)]
  }

  /** One more attempt adds a sleep, unless it is the first, and then the request. */
  lemma RetryTraceNext(n: nat, delay: Config.Duration)
    ensures RetryTrace(n + 1, delay) == (if n == 0 then [] else RetryTrace(n, delay) + [Sleep(delay)]) + [Request(n)]
  {
    if n > 0 {
      Seqs.AppendAssociates(RetryTrace(n, delay), [Sleep(delay)], [Request(n)]);
      assert [Sleep(delay)] + [Request(n)] == [Sleep(delay), Request(n)];
    }
  }

  /** The retry loop shared by every endpoint except the health check. */
  method RetryLoop<T>(client: CoinGeckoClient, url: string, up: Upstream<T>, abortOnBuild: bool)
    returns (res: Retried<T>, trace: seq<Event>)
    ensures res == Retry(url, up, client.retryCount, abortOnBuild).0
    ensures trace == RetryTrace(Retry(url, up, client.retryCount, abortOnBuild).1, client.retryDelay)
  {
    var attempt: nat := 0;
    var lastErr: Option<FetchError> := None;
    trace := [];
    while attempt <= client.retryCount
      invariant RetryFrom(url, up, client.retryCount, abortOnBuild, attempt, lastErr)
             == Retry(url, up, client.retryCount, abortOnBuild)
      invariant trace == RetryTrace(attempt, client.retryDelay)
      decreases client.retryCount + 1 - attempt
    {
      RetryTraceNext(attempt, client.retryDelay);
      if attempt > 0 {
        trace := trace + [Sleep(client.retryDelay)];
      }
      trace := trace + [Request(attempt)];
      var reply := up(url, attempt);
      if abortOnBuild && reply.RequestNotBuilt? {
        return Aborted, trace;
      }
      match Fetch(reply) {
        case Ok(v) =>
          return Succeeded(v), trace;
        case Err(e) =>
          lastErr := Some(e);
      }
      attempt := attempt + 1;
    }
    res := Exhausted(lastErr);
  }

  /** Every kind of failed attempt, a bad status and an undecodable body included, is retried. */
  lemma FailedAttemptIsRetried<T>(url: string, up: Upstream<T>, retryCount: int, abortOnBuild: bool, j: nat)
    requires j < retryCount
    requires forall i :: 0 <= i <= j ==> Retryable(up(url, i), abortOnBuild)
    ensures Retry(url, up, retryCount, abortOnBuild).1 >= j + 2
  {
  }

  // ---------------------------------------------------------------- responses

  datatype PlatformResponse = PlatformResponse(
    id: string, chainIdentifier: Option<int>, name: string,
    shortName: Option<string>, nativeCoinId: Option<string>)

  datatype CategoryResponse = CategoryResponse(categoryId: string, name: string)

  /** An /exchanges entry: its id and the eleven fields that map one-to-one onto columns. */
  datatype ExchangeResponse = ExchangeResponse(id: string, fields: ExchangeData)

  /** A /coins/markets entry: its id and the twenty-four fields that map onto columns. */
  datatype CoinResponse = CoinResponse(id: string, fields: CoinData)

  /** The parts of a /coins/{id}/tickers entry the client reads. */
  datatype TickerResponse = TickerResponse(last: Option<Float>, volume: Option<Float>, lastTradedAt: Option<Time>)

  /** The `tickers` member of a decoded document. */
  datatype TickersField = Missing | NotAList | List(length: nat)

  /** A decoded /coins/{id}/tickers?page=N document, kept as raw JSON. */
  datatype TickersDocument = TickersDocument(raw: Json, tickers: TickersField)

  /**
   * A decoded /coins/{id} document, kept as raw JSON, with the values the optional
   * lookups of genesis_date, hashing_algorithm, categories, links.homepage and
   * last_updated yield (None when absent or unparseable).
   */
  datatype CoinDocument = CoinDocument(
    raw: Json, genesisDate: Option<Time>, hashingAlgorithm: Option<string>,
    categories: Option<Json>, homepage: Option<Json>, lastUpdated: Option<Time>)

  /** A record straight from the API: no id, zero timestamps, not deleted. */
  predicate Unsaved<K, D>(r: Row<K, D>)
  {
    r.id == 0 && r.createdAt == ZeroTime && r.updatedAt == ZeroTime && r.deletedAt.None?
  }

  /**
   * The shape every converter below shares: the API id as key and the converted fields,
   * in an unsaved row. The converters stay separate members because the client converts
   * each response type in its own function, with its own field mapping.
   */
  function NewRow<K, D>(key: K, data: D): (r: Row<K, D>)
    ensures Unsaved(r) && r.key == key && r.data == data
  {
    Row(0, key, data, ZeroTime, ZeroTime, None)
  }

  function PlatformOf(p: PlatformResponse): (r: AssetPlatform)
    ensures Unsaved(r) && r.key == p.id && r.data.name == p.name
    ensures r.data.chainIdentifier == p.chainIdentifier && r.data.shortName == p.shortName
    ensures r.data.nativeCoinId == p.nativeCoinId
  {
    NewRow(p.id, PlatformData(p.chainIdentifier, p.name, p.shortName, p.nativeCoinId))
  }

  /** A category's CoinGecko id comes from `category_id`. */
  function CategoryOf(c: CategoryResponse): (r: CoinCategory)
    ensures Unsaved(r) && r.key == c.categoryId && r.data.name == c.name
  {
    NewRow(c.categoryId, CategoryData(c.name))
  }

  function ExchangeOf(e: ExchangeResponse): (r: Exchange)
    ensures Unsaved(r) && r.key == e.id && r.data == e.fields
  {
    NewRow(e.id, e.fields)
  }

  function CoinOf(c: CoinResponse): (r: Coin)
    ensures Unsaved(r) && r.key == c.id && r.data == c.fields
  {
    NewRow(c.id, c.fields)
  }

  /** Coin and exchange ids are left 0 for the service layer to resolve. */
  function MarketDataOf(t: TickerResponse): (r: CoinMarketData)
    ensures Unsaved(r) && r.key == MarketKey(0, 0)
    ensures r.data.price == t.last && r.data.volume24h == t.volume
    ensures r.data.volumePercentage.None? && r.data.lastUpdated == t.lastTradedAt
  {
    NewRow(MarketKey(0, 0), MarketData(t.last, t.volume, None, t.lastTradedAt))
  }

  function MapSeq<A, B>(s: seq<A>, f: A -> B): (r: seq<B>)
    ensures |r| == |s| && forall i :: 0 <= i < |s| ==> r[i] == f(s[i])
  {
    seq(|s|, i requires 0 <= i < |s| => f(s[i]))
  }

  /** The conversion loops: a slice of the response's length, filled index by index. */
  method FillByIndex<A, B(0)>(api: seq<A>, convert: A -> B) returns (r: seq<B>)
    ensures r == MapSeq(api, convert)
  {
    var out := new B[|api|];
    for i := 0 to |api|
      invariant forall j :: 0 <= j < i ==> out[j] == convert(api[j])
    {
      out[i] := convert(api[i]);
    }
    r := out[..];
  }

  predicate Priced(t: TickerResponse) { t.last.Some? }

  /** Market data for the tickers that carry a last price, in ticker order. */
  function PricedMarketData(tickers: seq<TickerResponse>): seq<CoinMarketData>
  {
    MapSeq(Seqs.Filter(tickers, Priced), MarketDataOf)
  }

  /** The ticker conversion loop: tickers without a last price are skipped. */
  method CollectPriced(tickers: seq<TickerResponse>) returns (r: seq<CoinMarketData>)
    ensures r == PricedMarketData(tickers)
  {
    r := [];
    for i := 0 to |tickers|
      invariant r == PricedMarketData(tickers[..i])
    {
      Seqs.FilterStep(tickers, i, Priced);
      if tickers[i].last.None? {
        continue;
      }
      r := r + [MarketDataOf(tickers[i])];
    }
    assert tickers[..|tickers|] == tickers;
  }

  /** Every converted entry has a price; nothing is dropped exactly when every ticker is priced. */
  lemma PricedMarketDataMeaning(tickers: seq<TickerResponse>)
    ensures |PricedMarketData(tickers)| <= |tickers|
    ensures forall m :: m in PricedMarketData(tickers) ==> m.data.price.Some?
    ensures |PricedMarketData(tickers)| == |tickers| <==> forall i :: 0 <= i < |tickers| ==> Priced(tickers[i])
  {
    var f := Seqs.Filter(tickers, Priced);
    Seqs.FilterAll(tickers, Priced);
    if |f| == |tickers| {
      FilterSameLength(tickers, Priced);
    }
  }

  /** A filter that keeps the length keeps everything. */
  lemma {:induction false} FilterSameLength<T>(s: seq<T>, keep: T -> bool)
    requires |Seqs.Filter(s, keep)| == |s|
    ensures Seqs.Filter(s, keep) == s
    decreases |s|
  {
    if s != [] {
      var init := s[..|s| - 1];
      assert |Seqs.Filter(init, keep)| <= |init|;
      FilterSameLength(init, keep);
    }
  }

  /** Ticker order is kept: converting two runs of tickers is converting each. */
  lemma PricedMarketDataAppend(a: seq<TickerResponse>, b: seq<TickerResponse>)
    ensures PricedMarketData(a + b) == PricedMarketData(a) + PricedMarketData(b)
  {
    Seqs.FilterAppend(a, b, Priced);
  }

  // ---------------------------------------------------------------- endpoints' results

  /** Which call failed, as the wrapping error message says. */
  datatype Resource = AssetPlatforms | CoinCategories | Exchanges | Coins | CoinMarketData | CoinDataById | CoinTickers

  datatype ClientError =
    | RequestFailed(resource: Resource, last: Option<FetchError>)  // "failed to fetch <resource>: <last>"
    | RequestNotCreated                                             // "failed to create request"

  /**
   * A listing endpoint's answer. The loop's error variable starts nil, so when no attempt
   * is made (a negative retry count) the endpoint reports success with no entries.
   */
  function ListResult<A, B>(resource: Resource, rt: Retried<seq<A>>, convert: A -> B): (r: Result<seq<B>, ClientError>)
    requires !rt.Aborted?
    ensures r.Ok? <==> rt.Succeeded? || rt.last.None?
    ensures rt.Succeeded? ==> r == Ok(MapSeq(rt.value, convert))
  {
    match rt
    case Succeeded(v) => Ok(MapSeq(v, convert))
    case Exhausted(last) => if last.Some? then Err(RequestFailed(resource, last)) else Ok([])
  }

  /** A document endpoint's answer: here an exhausted loop is an error even with no attempt. */
  function DocumentResult<T>(resource: Resource, rt: Retried<T>): (r: Result<T, ClientError>)
    ensures r.Ok? <==> rt.Succeeded?
    ensures rt.Aborted? ==> r == Err(RequestNotCreated)
  {
    match rt
    case Succeeded(v) => Ok(v)
    case Aborted => Err(RequestNotCreated)
    case Exhausted(last) => Err(RequestFailed(resource, last))
  }

  function AssetPlatformsResult(client: CoinGeckoClient, up: Upstream<seq<PlatformResponse>>): Result<seq<AssetPlatform>, ClientError>
  {
    ListResult(AssetPlatforms, Retry(AssetPlatformsUrl(client.baseUrl), up, client.retryCount, false).0, PlatformOf)
  }

  function CoinCategoriesResult(client: CoinGeckoClient, up: Upstream<seq<CategoryResponse>>): Result<seq<CoinCategory>, ClientError>
  {
    ListResult(CoinCategories, Retry(CoinCategoriesUrl(client.baseUrl), up, client.retryCount, false).0, CategoryOf)
  }

  function ExchangesResult(client: CoinGeckoClient, up: Upstream<seq<ExchangeResponse>>): Result<seq<Exchange>, ClientError>
  {
    ListResult(Exchanges, Retry(ExchangesUrl(client.baseUrl), up, client.retryCount, false).0, ExchangeOf)
  }

  function CoinsResult(client: CoinGeckoClient, page: int, perPage: int, up: Upstream<seq<CoinResponse>>): Result<seq<Coin>, ClientError>
  {
    ListResult(Coins, Retry(CoinsUrl(client.baseUrl, page, perPage), up, client.retryCount, false).0, CoinOf)
  }

  function CoinMarketDataResult(client: CoinGeckoClient, coinId: string, up: Upstream<seq<TickerResponse>>): (r: Result<seq<CoinMarketData>, ClientError>)
  {
    match Retry(CoinMarketDataUrl(client.baseUrl, coinId), up, client.retryCount, false).0
    case Succeeded(tickers) => Ok(PricedMarketData(tickers))
    case Exhausted(last) => if last.Some? then Err(RequestFailed(CoinMarketData, last)) else Ok([])
  }

  function CoinDataResult(client: CoinGeckoClient, coinId: string, up: Upstream<CoinDocument>): Result<CoinDocument, ClientError>
  {
    DocumentResult(CoinDataById, Retry(CoinDataUrl(client.baseUrl, coinId), up, client.retryCount, true).0)
  }

  function CoinTickersResult(client: CoinGeckoClient, coinId: string, page: int, up: Upstream<TickersDocument>): Result<TickersDocument, ClientError>
  {
    DocumentResult(CoinTickers, Retry(CoinTickersUrl(client.baseUrl, coinId, page), up, client.retryCount, true).0)
  }

  function Attempts<T>(url: string, up: Upstream<T>, client: CoinGeckoClient, abortOnBuild: bool): seq<Event>
  {
    RetryTrace(Retry(url, up, client.retryCount, abortOnBuild).1, client.retryDelay)
  }

  method GetAssetPlatforms(client: CoinGeckoClient, up: Upstream<seq<PlatformResponse>>)
    returns (r: Result<seq<AssetPlatform>, ClientError>, trace: seq<Event>)
    ensures r == AssetPlatformsResult(client, up)
    ensures trace == Attempts(AssetPlatformsUrl(client.baseUrl), up, client, false)
  {
    var rt;
    rt, trace := RetryLoop(client, AssetPlatformsUrl(client.baseUrl), up, false);
    r := ListFrom(AssetPlatforms, rt, PlatformOf);
  }

  method GetCoinCategories(client: CoinGeckoClient, up: Upstream<seq<CategoryResponse>>)
    returns (r: Result<seq<CoinCategory>, ClientError>, trace: seq<Event>)
    ensures r == CoinCategoriesResult(client, up)
    ensures trace == Attempts(CoinCategoriesUrl(client.baseUrl), up, client, false)
  {
    var rt;
    rt, trace := RetryLoop(client, CoinCategoriesUrl(client.baseUrl), up, false);
    r := ListFrom(CoinCategories, rt, CategoryOf);
  }

  method GetExchanges(client: CoinGeckoClient, up: Upstream<seq<ExchangeResponse>>)
    returns (r: Result<seq<Exchange>, ClientError>, trace: seq<Event>)
    ensures r == ExchangesResult(client, up)
    ensures trace == Attempts(ExchangesUrl(client.baseUrl), up, client, false)
  {
    var rt;
    rt, trace := RetryLoop(client, ExchangesUrl(client.baseUrl), up, false);
    r := ListFrom(Exchanges, rt, ExchangeOf);
  }

  method GetCoins(client: CoinGeckoClient, page: int, perPage: int, up: Upstream<seq<CoinResponse>>)
    returns (r: Result<seq<Coin>, ClientError>, trace: seq<Event>)
    ensures r == CoinsResult(client, page, perPage, up)
    ensures trace == Attempts(CoinsUrl(client.baseUrl, page, perPage), up, client, false)
  {
    var rt;
    rt, trace := RetryLoop(client, CoinsUrl(client.baseUrl, page, perPage), up, false);
    r := ListFrom(Coins, rt, CoinOf);
  }

  method GetCoinMarketData(client: CoinGeckoClient, coinId: string, up: Upstream<seq<TickerResponse>>)
    returns (r: Result<seq<CoinMarketData>, ClientError>, trace: seq<Event>)
    ensures r == CoinMarketDataResult(client, coinId, up)
    ensures trace == Attempts(CoinMarketDataUrl(client.baseUrl, coinId), up, client, false)
  {
    var rt;
    rt, trace := RetryLoop(client, CoinMarketDataUrl(client.baseUrl, coinId), up, false);
    match rt {
      case Succeeded(tickers) =>
        var data := CollectPriced(tickers);
        r := Ok(data);
      case Exhausted(last) =>
        r := if last.Some? then Err(RequestFailed(CoinMarketData, last)) else Ok([]);
    }
  }

  method GetCoinDataByID(client: CoinGeckoClient, coinId: string, up: Upstream<CoinDocument>)
    returns (r: Result<CoinDocument, ClientError>, trace: seq<Event>)
    ensures r == CoinDataResult(client, coinId, up)
    ensures trace == Attempts(CoinDataUrl(client.baseUrl, coinId), up, client, true)
  {
    var rt;
    rt, trace := RetryLoop(client, CoinDataUrl(client.baseUrl, coinId), up, true);
    r := DocumentResult(CoinDataById, rt);
  }

  method GetCoinTickers(client: CoinGeckoClient, coinId: string, page: int, up: Upstream<TickersDocument>)
    returns (r: Result<TickersDocument, ClientError>, trace: seq<Event>)
    ensures r == CoinTickersResult(client, coinId, page, up)
    ensures trace == Attempts(CoinTickersUrl(client.baseUrl, coinId, page), up, client, true)
  {
    var rt;
    rt, trace := RetryLoop(client, CoinTickersUrl(client.baseUrl, coinId, page), up, true);
    r := DocumentResult(CoinTickers, rt);
  }

  /** Turns a finished listing loop into the endpoint's answer, converting by index. */
  method ListFrom<A, B(0)>(resource: Resource, rt: Retried<seq<A>>, convert: A -> B)
    returns (r: Result<seq<B>, ClientError>)
    requires !rt.Aborted?
    ensures r == ListResult(resource, rt, convert)
  {
    match rt {
      case Succeeded(api) =>
        var converted := FillByIndex(api, convert);
        r := Ok(converted);
      case Exhausted(last) =>
        r := if last.Some? then Err(RequestFailed(resource, last)) else Ok([]);
    }
  }

  /** With a negative retry count no request is made and the listing is empty, not an error. */
  lemma NoAttemptListsNothing(client: CoinGeckoClient, up: Upstream<seq<CoinResponse>>, page: int, perPage: int)
    requires client.retryCount < 0
    ensures CoinsResult(client, page, perPage, up) == Ok([])
    ensures Attempts(CoinsUrl(client.baseUrl, page, perPage), up, client, false) == []
  {
  }

  /** With a negative retry count the document endpoints fail, wrapping no error. */
  lemma NoAttemptDocumentFails(client: CoinGeckoClient, coinId: string, up: Upstream<CoinDocument>)
    requires client.retryCount < 0
    ensures CoinDataResult(client, coinId, up) == Err(RequestFailed(CoinDataById, None))
  {
  }

  /**
   * A listing fails only after retryCount + 1 failed attempts and reports the last
   * attempt's error; it succeeds with the first decoded answer, converted entry by entry.
   */
  lemma CoinsResultMeaning(client: CoinGeckoClient, page: int, perPage: int, up: Upstream<seq<CoinResponse>>)
    ensures var url := CoinsUrl(client.baseUrl, page, perPage);
      var r := CoinsResult(client, page, perPage, up);
      var n := Retry(url, up, client.retryCount, false).1;
      (r.Err? ==>
         n == client.retryCount + 1 && r.error == RequestFailed(Coins, Some(Fetch(up(url, n - 1)).error)) &&
         forall j :: 0 <= j < n ==> Fetch(up(url, j)).Err?) &&
      (r.Ok? && n > 0 ==>
         Fetch(up(url, n - 1)).Ok? && r.value == MapSeq(Fetch(up(url, n - 1)).value, CoinOf) &&
         forall j :: 0 <= j < n - 1 ==> Fetch(up(url, j)).Err?)
  {
  }

  /**
   * A document request that cannot even be built ends the loop at once; every other
   * failure is retried, and an exhausted loop reports the last attempt's error.
   */
  lemma CoinDataResultMeaning(client: CoinGeckoClient, coinId: string, up: Upstream<CoinDocument>)
    ensures var url := CoinDataUrl(client.baseUrl, coinId);
      var r := CoinDataResult(client, coinId, up);
      var n := Retry(url, up, client.retryCount, true).1;
      (r == Err(RequestNotCreated) ==>
         n > 0 && up(url, n - 1).RequestNotBuilt? && forall j :: 0 <= j < n - 1 ==> !up(url, j).RequestNotBuilt?) &&
      (r.Ok? ==> n > 0 && Fetch(up(url, n - 1)) == Ok(r.value))
  {
  }

  datatype HealthError = HealthRequestNotCreated | HealthUnreachable | HealthBadStatus(code: int)

  /** GET /ping once, no retry: healthy exactly when the answer's status is 200. */
  function HealthCheck(client: CoinGeckoClient, up: Upstream<()>): (r: Option<HealthError>)
    ensures r.None? <==> up(PingUrl(client.baseUrl), 0).Answered? && up(PingUrl(client.baseUrl), 0).status == StatusOK
    ensures up(PingUrl(client.baseUrl), 0).Answered? && r.Some? ==> r == Some(HealthBadStatus(up(PingUrl(client.baseUrl), 0).status))
  {
    match up(PingUrl(client.baseUrl), 0)
    case RequestNotBuilt => Some(HealthRequestNotCreated)
    case Unreachable => Some(HealthUnreachable)
    case Answered(status, _) => if status != StatusOK then Some(HealthBadStatus(status)) else None
  }
}
