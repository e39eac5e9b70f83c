/**
 * The stored entities. Every table row carries the same bookkeeping columns (surrogate
 * id, the natural key with its unique index, created_at, updated_at and the soft-delete
 * marker deleted_at); what differs per table is the payload, so a row is
 * `Row<key type, payload type>`.
 */
module Domain {
  import opened Wrappers

  /** An instant; 0 is Go's zero time.Time, which gorm treats as "not set". */
  type Time = int

  const ZeroTime: Time := 0

  /** A float64 column; the job only copies them and compares one against a threshold. */
  type Float = real

  /** Raw JSON text, stored as jsonb. */
  type Json = string

  datatype Row<K, D> = Row(
    id: nat,               // surrogate primary key, 0 before insertion
    key: K,                // the column(s) carrying the unique index
    data: D,
    createdAt: Time,
    updatedAt: Time,
    deletedAt: Option<Time>)
  {
    predicate Live() { deletedAt.None? }
  }

  /** The columns of `coins` besides the bookkeeping ones; the key is coingecko_id. */
  datatype CoinData = CoinData(
    symbol: string,
    name: string,
    image: Option<string>,
    currentPrice: Option<Float>,
    marketCap: Option<Float>,
    marketCapRank: Option<int>,
    fullyDilutedValuation: Option<Float>,
    totalVolume: Option<Float>,
    high24h: Option<Float>,
    low24h: Option<Float>,
    priceChange24h: Option<Float>,
    priceChangePercentage24h: Option<Float>,
    marketCapChange24h: Option<Float>,
    marketCapChangePercentage24h: Option<Float>,
    circulatingSupply: Option<Float>,
    totalSupply: Option<Float>,
    maxSupply: Option<Float>,
    ath: Option<Float>,
    athChangePercentage: Option<Float>,
    athDate: Option<Time>,
    atl: Option<Float>,
    atlChangePercentage: Option<Float>,
    atlDate: Option<Time>,
    lastUpdated: Option<Time>)

  type Coin = Row<string, CoinData>

  /** The columns of `exchanges`; the key is coingecko_id. */
  datatype ExchangeData = ExchangeData(
    name: string,
    yearEstablished: Option<int>,
    country: Option<string>,
    description: Option<string>,
    url: Option<string>,
    image: Option<string>,
    hasTradingIncentive: Option<bool>,
    trustScore: Option<int>,
    trustScoreRank: Option<int>,
    tradeVolume24hBtc: Option<Float>,
    tradeVolume24hBtcNormalized: Option<Float>)

  type Exchange = Row<string, ExchangeData>

  /** The columns of `coin_categories`; the key is coingecko_id. */
  datatype CategoryData = CategoryData(name: string)

  type CoinCategory = Row<string, CategoryData>

  /**
   * The columns of `asset_platforms`. This table has no surrogate id: its primary key is
   * the CoinGecko platform id, held in `key`, and `id` stays 0.
   */
  datatype PlatformData = PlatformData(
    chainIdentifier: Option<int>,
    name: string,
    shortName: Option<string>,
    nativeCoinId: Option<string>)

  type AssetPlatform = Row<string, PlatformData>

  /** `coin_market_data` rows are identified by the (coin_id, exchange_id) pair. */
  datatype MarketKey = MarketKey(coinId: nat, exchangeId: nat)

  datatype MarketData = MarketData(
    price: Option<Float>,
    volume24h: Option<Float>,
    volumePercentage: Option<Float>,
    lastUpdated: Option<Time>)

  type CoinMarketData = Row<MarketKey, MarketData>

  /** `coin_details`: the raw /coins/{id} document and a few fields lifted out of it. */
  datatype DetailData = DetailData(
    coinId: nat,
    rawJson: Json,
    genesisDate: Option<Time>,
    hashingAlgo: Option<string>,
    categories: Option<Json>,
    homepage: Option<Json>,
    lastUpdatedAt: Option<Time>)

  type CoinDetail = Row<string, DetailData>

  /** `coin_tickers` rows are identified by the (coin_id, page) pair. */
  datatype TickerKey = TickerKey(coinId: nat, page: int)

  datatype TickerData = TickerData(rawJson: Json)

  type CoinTicker = Row<TickerKey, TickerData>
}
