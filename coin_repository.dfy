/** The coins table, keyed by coingecko_id. */
module CoinRepo {
  import opened Wrappers
  import opened Domain
  import opened Tables

  /** A coin without a CoinGecko id is skipped by UpsertBatch. */
  predicate ValidCoin(c: Coin) { c.key != "" }

  /** The columns a found coin takes from the Assign of a single Upsert. */
  function AssignCoinData(stored: CoinData, incoming: CoinData): CoinData
  {
    CoinData(
      PickText(stored.symbol, incoming.symbol),
      PickText(stored.name, incoming.name),
      Pick(stored.image, incoming.image),
      Pick(stored.currentPrice, incoming.currentPrice),
      Pick(stored.marketCap, incoming.marketCap),
      Pick(stored.marketCapRank, incoming.marketCapRank),
      Pick(stored.fullyDilutedValuation, incoming.fullyDilutedValuation),
      Pick(stored.totalVolume, incoming.totalVolume),
      Pick(stored.high24h, incoming.high24h),
      Pick(stored.low24h, incoming.low24h),
      Pick(stored.priceChange24h, incoming.priceChange24h),
      Pick(stored.priceChangePercentage24h, incoming.priceChangePercentage24h),
      Pick(stored.marketCapChange24h, incoming.marketCapChange24h),
      Pick(stored.marketCapChangePercentage24h, incoming.marketCapChangePercentage24h),
      Pick(stored.circulatingSupply, incoming.circulatingSupply),
      Pick(stored.totalSupply, incoming.totalSupply),
      Pick(stored.maxSupply, incoming.maxSupply),
      Pick(stored.ath, incoming.ath),
      Pick(stored.athChangePercentage, incoming.athChangePercentage),
      Pick(stored.athDate, incoming.athDate),
      Pick(stored.atl, incoming.atl),
      Pick(stored.atlChangePercentage, incoming.atlChangePercentage),
      Pick(stored.atlDate, incoming.atlDate),
      Pick(stored.lastUpdated, incoming.lastUpdated))
  }

  /**
   * A coin with an empty CoinGecko id is never written by UpsertBatch: whatever happens,
   * the table's "" row, if any, is left as it was, and none is created.
   */
  lemma EmptyIdNeverStored(s: Snapshot<string, CoinData>, coins: seq<Coin>, faults: DbFaults)
    ensures var t := UpsertBatchResult(s, coins, ValidCoin, faults).1;
      ("" in t.rows <==> "" in s.rows) && ("" in s.rows ==> t.rows[""] == s.rows[""])
  {
    UpsertBatchKeepsOthers(s, coins, ValidCoin, faults, "");
  }

  class CoinRepository {
    const table: KeyedTable<string, CoinData>

    constructor (table: KeyedTable<string, CoinData>)
      ensures this.table == table
    {
      this.table := table;
    }

    /** Find(&coins). */
    method GetAll(fails: bool) returns (r: Result<seq<Coin>, DbError>)
      requires table.Valid()
      ensures fails <==> r.Err?
      ensures r.Ok? ==> forall i :: 0 <= i < |r.value| ==> r.value[i] in LiveRows(table.rows)
      ensures r.Ok? ==> forall k :: k in table.rows && table.rows[k].Live() ==> table.rows[k] in r.value
      ensures r.Ok? ==> forall i, j :: 0 <= i < j < |r.value| ==> r.value[i].key != r.value[j].key
    {
      r := table.All(fails);
    }

    /** Where(coingecko_id).First, with "not found" reported as no coin and no error. */
    method GetByCoingeckoID(coingeckoId: string, fails: bool) returns (r: Result<Option<Coin>, DbError>)
      ensures fails <==> r.Err?
      ensures r.Ok? ==> (r.value.Some? <==> coingeckoId in table.rows && table.rows[coingeckoId].Live())
      ensures r.Ok? && r.value.Some? ==> r.value.value == table.rows[coingeckoId]
    {
      r := table.FindLive(coingeckoId, fails);
    }

    /** Stamp, then find-or-create by coingecko_id (a struct condition) and assign. */
    method Upsert(coin: Coin, now: Time, fails: bool) returns (err: Option<DbError>)
      modifies table
      ensures old(table.Valid()) ==> table.Valid()
      ensures exists found: Option<string> ::
        && (found.Some? ==> found.value in old(table.rows))
        && LookupFinds(old(table.rows), coin, coin.key == "", found)
        && var r := AssignUpsertResult(old(table.Snap()), coin, now, AssignCoinData, true, fails, found);
           (r.Ok? ==> err.None? && table.Snap() == r.value) && (r.Err? ==> err == Some(r.error) && table.Snap() == old(table.Snap()))
    {
      err := table.AssignUpsert(coin, now, AssignCoinData, true, coin.key == "", fails);
    }

    /** Skip coins without an id, then one ON CONFLICT (coingecko_id) statement per coin in a transaction. */
    method UpsertBatch(coins: seq<Coin>, faults: DbFaults) returns (err: Option<TxError<string>>)
      modifies table
      ensures old(table.Valid()) ==> table.Valid()
      ensures (err, table.Snap()) == UpsertBatchResult(old(table.Snap()), coins, ValidCoin, faults)
    {
      err := table.UpsertBatch(coins, ValidCoin, faults);
    }
  }
}
