/** The coin_market_data table, one row per (coin_id, exchange_id) pair. */
module MarketDataRepo {
  import opened Wrappers
  import opened Domain
  import opened Tables

  /** UpsertBatch stores only records naming a coin and an exchange and carrying a price. */
  predicate ValidMarketData(m: CoinMarketData)
  {
    m.key.coinId != 0 && m.key.exchangeId != 0 && m.data.price.Some?
  }

  /** The columns a found row takes from the Assign of a single Upsert. */
  function AssignMarketData(stored: MarketData, incoming: MarketData): MarketData
  {
    MarketData(
      Pick(stored.price, incoming.price),
      Pick(stored.volume24h, incoming.volume24h),
      Pick(stored.volumePercentage, incoming.volumePercentage),
      Pick(stored.lastUpdated, incoming.lastUpdated))
  }

  /** Where("coin_id = ?"): the condition of GetByCoinID and DeleteByCoinID. */
  predicate OfCoin(m: CoinMarketData, coinId: nat) { m.key.coinId == coinId }

  /**
   * Every row an UpsertBatch writes names a coin and an exchange and has a price; a row
   * under a pair with a zero id is never touched.
   */
  lemma WrittenRowsAreValid(s: Snapshot<MarketKey, MarketData>, records: seq<CoinMarketData>, faults: DbFaults, k: MarketKey)
    requires k in UpsertBatchResult(s, records, ValidMarketData, faults).1.rows
    ensures var row := UpsertBatchResult(s, records, ValidMarketData, faults).1.rows[k];
      (k in s.rows && row == s.rows[k]) || (k.coinId != 0 && k.exchangeId != 0 && row.data.price.Some?)
  {
    UpsertBatchRowSource(s, records, ValidMarketData, faults, k);
  }

  /**
   * On a (coin_id, exchange_id) conflict only price, volume_24h, volume_percentage,
   * last_updated, updated_at and deleted_at change: the stored row keeps its id, pair
   * and created_at.
   */
  lemma ConflictOverwritesPrices(s: Snapshot<MarketKey, MarketData>, records: seq<CoinMarketData>, faults: DbFaults, i: nat)
    requires UpsertBatchResult(s, records, ValidMarketData, faults).0.None?
    requires i < |records| && records[i].key in s.rows && ValidMarketData(records[i])
    requires forall j :: i < j < |records| && ValidMarketData(records[j]) ==> records[j].key != records[i].key
    ensures var stored := s.rows[records[i].key];
      var t := UpsertBatchResult(s, records, ValidMarketData, faults).1;
      records[i].key in t.rows &&
      t.rows[records[i].key] == records[i].(id := stored.id, key := stored.key, createdAt := stored.createdAt)
  {
    UpsertBatchLastWins(s, records, ValidMarketData, faults, i);
    UpsertBatchKeepsOthers(s, records, ValidMarketData, faults, records[i].key);
  }

  /**
   * DeleteByCoinID(c) hides from every later read exactly the rows of coin c and leaves
   * every other row as it was.
   */
  lemma DeleteByCoinIdMeaning(rows: map<MarketKey, CoinMarketData>, coinId: nat, now: Time)
    requires KeysMatch(rows)
    ensures var after := SoftDeleted(rows, m => OfCoin(m, coinId), now);
      after.Keys == rows.Keys &&
      (forall k :: k in rows ==> (after[k].Live() <==> rows[k].Live() && k.coinId != coinId)) &&
      (forall k :: k in rows && k.coinId != coinId ==> after[k] == rows[k])
  {
    SoftDeleteHidesExactly(rows, m => OfCoin(m, coinId), now);
  }

  class MarketDataRepository {
    const table: KeyedTable<MarketKey, MarketData>

    constructor (table: KeyedTable<MarketKey, MarketData>)
      ensures this.table == table
    {
      this.table := table;
    }

    /** Find(&marketData): every live row once. */
    method GetAll(fails: bool) returns (r: Result<seq<CoinMarketData>, DbError>)
      requires table.Valid()
      ensures fails <==> r.Err?
      ensures r.Ok? ==> forall i :: 0 <= i < |r.value| ==> r.value[i] in LiveRows(table.rows)
      ensures r.Ok? ==> forall k :: k in table.rows && table.rows[k].Live() ==> table.rows[k] in r.value
      ensures r.Ok? ==> forall i, j :: 0 <= i < j < |r.value| ==> r.value[i].key != r.value[j].key
    {
      r := table.All(fails);
    }

    /** Where("coin_id = ?").Find: exactly the live rows of the coin. */
    method GetByCoinID(coinId: nat, fails: bool) returns (r: Result<seq<CoinMarketData>, DbError>)
      requires table.Valid()
      ensures fails <==> r.Err?
      ensures r.Ok? ==> forall i :: 0 <= i < |r.value| ==> r.value[i] in LiveRows(table.rows) && r.value[i].key.coinId == coinId
      ensures r.Ok? ==> forall k :: k in table.rows && table.rows[k].Live() && table.rows[k].key.coinId == coinId ==>
        table.rows[k] in r.value
      ensures r.Ok? ==> forall i, j :: 0 <= i < j < |r.value| ==> r.value[i].key != r.value[j].key
    {
      if fails {
        return Err(QueryFailed);
      }
      var found := table.LiveWhere(m => OfCoin(m, coinId));
      r := Ok(found);
    }

    /** Where("exchange_id = ?").Find: exactly the live rows of the exchange. */
    method GetByExchangeID(exchangeId: nat, fails: bool) returns (r: Result<seq<CoinMarketData>, DbError>)
      requires table.Valid()
      ensures fails <==> r.Err?
      ensures r.Ok? ==> forall i :: 0 <= i < |r.value| ==> r.value[i] in LiveRows(table.rows) && r.value[i].key.exchangeId == exchangeId
      ensures r.Ok? ==> forall k :: k in table.rows && table.rows[k].Live() && table.rows[k].key.exchangeId == exchangeId ==>
        table.rows[k] in r.value
      ensures r.Ok? ==> forall i, j :: 0 <= i < j < |r.value| ==> r.value[i].key != r.value[j].key
    {
      if fails {
        return Err(QueryFailed);
      }
      var found := table.LiveWhere((m: CoinMarketData) => m.key.exchangeId == exchangeId);
      r := Ok(found);
    }

    /** Stamp, then find-or-create by the pair (a string condition; no unique index) and assign. */
    method Upsert(record: CoinMarketData, now: Time, fails: bool) returns (err: Option<DbError>)
      modifies table
      ensures old(table.Valid()) ==> table.Valid()
      ensures exists found: Option<MarketKey> ::
        && (found.Some? ==> found.value in old(table.rows))
        && LookupFinds(old(table.rows), record, false, found)
        && var r := AssignUpsertResult(old(table.Snap()), record, now, AssignMarketData, false, fails, found);
           (r.Ok? ==> err.None? && table.Snap() == r.value) && (r.Err? ==> err == Some(r.error) && table.Snap() == old(table.Snap()))
    {
      err := table.AssignUpsert(record, now, AssignMarketData, false, false, fails);
    }

    /** Skip invalid records, then one ON CONFLICT (coin_id, exchange_id) statement each in a transaction. */
    method UpsertBatch(records: seq<CoinMarketData>, faults: DbFaults) returns (err: Option<TxError<MarketKey>>)
      modifies table
      ensures old(table.Valid()) ==> table.Valid()
      ensures (err, table.Snap()) == UpsertBatchResult(old(table.Snap()), records, ValidMarketData, faults)
    {
      err := table.UpsertBatch(records, ValidMarketData, faults);
    }

    /** Where("coin_id = ?").Delete: a soft delete of the coin's rows. */
    method DeleteByCoinID(coinId: nat, now: Time, fails: bool) returns (err: Option<DbError>)
      modifies table
      ensures old(table.Valid()) ==> table.Valid()
      ensures fails ==> err == Some(QueryFailed) && table.rows == old(table.rows)
      ensures !fails ==> err.None? && table.rows == SoftDeleted(old(table.rows), m => OfCoin(m, coinId), now)
      ensures table.nextId == old(table.nextId)
    {
      err := table.SoftDeleteWhere(m => OfCoin(m, coinId), now, fails);
    }
  }
}
