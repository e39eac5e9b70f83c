/** The exchanges table, keyed by coingecko_id. */
module ExchangeRepo {
  import opened Wrappers
  import opened Domain
  import opened Tables

  /** An exchange without a CoinGecko id is skipped by UpsertBatch. */
  predicate ValidExchange(e: Exchange) { e.key != "" }

  /** The columns a found exchange takes from the Assign of a single Upsert. */
  function AssignExchangeData(stored: ExchangeData, incoming: ExchangeData): ExchangeData
  {
    ExchangeData(
      PickText(stored.name, incoming.name),
      Pick(stored.yearEstablished, incoming.yearEstablished),
      Pick(stored.country, incoming.country),
      Pick(stored.description, incoming.description),
      Pick(stored.url, incoming.url),
      Pick(stored.image, incoming.image),
      Pick(stored.hasTradingIncentive, incoming.hasTradingIncentive),
      Pick(stored.trustScore, incoming.trustScore),
      Pick(stored.trustScoreRank, incoming.trustScoreRank),
      Pick(stored.tradeVolume24hBtc, incoming.tradeVolume24hBtc),
      Pick(stored.tradeVolume24hBtcNormalized, incoming.tradeVolume24hBtcNormalized))
  }

  /**
   * On a coingecko_id conflict the stored exchange keeps its id and created_at, and
   * takes all eleven data columns, updated_at and deleted_at from the last exchange of
   * the batch with that id.
   */
  lemma ConflictOverwritesData(s: Snapshot<string, ExchangeData>, exchanges: seq<Exchange>, faults: DbFaults, i: nat)
    requires UpsertBatchResult(s, exchanges, ValidExchange, faults).0.None?
    requires i < |exchanges| && exchanges[i].key in s.rows && exchanges[i].key != ""
    requires forall j :: i < j < |exchanges| ==> exchanges[j].key != exchanges[i].key
    ensures var stored := s.rows[exchanges[i].key];
      var t := UpsertBatchResult(s, exchanges, ValidExchange, faults).1;
      exchanges[i].key in t.rows &&
      t.rows[exchanges[i].key] == exchanges[i].(id := stored.id, key := stored.key, createdAt := stored.createdAt)
  {
    UpsertBatchLastWins(s, exchanges, ValidExchange, faults, i);
    UpsertBatchKeepsOthers(s, exchanges, ValidExchange, faults, exchanges[i].key);
  }

  class ExchangeRepository {
    const table: KeyedTable<string, ExchangeData>

    constructor (table: KeyedTable<string, ExchangeData>)
      ensures this.table == table
    {
      this.table := table;
    }

    /** Find(&exchanges). */
    method GetAll(fails: bool) returns (r: Result<seq<Exchange>, DbError>)
      requires table.Valid()
      ensures fails <==> r.Err?
      ensures r.Ok? ==> forall i :: 0 <= i < |r.value| ==> r.value[i] in LiveRows(table.rows)
      ensures r.Ok? ==> forall k :: k in table.rows && table.rows[k].Live() ==> table.rows[k] in r.value
      ensures r.Ok? ==> forall i, j :: 0 <= i < j < |r.value| ==> r.value[i].key != r.value[j].key
    {
      r := table.All(fails);
    }

    /** Stamp, then find-or-create by coingecko_id (a struct condition) and assign. */
    method Upsert(exchange: Exchange, now: Time, fails: bool) returns (err: Option<DbError>)
      modifies table
      ensures old(table.Valid()) ==> table.Valid()
      ensures exists found: Option<string> ::
        && (found.Some? ==> found.value in old(table.rows))
        && LookupFinds(old(table.rows), exchange, exchange.key == "", found)
        && var r := AssignUpsertResult(old(table.Snap()), exchange, now, AssignExchangeData, true, fails, found);
           (r.Ok? ==> err.None? && table.Snap() == r.value) && (r.Err? ==> err == Some(r.error) && table.Snap() == old(table.Snap()))
    {
      err := table.AssignUpsert(exchange, now, AssignExchangeData, true, exchange.key == "", fails);
    }

    /** Skip exchanges without an id, then one ON CONFLICT (coingecko_id) statement each in a transaction. */
    method UpsertBatch(exchanges: seq<Exchange>, faults: DbFaults) returns (err: Option<TxError<string>>)
      modifies table
      ensures old(table.Valid()) ==> table.Valid()
      ensures (err, table.Snap()) == UpsertBatchResult(old(table.Snap()), exchanges, ValidExchange, faults)
    {
      err := table.UpsertBatch(exchanges, ValidExchange, faults);
    }
  }
}
