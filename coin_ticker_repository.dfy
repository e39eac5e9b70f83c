/** The coin_tickers table: one raw tickers page per (coin_id, page) pair. */
module TickerRepo {
  import opened Wrappers
  import opened Domain
  import opened Tables

  /** The columns a found page takes from the Assign of a single Upsert. */
  function AssignTickerData(stored: TickerData, incoming: TickerData): TickerData
  {
    TickerData(PickText(stored.rawJson, incoming.rawJson))
  }

  /**
   * Upserting a page stores it under its (coin_id, page) pair: the pair holds one live
   * row with the page's document, whether it is new, stored or soft-deleted (the table
   * has no unique index, so a dead row is simply replaced), and the upsert fails only
   * when the database does or when the page carries an id that another row holds. A page
   * whose id is not that of its pair's live row is, in the database, a second row for the
   * pair; this one-row-per-pair table records it as replacing the row.
   */
  lemma UpsertReplacesPage(s: Snapshot<TickerKey, TickerData>, ticker: CoinTicker, now: Time, fails: bool, found: Option<TickerKey>)
    requires now != ZeroTime && KeysMatch(s.rows)
    requires ticker.data.rawJson != "" && ticker.deletedAt.None?
    requires LookupFinds(s.rows, ticker, false, found)
    ensures var r := AssignUpsertResult(s, ticker, now, AssignTickerData, false, fails, found);
      (r.Ok? <==> !fails && !IdTaken(s.rows, ticker.id, found)) &&
      (r.Ok? ==>
        r.value.rows.Keys == s.rows.Keys + {ticker.key} &&
        r.value.rows[ticker.key].Live() &&
        r.value.rows[ticker.key].data == ticker.data)
  {
    AssignUpsertMeaning(s, ticker, now, AssignTickerData, false, fails, found);
  }

  class TickerRepository {
    const table: KeyedTable<TickerKey, TickerData>

    constructor (table: KeyedTable<TickerKey, TickerData>)
      ensures this.table == table
    {
      this.table := table;
    }

    /** Stamp, then find-or-create by (coin_id, page) (a string condition) and assign. */
    method Upsert(ticker: CoinTicker, now: Time, fails: bool) returns (err: Option<DbError>)
      modifies table
      ensures old(table.Valid()) ==> table.Valid()
      ensures exists found: Option<TickerKey> ::
        && (found.Some? ==> found.value in old(table.rows))
        && LookupFinds(old(table.rows), ticker, false, found)
        && var r := AssignUpsertResult(old(table.Snap()), ticker, now, AssignTickerData, false, fails, found);
           (r.Ok? ==> err.None? && table.Snap() == r.value) && (r.Err? ==> err == Some(r.error) && table.Snap() == old(table.Snap()))
    {
      err := table.AssignUpsert(ticker, now, AssignTickerData, false, false, fails);
    }
  }
}
