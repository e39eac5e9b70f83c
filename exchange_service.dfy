/** Fetching the exchange list and upserting it, with a read of the table before and after. */
module ExchangeSync {
  import opened Wrappers
  import opened Domain
  import opened Tables
  import opened SyncSteps
  import opened Client
  import opened ExchangeRepo

  /**
   * SyncExchanges: read, fetch, store, read. Unlike the category and platform syncs,
   * both reads abort the run, there is no health check, and an empty list is passed on
   * to the batch upsert.
   */
  function SyncResult(client: CoinGeckoClient, up: Upstream<seq<ExchangeResponse>>,
                      s: Snapshot<string, ExchangeData>, around: ReadFaults, batch: DbFaults): Run<ExchangeData>
  {
    if around.beforeFails then Run(Some(ReadFailed), s, [Read])
    else
      match ExchangesResult(client, up)
      case Err(e) => Run(Some(FetchFailed(e)), s, [Read, Fetch])
      case Ok(exchanges) =>
        var (stored, t) := UpsertBatchResult(s, exchanges, ValidExchange, batch);
        if stored.Some? then Run(Some(StoreFailed(stored.value)), t, [Read, Fetch, Store])
        else if around.afterFails then Run(Some(ReadFailed), t, [Read, Fetch, Store, Read])
        else Run(None, t, [Read, Fetch, Store, Read])
  }

  /**
   * A failed first read stops before the fetch; only a failed final read returns an
   * error with the table changed; an empty fetch succeeds and changes nothing; and a
   * stored exchange (the last valid one per id) carries the fetched fields.
   */
  lemma SyncMeaning(client: CoinGeckoClient, up: Upstream<seq<ExchangeResponse>>,
                    s: Snapshot<string, ExchangeData>, around: ReadFaults, batch: DbFaults)
    ensures var run := SyncResult(client, up, s, around, batch);
      (Fetch in run.steps <==> !around.beforeFails) &&
      (around.beforeFails ==> run == Run(Some(ReadFailed), s, [Read])) &&
      (run.state != s ==> (run.err.None? || run.err == Some(ReadFailed)) && Store in run.steps) &&
      (!around.beforeFails && ExchangesResult(client, up) == Ok([]) ==>
         run.state == s && (run.err.None? <==> !around.afterFails)) &&
      (run.err.None? ==>
         var exchanges := ExchangesResult(client, up).value;
         forall i :: (0 <= i < |exchanges| && ValidExchange(exchanges[i]) &&
                      forall j :: i < j < |exchanges| && ValidExchange(exchanges[j]) ==> exchanges[j].key != exchanges[i].key) ==>
           exchanges[i].key in run.state.rows && run.state.rows[exchanges[i].key].data == exchanges[i].data)
  {
    var run := SyncResult(client, up, s, around, batch);
    if run.err.None? {
      var exchanges := ExchangesResult(client, up).value;
      forall i | 0 <= i < |exchanges| && ValidExchange(exchanges[i]) &&
                 (forall j :: i < j < |exchanges| && ValidExchange(exchanges[j]) ==> exchanges[j].key != exchanges[i].key)
        ensures exchanges[i].key in run.state.rows && run.state.rows[exchanges[i].key].data == exchanges[i].data
      {
        UpsertBatchLastWins(s, exchanges, ValidExchange, batch, i);
      }
    }
  }

  class ExchangeService {
    const repo: ExchangeRepository
    const client: CoinGeckoClient

    constructor (repo: ExchangeRepository, client: CoinGeckoClient)
      ensures this.repo == repo && this.client == client
    {
      this.repo := repo;
      this.client := client;
    }

    method SyncExchanges(up: Upstream<seq<ExchangeResponse>>, around: ReadFaults, batch: DbFaults)
      returns (err: Option<SyncError>, steps: seq<Step>)
      requires repo.table.Valid()
      modifies repo.table
      ensures repo.table.Valid()
      ensures Run(err, repo.table.Snap(), steps) == SyncResult(client, up, old(repo.table.Snap()), around, batch)
    {
      var current := repo.GetAll(around.beforeFails);
      if current.Err? {
        return Some(ReadFailed), [Read];
      }
      var exchanges, _ := GetExchanges(client, up);
      if exchanges.Err? {
        return Some(FetchFailed(exchanges.error)), [Read, Fetch];
      }
      var stored := repo.UpsertBatch(exchanges.value, batch);
      if stored.Some? {
        return Some(StoreFailed(stored.value)), [Read, Fetch, Store];
      }
      var updated := repo.GetAll(around.afterFails);
      steps := [Read, Fetch, Store, Read];
      err := if updated.Err? then Some(ReadFailed) else None;
    }
  }
}
