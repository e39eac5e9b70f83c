/** Fetching the category list and upserting it. */
module CategoryService {
  import opened Wrappers
  import opened Domain
  import opened Tables
  import opened SyncSteps
  import opened Client
  import opened CategoryRepo

  /**
   * FetchAndStoreCoinCategories: health check, fetch, refuse an empty list, store. Each
   * failure returns at once, so nothing after it happens.
   */
  function FetchAndStoreResult(client: CoinGeckoClient, ping: Upstream<()>, up: Upstream<seq<CategoryResponse>>,
                               s: Snapshot<string, CategoryData>, batch: DbFaults): Run<CategoryData>
  {
    match HealthCheck(client, ping)
    case Some(h) => Run(Some(HealthCheckFailed(h)), s, [Health])
    case None =>
      match CoinCategoriesResult(client, up)
      case Err(e) => Run(Some(FetchFailed(e)), s, [Health, Fetch])
      case Ok(categories) =>
        if |categories| == 0 then Run(Some(NothingReceived), s, [Health, Fetch])
        else
          var (stored, t) := UpsertBatchResult(s, categories, ValidCategory, batch);
          Run(if stored.Some? then Some(StoreFailed(stored.value)) else None, t, [Health, Fetch, Store])
  }

  /** SyncCoinCategories: read, fetch and store, read; the reads only log. */
  function SyncResult(client: CoinGeckoClient, ping: Upstream<()>, up: Upstream<seq<CategoryResponse>>,
                      s: Snapshot<string, CategoryData>, around: ReadFaults, batch: DbFaults): Run<CategoryData>
  {
    var run := FetchAndStoreResult(client, ping, up, s, batch);
    Run(run.err, run.state, [Read] + run.steps + (if run.err.None? then [Read] else []))
  }

  /**
   * The store happens only after a passing health check and a successful, non-empty
   * fetch; a failed health check stops before the fetch; every failure leaves the table
   * as it was; and on success every valid fetched category is stored, the last one per
   * id winning.
   */
  lemma FetchAndStoreMeaning(client: CoinGeckoClient, ping: Upstream<()>, up: Upstream<seq<CategoryResponse>>,
                             s: Snapshot<string, CategoryData>, batch: DbFaults)
    ensures var run := FetchAndStoreResult(client, ping, up, s, batch);
      (Store in run.steps <==>
        HealthCheck(client, ping).None? && CoinCategoriesResult(client, up).Ok? && |CoinCategoriesResult(client, up).value| > 0) &&
      (HealthCheck(client, ping).Some? ==> run.steps == [Health] && run.err == Some(HealthCheckFailed(HealthCheck(client, ping).value))) &&
      (HealthCheck(client, ping).None? && CoinCategoriesResult(client, up) == Ok([]) ==> run.err == Some(NothingReceived)) &&
      (run.err.Some? ==> run.state == s) &&
      (run.err.None? ==>
         Store in run.steps &&
         var categories := CoinCategoriesResult(client, up).value;
         forall i :: (0 <= i < |categories| && ValidCategory(categories[i]) &&
                      forall j :: i < j < |categories| && ValidCategory(categories[j]) ==> categories[j].key != categories[i].key) ==>
           categories[i].key in run.state.rows && run.state.rows[categories[i].key].data == categories[i].data)
  {
    var run := FetchAndStoreResult(client, ping, up, s, batch);
    if Store in run.steps {
      assert run.steps == [Health, Fetch, Store];
    }
    if run.err.None? {
      var categories := CoinCategoriesResult(client, up).value;
      forall i | 0 <= i < |categories| && ValidCategory(categories[i]) &&
                 (forall j :: i < j < |categories| && ValidCategory(categories[j]) ==> categories[j].key != categories[i].key)
        ensures categories[i].key in run.state.rows && run.state.rows[categories[i].key].data == categories[i].data
      {
        UpsertBatchLastWins(s, categories, ValidCategory, batch, i);
      }
    }
  }

  /** The reads around a sync only warn: their failures change neither the result nor the table. */
  lemma SyncIgnoresReadFailures(client: CoinGeckoClient, ping: Upstream<()>, up: Upstream<seq<CategoryResponse>>,
                                s: Snapshot<string, CategoryData>, around1: ReadFaults, around2: ReadFaults, batch: DbFaults)
    ensures SyncResult(client, ping, up, s, around1, batch) == SyncResult(client, ping, up, s, around2, batch)
    ensures SyncResult(client, ping, up, s, around1, batch).err == FetchAndStoreResult(client, ping, up, s, batch).err
  {
  }

  class CoinCategoryService {
    const repository: CategoryRepository
    const client: CoinGeckoClient

    constructor (repository: CategoryRepository, client: CoinGeckoClient)
      ensures this.repository == repository && this.client == client
    {
      this.repository := repository;
      this.client := client;
    }

    method FetchAndStoreCoinCategories(ping: Upstream<()>, up: Upstream<seq<CategoryResponse>>, batch: DbFaults)
      returns (err: Option<SyncError>, steps: seq<Step>)
      requires repository.table.Valid()
      modifies repository.table
      ensures repository.table.Valid()
      ensures Run(err, repository.table.Snap(), steps) == FetchAndStoreResult(client, ping, up, old(repository.table.Snap()), batch)
    {
      var health := HealthCheck(client, ping);
      if health.Some? {
        return Some(HealthCheckFailed(health.value)), [Health];
      }
      var categories, _ := GetCoinCategories(client, up);
      if categories.Err? {
        return Some(FetchFailed(categories.error)), [Health, Fetch];
      }
      if |categories.value| == 0 {
        return Some(NothingReceived), [Health, Fetch];
      }
      var stored := repository.UpsertBatch(categories.value, batch);
      steps := [Health, Fetch, Store];
      err := if stored.Some? then Some(StoreFailed(stored.value)) else None;
    }

    method SyncCoinCategories(ping: Upstream<()>, up: Upstream<seq<CategoryResponse>>, around: ReadFaults, batch: DbFaults)
      returns (err: Option<SyncError>, steps: seq<Step>)
      requires repository.table.Valid()
      modifies repository.table
      ensures repository.table.Valid()
      ensures Run(err, repository.table.Snap(), steps) == SyncResult(client, ping, up, old(repository.table.Snap()), around, batch)
    {
      var before := repository.GetAll(around.beforeFails);
      var inner;
      err, inner := FetchAndStoreCoinCategories(ping, up, batch);
      steps := [Read] + inner;
      if err.Some? {
        return;
      }
      var after := repository.GetAll(around.afterFails);
      steps := steps + [Read];
    }

    method GetAllCoinCategories(fails: bool) returns (r: Result<seq<CoinCategory>, DbError>)
      requires repository.table.Valid()
      ensures fails <==> r.Err?
      ensures r.Ok? ==> forall i :: 0 <= i < |r.value| ==> r.value[i] in LiveRows(repository.table.rows)
      ensures r.Ok? ==> forall k :: k in repository.table.rows && repository.table.rows[k].Live() ==>
        repository.table.rows[k] in r.value
      ensures r.Ok? ==> forall i, j :: 0 <= i < j < |r.value| ==> r.value[i].key != r.value[j].key
    {
      r := repository.GetAll(fails);
    }

    method GetCoinCategoryByID(id: nat, fails: bool) returns (r: Result<CoinCategory, DbError>)
      ensures fails ==> r == Err(QueryFailed)
      ensures !fails ==> (r.Err? <==> forall k :: k in repository.table.rows ==>
        !(repository.table.rows[k].Live() && repository.table.rows[k].id == id))
      ensures r.Ok? ==> r.value in LiveRows(repository.table.rows) && r.value.id == id
    {
      r := repository.GetByID(id, fails);
    }

    method GetCoinCategoryByCoingeckoID(coingeckoId: string, fails: bool) returns (r: Result<CoinCategory, DbError>)
      ensures fails ==> r == Err(QueryFailed)
      ensures !fails ==> (r.Err? <==> !(coingeckoId in repository.table.rows && repository.table.rows[coingeckoId].Live()))
      ensures r.Ok? ==> r.value == repository.table.rows[coingeckoId]
    {
      r := repository.GetByCoingeckoID(coingeckoId, fails);
    }
  }
}
