/** Fetching the asset-platform list and saving it. */
module PlatformService {
  import opened Wrappers
  import opened Domain
  import opened Tables
  import opened SyncSteps
  import opened Client
  import opened PlatformRepo

  /**
   * FetchAndStoreAssetPlatforms: health check, fetch, refuse an empty list, save every
   * platform. Each failure returns at once, so nothing after it happens.
   */
  function FetchAndStoreResult(client: CoinGeckoClient, ping: Upstream<()>, up: Upstream<seq<PlatformResponse>>,
                               s: Snapshot<string, PlatformData>, now: Time, batch: DbFaults): Run<PlatformData>
  {
    match HealthCheck(client, ping)
    case Some(h) => Run(Some(HealthCheckFailed(h)), s, [Health])
    case None =>
      match AssetPlatformsResult(client, up)
      case Err(e) => Run(Some(FetchFailed(e)), s, [Health, Fetch])
      case Ok(platforms) =>
        if |platforms| == 0 then Run(Some(NothingReceived), s, [Health, Fetch])
        else
          var (stored, t) := PlatformBatchResult(s, platforms, now, batch);
          Run(if stored.Some? then Some(StoreFailed(stored.value)) else None, t, [Health, Fetch, Store])
  }

  /** SyncAssetPlatforms: read, fetch and store, read; the reads only log. */
  function SyncResult(client: CoinGeckoClient, ping: Upstream<()>, up: Upstream<seq<PlatformResponse>>,
                      s: Snapshot<string, PlatformData>, now: Time, around: ReadFaults, batch: DbFaults): Run<PlatformData>
  {
    var run := FetchAndStoreResult(client, ping, up, s, now, batch);
    Run(run.err, run.state, [Read] + run.steps + (if run.err.None? then [Read] else []))
  }

  /**
   * The save happens only after a passing health check and a successful, non-empty
   * fetch; a failed health check stops before the fetch; every failure leaves the table
   * as it was; and on success every fetched platform is stored, the last one per id winning.
   */
  lemma FetchAndStoreMeaning(client: CoinGeckoClient, ping: Upstream<()>, up: Upstream<seq<PlatformResponse>>,
                             s: Snapshot<string, PlatformData>, now: Time, batch: DbFaults)
    ensures var run := FetchAndStoreResult(client, ping, up, s, now, batch);
      (Store in run.steps <==>
        HealthCheck(client, ping).None? && AssetPlatformsResult(client, up).Ok? && |AssetPlatformsResult(client, up).value| > 0) &&
      (HealthCheck(client, ping).Some? ==> run.steps == [Health] && run.err == Some(HealthCheckFailed(HealthCheck(client, ping).value))) &&
      (HealthCheck(client, ping).None? && AssetPlatformsResult(client, up) == Ok([]) ==> run.err == Some(NothingReceived)) &&
      (run.err.Some? ==> run.state == s) &&
      (run.err.None? ==>
         Store in run.steps &&
         var platforms := AssetPlatformsResult(client, up).value;
         forall i :: (0 <= i < |platforms| && forall j :: i < j < |platforms| ==> platforms[j].key != platforms[i].key) ==>
           platforms[i].key in run.state.rows && run.state.rows[platforms[i].key].data == platforms[i].data)
  {
    var run := FetchAndStoreResult(client, ping, up, s, now, batch);
    if run.err.None? {
      var platforms := AssetPlatformsResult(client, up).value;
      assert run.state == PlatformBatchResult(s, platforms, now, batch).1;
      forall i | 0 <= i < |platforms| && (forall j :: i < j < |platforms| ==> platforms[j].key != platforms[i].key)
        ensures platforms[i].key in run.state.rows && run.state.rows[platforms[i].key].data == platforms[i].data
      {
        PlatformBatchMeaning(s, platforms, now, batch, i);
      }
    }
  }

  /** The reads around a sync only warn: their failures change neither the result nor the table. */
  lemma SyncIgnoresReadFailures(client: CoinGeckoClient, ping: Upstream<()>, up: Upstream<seq<PlatformResponse>>,
                                s: Snapshot<string, PlatformData>, now: Time, around1: ReadFaults, around2: ReadFaults, batch: DbFaults)
    ensures SyncResult(client, ping, up, s, now, around1, batch) == SyncResult(client, ping, up, s, now, around2, batch)
    ensures SyncResult(client, ping, up, s, now, around1, batch).err == FetchAndStoreResult(client, ping, up, s, now, batch).err
  {
  }

  class AssetPlatformService {
    const repository: PlatformRepository
    const client: CoinGeckoClient

    constructor (repository: PlatformRepository, client: CoinGeckoClient)
      ensures this.repository == repository && this.client == client
    {
      this.repository := repository;
      this.client := client;
    }

    method FetchAndStoreAssetPlatforms(ping: Upstream<()>, up: Upstream<seq<PlatformResponse>>, now: Time, batch: DbFaults)
      returns (err: Option<SyncError>, steps: seq<Step>)
      requires repository.table.Valid()
      modifies repository.table
      ensures repository.table.Valid()
      ensures Run(err, repository.table.Snap(), steps) == FetchAndStoreResult(client, ping, up, old(repository.table.Snap()), now, batch)
    {
      var health := HealthCheck(client, ping);
      if health.Some? {
        return Some(HealthCheckFailed(health.value)), [Health];
      }
      var platforms, _ := GetAssetPlatforms(client, up);
      if platforms.Err? {
        return Some(FetchFailed(platforms.error)), [Health, Fetch];
      }
      if |platforms.value| == 0 {
        return Some(NothingReceived), [Health, Fetch];
      }
      var stored := repository.UpsertBatch(platforms.value, now, batch);
      steps := [Health, Fetch, Store];
      err := if stored.Some? then Some(StoreFailed(stored.value)) else None;
    }

    method SyncAssetPlatforms(ping: Upstream<()>, up: Upstream<seq<PlatformResponse>>, now: Time, around: ReadFaults, batch: DbFaults)
      returns (err: Option<SyncError>, steps: seq<Step>)
      requires repository.table.Valid()
      modifies repository.table
      ensures repository.table.Valid()
      ensures Run(err, repository.table.Snap(), steps) == SyncResult(client, ping, up, old(repository.table.Snap()), now, around, batch)
    {
      var before := repository.GetAll(around.beforeFails);
      var inner;
      err, inner := FetchAndStoreAssetPlatforms(ping, up, now, batch);
      steps := [Read] + inner;
      if err.Some? {
        return;
      }
      var after := repository.GetAll(around.afterFails);
      steps := steps + [Read];
    }

    method GetAllAssetPlatforms(fails: bool) returns (r: Result<seq<AssetPlatform>, DbError>)
      requires repository.table.Valid()
      ensures fails <==> r.Err?
      ensures r.Ok? ==> forall i :: 0 <= i < |r.value| ==> r.value[i] in LiveRows(repository.table.rows)
      ensures r.Ok? ==> forall k :: k in repository.table.rows && repository.table.rows[k].Live() ==>
        repository.table.rows[k] in r.value
      ensures r.Ok? ==> forall i, j :: 0 <= i < j < |r.value| ==> r.value[i].key != r.value[j].key
    {
      r := repository.GetAll(fails);
    }

    method GetAssetPlatformByID(id: string, fails: bool) returns (r: Result<AssetPlatform, DbError>)
      ensures fails ==> r == Err(QueryFailed)
      ensures !fails ==> (r.Err? <==> !(id in repository.table.rows && repository.table.rows[id].Live()))
      ensures r.Ok? ==> r.value == repository.table.rows[id]
    {
      r := repository.GetByID(id, fails);
    }
  }
}
