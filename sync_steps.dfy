/**
 * What the synchronisation services share: the order of the effectful calls they make,
 * the errors they return, and the outcome of one run over a table.
 */
module SyncSteps {
  import opened Wrappers
  import opened Tables
  import Client

  /** One effectful call made by a service, in the order it is made: a read of a table, the health check, a request for data, a write. */
  datatype Step = Read | Health | Fetch | Store

  datatype SyncError =
    | HealthCheckFailed(health: Client.HealthError)   // "API health check failed: ..."
    | ReadFailed                                       // a GetAll that aborts the run
    | FetchFailed(fetch: Client.ClientError)           // "failed to fetch ...: ..."
    | NothingReceived                                  // "no ... received from API"
    | StoreFailed(store: TxError<string>)              // "failed to store ...: ..."

  /** The error a run returns, the table it leaves, and the calls it made. */
  datatype Run<D> = Run(err: Option<SyncError>, state: Snapshot<string, D>, steps: seq<Step>)

  /** The database's answers to the reads around a run and to its batch. */
  datatype ReadFaults = ReadFaults(beforeFails: bool, afterFails: bool)
}
