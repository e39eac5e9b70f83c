# cgoffline in Dafny

cgoffline is a small sequential ETL job. It pulls reference data and market listings
from the CoinGecko REST API and upserts them into PostgreSQL tables through gorm. This
project models the job's core and proves what the code promises about it:

- **The CoinGecko client** (`Client`):
  - the fixed retry loop that every `Get*` method runs;
  - the difference between the list endpoints and the two document endpoints, which give
    up at once when a request cannot be built;
  - the URL each call requests;
  - the conversions from API records to domain records, including the filter in
    `fetchCoinMarketData`;
  - the single-shot health check.
- **The repositories** (`Tables`, plus one module per table):
  - each table is a `KeyedTable` class whose `rows: map<Key, Row>` the methods update in
    place; a row carries its surrogate id, its natural key, a payload, `created_at`,
    `updated_at` and a soft-delete `deleted_at`;
  - `UpsertBatch` drops the records with an invalid key. It then runs one
    `INSERT … ON CONFLICT (key) DO UPDATE` per record inside one transaction, and on any
    failure the transaction rolls back to the rows seen at BEGIN;
  - the single-record `Upsert` finds the row, creates it if missing, and assigns the
    record's non-zero columns;
  - the platform and category writes go through gorm's `Save` and `CreateInBatches`;
  - lookups and soft deletes.
- **The sync services** (`CategoryService`, `PlatformService`, `ExchangeSync`, `CoinSync`):
  - short sequences of health check, fetch, empty check, store and the reads around them,
    each differing in which failures abort and which only warn;
  - the `SyncCoins` page loop;
  - `SyncCoinsData`: the volume filter, then per coin a detail fetch and a ticker page loop
    that tolerate failure.
- **Configuration** (`Config`, `Decimal`):
  - environment lookups with defaults;
  - `strconv.Atoi` and `%d` on 64-bit integers;
  - the DSN string.

Every call to the outside world is a parameter of the model:

- **HTTP.** An `Upstream<T>` maps a URL and an attempt number to that attempt's reply:
  - the request could not be built;
  - the transport failed;
  - an answer came back with a status and a body that either decodes or does not.
- **Database failures** are data:
  - `DbFaults` names the statements of a transaction that the database refuses, and says
    whether COMMIT fails;
  - a single query takes a `fails` flag;
  - `ReadFaults` says which of the count reads around a sync fail.
- **Clock.** The current time is a parameter `now`.
- **Oracle functions.** The long-running loops in `CoinSync` are specified against ghost
  functions (`Pager`, `Storer`, `Documents`, `TickerDocuments`, `TickerWriter`). Each
  method's `requires` ties these to the client and repository functions they stand for.

Modules: `Wrappers` (Option/Result), `Seqs` (the order-keeping filter), `Decimal`,
`Config`, `Domain` (records), `Client`, `Tables`, `CoinRepo`, `ExchangeRepo`,
`CategoryRepo`, `MarketDataRepo`, `PlatformRepo`, `DetailRepo`, `TickerRepo`, `SyncSteps`
(the effect log shared by the services), `CategoryService`, `PlatformService`,
`ExchangeSync`, `CoinSync`.

`CoinMarketDataRepository.DeleteByCoinID` is a soft delete: `CoinMarketData` embeds
`gorm.DeletedAt`, so gorm's `Delete` sets `deleted_at`.

## Model

| member | source | states |
|---|---|---|
| Decimal.DigitChar | pkg/config/config.go:80-88 | the character printed for a digit is a digit whose value is that digit |
| Decimal.NatDigits | pkg/config/config.go:80-88 | `%d` of a natural number is a non-empty run of digits with no leading zero |
| Decimal.Itoa | pkg/config/config.go:80-88 | `%d` output is never empty and begins with `-` exactly when the number is negative |
| Decimal.Atoi | pkg/config/config.go:102 | strconv.Atoi accepts exactly the optional-sign-then-digits texts whose value fits 64 bits, and then returns that value |
| Decimal.NatDigitsValue | pkg/config/config.go:80-88 | reading the printed digits back gives the number |
| Decimal.ParseItoa | pkg/config/config.go:80-88 | parsing what `%d` prints gives back the number |
| Decimal.AtoiItoa | pkg/config/config.go:80-88 | strconv.Atoi of `%d` of a 64-bit integer is that integer |
| Decimal.ItoaInjective | pkg/config/config.go:80-88 | distinct integers print differently |
| Config.GetEnv | pkg/config/config.go:92-97 | the variable's value when it is set and non-empty, the default when it is unset or empty |
| Config.GetEnvAsInt | pkg/config/config.go:100-107 | the parsed value when strconv.Atoi accepts the variable, the default when it is unset, empty or unparsable |
| Config.GetEnvAsDuration | pkg/config/config.go:110-117 | the parsed duration when the parser accepts the set, non-empty variable, otherwise the default |
| Config.DefaultsWhenUnset | pkg/config/config.go:50-76 | with an empty environment every setting takes its default: DB port 5432, 3 retry attempts, the public CoinGecko v3 URL, server port 8080, and so on |
| Config.EnvIntRoundTrip | pkg/config/config.go:100-107 | setting an integer variable to the decimal text of a 64-bit value makes getEnvAsInt return that value |
| Config.DsnIsJoinedPairs | pkg/config/config.go:79-89 | the DSN is the `key=value` pairs host, port, user, password, dbname, sslmode, TimeZone in that order, joined by single spaces |
| Config.JoinStep | pkg/config/config.go:79-89 | joining one more pair appends a space, the key, `=` and the value |
| Config.DsnPortRoundTrip | pkg/config/config.go:80-82 | the port field of the DSN parses back to the configured port |
| Seqs.Filter | internal/repository/coin_repository.go:74-81 | the append-loop filter keeps exactly the elements that pass, and nothing else |
| Seqs.FilterAppend | internal/repository/coin_repository.go:74-81 | filtering distributes over concatenation, so the kept elements keep their relative order |
| Seqs.FilterAll | internal/repository/coin_repository.go:74-81 | the filter changes nothing exactly when every element passes |
| Client.Fetch | internal/service/coingecko_client.go:175-188 | an attempt succeeds exactly when the answer has status 200 and a body that decodes; any other status becomes a status error |
| Client.NewCoinGeckoClient | internal/service/coingecko_client.go:25-34 | the client takes its base URL, retry count and retry delay from the API configuration |
| Client.CoinsUrlDistinguishesPages | internal/service/coingecko_client.go:371-372 | different page numbers give different coin-listing URLs |
| Client.TickersUrlDistinguishesPages | internal/service/coingecko_client.go:568 | different page numbers give different ticker URLs |
| Client.RetryFrom | internal/service/coingecko_client.go:135-152 | the loop makes at most retryCount + 1 attempts, retries only retryable failures, stops at the first success, and when exhausted reports the last attempt's error |
| Client.RetryTrace | internal/service/coingecko_client.go:135-139 | n attempts emit request 0, then a sleep of retryDelay before each later request: 2n - 1 events, none before the first attempt |
| Client.RetryTraceNext | internal/service/coingecko_client.go:135-139 | one more attempt appends a sleep, except before the first attempt, and then the request |
| Client.RetryLoop | internal/service/coingecko_client.go:132-152 | the imperative `for attempt` loop returns the result of the retry specification and emits its request/sleep trace |
| Client.FailedAttemptIsRetried | internal/service/coingecko_client.go:141-146 | a retryable failure before the last allowed attempt is always followed by another attempt, whatever kind of failure it was (status, read or decode) |
| Client.PlatformOf | internal/service/coingecko_client.go:191-200 | a platform is an unsaved row keyed by the API id carrying every API field: name, chain identifier, short name and native coin id |
| Client.CategoryOf | internal/service/coingecko_client.go:271-280 | a category is an unsaved row keyed by the API `category_id`, which becomes its coingecko_id, with the API name |
| Client.ExchangeOf | internal/service/coingecko_client.go:348-363 | an exchange is an unsaved row keyed by the API id carrying every API field |
| Client.CoinOf | internal/service/coingecko_client.go:440-469 | a coin is an unsaved row keyed by the API id carrying every API field |
| Client.MarketDataOf | internal/service/coingecko_client.go:683-698 | a ticker becomes market data with the ticker's last price, its volume and its trade time, and no coin or exchange id |
| Client.FillByIndex | internal/service/coingecko_client.go:191-200 | filling the preallocated slice index by index yields the entry-by-entry conversion: same length, same order |
| Client.CollectPriced | internal/service/coingecko_client.go:683-698 | the append loop yields exactly the conversions of the tickers that have a last price, in order |
| Client.PricedMarketDataMeaning | internal/service/coingecko_client.go:683-698 | the result is never longer than the tickers, every entry has a price, and it is as long exactly when every ticker has a price |
| Client.PricedMarketDataAppend | internal/service/coingecko_client.go:683-698 | the filter keeps the tickers' order |
| Client.ListResult | internal/service/coingecko_client.go:149-155 | a list call succeeds with the converted records of the successful attempt, or with no records when no attempt was made, and fails otherwise |
| Client.ListFrom | internal/service/coingecko_client.go:149-155 | the list epilogue returns that result |
| Client.DocumentResult | internal/service/coingecko_client.go:528-562 | a document call succeeds exactly when an attempt did; an unbuildable request is reported as such |
| Client.GetAssetPlatforms | internal/service/coingecko_client.go:126-156 | the platform listing is the retried fetch of `<base>/asset_platforms`, converted |
| Client.GetCoinCategories | internal/service/coingecko_client.go:206-236 | the category listing is the retried fetch of `<base>/coins/categories/list`, converted |
| Client.GetExchanges | internal/service/coingecko_client.go:283-313 | the exchange listing is the retried fetch of `<base>/exchanges`, converted |
| Client.GetCoins | internal/service/coingecko_client.go:370-405 | a page of coins is the retried fetch of the markets URL for that page and page size, converted |
| Client.GetCoinMarketData | internal/service/coingecko_client.go:475-508 | a coin's market data is the retried fetch of its tickers, keeping only priced tickers |
| Client.GetCoinDataByID | internal/service/coingecko_client.go:511-563 | a coin document is the retried fetch of `<base>/coins/<id>`, which gives up at once when the request cannot be built |
| Client.GetCoinTickers | internal/service/coingecko_client.go:567-620 | a ticker page is the retried fetch of `<base>/coins/<id>/tickers?page=<n>`, which gives up at once when the request cannot be built |
| Client.NoAttemptListsNothing | internal/service/coingecko_client.go:381-404 | with a negative retry count a listing makes no request and returns no records and no error |
| Client.NoAttemptDocumentFails | internal/service/coingecko_client.go:519-562 | with a negative retry count a document call makes no request and fails with no underlying error |
| Client.CoinsResultMeaning | internal/service/coingecko_client.go:384-404 | a listing fails only after retryCount + 1 failed attempts, naming the last attempt's error; on success it returns the first decoded answer, converted |
| Client.CoinDataResultMeaning | internal/service/coingecko_client.go:522-562 | a request-construction failure ends the loop at the attempt where it happens, after no earlier one; a success is the last attempt's decoded answer |
| Client.HealthCheck | internal/service/coingecko_client.go:704-723 | one GET of `/ping` with no retry; healthy exactly when the status is 200, and a different status is reported |
| Tables.OnConflictUpdate | internal/repository/coin_repository.go:102-129 | on conflict the stored row keeps its id, key and created_at and takes everything else from the incoming record |
| Tables.UpsertedAllKeys | internal/repository/coin_repository.go:89-140 | after the statements, the keys present are the stored ones plus the records' keys |
| Tables.UpsertedAllDrawsIds | internal/repository/coin_repository.go:92-130 | every INSERT … ON CONFLICT draws one sequence value, conflicting or not (the column list leaves id to its serial default), and a row it creates takes an id below the counter it leaves |
| Tables.UpsertedAllUntouched | internal/repository/coin_repository.go:89-140 | a stored row whose key no record carries is unchanged |
| Tables.UpsertedAllLastWins | internal/repository/coin_repository.go:89-140 | the row under a key carries the payload, updated_at and deleted_at of the last record with that key |
| Tables.UpsertedAllKeepsIdentity | internal/repository/coin_repository.go:102-129 | a row that existed keeps its id, key and created_at |
| Tables.UpsertedAllFirstCreates | internal/repository/coin_repository.go:102-129 | a new key gets created_at from the first record carrying it |
| Tables.UpsertedAllKeysAbsent | internal/repository/coin_repository.go:89-140 | a key neither stored nor in the batch stays absent |
| Tables.Exec | internal/repository/coin_repository.go:89-143 | the statement loop stops at the first refused record, and only at a refused one |
| Tables.ExecOnConflict | internal/repository/coin_repository.go:102-140 | ON CONFLICT statements never refuse by themselves: the loop completes exactly when the database refuses none, and then equals upserting every record in order |
| Tables.RunTx | internal/repository/coin_repository.go:89-143 | a transaction either commits every statement or leaves the rows as they were; a statement failure names a record no earlier one of which was refused |
| Tables.UpsertBatchMeaning | internal/repository/coin_repository.go:68-144 | empty or all-invalid input succeeds without touching the table; otherwise success exactly when no valid record is refused and COMMIT succeeds, giving the valid records upserted in order; any failure leaves the rows unchanged and names the first refused valid record |
| Tables.UpsertedAllRowSource | internal/repository/coin_repository.go:89-140 | every row is either as it was or carries the payload and flags of a record with its key |
| Tables.UpsertedFilteredStep | internal/repository/coin_repository.go:74-140 | upserting the valid records of a batch plus one is upserting those of the batch, then the new record if it is valid |
| Tables.UpsertedFilteredLastWins | internal/repository/coin_repository.go:74-140 | among the valid records, the last with a key decides that key's payload and flags |
| Tables.UpsertBatchLastWins | internal/repository/coin_repository.go:68-144 | after a successful batch, the last valid record with a key decides its row's payload, updated_at and deleted_at |
| Tables.UpsertBatchKeepsOthers | internal/repository/coin_repository.go:68-144 | whatever the outcome, a stored row keeps its id, key and created_at, and a key no valid record carries keeps its row or stays absent |
| Tables.UpsertBatchRowSource | internal/repository/coin_repository.go:68-144 | after a batch every row is as it was or carries the payload and flags of a valid record with its key |
| Tables.CreateStamped | internal/repository/asset_platform_repository.go:34-46 | an insert sets a zero created_at or updated_at to now and changes nothing else |
| Tables.RepoStamped | internal/repository/coin_repository.go:53-57 | the single Upsert sets created_at to now only when it is zero, always sets updated_at to now, and changes nothing else |
| Tables.AssignUpsertResult | internal/repository/coin_repository.go:51-65 | a successful find-or-create never lowers the id counter |
| Tables.AssignUpsertMeaning | internal/repository/coin_repository.go:51-65 | an Upsert fails only when the query does, when the record's non-zero id belongs to another row (a primary-key violation), or when a uniquely indexed key is held by a row the lookup skips (soft-deleted, or with an id other than the record's non-zero id); otherwise exactly one row is under the key, live unless the record is deleted, keeping the record's id if it has one, with created_at defaulted, updated_at = now, and no other row changed |
| Tables.ForeignIdRefused | internal/repository/coin_repository.go:58-61 | a record whose non-zero id differs from the id of the live row holding its uniquely indexed key is not found by the lookup, and its insert is refused |
| Tables.AssignUpsertTwiceSameKeys | internal/repository/coin_repository.go:51-65 | upserting the same live record twice succeeds and replaces rather than duplicates: no new key and no new id |
| Tables.EmptyKeyUpdatesFirstRow | internal/repository/coin_repository.go:58-61 | with an empty key the lookup matches any row with the record's id (any row at all for a record without one), and finds one exactly when such a live row exists; the record's columns then land on the smallest-id such row (the row with the record's id) and nothing is created; the only refusal is a record id that another row holds |
| Tables.CreatedAllKeys | internal/repository/coin_category_repository.go:34-46 | after CreateInBatches the keys are the stored ones plus the records' keys |
| Tables.InsertableMeaning | internal/repository/coin_category_repository.go:34-46 | a batch inserts cleanly exactly when its keys are new and pairwise distinct and every explicit id is free when its record is inserted |
| Tables.CreateBatchResult | internal/repository/coin_category_repository.go:34-46 | an empty batch is a no-op success; otherwise it succeeds exactly when the query does, the keys are new and distinct and no explicit id is taken, and a failure leaves the rows unchanged |
| Tables.SavedByKey | internal/repository/asset_platform_repository.go:90-96 | Save by primary key fails only for a second empty key; otherwise it adds or overwrites exactly the record's key with its payload and deleted_at and leaves the other rows alone |
| Tables.SavedByKeyTimestamps | internal/repository/asset_platform_repository.go:90-96 | Save sets updated_at to now and writes the record's created_at, except that reviving a deleted row keeps its created_at and a fresh row with none gets now |
| Tables.ExecSaveLastWins | internal/repository/asset_platform_repository.go:104-112 | a committed Save loop stores every record, the last record per key deciding payload and deleted_at, with no key filter |
| Tables.ExecSaveRefusal | internal/repository/asset_platform_repository.go:104-112 | a Save loop stops only at a record the database refuses or a repeated empty id |
| Tables.ExecSaveKeys | internal/repository/asset_platform_repository.go:104-112 | after a committed Save loop the keys are the stored ones plus the records' keys |
| Tables.SoftDeleteHidesExactly | internal/repository/coin_market_data_repository.go:134-139 | a soft delete keeps every key, hides exactly the matching live rows and leaves the others unchanged |
| Tables.SelectValid | internal/repository/coin_repository.go:74-81 | the append loop keeps exactly the valid records, in order |
| Tables.NotInsertableExtends | internal/repository/coin_category_repository.go:39 | a key or id collision in a prefix of the batch fails the whole batch |
| Tables.ExecKeepsKeys | internal/repository/coin_repository.go:89-143 | statements that file each row under its own key keep every row of the table under its own key |
| Tables.ExecStopsAtFailure | internal/repository/coin_repository.go:134-139 | after the first refusal no later statement runs |
| Tables.KeyedTable.RunTransaction | internal/repository/coin_repository.go:89-143 | the transaction loop ends in the state and error of the transaction specification: all statements or none; statements that file rows under their own keys keep the table valid |
| Tables.KeyedTable.UpsertBatch | internal/repository/coin_repository.go:68-144 | the filter, then the transaction, ends in the batch-upsert specification's state and error, and the table stays valid (every row under its own key) |
| Tables.KeyedTable.AssignUpsert | internal/repository/coin_repository.go:51-65 | stamp, look up (any row when the condition is empty; only the row with the record's id when it has one), then assign or insert, as the find-or-create specification says, refusing a record whose id another row holds; the table stays valid |
| Tables.KeyedTable.Lookup | internal/repository/coin_repository.go:58-61 | the lookup finds the live row under the record's key, or the smallest-id live row when the condition is empty, and only one that carries the record's non-zero id |
| Tables.KeyedTable.CreateBatch | internal/repository/coin_category_repository.go:34-46 | the insert loop ends in the create-batch specification's state: all or nothing, a taken key or explicit id rolling everything back; the table stays valid |
| Tables.KeyedTable.All | internal/repository/coin_repository.go:30-36 | Find returns every live row once and only live rows (no two results share a key), or the query error |
| Tables.KeyedTable.LiveWhere | internal/repository/coin_market_data_repository.go:41-47 | Where(condition).Find returns exactly the live rows satisfying the condition, each once |
| Tables.KeyedTable.FindLive | internal/repository/coin_repository.go:39-48 | a keyed lookup finds the live row with the key, or nothing when there is none |
| Tables.KeyedTable.FirstLiveKey | internal/repository/coin_category_repository.go:49-59 | First picks the matching live row with the smallest id, and none only when no live row matches |
| Tables.KeyedTable.FirstLiveWhere | internal/repository/coin_category_repository.go:49-59 | Where(condition).First returns the matching live row with the smallest id, or nothing, or the query error |
| Tables.KeyedTable.IdOwner | internal/repository/coin_category_repository.go:103-109 | finds the row holding a surrogate id, or none when no row does |
| Tables.KeyedTable.IdClash | internal/repository/coin_category_repository.go:25-31 | says whether a row other than the one found already holds the record's non-zero id, the primary-key check every insert and assignment makes |
| Tables.KeyedTable.SoftDeleteWhere | internal/repository/coin_market_data_repository.go:134-139 | a failed delete changes nothing; otherwise deleted_at is set on exactly the matching live rows; the table stays valid |
| Tables.KeyedTable.Execute | internal/repository/asset_platform_repository.go:90-96 | one statement outside a transaction: applied on success, nothing changed on failure |
| CoinRepo.EmptyIdNeverStored | internal/repository/coin_repository.go:74-81 | a coin with an empty CoinGecko id is never written by UpsertBatch: a `""` row is neither created nor changed |
| CoinRepo.CoinRepository.constructor | internal/repository/coin_repository.go:25-27 | the repository wraps the given table |
| CoinRepo.CoinRepository.GetAll | internal/repository/coin_repository.go:30-36 | every live coin once and only live coins (no two share a key), or the query error |
| CoinRepo.CoinRepository.GetByCoingeckoID | internal/repository/coin_repository.go:39-48 | the live coin with the id, or nothing and no error when there is none |
| CoinRepo.CoinRepository.Upsert | internal/repository/coin_repository.go:51-65 | find-or-create by coingecko_id and, when non-zero, the record's id, with defaulted created_at and refreshed updated_at, assigning the non-zero columns |
| CoinRepo.CoinRepository.UpsertBatch | internal/repository/coin_repository.go:68-144 | the batch-upsert specification with the non-empty-id filter and the coins' ON CONFLICT column set |
| ExchangeRepo.ConflictOverwritesData | internal/repository/exchange_repository.go:86-100 | on conflict the stored exchange keeps its id, coingecko_id and created_at and takes every data column, updated_at and deleted_at from the last record with that id |
| ExchangeRepo.ExchangeRepository.constructor | internal/repository/exchange_repository.go:24-26 | the repository wraps the given table |
| ExchangeRepo.ExchangeRepository.GetAll | internal/repository/exchange_repository.go:29-35 | every live exchange once and only live exchanges (no two share a key), or the query error |
| ExchangeRepo.ExchangeRepository.Upsert | internal/repository/exchange_repository.go:38-52 | find-or-create by coingecko_id and, when non-zero, the record's id, with defaulted created_at and refreshed updated_at |
| ExchangeRepo.ExchangeRepository.UpsertBatch | internal/repository/exchange_repository.go:55-113 | the batch-upsert specification with the non-empty-id filter |
| CategoryRepo.SavedById | internal/repository/coin_category_repository.go:103-109 | a successful Save puts the category's name under its coingecko_id and changes no row other than that one and the row holding its id |
| CategoryRepo.SaveByIdMeaning | internal/repository/coin_category_repository.go:103-109 | Save of a category with an id succeeds exactly when its coingecko_id is free or already belongs to that id; the row then moves to the new coingecko_id with updated_at = now, a deleted row keeps its created_at, and no other row changes |
| CategoryRepo.SaveNewCategory | internal/repository/coin_category_repository.go:103-109 | Save of a category without an id creates a row with a fresh id, only under a coingecko_id no row holds |
| CategoryRepo.CategoryRepository.constructor | internal/repository/coin_category_repository.go:18-22 | the repository wraps the given table |
| CategoryRepo.CategoryRepository.Create | internal/repository/coin_category_repository.go:25-31 | one insert, refused when the coingecko_id or an explicit id is taken |
| CategoryRepo.CategoryRepository.CreateBatch | internal/repository/coin_category_repository.go:34-46 | an empty batch is a no-op; otherwise all categories are inserted or none |
| CategoryRepo.CategoryRepository.GetByID | internal/repository/coin_category_repository.go:49-59 | the live category with the id, and a not-found error, not nil, when there is none |
| CategoryRepo.CategoryRepository.GetByCoingeckoID | internal/repository/coin_category_repository.go:62-72 | the live category with the coingecko_id, and a not-found error when there is none |
| CategoryRepo.CategoryRepository.GetAll | internal/repository/coin_category_repository.go:75-82 | every live category once and only live ones (no two share a key), or the query error |
| CategoryRepo.CategoryRepository.Update | internal/repository/coin_category_repository.go:85-91 | the same Save as Upsert |
| CategoryRepo.CategoryRepository.Delete | internal/repository/coin_category_repository.go:94-100 | soft-deletes the live category with the id; a failed query changes nothing |
| CategoryRepo.CategoryRepository.Upsert | internal/repository/coin_category_repository.go:103-109 | Save: locate the row with the id, then apply the save specification, or change nothing on failure |
| CategoryRepo.CategoryRepository.UpsertBatch | internal/repository/coin_category_repository.go:112-152 | the batch-upsert specification with the non-empty-id filter; only name, updated_at and deleted_at change on conflict |
| MarketDataRepo.WrittenRowsAreValid | internal/repository/coin_market_data_repository.go:82-93 | every row an UpsertBatch writes has a non-zero coin id, a non-zero exchange id and a price; other rows are untouched |
| MarketDataRepo.ConflictOverwritesPrices | internal/repository/coin_market_data_repository.go:110-117 | on a (coin_id, exchange_id) conflict the row keeps its id, pair and created_at and takes price, volumes, last_updated, updated_at and deleted_at from the last valid record |
| MarketDataRepo.DeleteByCoinIdMeaning | internal/repository/coin_market_data_repository.go:134-139 | deleting by coin hides exactly that coin's rows from every later read and leaves every other row unchanged |
| MarketDataRepo.MarketDataRepository.constructor | internal/repository/coin_market_data_repository.go:27-29 | the repository wraps the given table |
| MarketDataRepo.MarketDataRepository.GetAll | internal/repository/coin_market_data_repository.go:32-38 | every live row once and only live rows (no two share a key), or the query error |
| MarketDataRepo.MarketDataRepository.GetByCoinID | internal/repository/coin_market_data_repository.go:41-47 | exactly the live rows of the coin, each once, or the query error |
| MarketDataRepo.MarketDataRepository.GetByExchangeID | internal/repository/coin_market_data_repository.go:50-56 | exactly the live rows of the exchange, each once, or the query error |
| MarketDataRepo.MarketDataRepository.Upsert | internal/repository/coin_market_data_repository.go:59-73 | find-or-create by the pair and, when non-zero, the record's id, with defaulted created_at and refreshed updated_at |
| MarketDataRepo.MarketDataRepository.UpsertBatch | internal/repository/coin_market_data_repository.go:76-131 | the batch-upsert specification with the validity filter on the composite key |
| MarketDataRepo.MarketDataRepository.DeleteByCoinID | internal/repository/coin_market_data_repository.go:134-139 | soft-deletes the coin's rows; a failure changes nothing |
| PlatformRepo.PlatformBatchMeaning | internal/repository/asset_platform_repository.go:99-115 | a failed batch leaves the table alone and names a platform the database refused or a repeated empty id; a committed one stores every platform, with no key filter, the last per id winning |
| PlatformRepo.PlatformRepository.constructor | internal/repository/asset_platform_repository.go:18-22 | the repository wraps the given table |
| PlatformRepo.PlatformRepository.Create | internal/repository/asset_platform_repository.go:25-31 | one insert, refused when the id or an explicit surrogate id is taken |
| PlatformRepo.PlatformRepository.CreateBatch | internal/repository/asset_platform_repository.go:34-46 | an empty batch is a no-op; otherwise all platforms are inserted or none |
| PlatformRepo.PlatformRepository.GetByID | internal/repository/asset_platform_repository.go:49-59 | the live platform with the id, and a not-found error when there is none |
| PlatformRepo.PlatformRepository.GetAll | internal/repository/asset_platform_repository.go:62-69 | every live platform once and only live ones (no two share a key), or the query error |
| PlatformRepo.PlatformRepository.Update | internal/repository/asset_platform_repository.go:72-78 | Save by id: applied on success, nothing changed on failure |
| PlatformRepo.PlatformRepository.Delete | internal/repository/asset_platform_repository.go:81-87 | soft-deletes the platform with the id; a failure changes nothing |
| PlatformRepo.PlatformRepository.Upsert | internal/repository/asset_platform_repository.go:90-96 | Save by id: applied on success, nothing changed on failure |
| PlatformRepo.PlatformRepository.UpsertBatch | internal/repository/asset_platform_repository.go:99-115 | an empty batch is a no-op; otherwise Save on every platform in one transaction, all or nothing |
| DetailRepo.UpsertStoresDocument | internal/repository/coin_detail_repository.go:24-33 | a detail upsert fails only when the detail's explicit id is another row's or the row holding the coingecko_id is skipped by the lookup (soft-deleted, or with another id than the detail's non-zero id); otherwise it leaves one live row under that id with the coin and document |
| DetailRepo.DetailWrittenMeaning | internal/service/coin_service.go:270-272 | after a detail write a failing query has changed nothing, no other coin's row has changed, and the coin's row is live with its coin id and document unless the write was refused; a detail without an explicit id is refused only over a soft-deleted row |
| DetailRepo.DetailRepository.constructor | internal/repository/coin_detail_repository.go:20-22 | the repository wraps the given table |
| DetailRepo.DetailRepository.Upsert | internal/repository/coin_detail_repository.go:24-33 | find-or-create by coingecko_id and, when non-zero, the record's id, with defaulted created_at and refreshed updated_at |
| DetailRepo.DetailRepository.GetByCoinID | internal/repository/coin_detail_repository.go:35-44 | the coin's live detail with the smallest id (coin_id is not unique; First orders by id), or nothing and no error when there is none |
| TickerRepo.UpsertReplacesPage | internal/repository/coin_ticker_repository.go:23-33 | re-storing a (coin, page) pair leaves one live row with the new data (a page with a foreign explicit id: see Left out); failure only when the database fails or the page's explicit id is another row's |
| TickerRepo.TickerRepository.constructor | internal/repository/coin_ticker_repository.go:19-21 | the repository wraps the given table |
| TickerRepo.TickerRepository.Upsert | internal/repository/coin_ticker_repository.go:23-33 | find-or-create by (coin_id, page) and, when non-zero, the record's id, with defaulted created_at and refreshed updated_at; a storage failure is returned |
| CategoryService.FetchAndStoreMeaning | internal/service/coin_category_service.go:27-59 | storing happens exactly when the health check passes and the fetch returns categories; a failed health check stops everything; an empty list is an error; any error leaves the table unchanged; success stores every valid category, the last per id winning |
| CategoryService.SyncIgnoresReadFailures | internal/service/coin_category_service.go:105-131 | failures of the reads before and after only warn: they change neither the result nor the table, and the result is that of fetch-and-store |
| CategoryService.CoinCategoryService.constructor | internal/service/coin_category_service.go:19-24 | the service holds the given repository and client |
| CategoryService.CoinCategoryService.FetchAndStoreCoinCategories | internal/service/coin_category_service.go:27-59 | runs health check, fetch, empty check and store and ends in the specified state, error and steps |
| CategoryService.CoinCategoryService.SyncCoinCategories | internal/service/coin_category_service.go:105-131 | read, fetch-and-store, read, ending as specified |
| CategoryService.CoinCategoryService.GetAllCoinCategories | internal/service/coin_category_service.go:62-73 | every live category once and only live ones (no two share a key), or the query error |
| CategoryService.CoinCategoryService.GetCoinCategoryByID | internal/service/coin_category_service.go:76-87 | the live category with the id, or an error |
| CategoryService.CoinCategoryService.GetCoinCategoryByCoingeckoID | internal/service/coin_category_service.go:90-101 | the live category with the coingecko_id, or an error |
| PlatformService.FetchAndStoreMeaning | internal/service/asset_platform_service.go:27-59 | storing happens exactly when the health check passes and the fetch returns platforms; a failed health check stops everything; zero platforms is an error; any error leaves the table unchanged; success stores every platform, the last per id winning |
| PlatformService.SyncIgnoresReadFailures | internal/service/asset_platform_service.go:91-117 | count-read failures only warn: they change neither the result nor the table |
| PlatformService.AssetPlatformService.constructor | internal/service/asset_platform_service.go:19-24 | the service holds the given repository and client |
| PlatformService.AssetPlatformService.FetchAndStoreAssetPlatforms | internal/service/asset_platform_service.go:27-59 | runs health check, fetch, empty check and store and ends in the specified state, error and steps |
| PlatformService.AssetPlatformService.SyncAssetPlatforms | internal/service/asset_platform_service.go:91-117 | read, fetch-and-store, read, ending as specified |
| PlatformService.AssetPlatformService.GetAllAssetPlatforms | internal/service/asset_platform_service.go:62-73 | every live platform once and only live ones (no two share a key), or the query error |
| PlatformService.AssetPlatformService.GetAssetPlatformByID | internal/service/asset_platform_service.go:76-87 | the live platform with the id, or an error |
| ExchangeSync.SyncMeaning | internal/service/exchange_service.go:30-71 | a failing first read aborts before any fetch; there is no health check and no empty check, so an empty fetch stores nothing and still succeeds; the table changes only through the store; a failing final read aborts after storing; success stores every valid exchange, the last per id winning |
| ExchangeSync.ExchangeService.constructor | internal/service/exchange_service.go:22-27 | the service holds the given repository and client |
| ExchangeSync.ExchangeService.SyncExchanges | internal/service/exchange_service.go:30-71 | read, fetch, store and read, ending in the specified state, error and steps |
| CoinSync.UpsertBatchRollsBack | internal/repository/coin_repository.go:68-144 | the coins' UpsertBatch, as the page loop uses it, leaves the table alone when it fails and does nothing for an empty page |
| CoinSync.SyncPagesRequests | internal/service/coin_service.go:64-106 | the loop requests pages 1, 2, 3, … consecutively, at least one page |
| CoinSync.SyncPagesFullBefore | internal/service/coin_service.go:88-106 | the loop moves past a page only when that page came back full (250 coins) and was stored |
| CoinSync.SyncPagesOutcome | internal/service/coin_service.go:64-110 | on success the last page was short or empty, every page is stored and the count is the sum of the page sizes; on failure the error names the last requested page, the earlier pages stay stored, and the failing page leaves no trace |
| CoinSync.SyncPagesSucceeds | internal/service/coin_service.go:64-110 | a paging loop that returns no error ended on a short or empty page, stored every requested page in order, and counted the coins on them |
| CoinSync.SyncPagesFails | internal/service/coin_service.go:64-110 | a paging loop that returns an error names the last requested page as the failed fetch or store; the pages before it stay stored |
| CoinSync.SyncPagesNext | internal/service/coin_service.go:101-106 | a full, stored page is followed by a request for the next page |
| CoinSync.SyncPagesAdvance | internal/service/coin_service.go:101-106 | after a full, stored page the outcome still to come is that of the loop from the next page, with this page added to the requests |
| CoinSync.FullThenShortPage | internal/service/coin_service.go:88-104 | pages of 250 then 80 coins give exactly two requests, both pages stored, and 330 coins counted |
| CoinSync.EmptyFirstPage | internal/service/coin_service.go:82-85 | an empty first page stores nothing and counts nothing; the run succeeds exactly when both reads around it do |
| CoinSync.MarketSyncMeaning | internal/service/coin_service.go:127-198 | the market-data sync succeeds exactly when the coin is stored and live and every read and the fetch succeed; it fetches only then; an unknown coin gives a not-found error; it never stores |
| CoinSync.ReplayAppend | internal/service/coin_service.go:226-294 | replaying the ticker writes of two step logs in turn is replaying their concatenation |
| CoinSync.ReplaySkips | internal/service/coin_service.go:226-294 | a step that is not a ticker store leaves the ticker table alone |
| CoinSync.ReplayTwoSkips | internal/service/coin_service.go:226-272 | the detail fetch and the detail store, replayed from any table, leave the ticker table as it was |
| CoinSync.ReplayWrites | internal/service/coin_service.go:283-286 | a ticker store step applies the ticker upsert |
| CoinSync.TickerStepsUnfold | internal/service/coin_service.go:275-294 | a failed ticker fetch ends the loop with no store; a page with no tickers is stored and ends it; a page with tickers is stored and followed by the next page |
| CoinSync.TickerWrittenMeaning | internal/service/coin_service.go:283-286 | a ticker upsert changes no row but its page's, and a failed one changes nothing; a page without an explicit id (as the service builds it) that does not fail adds the (coin, page) key and leaves it live with the page's data |
| CoinSync.ReplayKeysMatch | internal/service/coin_service.go:226-294 | every row of the ticker table stays under its own key through the whole run |
| CoinSync.ReplayLastWriteWins | internal/service/coin_service.go:275-294 | after the run, the last successful store of a (coin, page) key (pages carry no explicit id) has left a live row with that page's data |
| CoinSync.EligibleMeaning | internal/service/coin_service.go:213-218 | the volume filter keeps exactly the coins whose total volume is known and at least the threshold, in listing order |
| CoinSync.DetailIdsAppend | internal/service/coin_service.go:226-272 | the documents requested by two step logs in turn are those of the first, then those of the second |
| CoinSync.TickerStepsFetchNoDocument | internal/service/coin_service.go:275-294 | the ticker loop requests no coin document |
| CoinSync.PlanRequestsEveryCoin | internal/service/coin_service.go:226-232 | the run requests the document of every eligible coin, once each and in order, even when earlier coins failed |
| CoinSync.TickerStepsPagesInOrder | internal/service/coin_service.go:275-294 | ticker pages are requested from 1 consecutively, each earlier page came back with tickers, and the last one ended the listing |
| CoinSync.CoinService.constructor | internal/service/coin_service.go:30-46 | the service holds the given repositories and client |
| CoinSync.CoinService.FetchAndStorePage | internal/service/coin_service.go:75-93 | one page is fetched; a non-empty page is upserted, while an empty or failed page stores nothing |
| CoinSync.CoinService.SyncCoins | internal/service/coin_service.go:49-124 | the page loop ends in the specified error, table, request list and count; a failing read before aborts with no request, and a failing read after turns success into an error without undoing the stored pages |
| CoinSync.CoinService.SyncCoinMarketData | internal/service/coin_service.go:127-198 | the sequence of reads and the fetch ends in the specified error and steps, with no store |
| CoinSync.CoinService.FetchDocument | internal/service/coin_service.go:228-232 | the coin document is the client's retried fetch |
| CoinSync.CoinService.FetchAndStoreDetail | internal/service/coin_service.go:227-272 | the coin document is the client's retried fetch; a failed fetch leaves coin_details as it was, an answered one leaves it as the detail Upsert of that coin and document makes it (success or a swallowed failure), and the table stays valid |
| CoinSync.CoinService.FetchTickerPage | internal/service/coin_service.go:277-281 | a ticker page is the client's retried fetch |
| CoinSync.CoinService.StoreTickerPage | internal/service/coin_service.go:283-286 | the ticker table after the store is the ticker upsert of the page |
| CoinSync.CoinService.TickerRound | internal/service/coin_service.go:276-293 | one iteration of the ticker loop: it continues exactly when the page came back with tickers, and its steps are the start of the loop's steps from that page |
| CoinSync.CoinService.SyncTickers | internal/service/coin_service.go:275-294 | the ticker loop of one coin makes exactly the specified fetches and stores, and the table is their replay |
| CoinSync.CoinService.SyncCoinData | internal/service/coin_service.go:226-294 | for one coin: the steps are the coin's plan; a failed document fetch leaves coin_details unchanged; otherwise coin_details is as the detail Upsert leaves it (a failure only warns), the ticker loop runs, and coin_tickers is the replay of its writes |
| CoinSync.CoinService.SyncEligible | internal/service/coin_service.go:226-295 | the per-coin loop over the eligible coins, in order: the steps are the plan, coin_tickers is their replay, and coin_details stays valid |
| CoinSync.CoinService.SyncCoinsData | internal/service/coin_service.go:201-299 | fails exactly when the initial read does, and then does nothing; otherwise it reads exactly the live coins, each once, filters them by volume, runs the planned steps, and leaves the ticker table as their replay, returning no error |

## Left out

- HTTP transport, request headers, `io.ReadAll` and JSON decoding are not modelled. Each attempt is an oracle reply, and the decoded body is either a value or a decode failure.
- `time.Sleep`, the `context.WithTimeout` deadlines and `time.Now` are left out. Sleeps appear only as events in the retry trace (`Client.RetryTrace`), and the current time is the parameter `now`.
- Logging calls are left out; they change no state.
- Float and time payload fields (prices, volumes, timestamps from the API) are opaque values. The volume threshold is compared as an ordered abstract number, not as an IEEE float.
- `time.ParseDuration` is an oracle parameter of `Config.GetEnvAsDuration`. It is not re-implemented.
- The page loop of `SyncCoins` and the ticker loop of `SyncCoinsData` are unbounded in the code. The model proves them only for upstreams whose listing ends by a given page: the ghost bound `last` or `tickerEnd`. It does not model a listing that never ends.
- CoinSync.CoinService.SyncEligible does not state the coin_details table after the loop, only that it stays valid. Each coin's detail write is stated by `CoinSync.CoinService.SyncCoinData`, and the writes appear in the step log. A detail with an empty coingecko_id may land on another coin's row, so the writes do not compose into a function of the plan.
- CoinSync.CoinService.SyncCoinsData does not state the coin_details table after the run, for the same reason; only the requests made, the ticker table and the validity of coin_details are stated.
- Tables.KeyedTable.Valid covers keys only: every row is filed under its own key. Surrogate ids being distinct, and below the id counter, is not kept as an invariant.
- Tables.AssignUpsertResult keeps one row per key. On coin_tickers and coin_market_data, which have no unique index on the lookup columns, a record whose non-zero id is not the id of the live row under its key is inserted by the database as a second live row for that key; the model replaces the stored row instead. TickerRepo.UpsertReplacesPage and CoinSync.TickerWrittenMeaning say nothing beyond this for such a record. The program's own writes (`TickerOf`, `DetailOf`) carry id 0 and never take this path.
- Tables.Inserted does not check an auto-assigned serial id against ids chosen explicitly earlier; PostgreSQL would refuse such a clash. The id counter is restored on rollback and not advanced by a refused insert, where PostgreSQL's sequence would leave a gap.
- The detail denormalisation of `SyncCoinsData` (internal/service/coin_service.go:235-268) is not modelled: it parses `genesis_date` and `last_updated` with `time.Parse` and marshals dynamic JSON. The stored detail is built from the fields of the parsed document, and `json.Marshal` is taken to succeed.
- The mapping loop of `SyncCoinMarketData` is an empty stub in the code (internal/service/coin_service.go:176-181). The model therefore stores nothing and invents no exchange resolution.
- The migrations are not part of this model. They create no unique (coin_id, exchange_id) constraint on coin_market_data, so PostgreSQL would refuse the `ON CONFLICT` of `CoinMarketDataRepository.UpsertBatch`. The model takes as given the constraint that the statement names.
- gorm's exact SQL, the `Preload` of associations and connection handling are not modelled. Tables are maps from key to row, with one row per key: a soft-deleted row of a table without a unique index is replaced when its key is re-created.
- `cmd/server/main.go`, `internal/repository/database.go`, `pkg/logger/logger.go` and `migrations/migrations.go` are plumbing and are not part of this model.
